/** Persisting the hot entries of a cache and warming a cache from them. */
module Warmup {
  import opened Text
  import CacheCodec
  import CacheKeys
  import Resolver

  type Entries = map<string, string>

  /** Serialisation of the mappings under the warm-up key. */
  datatype Json = Json(encode: Entries -> string, decode: string -> Option<Entries>)

  ghost predicate Faithful(json: Json) {
    forall m :: json.decode(json.encode(m)) == Some(m)
  }

  /** The project that an entry would be persisted with. */
  function HotProject(entries: Entries, key: string): Option<string> {
    if key in entries then CacheCodec.HotProject(entries[key]) else None
  }

  function HotMappings(entries: Entries, top: seq<string>): Entries {
    map key | key in top && HotProject(entries, key).Some? :: HotProject(entries, key).value
  }

  lemma ExtendHot(entries: Entries, top: seq<string>, key: string)
    ensures HotMappings(entries, top + [key]) ==
            if HotProject(entries, key).None? then HotMappings(entries, top)
            else HotMappings(entries, top)[key := HotProject(entries, key).value]
  {
    hide HotProject;
  }

  function ImageOf(key: string): string {
    Before(key, ':')
  }

  /** The two writes for one mapping, unless its project name is unsafe. */
  function WarmOne(entries: Entries, key: string, project: string, staleWindow: bool, now: nat): Entries {
    if !IsSafeProjectName(project) then entries
    else entries[key := CacheCodec.StoredValue(staleWindow, project, now)][CacheKeys.ImageKey(ImageOf(key)) := project]
  }

  /** Warming with the mappings visited in `order`. */
  function WarmAll(entries: Entries, m: Entries, order: seq<string>, staleWindow: bool, now: nat): Entries
    requires forall k <- order :: k in m
  {
    if order == [] then entries else
      var last := order[|order| - 1];
      WarmOne(WarmAll(entries, m, order[..|order| - 1], staleWindow, now), last, m[last], staleWindow, now)
  }

  /** `cached_project`: the manifest entry decides, then the image entry. */
  function CachedProject(entries: Entries, image: string, reference: string): Option<string> {
    var key := CacheKeys.ManifestKey(image, reference);
    if key in entries then Some(CacheCodec.Decode(entries[key]).0)
    else if CacheKeys.ImageKey(image) in entries then Some(entries[CacheKeys.ImageKey(image)])
    else None
  }

  /** It hands out the negative sentinel like any project. Exactly when, for every cache: when the manifest entry is the
      sentinel, with a timestamp or without, or there is none and the image entry is the bare sentinel. */
  lemma SentinelIsHandedOutIff(entries: Entries, image: string, reference: string)
    ensures
      var key, img := CacheKeys.ManifestKey(image, reference), CacheKeys.ImageKey(image);
      CachedProject(entries, image, reference) == Some(CacheCodec.NEGATIVE_SENTINEL) <==>
      || (key in entries && CacheCodec.IsNegative(entries[key]))
      || (key !in entries && img in entries && entries[img] == CacheCodec.NEGATIVE_SENTINEL)
  {
    var key := CacheKeys.ManifestKey(image, reference);
    if key in entries { CacheCodec.DecodesToSentinelIff(entries[key]); }
    hide CacheCodec.IsNegative, CacheCodec.Decode;
  }

  /** Two manifest requests that skip the fan-out and go straight to the same project. */
  predicate SameProject(a: Resolver.Pc, b: Resolver.Pc) {
    a.Fetching? && b.Fetching? && a.project == b.project
  }

  /** Keys of normalized images without `:`, the keys that popularity tracking yields. */
  predicate PlainKey(key: string) {
    ':' in key && CacheKeys.PlainImage(ImageOf(key))
  }

  ghost predicate PlainKeys(m: Entries) {
    forall k <- m :: PlainKey(k)
  }

  lemma PlainKeyOf(image: string, reference: string)
    ensures
      var key := CacheKeys.ManifestKey(image, reference);
      PlainKey(key) && ImageOf(key) == image <==> CacheKeys.PlainImage(image)
  {
    CacheKeys.SplitRecoversImage(image, reference);
    assert CacheKeys.ManifestKey(image, reference)[|image|] == ':';
  }

  lemma PlainKeyIsNotImageKey(key: string, image: string)
    requires PlainKey(key)
    ensures key != CacheKeys.ImageKey(image) && key != CacheKeys.WARMUP_KEY
  {
    var i := FirstIndex(key, ':');
    assert key == ImageOf(key) + [':'] + key[i + 1..];
    assert key == CacheKeys.ManifestKey(ImageOf(key), key[i + 1..]);
    CacheKeys.FamiliesDisjoint(ImageOf(key), key[i + 1..]);
  }

  /** `order` visits every key of `m`. */
  ghost predicate Enumerates(order: seq<string>, m: Entries) {
    (forall k <- order :: k in m) && (forall k <- m :: k in order)
  }

  ghost predicate SameAt(a: Entries, b: Entries, key: string) {
    (key in a <==> key in b) && (key in a ==> a[key] == b[key])
  }

  /** A key with a safe project gets its value; a key under no image key and without one keeps what it had. */
  lemma {:induction false} WarmedManifest(
    entries: Entries, m: Entries, order: seq<string>, staleWindow: bool, now: nat, key: string)
    requires PlainKeys(m) && (forall k <- order :: k in m)
    requires !("img:" <= key)
    ensures var warmed := WarmAll(entries, m, order, staleWindow, now);
            if key in order && IsSafeProjectName(m[key])
            then key in warmed && warmed[key] == CacheCodec.StoredValue(staleWindow, m[key], now)
            else SameAt(warmed, entries, key)
  {
    hide IsSafeProjectName, CacheCodec.StoredValue, PlainKey, ImageOf;
    if order != [] {
      var front, last := order[..|order| - 1], order[|order| - 1];
      WarmedManifest(entries, m, front, staleWindow, now, key);
      assert order == front + [last];
      assert CacheKeys.ImageKey(ImageOf(last)) != key;
    }
  }

  /** `k` is a visited key of the image and can donate its project. */
  predicate Donor(m: Entries, order: seq<string>, image: string, k: string) {
    k in order && k in m && ImageOf(k) == image && IsSafeProjectName(m[k])
  }

  /** An image gets the project of one of its visited keys, if it has a safe one; otherwise it keeps what it had. */
  lemma {:induction false} WarmedImage(
    entries: Entries, m: Entries, order: seq<string>, staleWindow: bool, now: nat, image: string)
    requires PlainKeys(m) && (forall k <- order :: k in m)
    ensures var warmed, img := WarmAll(entries, m, order, staleWindow, now), CacheKeys.ImageKey(image);
            if exists k :: Donor(m, order, image, k)
            then img in warmed && exists k :: Donor(m, order, image, k) && warmed[img] == m[k]
            else SameAt(warmed, entries, img)
  {
    hide IsSafeProjectName, CacheCodec.StoredValue, PlainKey, Before;
    var img := CacheKeys.ImageKey(image);
    if order != [] {
      var front, last := order[..|order| - 1], order[|order| - 1];
      WarmedImage(entries, m, front, staleWindow, now, image);
      DonorsGrow(m, front, last, image);
      assert order == front + [last];
      PlainKeyIsNotImageKey(last, image);
      ImageKeyInjective(ImageOf(last), image);
      hide Donor, ImageOf, CacheKeys.ImageKey;
      var visitedLast := Donor(m, front + [last], image, last);
    }
  }

  lemma ImageKeyInjective(a: string, b: string)
    ensures CacheKeys.ImageKey(a) == CacheKeys.ImageKey(b) <==> a == b
  {
    assert CacheKeys.ImageKey(a)[4..] == a && CacheKeys.ImageKey(b)[4..] == b;
  }

  lemma DonorsGrow(m: Entries, front: seq<string>, last: string, image: string)
    requires last in m
    ensures forall k :: Donor(m, front + [last], image, k) <==>
                        Donor(m, front, image, k) || (k == last && ImageOf(last) == image && IsSafeProjectName(m[last]))
  {
    hide IsSafeProjectName, ImageOf;
  }

  /** Decoding strips at most one timestamp: what it yields decodes to itself. */
  lemma DecodeIdempotent(value: string)
    ensures CacheCodec.Decode(CacheCodec.Decode(value).0).0 == CacheCodec.Decode(value).0
  {
    var project := CacheCodec.Decode(value).0;
    if project != value && project != CacheCodec.NEGATIVE_SENTINEL {
      assert '|' !in project;
      CacheCodec.DecodePlain(project);
    }
  }

  /** Which entries survive the round trip for the fast path of manifest requests: with timestamps, the persisted
      project must hold no `|`; without, the entry is read as it is, so it must not look as if it carried one. */
  predicate Survives(staleWindow: bool, value: string) {
    if staleWindow then '|' !in CacheCodec.Decode(value).0 else !CacheCodec.Stamped(value)
  }

  lemma WarmedEntry(
    before: Entries, top: seq<string>, start: Entries, order: seq<string>, staleWindow: bool, now: nat, key: string)
    requires (forall k <- top :: PlainKey(k)) && Enumerates(order, HotMappings(before, top))
    requires key in top && HotProject(before, key).Some?
    ensures var warmed := WarmAll(start, HotMappings(before, top), order, staleWindow, now);
            key in warmed && warmed[key] == CacheCodec.StoredValue(staleWindow, CacheCodec.Decode(before[key]).0, now)
  {
    NotAnImageKey(key);
    WarmedManifest(start, HotMappings(before, top), order, staleWindow, now, key);
    hide IsSafeProjectName;
  }

  /** The round trip for blobs: after persisting the hot entries of one cache and warming another from them, blobs of a
      persisted request are routed as before, exactly when its project holds no `|` or no timestamp is attached. */
  lemma BlobsAreRoutedAsBefore(
    before: Entries, top: seq<string>, start: Entries, order: seq<string>, staleWindow: bool, now: nat,
    image: string, reference: string)
    requires (forall k <- top :: PlainKey(k)) && now <= CacheCodec.U64_MAX
    requires Enumerates(order, HotMappings(before, top))
    requires var key := CacheKeys.ManifestKey(image, reference); key in top && HotProject(before, key).Some?
    ensures var warmed := WarmAll(start, HotMappings(before, top), order, staleWindow, now);
            var project := HotProject(before, CacheKeys.ManifestKey(image, reference)).value;
            && CachedProject(before, image, reference) == Some(project)
            && (CachedProject(warmed, image, reference) == Some(project) <==> !staleWindow || '|' !in project)
  {
    var key := CacheKeys.ManifestKey(image, reference);
    WarmedEntry(before, top, start, order, staleWindow, now, key);
    DecodeIdempotent(before[key]);
    CacheCodec.EncodedYieldsIff(CacheCodec.Decode(before[key]).0, now);
    hide IsSafeProjectName, WarmAll, HotMappings, CacheCodec.Decode, CacheCodec.Encode;
  }

  /** And for manifests: the request skips the fan-out before, and after the round trip it goes straight to the same
      project again exactly when its entry survives. */
  lemma ManifestsAreRoutedAsBefore(
    cfg: Resolver.Config, before: Entries, top: seq<string>, start: Entries, order: seq<string>, now: nat,
    r: Resolver.Request, earlier: nat, later: nat)
    requires (forall k <- top :: PlainKey(k)) && now <= CacheCodec.U64_MAX
    requires Enumerates(order, HotMappings(before, top))
    requires Resolver.Key(r) in top && HotProject(before, Resolver.Key(r)).Some?
    ensures var warmed := WarmAll(start, HotMappings(before, top), order, cfg.staleWindow, now);
            var was, becomes := Resolver.AfterLookUp(cfg, before, r, earlier),
                Resolver.AfterLookUp(cfg, warmed, r, later);
            && was.Fetching?
            && (SameProject(was, becomes) <==> Survives(cfg.staleWindow, before[Resolver.Key(r)]))
  {
    var key := Resolver.Key(r);
    WarmedEntry(before, top, start, order, cfg.staleWindow, now, key);
    var value, project := before[key], CacheCodec.Decode(before[key]).0;
    SentinelDecodes();
    CacheCodec.EncodedYieldsIff(project, now);
    CacheCodec.EncodedSentinelIff(project, now);
    CacheCodec.BareDecodesToItself(value);
    hide IsSafeProjectName, WarmAll, HotMappings, CacheCodec.Decode, CacheCodec.Encode, CacheCodec.Stamped;
    hide Resolver.Key, Resolver.IsStale;
  }

  lemma SentinelDecodes()
    ensures CacheCodec.Decode(CacheCodec.NEGATIVE_SENTINEL).0 == CacheCodec.NEGATIVE_SENTINEL
  {
  }

  /** Blobs of a request that was not persisted are routed by what the warmed cache had for it; without that, by the
      project of a persisted reference of the same image if there is one, and else as the warmed cache had it. */
  lemma OthersAreRoutedByImage(
    before: Entries, top: seq<string>, start: Entries, order: seq<string>, staleWindow: bool, now: nat,
    image: string, reference: string)
    requires (forall k <- top :: PlainKey(k)) && CacheKeys.PlainImage(image)
    requires var m := HotMappings(before, top); Enumerates(order, m) && CacheKeys.ManifestKey(image, reference) !in m
    ensures var m := HotMappings(before, top);
            var routed := CachedProject(WarmAll(start, m, order, staleWindow, now), image, reference);
            if CacheKeys.ManifestKey(image, reference) !in start && exists k :: k in m && ImageOf(k) == image
            then exists k :: k in m && ImageOf(k) == image && routed == Some(m[k])
            else routed == CachedProject(start, image, reference)
  {
    var m, key := HotMappings(before, top), CacheKeys.ManifestKey(image, reference);
    PlainKeyOf(image, reference);
    NotAnImageKey(key);
    WarmedManifest(start, m, order, staleWindow, now, key);
    WarmedImage(start, m, order, staleWindow, now, image);
    DonorsAreHot(before, top, order, image);
    hide HotMappings, Donor, ImageOf, PlainKey, WarmAll, IsSafeProjectName, CacheCodec.Decode;
  }

  lemma DonorsAreHot(before: Entries, top: seq<string>, order: seq<string>, image: string)
    requires Enumerates(order, HotMappings(before, top))
    ensures
      var m := HotMappings(before, top);
      forall k :: Donor(m, order, image, k) <==> k in m && ImageOf(k) == image
  {
    hide IsSafeProjectName, ImageOf;
    assert forall k <- top :: HotProject(before, k).Some? ==> IsSafeProjectName(HotProject(before, k).value);
  }

  lemma NotAnImageKey(key: string)
    requires PlainKey(key)
    ensures !("img:" <= key)
  {
    if "img:" <= key {
      assert key == CacheKeys.ImageKey(key[4..]);
      PlainKeyIsNotImageKey(key, key[4..]);
    }
  }

  // ----- the same in the step system -----

  /** The two warm-up steps for a safe mapping make the two writes, and an unsafe mapping has no steps. */
  lemma StepsWarmOne(cfg: Resolver.Config, w: Resolver.World, key: string, now: nat)
    requires key in w.warming && now <= CacheCodec.U64_MAX
    ensures
      var first, second := Resolver.Background(Resolver.WarmKey(key, now)),
          Resolver.Background(Resolver.WarmImage(key));
      if IsSafeProjectName(w.warming[key]) then
        && Resolver.Legal(cfg, w, [first, second])
        && Resolver.Run(cfg, w, [first, second]).cache == WarmOne(w.cache, key, w.warming[key], cfg.staleWindow, now)
      else
        !Resolver.Enabled(cfg, w, first) && !Resolver.Enabled(cfg, w, second)
  {
    var first, second := Resolver.Background(Resolver.WarmKey(key, now)), Resolver.Background(Resolver.WarmImage(key));
    hide IsSafeProjectName, CacheCodec.StoredValue, CacheKeys.ImageKey, Before;
    if IsSafeProjectName(w.warming[key]) {
      var w1 := Resolver.Apply(cfg, w, first);
      assert [first, second][1..] == [second] && [second][1..] == [];
      var w2 := Resolver.Apply(cfg, w1, second);
      assert Resolver.Legal(cfg, w2, []) && Resolver.Run(cfg, w2, []) == w2;
      assert Resolver.Legal(cfg, w1, [second]) && Resolver.Run(cfg, w1, [second]) == w2;
      assert w1.warming == w.warming && w1.cache == w.cache[key := Resolver.CacheValue(cfg, w.warming[key], now)];
    }
  }

  /** The steps of one persisting round over the entries that are there. */
  function PersistSteps(entries: Entries, top: seq<string>): seq<Resolver.Step> {
    if top == [] then [Resolver.Background(Resolver.PersistWrite)]
    else (if top[0] in entries then [Resolver.Background(Resolver.PersistRead(top[0]))] else [])
         + PersistSteps(entries, top[1..])
  }

  lemma {:induction false} StepsGather(cfg: Resolver.Config, w: Resolver.World, done: seq<string>, top: seq<string>)
    requires w.gathered == HotMappings(w.cache, done)
    ensures
      var m := HotMappings(w.cache, done + top);
      && Resolver.Legal(cfg, w, PersistSteps(w.cache, top))
      && Resolver.Run(cfg, w, PersistSteps(w.cache, top)).hot == if m == map[] then w.hot else m
    decreases |top|
  {
    if top == [] {
      assert done + top == done;
      var s := Resolver.Background(Resolver.PersistWrite);
      assert [s][1..] == [] && Resolver.Legal(cfg, Resolver.Apply(cfg, w, s), []);
    } else {
      var key := top[0];
      ExtendHot(w.cache, done, key);
      assert done + top == (done + [key]) + top[1..];
      if key in w.cache {
        var s := Resolver.Background(Resolver.PersistRead(key));
        var w' := ReadStep(cfg, w, key);
        StepsGather(cfg, w', done + [key], top[1..]);
        assert PersistSteps(w.cache, top) == [s] + PersistSteps(w.cache, top[1..]);
        assert PersistSteps(w.cache, top)[1..] == PersistSteps(w.cache, top[1..]);
        hide Resolver.Apply, HotMappings;
      } else {
        assert PersistSteps(w.cache, top) == [] + PersistSteps(w.cache, top[1..]);
        assert [] + PersistSteps(w.cache, top[1..]) == PersistSteps(w.cache, top[1..]);
        StepsGather(cfg, w, done + [key], top[1..]);
      }
    }
  }

  lemma ReadStep(cfg: Resolver.Config, w: Resolver.World, key: string) returns (w': Resolver.World)
    requires key in w.cache
    ensures Resolver.Enabled(cfg, w, Resolver.Background(Resolver.PersistRead(key)))
    ensures w' == Resolver.Apply(cfg, w, Resolver.Background(Resolver.PersistRead(key)))
    ensures w'.cache == w.cache && w'.hot == w.hot
    ensures w'.gathered ==
            if HotProject(w.cache, key).Some? then w.gathered[key := HotProject(w.cache, key).value] else w.gathered
  {
    hide CacheCodec.HotProject;
    w' := Resolver.Apply(cfg, w, Resolver.Background(Resolver.PersistRead(key)));
  }

  /** A persisting round replaces the persisted mappings by the hot ones, unless there are none. */
  lemma StepsPersist(cfg: Resolver.Config, w: Resolver.World, top: seq<string>)
    requires w.gathered == map[]
    ensures
      var m := HotMappings(w.cache, top);
      && Resolver.Legal(cfg, w, PersistSteps(w.cache, top))
      && Resolver.Run(cfg, w, PersistSteps(w.cache, top)).hot == if m == map[] then w.hot else m
  {
    assert HotMappings(w.cache, []) == map[] && [] + top == top;
    StepsGather(cfg, w, [], top);
  }

  /** The writes of warming, for the mappings `m` visited in `order`. */
  function WarmSteps(m: Entries, order: seq<string>, now: nat): seq<Resolver.Step>
    requires forall k <- order :: k in m
  {
    if order == [] then [] else
      (if IsSafeProjectName(m[order[0]])
       then [Resolver.Background(Resolver.WarmKey(order[0], now)), Resolver.Background(Resolver.WarmImage(order[0]))]
       else []) + WarmSteps(m, order[1..], now)
  }

  lemma {:induction false} WarmAllFromFirst(
    entries: Entries, m: Entries, order: seq<string>, staleWindow: bool, now: nat)
    requires order != [] && forall k <- order :: k in m
    ensures WarmAll(entries, m, order, staleWindow, now)
            == WarmAll(WarmOne(entries, order[0], m[order[0]], staleWindow, now), m, order[1..], staleWindow, now)
  {
    hide WarmOne;
    var n := |order| - 1;
    if n > 0 {
      WarmAllFromFirst(entries, m, order[..n], staleWindow, now);
      assert order[..n][1..] == order[1..][..n - 1];
    }
  }

  lemma {:induction false} StepsWarmFrom(cfg: Resolver.Config, w: Resolver.World, order: seq<string>, now: nat)
    requires (forall k <- order :: k in w.warming) && now <= CacheCodec.U64_MAX
    ensures
      var steps := WarmSteps(w.warming, order, now);
      && Resolver.Legal(cfg, w, steps)
      && Resolver.Run(cfg, w, steps).cache == WarmAll(w.cache, w.warming, order, cfg.staleWindow, now)
    decreases |order|
  {
    if order != [] {
      var key, rest := order[0], order[1..];
      var tail := WarmSteps(w.warming, rest, now);
      WarmAllFromFirst(w.cache, w.warming, order, cfg.staleWindow, now);
      StepsWarmOne(cfg, w, key, now);
      if IsSafeProjectName(w.warming[key]) {
        var w2 := WarmOneStep(cfg, w, key, now, tail);
        StepsWarmFrom(cfg, w2, rest, now);
      } else {
        assert [] + tail == tail;
        StepsWarmFrom(cfg, w, rest, now);
      }
    }
  }

  lemma WarmOneStep(cfg: Resolver.Config, w: Resolver.World, key: string, now: nat, tail: seq<Resolver.Step>)
    returns (w2: Resolver.World)
    requires key in w.warming && now <= CacheCodec.U64_MAX && IsSafeProjectName(w.warming[key])
    ensures w2.warming == w.warming
    ensures w2.cache == WarmOne(w.cache, key, w.warming[key], cfg.staleWindow, now)
    ensures
      var both := [Resolver.Background(Resolver.WarmKey(key, now)), Resolver.Background(Resolver.WarmImage(key))];
      Resolver.Legal(cfg, w2, tail) ==>
        Resolver.Legal(cfg, w, both + tail) && Resolver.Run(cfg, w, both + tail) == Resolver.Run(cfg, w2, tail)
  {
    hide IsSafeProjectName, CacheCodec.StoredValue, CacheKeys.ImageKey, Before;
    var first, second := Resolver.Background(Resolver.WarmKey(key, now)), Resolver.Background(Resolver.WarmImage(key));
    var w1 := Resolver.Apply(cfg, w, first);
    w2 := Resolver.Apply(cfg, w1, second);
    var both := [first, second];
    assert (both + tail)[1..] == [second] + tail && ([second] + tail)[1..] == tail;
    assert w1.warming == w.warming && w1.cache == w.cache[key := Resolver.CacheValue(cfg, w.warming[key], now)];
  }

  /** Warming reads the persisted mappings, whatever was read before, and writes them into whatever the cache holds. */
  lemma StepsWarm(cfg: Resolver.Config, w: Resolver.World, order: seq<string>, now: nat)
    requires (forall k <- order :: k in w.hot) && now <= CacheCodec.U64_MAX
    ensures
      var steps := [Resolver.Background(Resolver.WarmLoad)] + WarmSteps(w.hot, order, now);
      && Resolver.Legal(cfg, w, steps)
      && Resolver.Run(cfg, w, steps).cache == WarmAll(w.cache, w.hot, order, cfg.staleWindow, now)
  {
    var load := Resolver.Background(Resolver.WarmLoad);
    var w1 := Resolver.Apply(cfg, w, load);
    assert w1.warming == w.hot && w1.cache == w.cache;
    StepsWarmFrom(cfg, w1, order, now);
    hide Resolver.Apply, WarmAll;
    assert ([load] + WarmSteps(w.hot, order, now))[1..] == WarmSteps(w.hot, order, now);
  }

  /** The cache as the resolver shares it between requests. */
  class SharedCache {
    var entries: Entries
    const json: Json
    const cfg: Resolver.Config

    constructor (json: Json, cfg: Resolver.Config)
      ensures entries == map[] && this.json == json && this.cfg == cfg
    {
      this.entries := map[];
      this.json := json;
      this.cfg := cfg;
    }

    /** `persist_hot_entries`, for the list of the most requested keys. Without a hot entry the mappings persisted
        earlier stay. */
    method PersistHotEntries(top: seq<string>)
      modifies this
      ensures entries ==
              if HotMappings(old(entries), top) == map[] then old(entries)
              else old(entries)[CacheKeys.WARMUP_KEY := json.encode(HotMappings(old(entries), top))]
    {
      hide IsSafeProjectName, CacheCodec.Decode;
      var mappings: Entries := map[];
      for i := 0 to |top|
        invariant entries == old(entries)
        invariant mappings == HotMappings(entries, top[..i])
      {
        ExtendHot(entries, top[..i], top[i]);
        assert top[..i + 1] == top[..i] + [top[i]];
        if top[i] in entries {
          var project := CacheCodec.Decode(entries[top[i]]).0;
          if project != CacheCodec.NEGATIVE_SENTINEL && IsSafeProjectName(project) {
            mappings := mappings[top[i] := project];
          }
        }
      }
      assert top[..|top|] == top;
      if mappings == map[] { return; }
      entries := entries[CacheKeys.WARMUP_KEY := json.encode(mappings)];
    }

    /** `warm_cache_from_redis`, visiting the mappings in an order of its own. */
    method WarmFromShared(now: nat) returns (ghost order: seq<string>)
      modifies this
      ensures CacheKeys.WARMUP_KEY !in old(entries) ==> entries == old(entries)
      ensures CacheKeys.WARMUP_KEY in old(entries) ==>
                match json.decode(old(entries)[CacheKeys.WARMUP_KEY])
                case None => entries == old(entries)
                case Some(m) => Enumerates(order, m) && entries == WarmAll(old(entries), m, order, cfg.staleWindow, now)
    {
      order := [];
      if CacheKeys.WARMUP_KEY !in entries { return; }
      var parsed := json.decode(entries[CacheKeys.WARMUP_KEY]);
      if parsed.None? { return; }
      var mappings := parsed.value;
      var rest := mappings.Keys;
      while rest != {}
        invariant rest <= mappings.Keys
        invariant forall k :: k in mappings ==> (k in order || k in rest)
        invariant forall k <- order :: k in mappings
        invariant entries == WarmAll(old(entries), mappings, order, cfg.staleWindow, now)
      {
        var key :| key in rest;
        var project := mappings[key];
        rest := rest - {key};
        ghost var visited := order + [key];
        assert visited[..|visited| - 1] == order;
        order := visited;
        if IsSafeProjectName(project) {
          entries := entries[key := CacheCodec.StoredValue(cfg.staleWindow, project, now)];
          entries := entries[CacheKeys.ImageKey(ImageOf(key)) := project];
        }
      }
    }
  }

  /** A restart end to end: what one cache persists, a new one that shares only the warm-up key takes over. Every
      request that was hot has its blobs and its manifests routed as before, each under its exact condition. */
  method Restart(running: SharedCache, top: seq<string>, now: nat) returns (restarted: SharedCache)
    requires Faithful(running.json) && now <= CacheCodec.U64_MAX
    requires (forall k <- top :: PlainKey(k)) && HotMappings(running.entries, top) != map[]
    modifies running
    ensures fresh(restarted) && restarted.cfg == running.cfg
    ensures forall image, reference ::
              var key := CacheKeys.ManifestKey(image, reference);
              key in top && HotProject(old(running.entries), key).Some? ==>
                (CachedProject(restarted.entries, image, reference)
                    == CachedProject(old(running.entries), image, reference)
                 <==> !running.cfg.staleWindow || '|' !in HotProject(old(running.entries), key).value)
    ensures forall r, earlier, later ::
              Resolver.Key(r) in top && HotProject(old(running.entries), Resolver.Key(r)).Some? ==>
                (SameProject(Resolver.AfterLookUp(running.cfg, old(running.entries), r, earlier),
                             Resolver.AfterLookUp(running.cfg, restarted.entries, r, later))
                 <==> Survives(running.cfg.staleWindow, old(running.entries)[Resolver.Key(r)]))
  {
    ghost var before := running.entries;
    running.PersistHotEntries(top);
    restarted := new SharedCache(running.json, running.cfg);
    restarted.entries := map[CacheKeys.WARMUP_KEY := running.entries[CacheKeys.WARMUP_KEY]];
    ghost var start := restarted.entries;
    ghost var order := restarted.WarmFromShared(now);
    hide HotProject, HotMappings, WarmAll, CachedProject, Resolver.AfterLookUp, Survives, SameProject, Resolver.Key;
    forall image, reference |
      CacheKeys.ManifestKey(image, reference) in top
          && HotProject(before, CacheKeys.ManifestKey(image, reference)).Some?
      ensures CachedProject(restarted.entries, image, reference) == CachedProject(before, image, reference)
              <==> !running.cfg.staleWindow || '|' !in HotProject(before, CacheKeys.ManifestKey(image, reference)).value
    {
      BlobsAreRoutedAsBefore(before, top, start, order, running.cfg.staleWindow, now, image, reference);
    }
    forall r, earlier, later | Resolver.Key(r) in top && HotProject(before, Resolver.Key(r)).Some?
      ensures SameProject(Resolver.AfterLookUp(running.cfg, before, r, earlier),
                          Resolver.AfterLookUp(running.cfg, restarted.entries, r, later))
              <==> Survives(running.cfg.staleWindow, before[Resolver.Key(r)])
    {
      HotIsCached(before, Resolver.Key(r));
      ManifestsAreRoutedAsBefore(running.cfg, before, top, start, order, now, r, earlier, later);
    }
  }

  lemma HotIsCached(entries: Entries, key: string)
    ensures HotProject(entries, key).Some? ==> key in entries
  {
  }
}
