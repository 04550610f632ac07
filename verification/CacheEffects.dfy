/** What a request leaves in the cache is what later ones find, for as long as nobody touches the entry. */
module CacheEffects {
  import opened Text
  import opened Resolver
  import Breaker
  import CacheCodec
  import CacheKeys
  import FanOut
  import Singleflight
  import Warmup

  // ----- who touches an entry -----

  /** Steps that may write the manifest entry under `key`, and steps that take it away. */
  predicate Stores(w: World, s: Step, key: string) {
    match s
    case Store(t, _) => t < |w.tasks| && Key(w.tasks[t].request) == key
    case Background(WarmKey(k, _)) => k == key
    case _ => false
  }

  predicate Removes(w: World, s: Step, key: string) {
    match s
    case Evict(t) => t < |w.tasks| && Key(w.tasks[t].request) == key
    case Background(Expire(k)) => k == key
    case _ => false
  }

  /** Nothing in the run writes the entry. */
  ghost predicate Unwritten(cfg: Config, w: World, steps: seq<Step>, key: string)
    requires Legal(cfg, w, steps)
    decreases |steps|
  {
    steps == [] || (!Stores(w, steps[0], key) && Unwritten(cfg, Apply(cfg, w, steps[0]), steps[1..], key))
  }

  /** Nothing in the run writes or removes the entry. */
  ghost predicate Untouched(cfg: Config, w: World, steps: seq<Step>, key: string)
    requires Legal(cfg, w, steps)
    decreases |steps|
  {
    steps == [] || (!Stores(w, steps[0], key) && !Removes(w, steps[0], key)
                    && Untouched(cfg, Apply(cfg, w, steps[0]), steps[1..], key))
  }

  lemma ImageKeyIsOther(image: string, key: string)
    requires !CacheKeys.OtherFamily(key)
    ensures key != CacheKeys.ImageKey(image)
  {
  }

  /** A step changes the entry under a manifest key only by storing or removing it. */
  lemma StepLeavesEntry(cfg: Config, w: World, s: Step, key: string)
    requires Enabled(cfg, w, s) && !CacheKeys.OtherFamily(key)
    ensures
      var cache := Apply(cfg, w, s).cache;
      && (!Stores(w, s, key) && !Removes(w, s, key) ==> Warmup.SameAt(cache, w.cache, key))
      && (Removes(w, s, key) ==> key !in cache)
  {
    hide CacheKeys.OtherFamily;
    if !Singleflight.Writes(s) {
      Singleflight.OnlyWritersWrite(cfg, w, s);
      hide Apply, Enabled, Key;
    } else if s.Background? {
      AmbientLeavesEntry(cfg, w, s.b, key);
      hide ApplyAmbient, AmbientEnabled;
    } else if s.Store? {
      StoreLeavesEntry(cfg, w, s.t, s.now, key);
      hide ApplyStore;
    } else if s.StoreImage? {
      StoreImageLeavesEntry(w, s.t, key);
      hide ApplyStoreImage;
    } else {
      hide Key;
    }
  }

  lemma AmbientLeavesEntry(cfg: Config, w: World, b: Ambient, key: string)
    requires AmbientEnabled(w, b) && !CacheKeys.OtherFamily(key)
    ensures
      var cache := ApplyAmbient(cfg, w, b).cache;
      && (!(b.WarmKey? && b.key == key) && b != Expire(key) ==> Warmup.SameAt(cache, w.cache, key))
      && (b == Expire(key) ==> key !in cache)
  {
    if b.WarmImage? { ImageKeyIsOther(Before(b.key, ':'), key); }
    hide CacheKeys.OtherFamily, CacheKeys.ImageKey, CacheCodec.HotProject, CacheValue, Before, IsSafeProjectName;
  }

  lemma StoreLeavesEntry(cfg: Config, w: World, t: nat, now: nat, key: string)
    requires t < |w.tasks|
    ensures Key(w.tasks[t].request) != key ==> Warmup.SameAt(ApplyStore(cfg, w, t, now).cache, w.cache, key)
  {
    hide Key, CacheValue, FanOut.IsAllProjectsNon200, CacheCodec.Encode;
  }

  lemma StoreImageLeavesEntry(w: World, t: nat, key: string)
    requires t < |w.tasks| && !CacheKeys.OtherFamily(key)
    ensures Warmup.SameAt(ApplyStoreImage(w, t).cache, w.cache, key)
  {
    ImageKeyIsOther(w.tasks[t].request.image, key);
    hide CacheKeys.ImageKey, CacheKeys.OtherFamily;
  }

  lemma {:induction false} UntouchedStays(cfg: Config, w: World, steps: seq<Step>, key: string)
    requires Legal(cfg, w, steps) && Untouched(cfg, w, steps, key) && !CacheKeys.OtherFamily(key)
    ensures Warmup.SameAt(Run(cfg, w, steps).cache, w.cache, key)
    decreases |steps|
  {
    hide Apply, Enabled, Stores, Removes, CacheKeys.OtherFamily;
    if steps != [] {
      StepLeavesEntry(cfg, w, steps[0], key);
      UntouchedStays(cfg, Apply(cfg, w, steps[0]), steps[1..], key);
    }
  }

  lemma {:induction false} UnwrittenStaysOut(cfg: Config, w: World, steps: seq<Step>, key: string)
    requires Legal(cfg, w, steps) && Unwritten(cfg, w, steps, key) && !CacheKeys.OtherFamily(key) && key !in w.cache
    ensures key !in Run(cfg, w, steps).cache
    decreases |steps|
  {
    hide Apply, Enabled, Stores, Removes, CacheKeys.OtherFamily;
    if steps != [] {
      StepLeavesEntry(cfg, w, steps[0], key);
      UnwrittenStaysOut(cfg, Apply(cfg, w, steps[0]), steps[1..], key);
    }
  }

  lemma SameEntrySameLookUp(cfg: Config, a: map<string, string>, b: map<string, string>, r: Request, now: nat)
    requires Warmup.SameAt(a, b, Key(r))
    ensures AfterLookUp(cfg, a, r, now) == AfterLookUp(cfg, b, r, now)
  {
    hide Key, ReadEntry, IsStale, FanOut.NotFoundText;
  }

  lemma PlainKeyIsNotOther(r: Request)
    requires CacheKeys.PlainImage(r.image)
    ensures !CacheKeys.OtherFamily(Key(r))
  {
    CacheKeys.FamiliesDisjoint(r.image, r.reference);
  }

  // ----- what is found -----

  /** Whether an entry written at `now` is served stale at `later`. */
  predicate StaleAt(cfg: Config, now: nat, later: nat) {
    cfg.staleWindow && Breaker.SaturatingSub(later, now) > cfg.cacheTtl
  }

  /** After a leader or follower stored a found project, and in any continuation that does not touch the entry, a
      request with the same key goes straight to that project and sees the entry's true age: exactly when the project is
      neither the sentinel nor, with timestamps, holds a `|`. */
  lemma FoundIsFoundAgain(cfg: Config, w: World, t: nat, now: nat, steps: seq<Step>, r: Request, later: nat)
    requires Enabled(cfg, w, Store(t, now)) && w.tasks[t].pc.Storing? && w.tasks[t].pc.reply.Ok?
    requires Key(r) == Key(w.tasks[t].request) && CacheKeys.PlainImage(r.image)
    requires Legal(cfg, Apply(cfg, w, Store(t, now)), steps)
    requires Untouched(cfg, Apply(cfg, w, Store(t, now)), steps, Key(r))
    ensures
      var project := w.tasks[t].pc.reply.value.project;
      AfterLookUp(cfg, Run(cfg, Apply(cfg, w, Store(t, now)), steps).cache, r, later)
      == Fetching(project, StaleAt(cfg, now, later))
      <==> project != CacheCodec.NEGATIVE_SENTINEL && (cfg.staleWindow ==> '|' !in project)
  {
    var stored := Apply(cfg, w, Store(t, now));
    PlainKeyIsNotOther(r);
    UntouchedStays(cfg, stored, steps, Key(r));
    SameEntrySameLookUp(cfg, Run(cfg, stored, steps).cache, stored.cache, r, later);
    hide Run, Legal, Untouched, CacheKeys.OtherFamily;
    StoredIsRead(cfg, w, t, now, r, later);
    hide AfterLookUp;
  }

  lemma StoredIsRead(cfg: Config, w: World, t: nat, now: nat, r: Request, later: nat)
    requires t < |w.tasks| && w.tasks[t].pc.Storing? && w.tasks[t].pc.reply.Ok? && now <= CacheCodec.U64_MAX
    requires Key(r) == Key(w.tasks[t].request)
    ensures
      var project := w.tasks[t].pc.reply.value.project;
      AfterLookUp(cfg, ApplyStore(cfg, w, t, now).cache, r, later) == Fetching(project, StaleAt(cfg, now, later))
      <==> project != CacheCodec.NEGATIVE_SENTINEL && (cfg.staleWindow ==> '|' !in project)
  {
    var project := w.tasks[t].pc.reply.value.project;
    CacheCodec.EncodedYieldsIff(project, now);
    CacheCodec.DecodeEncoded(project, now);
    CacheCodec.EncodedIsNotSentinel(project, now);
    hide Key, CacheCodec.Decode, CacheCodec.Encode, FanOut.NotFoundText;
  }

  /** A background refresh restarts the clock of its entry, until the entry is touched: exactly when timestamps are on
      and the project is neither the sentinel nor holds a `|`. */
  lemma RefreshRestamps(cfg: Config, w: World, t: nat, now: nat, steps: seq<Step>, r: Request, later: nat)
    requires Enabled(cfg, w, Store(t, now)) && w.tasks[t].pc.Refreshing?
    requires Key(r) == Key(w.tasks[t].request) && CacheKeys.PlainImage(r.image)
    requires Legal(cfg, Apply(cfg, w, Store(t, now)), steps)
    requires Untouched(cfg, Apply(cfg, w, Store(t, now)), steps, Key(r))
    ensures
      var project := w.tasks[t].pc.project;
      AfterLookUp(cfg, Run(cfg, Apply(cfg, w, Store(t, now)), steps).cache, r, later)
      == Fetching(project, StaleAt(cfg, now, later))
      <==> cfg.staleWindow && project != CacheCodec.NEGATIVE_SENTINEL && '|' !in project
  {
    var stored := Apply(cfg, w, Store(t, now));
    PlainKeyIsNotOther(r);
    UntouchedStays(cfg, stored, steps, Key(r));
    SameEntrySameLookUp(cfg, Run(cfg, stored, steps).cache, stored.cache, r, later);
    hide Run, Legal, Untouched, CacheKeys.OtherFamily;
    RefreshedIsRead(cfg, w, t, now, r, later);
    hide AfterLookUp;
  }

  lemma RefreshedIsRead(cfg: Config, w: World, t: nat, now: nat, r: Request, later: nat)
    requires t < |w.tasks| && w.tasks[t].pc.Refreshing? && now <= CacheCodec.U64_MAX
    requires Key(r) == Key(w.tasks[t].request)
    ensures
      var project := w.tasks[t].pc.project;
      AfterLookUp(cfg, ApplyStore(cfg, w, t, now).cache, r, later) == Fetching(project, StaleAt(cfg, now, later))
      <==> cfg.staleWindow && project != CacheCodec.NEGATIVE_SENTINEL && '|' !in project
  {
    var project := w.tasks[t].pc.project;
    CacheCodec.EncodedYieldsIff(project, now);
    CacheCodec.DecodeEncoded(project, now);
    assert |CacheCodec.Encode(project, now)| > |project|;
    hide Key, CacheCodec.Decode, CacheCodec.Encode, FanOut.NotFoundText;
  }

  /** After a failed request, and in any continuation that does not touch the entry, requests with its key are
      answered "not found" without asking anybody: exactly when the failure was classified so or the key was
      answered so before. */
  lemma FailureIsRemembered(cfg: Config, w: World, t: nat, now: nat, steps: seq<Step>, r: Request, later: nat)
    requires Enabled(cfg, w, Store(t, now)) && w.tasks[t].pc.Storing? && w.tasks[t].pc.reply.Err?
    requires Key(r) == Key(w.tasks[t].request) && CacheKeys.PlainImage(r.image)
    requires Legal(cfg, Apply(cfg, w, Store(t, now)), steps)
    requires Untouched(cfg, Apply(cfg, w, Store(t, now)), steps, Key(r))
    ensures
      var gone := Finished(Err(FanOut.NotFoundText(r.image, r.reference)));
      AfterLookUp(cfg, Run(cfg, Apply(cfg, w, Store(t, now)), steps).cache, r, later) == gone
      <==> FanOut.IsAllProjectsNon200(w.tasks[t].pc.reply.error) || AfterLookUp(cfg, w.cache, r, later) == gone
  {
    var stored := Apply(cfg, w, Store(t, now));
    PlainKeyIsNotOther(r);
    UntouchedStays(cfg, stored, steps, Key(r));
    SameEntrySameLookUp(cfg, Run(cfg, stored, steps).cache, stored.cache, r, later);
    hide Run, Legal, Untouched, CacheKeys.OtherFamily;
    hide Key, FanOut.NotFoundText, FanOut.IsAllProjectsNon200;
  }

  /** A cached project that no longer serves the image is forgotten: in any continuation in which nobody stores the key,
      every request with it misses and joins the singleflight. */
  lemma EvictedIsMissed(cfg: Config, w: World, t: nat, steps: seq<Step>, r: Request, later: nat)
    requires Enabled(cfg, w, Evict(t)) && Key(r) == Key(w.tasks[t].request) && CacheKeys.PlainImage(r.image)
    requires Legal(cfg, Apply(cfg, w, Evict(t)), steps) && Unwritten(cfg, Apply(cfg, w, Evict(t)), steps, Key(r))
    ensures AfterLookUp(cfg, Run(cfg, Apply(cfg, w, Evict(t)), steps).cache, r, later) == Joining
  {
    PlainKeyIsNotOther(r);
    StepLeavesEntry(cfg, w, Evict(t), Key(r));
    UnwrittenStaysOut(cfg, Apply(cfg, w, Evict(t)), steps, Key(r));
    hide Run, Legal, Unwritten, Key, Apply, Enabled, CacheKeys.OtherFamily;
  }

  /** Whether a project stored for a reference comes back when its blobs are routed by the manifest entry. */
  predicate ComesBack(staleWindow: bool, project: string) {
    if staleWindow then '|' !in project else !CacheCodec.Stamped(project)
  }

  /** After both writes of a resolved request, blobs of its image are routed to the project that served it: for the same
      reference exactly when the project comes back, for a reference with an entry of its own exactly when that names
      the project, and for every other reference of the image always. */
  lemma BlobsFollowTheManifest(cfg: Config, w: World, t: nat, now: nat, image: string, reference: string)
    requires t < |w.tasks| && w.tasks[t].pc.Storing? && w.tasks[t].pc.reply.Ok? && now <= CacheCodec.U64_MAX
    requires image == w.tasks[t].request.image && CacheKeys.PlainImage(image)
    ensures
      var project, key := w.tasks[t].pc.reply.value.project, CacheKeys.ManifestKey(image, reference);
      Warmup.CachedProject(ApplyStoreImage(ApplyStore(cfg, w, t, now), t).cache, image, reference) == Some(project)
      <==> if reference == w.tasks[t].request.reference then ComesBack(cfg.staleWindow, project)
           else key in w.cache ==> CacheCodec.Decode(w.cache[key]).0 == project
  {
    var r, project := w.tasks[t].request, w.tasks[t].pc.reply.value.project;
    var stored, img := ApplyStore(cfg, w, t, now), CacheKeys.ImageKey(image);
    assert stored.tasks[t].request == r && stored.tasks[t].pc == StoringImage(w.tasks[t].pc.reply, w.tasks[t].pc.via);
    assert stored.cache == w.cache[Key(r) := CacheValue(cfg, project, now)];
    assert ApplyStoreImage(stored, t).cache == stored.cache[img := project];
    CacheCodec.EncodedYieldsIff(project, now);
    CacheCodec.BareDecodesToItself(project);
    NotTheImageKey(image, reference);
    NotTheImageKey(image, r.reference);
    if Key(r) == CacheKeys.ManifestKey(image, reference) {
      CacheKeys.ManifestKeyInjective(image, reference, image, r.reference);
    }
    hide CacheCodec.Decode, CacheCodec.Encode, CacheCodec.Stamped, ApplyStore, ApplyStoreImage, CacheKeys.ImageKey,
      CacheKeys.ManifestKey;
  }

  lemma NotTheImageKey(image: string, reference: string)
    requires CacheKeys.PlainImage(image)
    ensures CacheKeys.ManifestKey(image, reference) != CacheKeys.ImageKey(image)
  {
    CacheKeys.FamiliesDisjoint(image, reference);
  }

  // ----- what a background refresh leaves -----

  /** A background refresh whose lookup heard a 200 goes on to write a project that answered 200; any other refresh ends
      and leaves the cache alone. */
  lemma RefreshGoesOn(cfg: Config, w: World, t: nat)
    requires Enabled(cfg, w, StopCollecting(t)) && w.tasks[t].pc.role.Refresher?
    ensures
      var heard := w.tasks[t].pc.arrivals;
      var w1 := Apply(cfg, w, StopCollecting(t));
      && t < |w1.tasks| && w1.cache == w.cache
      && (if exists i :: 0 <= i < |heard| && heard[i].outcome.Ok? && heard[i].outcome.value.status == 200 then
            && w1.tasks[t].pc.Refreshing?
            && exists i :: 0 <= i < |heard| && heard[i].outcome.Ok? && heard[i].outcome.value.status == 200
                 && w1.tasks[t].pc.project == heard[i].outcome.value.project
          else w1.tasks[t].pc == Ended)
  {
    var r, heard := w.tasks[t].request, w.tasks[t].pc.arrivals;
    RefreshReply(r, heard);
    hide LookupReply, MayStop, Matched;
  }

  lemma RefreshReply(r: Request, heard: seq<Arrival>)
    ensures LookupReply(r, heard).Ok? <==>
            exists i :: 0 <= i < |heard| && heard[i].outcome.Ok? && heard[i].outcome.value.status == 200
    ensures LookupReply(r, heard).Ok? ==>
              exists i :: 0 <= i < |heard| && heard[i].outcome.Ok? && heard[i].outcome.value.status == 200
                && heard[i].outcome == LookupReply(r, heard)
  {
    var outcomes, ok := Outcomes(heard), FanOut.Accepting(r.accept);
    assert |outcomes| == |heard| && forall i :: 0 <= i < |heard| ==> outcomes[i] == heard[i].outcome;
    FanOut.HitIs200(outcomes);
    VerdictIsOkIff(outcomes, ok, r.image, r.reference);
    hide Outcomes, FanOut.Any200;
  }

  lemma VerdictIsOkIff(outcomes: seq<FanOut.Outcome>, ok: string -> bool, image: string, reference: string)
    ensures FanOut.Verdict(outcomes, ok, image, reference).Ok? <==> FanOut.Any200(outcomes)
  {
    assert forall i :: 0 <= i < |outcomes| && FanOut.IsMatch(outcomes[i], ok) ==> FanOut.Is200(outcomes[i]);
  }

  /** After both writes of a background refresh, blobs of its image are routed to the refreshed project: for the same
      reference exactly when the project holds no `|`, for a reference with an entry of its own exactly when that names
      the project, and for every other reference of the image always. */
  lemma BlobsFollowTheRefresh(cfg: Config, w: World, t: nat, now: nat, image: string, reference: string)
    requires Enabled(cfg, w, Store(t, now)) && w.tasks[t].pc.Refreshing?
    requires image == w.tasks[t].request.image && CacheKeys.PlainImage(image)
    ensures
      var project, key := w.tasks[t].pc.project, CacheKeys.ManifestKey(image, reference);
      && Legal(cfg, w, [Store(t, now), StoreImage(t)])
      && (Warmup.CachedProject(Run(cfg, w, [Store(t, now), StoreImage(t)]).cache, image, reference) == Some(project)
          <==> if reference == w.tasks[t].request.reference then '|' !in project
               else key in w.cache ==> CacheCodec.Decode(w.cache[key]).0 == project)
  {
    var r, project := w.tasks[t].request, w.tasks[t].pc.project;
    var stored, img := Apply(cfg, w, Store(t, now)), CacheKeys.ImageKey(image);
    assert stored.tasks[t].request == r && stored.tasks[t].pc == RefreshingImage(project);
    assert stored.cache == w.cache[Key(r) := CacheCodec.Encode(project, now)];
    var done := Apply(cfg, stored, StoreImage(t));
    assert done.cache == stored.cache[img := project];
    assert Legal(cfg, done, []) && Run(cfg, done, []) == done;
    assert [Store(t, now), StoreImage(t)][1..] == [StoreImage(t)] && [StoreImage(t)][1..] == [];
    assert Legal(cfg, stored, [StoreImage(t)]) && Run(cfg, stored, [StoreImage(t)]) == done;
    CacheCodec.EncodedYieldsIff(project, now);
    NotTheImageKey(image, reference);
    NotTheImageKey(image, r.reference);
    if Key(r) == CacheKeys.ManifestKey(image, reference) {
      CacheKeys.ManifestKeyInjective(image, reference, image, r.reference);
    }
    hide CacheCodec.Decode, CacheCodec.Encode, Apply, Enabled, CacheKeys.ImageKey, CacheKeys.ManifestKey;
  }
}
