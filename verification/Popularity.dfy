/** The popularity tables: request counts per image, with eviction of rarely requested entries. */
module Popularity {
  import CacheKeys

  const MAX_TRACKED_IMAGES: nat := 10_000
  const MIN_REQUESTS_FOR_TOP_N: nat := 10
  const U64_RANGE: nat := 0x1_0000_0000_0000_0000

  type Counts = map<string, nat>

  function CountOf(counts: Counts, key: string): nat {
    if key in counts then counts[key] else 0
  }

  /** `*count += 1` in a build without overflow checks, or a new entry. */
  function Bump(counts: Counts, key: string): Counts {
    counts[key := if key in counts then (counts[key] + 1) % U64_RANGE else 1]
  }

  /** The entries that eviction may take. */
  function Evictable(counts: Counts): set<string> {
    set key | key in counts && counts[key] <= 1
  }

  function Min(a: nat, b: nat): nat {
    if a <= b then a else b
  }

  /** Eviction takes nothing unless the table is overfull, and then a tenth of the capacity among the evictable
      entries, or all of them if there are fewer; which ones depends on the table's iteration order. */
  ghost predicate MayEvict(counts: Counts, evicted: set<string>) {
    if |counts| <= MAX_TRACKED_IMAGES then evicted == {}
    else evicted <= Evictable(counts) && |evicted| == Min(|Evictable(counts)|, MAX_TRACKED_IMAGES / 10)
  }

  /** One record call: the key requested and the entries evicted after counting it. */
  datatype Event = Event(key: string, evicted: set<string>)

  ghost predicate Legal(counts: Counts, e: Event) {
    MayEvict(Bump(counts, e.key), e.evicted)
  }

  function After(counts: Counts, e: Event): Counts {
    Bump(counts, e.key) - e.evicted
  }

  /** The table after a sequence of record calls. */
  function Replay(counts: Counts, events: seq<Event>): Counts
    decreases |events|
  {
    if events == [] then counts else Replay(After(counts, events[0]), events[1..])
  }

  ghost predicate LegalRun(counts: Counts, events: seq<Event>)
    decreases |events|
  {
    events == [] || (Legal(counts, events[0]) && LegalRun(After(counts, events[0]), events[1..]))
  }

  /** Every entry counts a request, and `more` further requests cannot wrap a counter. */
  ghost predicate Live(counts: Counts, more: nat) {
    more < U64_RANGE && forall key <- counts :: 1 <= counts[key] && counts[key] + more < U64_RANGE
  }

  /** The counts as a multiset of requests. */
  ghost function Tally(counts: Counts): (t: multiset<string>)
    ensures forall key :: t[key] == CountOf(counts, key)
    decreases |counts|
  {
    if counts == map[] then multiset{} else
      var key :| key in counts;
      Tally(counts - {key})[key := counts[key]]
  }

  function Requested(events: seq<Event>): multiset<string> {
    if events == [] then multiset{} else multiset{events[0].key} + Requested(events[1..])
  }

  function Evicted(events: seq<Event>): multiset<string> {
    if events == [] then multiset{} else multiset(events[0].evicted) + Evicted(events[1..])
  }

  lemma {:induction false} RequestedSize(events: seq<Event>)
    ensures |Requested(events)| == |events|
  {
    if events != [] { RequestedSize(events[1..]); }
  }

  lemma LiveAfter(counts: Counts, e: Event, more: nat)
    requires Live(counts, more + 1)
    ensures Live(After(counts, e), more)
  {
  }

  /** One call adds one request to its key, and eviction drops exactly one request per evicted entry. */
  lemma StepAt(counts: Counts, e: Event, key: string)
    requires Legal(counts, e) && Live(counts, 1)
    ensures CountOf(After(counts, e), key) + (if key in e.evicted then 1 else 0)
            == CountOf(counts, key) + (if key == e.key then 1 else 0)
  {
    assert key in e.evicted ==> key in Evictable(Bump(counts, e.key));
  }

  lemma StepConserves(counts: Counts, e: Event)
    requires Legal(counts, e) && Live(counts, 1)
    ensures Tally(After(counts, e)) + multiset(e.evicted) == Tally(counts) + multiset{e.key}
  {
    hide Tally, Legal, Live, After, CountOf;
    forall key: string
      ensures (Tally(After(counts, e)) + multiset(e.evicted))[key] == (Tally(counts) + multiset{e.key})[key]
    {
      StepAt(counts, e, key);
    }
  }

  /** Conservation over whole runs: what is counted and what was evicted are together exactly what was requested,
      key by key, for any order in which entries are evicted. */
  lemma {:induction false} RequestsAreConserved(counts: Counts, events: seq<Event>)
    requires LegalRun(counts, events) && Live(counts, |events|)
    ensures Tally(Replay(counts, events)) + Evicted(events) == Tally(counts) + Requested(events)
    decreases |events|
  {
    hide Tally, Legal, After, Live;
    if events != [] {
      var e, rest := events[0], events[1..];
      LiveEnough(counts, |events|);
      LiveAfter(counts, e, |rest|);
      StepConserves(counts, e);
      RequestsAreConserved(After(counts, e), rest);
      Chained(Tally(Replay(counts, events)), Evicted(rest), Tally(After(counts, e)), Requested(rest),
              multiset(e.evicted), Tally(counts), multiset{e.key});
    }
  }

  lemma Chained<T>(a: multiset<T>, ev: multiset<T>, b: multiset<T>, re: multiset<T>,
                   ev0: multiset<T>, c: multiset<T>, re0: multiset<T>)
    requires a + ev == b + re && b + ev0 == c + re0
    ensures a + (ev0 + ev) == c + (re0 + re)
  {
    assert a + (ev0 + ev) == (a + ev) + ev0;
    assert (b + re) + ev0 == (b + ev0) + re;
    assert (c + re0) + re == c + (re0 + re);
  }

  lemma LiveEnough(counts: Counts, more: nat)
    requires more >= 1 && Live(counts, more)
    ensures Live(counts, 1)
  {
  }

  /** Starting empty, the counts and the evictions add up to the number of calls. */
  lemma CallsAreAccountedFor(events: seq<Event>)
    requires LegalRun(map[], events) && |events| < U64_RANGE
    ensures |Tally(Replay(map[], events))| + |Evicted(events)| == |events|
  {
    hide LegalRun, Replay, Evicted, Requested;
    RequestsAreConserved(map[], events);
    RequestedSize(events);
    assert Tally(map[]) == multiset{};
    hide Tally;
    var live, evicted := Tally(Replay(map[], events)), Evicted(events);
    assert |live + evicted| == |live| + |evicted|;
    assert multiset{} + Requested(events) == Requested(events);
  }

  /** The key just counted for the first time is itself evictable, so an overfull table always shrinks. */
  lemma StepKeepsSize(counts: Counts, e: Event)
    requires Legal(counts, e) && |counts| <= MAX_TRACKED_IMAGES
    ensures |After(counts, e)| <= MAX_TRACKED_IMAGES
  {
    var bumped := Bump(counts, e.key);
    assert bumped.Keys == counts.Keys + {e.key};
    assert After(counts, e).Keys == bumped.Keys - e.evicted;
    if |bumped| > MAX_TRACKED_IMAGES {
      assert e.key !in counts;
      assert e.key in Evictable(bumped);
      assert e.evicted <= bumped.Keys;
      assert |bumped.Keys - e.evicted| == |bumped.Keys| - |e.evicted|;
    }
  }

  lemma {:induction false} SizeIsBounded(counts: Counts, events: seq<Event>)
    requires LegalRun(counts, events) && |counts| <= MAX_TRACKED_IMAGES
    ensures |Replay(counts, events)| <= 10_000
    decreases |events|
  {
    if events != [] {
      StepKeepsSize(counts, events[0]);
      SizeIsBounded(After(counts, events[0]), events[1..]);
    }
  }

  lemma HotStep(counts: Counts, e: Event, key: string)
    requires Legal(counts, e) && key in counts && 2 <= counts[key] && counts[key] + 1 < U64_RANGE
    ensures key in After(counts, e) && After(counts, e)[key] == counts[key] + if e.key == key then 1 else 0
  {
    assert key !in e.evicted;
  }

  /** An entry requested twice is never evicted: from then on its count is exact. */
  lemma {:induction false} HotEntriesStay(counts: Counts, events: seq<Event>, key: string)
    requires LegalRun(counts, events) && key in counts && 2 <= counts[key]
    requires counts[key] + |events| < U64_RANGE
    ensures key in Replay(counts, events)
    ensures Replay(counts, events)[key] == counts[key] + Requested(events)[key]
    decreases |events|
  {
    if events != [] {
      HotStep(counts, events[0], key);
      hide After, Legal;
      HotEntriesStay(After(counts, events[0]), events[1..], key);
    }
  }

  /** A full table in which every entry was requested twice. */
  ghost predicate Saturated(counts: Counts) {
    |counts| == MAX_TRACKED_IMAGES && forall key <- counts :: 2 <= counts[key]
  }

  lemma StepKeepsSaturated(counts: Counts, e: Event)
    requires Saturated(counts) && Legal(counts, e) && Live(counts, 1)
    ensures After(counts, e).Keys == counts.Keys && Saturated(After(counts, e))
    ensures e.evicted == if e.key in counts then {} else {e.key}
  {
    var bumped := Bump(counts, e.key);
    if e.key in counts {
      assert bumped.Keys == counts.Keys;
      assert |bumped| == |counts|;
    } else {
      assert bumped.Keys == counts.Keys + {e.key};
      assert Evictable(bumped) == {e.key};
      assert |bumped| == MAX_TRACKED_IMAGES + 1;
      assert e.evicted == {e.key};
    }
    assert After(counts, e).Keys == counts.Keys;
    assert |After(counts, e)| == |After(counts, e).Keys| == |counts.Keys|;
  }

  /** A saturated table is frozen: no later request changes which images it tracks, whatever is requested. */
  lemma {:induction false} SaturatedIsFrozen(counts: Counts, events: seq<Event>)
    requires Saturated(counts) && LegalRun(counts, events) && Live(counts, |events|)
    ensures Replay(counts, events).Keys == counts.Keys && Saturated(Replay(counts, events))
    decreases |events|
  {
    hide Saturated, Legal, After, Live;
    if events != [] {
      LiveEnough(counts, |events|);
      LiveAfter(counts, events[0], |events| - 1);
      StepKeepsSaturated(counts, events[0]);
      SaturatedIsFrozen(After(counts, events[0]), events[1..]);
    }
  }

  /** Appending one call to a run. */
  lemma {:induction false} ReplaySnoc(counts: Counts, events: seq<Event>, e: Event)
    ensures Replay(counts, events + [e]) == After(Replay(counts, events), e)
    ensures LegalRun(counts, events + [e]) <==> LegalRun(counts, events) && Legal(Replay(counts, events), e)
    decreases |events|
  {
    hide Legal, After;
    if events == [] {
      assert [] + [e] == [e];
    } else {
      assert (events + [e])[1..] == events[1..] + [e];
      ReplaySnoc(After(counts, events[0]), events[1..], e);
    }
  }

  type Entry = (string, nat)

  function Eligible(counts: Counts): set<Entry> {
    set key | key in counts && counts[key] >= MIN_REQUESTS_FOR_TOP_N :: (key, counts[key])
  }

  ghost predicate Descending(entries: seq<Entry>) {
    forall i, j :: 0 <= i < j < |entries| ==> entries[i].1 >= entries[j].1
  }

  /** `top` lists the first `n` eligible entries of some sorting of them by count. */
  ghost predicate IsTop(counts: Counts, n: nat, top: seq<Entry>) {
    exists sorted: seq<Entry> ::
      multiset(sorted) == multiset(Eligible(counts)) && Descending(sorted) && top == sorted[..Min(n, |sorted|)]
  }

  lemma Repeated<T>(s: seq<T>, i: nat, j: nat)
    requires i < j < |s| && s[i] == s[j]
    ensures multiset(s)[s[i]] >= 2
  {
    assert s == s[..j] + s[j..];
    assert s[..j][i] == s[i] && s[j..][0] == s[j];
    assert multiset(s) == multiset(s[..j]) + multiset(s[j..]);
    assert s[i] in multiset(s[..j]) && s[i] in multiset(s[j..]);
  }

  lemma ListsOnce<T>(s: seq<T>, elements: set<T>)
    requires multiset(s) == multiset(elements)
    ensures |s| == |elements|
    ensures forall e :: e in s <==> e in elements
    ensures forall i, j :: 0 <= i < j < |s| ==> s[i] != s[j]
  {
    assert |s| == |multiset(s)|;
    forall e ensures e in s <==> e in elements {
      assert e in s <==> e in multiset(s);
    }
    forall i, j | 0 <= i < j < |s| ensures s[i] != s[j] {
      if s[i] == s[j] { Repeated(s, i, j); }
    }
  }

  lemma EligibleKeys(counts: Counts, a: Entry, b: Entry)
    requires a in Eligible(counts) && b in Eligible(counts) && a != b
    ensures a.0 != b.0
  {
  }

  /** A top list holds distinct eligible entries, as many as fit, and none that is left out has a higher count. */
  lemma TopIsBest(counts: Counts, n: nat, top: seq<Entry>)
    requires IsTop(counts, n, top)
    ensures |top| == Min(n, |Eligible(counts)|) && Descending(top)
    ensures forall i, j :: 0 <= i < j < |top| ==> top[i].0 != top[j].0
    ensures forall e <- top :: e in Eligible(counts) && e.0 in counts && e.1 == counts[e.0] >= 10
    ensures forall e <- Eligible(counts), i | 0 <= i < |top| :: e in top || e.1 <= top[i].1
  {
    var sorted: seq<Entry> :|
      multiset(sorted) == multiset(Eligible(counts)) && Descending(sorted) && top == sorted[..Min(n, |sorted|)];
    ListsOnce(sorted, Eligible(counts));
    hide Eligible, IsTop;
    forall i, j | 0 <= i < j < |top| ensures top[i].0 != top[j].0 {
      assert top[i] == sorted[i] && top[j] == sorted[j];
      EligibleKeys(counts, sorted[i], sorted[j]);
    }
    forall e <- Eligible(counts), i | 0 <= i < |top| ensures e in top || e.1 <= top[i].1 {
      var k :| 0 <= k < |sorted| && sorted[k] == e;
      if k < |top| { assert top[k] == e; }
      else { assert sorted[i].1 >= sorted[k].1; }
    }
  }

  /** Whatever a top list reports stays in the table, with its exact count, through every later request. */
  lemma ReportedEntriesStay(counts: Counts, n: nat, top: seq<Entry>, events: seq<Event>, e: Entry)
    requires IsTop(counts, n, top) && e in top
    requires LegalRun(counts, events) && e.1 + |events| < U64_RANGE
    ensures CountOf(Replay(counts, events), e.0) == e.1 + Requested(events)[e.0]
  {
    TopIsBest(counts, n, top);
    HotEntriesStay(counts, events, e.0);
  }

  lemma EmptyDescends()
    ensures Descending([])
  {
  }

  lemma InsertCounts<T>(s: seq<T>, k: nat, e: T)
    requires k <= |s|
    ensures multiset(s[..k] + [e] + s[k..]) == multiset(s) + multiset{e}
  {
    assert multiset(s[..k] + [e] + s[k..]) == multiset(s[..k]) + multiset{e} + multiset(s[k..]);
    assert s == s[..k] + s[k..];
    assert multiset(s) == multiset(s[..k]) + multiset(s[k..]);
  }

  lemma InsertAt(sorted: seq<Entry>, k: nat, e: Entry)
    requires k <= |sorted| && Descending(sorted)
    requires forall j :: k <= j < |sorted| ==> sorted[j].1 < e.1
    requires k > 0 ==> sorted[k - 1].1 >= e.1
    ensures Descending(sorted[..k] + [e] + sorted[k..])
    ensures multiset(sorted[..k] + [e] + sorted[k..]) == multiset(sorted) + multiset{e}
  {
    InsertCounts(sorted, k, e);
    var inserted := sorted[..k] + [e] + sorted[k..];
    forall i, j | 0 <= i < j < |inserted| ensures inserted[i].1 >= inserted[j].1 {
      var a := if i < k then sorted[i] else if i == k then e else sorted[i - 1];
      var b := if j < k then sorted[j] else if j == k then e else sorted[j - 1];
      assert inserted[i] == a && inserted[j] == b;
      assert i < k ==> sorted[i].1 >= sorted[k - 1].1;
    }
  }

  /** The two tables, each with the history of the calls made on it. */
  class Metrics {
    var imageManifestRequests: Counts
    var imageBlobRequests: Counts
    ghost var manifestEvents: seq<Event>
    ghost var blobEvents: seq<Event>

    ghost predicate Valid()
      reads this
    {
      && LegalRun(map[], manifestEvents) && imageManifestRequests == Replay(map[], manifestEvents)
      && LegalRun(map[], blobEvents) && imageBlobRequests == Replay(map[], blobEvents)
    }

    constructor ()
      ensures Valid() && manifestEvents == [] && blobEvents == []
    {
      imageManifestRequests, imageBlobRequests := map[], map[];
      manifestEvents, blobEvents := [], [];
    }

    method RecordManifestRequest(image: string, reference: string)
      requires Valid()
      modifies this
      ensures Valid() && blobEvents == old(blobEvents)
      ensures |manifestEvents| == |old(manifestEvents)| + 1 && old(manifestEvents) <= manifestEvents
      ensures manifestEvents[|old(manifestEvents)|].key == CacheKeys.ManifestKey(image, reference)
    {
      hide Replay, LegalRun, Bump, MayEvict;
      var key := CacheKeys.ManifestKey(image, reference);
      var counted := Bump(imageManifestRequests, key);
      var keysToRemove := KeysToRemove(counted);
      ReplaySnoc(map[], manifestEvents, Event(key, keysToRemove));
      imageManifestRequests := counted - keysToRemove;
      manifestEvents := manifestEvents + [Event(key, keysToRemove)];
    }

    method RecordBlobRequest(image: string)
      requires Valid()
      modifies this
      ensures Valid() && manifestEvents == old(manifestEvents)
      ensures |blobEvents| == |old(blobEvents)| + 1 && old(blobEvents) <= blobEvents
      ensures blobEvents[|old(blobEvents)|].key == image
    {
      hide Replay, LegalRun, Bump, MayEvict;
      var counted := Bump(imageBlobRequests, image);
      var keysToRemove := KeysToRemove(counted);
      ReplaySnoc(map[], blobEvents, Event(image, keysToRemove));
      imageBlobRequests := counted - keysToRemove;
      blobEvents := blobEvents + [Event(image, keysToRemove)];
    }

    /** Collects the eligible entries in the table's iteration order, sorts them and keeps the first `n`. */
    method TopManifestImages(n: nat) returns (top: seq<Entry>)
      ensures IsTop(imageManifestRequests, n, top)
    {
      top := TopEntries(imageManifestRequests, n);
    }

    method TopBlobImages(n: nat) returns (top: seq<Entry>)
      ensures IsTop(imageBlobRequests, n, top)
    {
      top := TopEntries(imageBlobRequests, n);
    }

    static method TopEntries(counts: Counts, n: nat) returns (top: seq<Entry>)
      ensures IsTop(counts, n, top)
    {
      var entries: seq<Entry> := [];
      var rest := Eligible(counts);
      while rest != {}
        invariant rest <= Eligible(counts)
        invariant multiset(entries) + multiset(rest) == multiset(Eligible(counts))
        decreases |rest|
      {
        var e :| e in rest;
        rest := rest - {e};
        entries := entries + [e];
      }
      var sorted := SortByCount(entries);
      top := sorted[..Min(n, |sorted|)];
    }

    static method SortByCount(entries: seq<Entry>) returns (sorted: seq<Entry>)
      ensures multiset(sorted) == multiset(entries) && Descending(sorted)
    {
      hide Descending;
      sorted := [];
      assert Descending([]) by { EmptyDescends(); }
      for i := 0 to |entries|
        invariant multiset(sorted) == multiset(entries[..i]) && Descending(sorted)
      {
        var k := |sorted|;
        while k > 0 && sorted[k - 1].1 < entries[i].1
          invariant 0 <= k <= |sorted|
          invariant forall j :: k <= j < |sorted| ==> sorted[j].1 < entries[i].1
        {
          k := k - 1;
        }
        assert entries[..i + 1] == entries[..i] + [entries[i]];
        InsertAt(sorted, k, entries[i]);
        sorted := sorted[..k] + [entries[i]] + sorted[k..];
      }
      assert entries[..|entries|] == entries;
    }

    /** Filters the table in its iteration order and takes at most a tenth of the capacity. */
    static method KeysToRemove(counts: Counts) returns (keys: set<string>)
      ensures MayEvict(counts, keys)
      ensures |counts| <= 10_000 ==> keys == {}
      ensures |counts| > 10_000 ==>
                && (forall key <- keys :: key in counts && counts[key] <= 1)
                && (|keys| == 1_000 || (|keys| < 1_000 && forall key <- counts :: counts[key] <= 1 ==> key in keys))
    {
      keys := {};
      if |counts| <= MAX_TRACKED_IMAGES { return; }
      var unseen := counts.Keys;
      while unseen != {} && |keys| < MAX_TRACKED_IMAGES / 10
        invariant unseen <= counts.Keys
        invariant keys <= Evictable(counts) && keys + unseen >= Evictable(counts) && keys !! unseen
        invariant |keys| <= MAX_TRACKED_IMAGES / 10
        decreases |unseen|
      {
        var key :| key in unseen;
        unseen := unseen - {key};
        if counts[key] <= 1 { keys := keys + {key}; }
      }
      if unseen == {} { assert keys == Evictable(counts); }
      else { SubsetSize(keys, Evictable(counts)); }
    }
  }

  lemma {:induction false} SubsetSize<T>(a: set<T>, b: set<T>)
    requires a <= b
    ensures |a| <= |b|
  {
    assert b == a + (b - a);
  }
}
