/** Soundness of the negative cache: the sentinel stands for a completed lookup of that very key in which
    every consulted project answered, and none with 200. */
module NegativeCache {
  import opened Text
  import opened Resolver
  import CacheCodec
  import CacheKeys
  import Counting
  import FanOut
  import Breaker
  import Singleflight

  /** No error text of a project's answer holds the phrase that marks "not found". */
  predicate PlainErrors(s: Step) {
    s.Collect? && s.outcome.Err? ==> !FanOut.IsAllProjectsNon200(s.outcome.error)
  }

  predicate NoSentinel(m: map<string, string>) {
    forall key :: key in m ==> m[key] != CacheCodec.NEGATIVE_SENTINEL
  }

  predicate NoSentinelProject(cfg: Config) {
    forall i :: 0 <= i < |cfg.projects| ==> cfg.projects[i] != CacheCodec.NEGATIVE_SENTINEL
  }

  /** Every consulted project answered, and none with 200. */
  ghost predicate Unanimous(c: Chan) {
    && c.reply.Some? && c.consulted != []
    && forall i :: 0 <= i < |c.consulted| ==> SaysNo(c.arrivals, i)
  }

  ghost predicate SaysNo(arrivals: seq<Arrival>, i: nat) {
    exists n :: Denied(arrivals, n, i)
  }

  ghost predicate Denied(arrivals: seq<Arrival>, n: nat, i: nat) {
    n < |arrivals| && arrivals[n].index == i && arrivals[n].outcome.Ok? && arrivals[n].outcome.value.status != 200
  }

  ghost predicate Witnessed(chans: seq<Chan>, key: string) {
    exists c :: 0 <= c < |chans| && chans[c].key == key && Unanimous(chans[c])
  }

  ghost predicate Known(cfg: Config, consulted: seq<string>) {
    forall i :: 0 <= i < |consulted| ==> consulted[i] in cfg.projects
  }

  ghost predicate ArrivalsOk(consulted: seq<string>, arrivals: seq<Arrival>) {
    && (forall n :: 0 <= n < |arrivals| ==>
          && arrivals[n].index < |consulted|
          && (arrivals[n].outcome.Ok? ==> arrivals[n].outcome.value.project == consulted[arrivals[n].index])
          && (arrivals[n].outcome.Err? ==> !FanOut.IsAllProjectsNon200(arrivals[n].outcome.error)))
    && (forall n, m :: 0 <= n < m < |arrivals| ==> arrivals[n].index != arrivals[m].index)
  }

  ghost predicate LookupOk(cfg: Config, r: Request, c: Chan) {
    c.reply.Some? ==>
      || (c.reply.value == Err(FanOut.NO_PROJECTS) && c.consulted == [])
      || (c.reply.value == Err(FanOut.NONE_AVAILABLE) && c.consulted == [])
      || (&& Known(cfg, c.consulted) && c.consulted != [] && ArrivalsOk(c.consulted, c.arrivals)
          && MayStop(c.consulted, c.arrivals, r.accept) && c.reply.value == LookupReply(r, c.arrivals))
  }

  ghost predicate TaskOk(cfg: Config, pc: Pc) {
    match pc
    case Filtering(_, _, consulted) => Known(cfg, consulted)
    case Collecting(_, consulted, arrivals) => Known(cfg, consulted) && consulted != []
        && ArrivalsOk(consulted, arrivals)
    case Refreshing(project) => project in cfg.projects
    case _ => true
  }

  /** A lookup of this key is answered "not found" from the cache. */
  predicate ReadsNegative(cfg: Config, cache: map<string, string>, key: string) {
    key in cache && ReadEntry(cfg, cache[key]).0 == CacheCodec.NEGATIVE_SENTINEL
  }

  ghost predicate CacheOk(cfg: Config, w: World) {
    forall key :: ReadsNegative(cfg, w.cache, key) && !CacheKeys.OtherFamily(key) ==> Witnessed(w.chans, key)
  }

  ghost predicate ChanOk(cfg: Config, w: World, c: nat)
    requires c < |w.chans|
  {
    && w.chans[c].leader < |w.tasks|
    && w.chans[c].key == Key(w.tasks[w.chans[c].leader].request)
    && LookupOk(cfg, w.tasks[w.chans[c].leader].request, w.chans[c])
  }

  ghost predicate LookupsOk(cfg: Config, w: World) {
    && (forall t :: 0 <= t < |w.tasks| ==> TaskOk(cfg, w.tasks[t].pc))
    && (forall c :: 0 <= c < |w.chans| ==> ChanOk(cfg, w, c))
  }

  ghost predicate WarmOk(w: World) {
    NoSentinel(w.hot) && NoSentinel(w.gathered) && NoSentinel(w.warming)
  }

  ghost predicate Inv(cfg: Config, w: World) {
    LookupsOk(cfg, w) && WarmOk(w) && CacheOk(cfg, w)
  }

  // ----- what a reply says -----

  lemma AllIndicesHit(consulted: seq<string>, arrivals: seq<Arrival>, i: nat) returns (n: nat)
    requires ArrivalsOk(consulted, arrivals) && |arrivals| == |consulted| && i < |consulted|
    ensures n < |arrivals| && arrivals[n].index == i
  {
    if forall m :: 0 <= m < |arrivals| ==> arrivals[m].index != i {
      var indices := seq(|arrivals|, m requires 0 <= m < |arrivals| => arrivals[m].index);
      Counting.DistinctIndices(indices, |consulted|, i);
    }
    n :| n < |arrivals| && arrivals[n].index == i;
  }

  lemma TimeoutIsNotClassified()
    ensures !FanOut.IsAllProjectsNon200(TIMEOUT_TEXT)
  {
    assert FanOut.NOT_FOUND_PHRASE[20] == 'x';
    assert 'x' !in SINGLEFLIGHT && 'x' !in "follower timed out waiting for leader";
    FanOut.NotOccurring(TIMEOUT_TEXT, FanOut.NOT_FOUND_PHRASE, 20);
  }

  /** A failed lookup is classified "not found" exactly when it was unanimous. */
  lemma ClassifiedIffUnanimous(cfg: Config, r: Request, c: Chan)
    requires LookupOk(cfg, r, c) && c.reply.Some? && c.reply.value.Err?
    ensures FanOut.IsAllProjectsNon200(c.reply.value.error) <==> Unanimous(c)
  {
    if c.consulted == [] {
      FanOut.OtherTextsAreNotClassified();
    } else {
      var seen, ok := Outcomes(c.arrivals), FanOut.Accepting(r.accept);
      hide FanOut.Accepting, FanOut.IsAllProjectsNon200;
      FailedHeardAll(r, c.consulted, c.arrivals);
      hide LookupReply, Unanimous, MayStop, ArrivalsOk, FanOut.Any200, FanOut.AllNon200, FanOut.AnyErr;
      FanOut.ClassifiesFailures(seen, ok, r.image, r.reference);
      UnanimousIffAllNon200(c);
    }
  }

  /** A lookup fails only without a 200 and after hearing from everybody. */
  lemma FailedHeardAll(r: Request, consulted: seq<string>, arrivals: seq<Arrival>)
    requires MayStop(consulted, arrivals, r.accept) && LookupReply(r, arrivals).Err?
    ensures !FanOut.Any200(Outcomes(arrivals)) && |arrivals| == |consulted|
    ensures LookupReply(r, arrivals)
        == FanOut.Verdict(Outcomes(arrivals), FanOut.Accepting(r.accept), r.image, r.reference)
  {
    var seen := Outcomes(arrivals);
    hide FanOut.Accepting, FanOut.NotFoundText;
    assert seen == [] || seen[|seen| - 1] == arrivals[|arrivals| - 1].outcome;
  }

  lemma UnanimousIffAllNon200(c: Chan)
    requires ArrivalsOk(c.consulted, c.arrivals) && |c.arrivals| == |c.consulted| && c.consulted != [] && c.reply.Some?
    ensures FanOut.AllNon200(Outcomes(c.arrivals)) <==> Unanimous(c)
    ensures FanOut.AnyErr(Outcomes(c.arrivals)) ==> !FanOut.IsAllProjectsNon200(FanOut.LastErr(Outcomes(c.arrivals)))
  {
    var seen := Outcomes(c.arrivals);
    hide FanOut.IsAllProjectsNon200;
    if FanOut.AllNon200(seen) {
      forall i | 0 <= i < |c.consulted|
        ensures SaysNo(c.arrivals, i)
      {
        var n := AllIndicesHit(c.consulted, c.arrivals, i);
        assert seen[n] == c.arrivals[n].outcome;
        assert Denied(c.arrivals, n, i);
      }
    }
    if Unanimous(c) {
      forall n | 0 <= n < |seen|
        ensures seen[n].Ok? && seen[n].value.status != 200
      {
        assert SaysNo(c.arrivals, c.arrivals[n].index);
        var m :| Denied(c.arrivals, m, c.arrivals[n].index);
        assert m == n;
      }
    }
  }

  // ----- preservation -----

  lemma WitnessStays(w: World, w': World, key: string)
    requires |w.chans| <= |w'.chans|
    requires forall c :: 0 <= c < |w.chans| && w.chans[c].reply.Some? ==>
               w'.chans[c].key == w.chans[c].key && w'.chans[c].reply == w.chans[c].reply
               && w'.chans[c].consulted == w.chans[c].consulted && w'.chans[c].arrivals == w.chans[c].arrivals
    requires Witnessed(w.chans, key)
    ensures Witnessed(w'.chans, key)
  {
    var c :| 0 <= c < |w.chans| && w.chans[c].key == key && Unanimous(w.chans[c]);
    assert Unanimous(w'.chans[c]);
  }

  /** A reply that was recorded stays what it was. */
  lemma RepliesStay(cfg: Config, w: World, s: Step, c: nat)
    requires Singleflight.Inv(w) && Enabled(cfg, w, s) && c < |w.chans| && w.chans[c].reply.Some?
    ensures
      var w' := Apply(cfg, w, s);
      && c < |w'.chans| && w'.chans[c].key == w.chans[c].key && w'.chans[c].reply == w.chans[c].reply
      && w'.chans[c].consulted == w.chans[c].consulted && w'.chans[c].arrivals == w.chans[c].arrivals
  {
    Singleflight.Footprint(cfg, w, s);
    if Singleflight.LedByActor(w, Singleflight.Actor(s), c) {
      assert Singleflight.TaskOk(w, Singleflight.Actor(s).value);
      hide Key, LookupReply, MayStop, SomeReceiver;
    }
  }

  lemma KeepLookups(cfg: Config, w: World, w': World, actor: Option<nat>)
    requires LookupsOk(cfg, w) && Singleflight.OnlyMoves(w, w', actor)
    requires forall u :: 0 <= u < |w.tasks| ==> w'.tasks[u].request == w.tasks[u].request
    requires forall u :: 0 <= u < |w'.tasks| && (Some(u) == actor || u >= |w.tasks|) ==> TaskOk(cfg, w'.tasks[u].pc)
    requires forall c :: 0 <= c < |w'.chans| && (c >= |w.chans| || Singleflight.LedByActor(w, actor, c)) ==>
        ChanOk(cfg, w', c)
    ensures LookupsOk(cfg, w')
  {
    forall c | 0 <= c < |w'.chans|
      ensures ChanOk(cfg, w', c)
    {
      if c < |w.chans| && !Singleflight.LedByActor(w, actor, c) {
        assert ChanOk(cfg, w, c);
        assert w'.chans[c] == w.chans[c];
      }
    }
  }

  /** A program counter that remembers no consulted project. */
  predicate Blank(pc: Pc) {
    !pc.Collecting? && !pc.Refreshing? && (pc.Filtering? ==> pc.consulted == [])
  }

  /** Channels, requests and other tasks stay; tasks that move or arrive remember no consulted project. */
  ghost predicate IdleTo(w: World, w': World) {
    && |w.tasks| <= |w'.tasks| && w'.chans == w.chans
    && (forall u :: 0 <= u < |w.tasks| ==> w'.tasks[u].request == w.tasks[u].request)
    && (forall u :: 0 <= u < |w'.tasks| && (u >= |w.tasks| || w'.tasks[u] != w.tasks[u]) ==> Blank(w'.tasks[u].pc))
  }

  predicate Idle(s: Step) {
    !s.Filter? && !s.Collect? && !s.StopCollecting? && !s.Publish? && !s.Join?
  }

  lemma IdleLookups(cfg: Config, w: World, s: Step)
    requires LookupsOk(cfg, w) && Idle(s) && Enabled(cfg, w, s)
    ensures LookupsOk(cfg, Apply(cfg, w, s))
  {
    IdleMove(cfg, w, s);
    var w' := Apply(cfg, w, s);
    hide Apply, Enabled, Key;
    forall c | 0 <= c < |w.chans|
      ensures ChanOk(cfg, w', c)
    {
      assert ChanOk(cfg, w, c);
    }
  }

  lemma IdleMove(cfg: Config, w: World, s: Step)
    requires Idle(s) && Enabled(cfg, w, s)
    ensures IdleTo(w, Apply(cfg, w, s))
  {
    hide IdleTo, ApplyLookUp, ApplyStore, ApplyStoreImage, ApplyFetch, Goto;
    match s
    case LookUp(t, now) => LookUpIdles(cfg, w, t, now);
    case Store(t, now) => StoreIdles(cfg, w, t, now);
    case StoreImage(t) => StoreImageIdles(w, t);
    case Background(b) =>
      Singleflight.AmbientFootprint(cfg, w, b);
      SameIdles(w, ApplyAmbient(cfg, w, b));
      hide ApplyAmbient;
    case Arrive(r) => ArriveIdles(w, r);
    case _ => SimpleIdles(cfg, w, s);
  }

  lemma LookUpIdles(cfg: Config, w: World, t: nat, now: nat)
    requires t < |w.tasks|
    ensures IdleTo(w, ApplyLookUp(cfg, w, t, now))
  {
    hide IdleTo, Key, ReadEntry, IsStale, FanOut.NotFoundText;
    GotoIdles(w, ApplyLookUp(cfg, w, t, now), t, AfterLookUp(cfg, w.cache, w.tasks[t].request, now));
  }

  lemma StoreIdles(cfg: Config, w: World, t: nat, now: nat)
    requires t < |w.tasks| && (w.tasks[t].pc.Storing? || w.tasks[t].pc.Refreshing?)
    ensures IdleTo(w, ApplyStore(cfg, w, t, now))
  {
    hide IdleTo, WithReply, Key;
    GotoIdles(w, ApplyStore(cfg, w, t, now), t, AfterStore(w.tasks[t].pc));
  }

  lemma SameIdles(w: World, w': World)
    requires w'.tasks == w.tasks && w'.chans == w.chans
    ensures IdleTo(w, w')
  {
  }

  lemma ArriveIdles(w: World, r: Request)
    ensures IdleTo(w, w.(tasks := w.tasks + [Task(r, LookingUp)]))
  {
  }

  lemma StoreImageIdles(w: World, t: nat)
    requires t < |w.tasks|
    ensures IdleTo(w, ApplyStoreImage(w, t))
  {
    hide IdleTo, WithImage, CacheKeys.ImageKey;
    GotoIdles(w, ApplyStoreImage(w, t), t, AfterImage(w.tasks[t].pc));
  }

  lemma GotoIdles(w: World, w': World, t: nat, pc: Pc)
    requires t < |w.tasks| && w'.tasks == w.tasks[t := w.tasks[t].(pc := pc)] && w'.chans == w.chans && Blank(pc)
    ensures IdleTo(w, w')
  {
  }

  lemma FetchIdles(w: World, t: nat, outcome: Reply)
    requires t < |w.tasks| && w.tasks[t].pc.Fetching?
    ensures IdleTo(w, ApplyFetch(w, t, outcome))
  {
    hide FanOut.Is200;
  }

  lemma SimpleIdles(cfg: Config, w: World, s: Step)
    requires s.Fetch? || s.Evict? || s.Subscribe? || s.Peek? || s.Receive? || s.SendersGone? || s.TimeOut? || s.Remove?
        || s.Cancel?
    requires Enabled(cfg, w, s)
    ensures IdleTo(w, Apply(cfg, w, s))
  {
    hide Key, SomeSender, IdleTo, ApplyFetch;
    if s.Fetch? { FetchIdles(w, s.t, s.outcome); }
    else {
      var w' := Apply(cfg, w, s);
      GotoIdles(w, w', s.t, w'.tasks[s.t].pc);
    }
  }

  lemma ReturnLookups(cfg: Config, w: World, t: nat, role: Role, consulted: seq<string>, arrivals: seq<Arrival>,
      reply: Reply)
    requires Singleflight.Inv(w) && LookupsOk(cfg, w) && t < |w.tasks| && (role.Leader? ==> role.chan < |w.chans|)
    requires w.tasks[t].pc.Filtering? || w.tasks[t].pc.Collecting?
    requires w.tasks[t].pc.role == role
    requires role.Leader? ==>
               LookupOk(cfg, w.tasks[t].request,
                   w.chans[role.chan].(consulted := consulted, arrivals := arrivals, reply := Some(reply)))
    requires reply.Ok? ==> reply.value.project in cfg.projects
    ensures LookupsOk(cfg, Return(w, t, role, consulted, arrivals, reply))
  {
    var w' := Return(w, t, role, consulted, arrivals, reply);
    assert Singleflight.TaskOk(w, t);
    hide Key, LookupOk;
    assert Singleflight.OnlyMoves(w, w', Some(t));
    KeepLookups(cfg, w, w', Some(t));
  }

  lemma FilterLookups(cfg: Config, w: World, t: nat, now: nat)
    requires Singleflight.Inv(w) && LookupsOk(cfg, w) && Enabled(cfg, w, Filter(t, now))
    ensures LookupsOk(cfg, ApplyFilter(cfg, w, t, now))
  {
    var Filtering(role, next, consulted) := w.tasks[t].pc;
    assert TaskOk(cfg, w.tasks[t].pc);
    hide Singleflight.Inv, Breaker.Replay, Breaker.Admits, Key, MayStop, LookupReply;
    if cfg.projects == [] { ReturnLookups(cfg, w, t, role, [], [], Err(FanOut.NO_PROJECTS)); }
    else if next >= Limit(cfg) && consulted == [] {
      ReturnLookups(cfg, w, t, role, [], [], Err(FanOut.NONE_AVAILABLE));
    } else {
      hide LookupsOk;
      FilterOnLookups(cfg, w, t, now);
    }
  }

  lemma FilterOnLookups(cfg: Config, w: World, t: nat, now: nat)
    requires LookupsOk(cfg, w) && Enabled(cfg, w, Filter(t, now))
    requires cfg.projects != [] && (w.tasks[t].pc.next < Limit(cfg) || w.tasks[t].pc.consulted != [])
    ensures LookupsOk(cfg, ApplyFilter(cfg, w, t, now))
  {
    var w' := ApplyFilter(cfg, w, t, now);
    assert TaskOk(cfg, w.tasks[t].pc);
    hide Breaker.Replay, Breaker.Admits, Return, ArrivalsOk;
    assert TaskOk(cfg, w'.tasks[t].pc);
    SameChansLookups(cfg, w, w', t);
  }

  lemma SameChansLookups(cfg: Config, w: World, w': World, t: nat)
    requires LookupsOk(cfg, w) && t < |w.tasks| && w'.chans == w.chans
    requires |w'.tasks| == |w.tasks| && w'.tasks == w.tasks[t := w.tasks[t].(pc := w'.tasks[t].pc)]
        && TaskOk(cfg, w'.tasks[t].pc)
    ensures LookupsOk(cfg, w')
  {
    hide LookupOk, Key;
    forall c | 0 <= c < |w.chans|
      ensures ChanOk(cfg, w', c)
    {
      assert ChanOk(cfg, w, c);
    }
  }

  lemma CollectLookups(cfg: Config, w: World, s: Step)
    requires LookupsOk(cfg, w) && s.Collect? && Enabled(cfg, w, s) && PlainErrors(s)
    ensures LookupsOk(cfg, Apply(cfg, w, s))
  {
    var t, pc := s.t, w.tasks[s.t].pc;
    assert TaskOk(cfg, pc);
    hide Matched, BreakerEvents, FanOut.IsAllProjectsNon200, Key;
    var w' := Apply(cfg, w, s);
    var arrivals := pc.arrivals + [Arrival(s.index, s.outcome)];
    assert ArrivalsOk(pc.consulted, arrivals) by {
      assert forall n :: 0 <= n < |pc.arrivals| ==> arrivals[n] == pc.arrivals[n];
    }
    assert TaskOk(cfg, w'.tasks[t].pc);
    SameChansLookups(cfg, w, w', t);
  }

  lemma StopLookups(cfg: Config, w: World, t: nat)
    requires Singleflight.Inv(w) && LookupsOk(cfg, w) && Enabled(cfg, w, StopCollecting(t))
    ensures LookupsOk(cfg, Apply(cfg, w, StopCollecting(t)))
  {
    var pc := w.tasks[t].pc;
    assert TaskOk(cfg, pc);
    if LookupReply(w.tasks[t].request, pc.arrivals).Ok? {
      VerdictIsKnown(cfg, w.tasks[t].request, pc.consulted, pc.arrivals);
    }
    hide Singleflight.Inv, MayStop, LookupReply, Return, ArrivalsOk;
    ReturnLookups(cfg, w, t, pc.role, pc.consulted, pc.arrivals, LookupReply(w.tasks[t].request, pc.arrivals));
  }

  lemma JoinLookups(cfg: Config, w: World, t: nat)
    requires LookupsOk(cfg, w) && t < |w.tasks|
    ensures LookupsOk(cfg, ApplyJoin(w, t))
  {
    hide Key, MayStop, LookupReply;
    var w' := ApplyJoin(w, t);
    forall c | 0 <= c < |w'.chans|
      ensures ChanOk(cfg, w', c)
    {
      if c < |w.chans| { assert ChanOk(cfg, w, c); }
    }
  }

  lemma PublishLookups(cfg: Config, w: World, t: nat)
    requires LookupsOk(cfg, w) && t < |w.tasks| && w.tasks[t].pc.Publishing? && w.tasks[t].pc.chan < |w.chans|
    ensures LookupsOk(cfg, ApplyPublish(w, t))
  {
    hide Key, MayStop, LookupReply, SomeReceiver, ArrivalsOk;
    var w' := ApplyPublish(w, t);
    forall c | 0 <= c < |w'.chans|
      ensures ChanOk(cfg, w', c)
    {
      assert ChanOk(cfg, w, c);
    }
  }

  lemma StepKeepsLookups(cfg: Config, w: World, s: Step)
    requires Singleflight.Inv(w) && LookupsOk(cfg, w) && Enabled(cfg, w, s) && PlainErrors(s)
    ensures LookupsOk(cfg, Apply(cfg, w, s))
  {
    hide LookupsOk, Singleflight.Inv, ApplyJoin, ApplyFilter, ApplyPublish, ApplyLookUp, ApplyFetch, ApplyStore,
        ApplyStoreImage, ApplyAmbient, Return, Goto;
    match s
    case Filter(t, now) => FilterLookups(cfg, w, t, now);
    case Collect(_, _, _, _) => CollectLookups(cfg, w, s);
    case StopCollecting(t) => StopLookups(cfg, w, t);
    case Join(t) => JoinLookups(cfg, w, t);
    case Publish(t) => PublishLookups(cfg, w, t);
    case _ => IdleLookups(cfg, w, s);
  }

  // ----- what is written -----

  /** Every value a step puts under a manifest key is no sentinel, or is one backed by a unanimous lookup. */
  ghost predicate WritesWell(cfg: Config, w: World, w': World) {
    forall key :: ReadsNegative(cfg, w'.cache, key) && !CacheKeys.OtherFamily(key) ==>
      ReadsNegative(cfg, w.cache, key) || Witnessed(w.chans, key)
  }

  lemma ImageKeysAreOther(image: string)
    ensures CacheKeys.OtherFamily(CacheKeys.ImageKey(image))
  {
  }

  lemma ValueIsNoSentinel(cfg: Config, project: string, now: nat)
    requires project != CacheCodec.NEGATIVE_SENTINEL && now <= CacheCodec.U64_MAX
    ensures ReadEntry(cfg, CacheValue(cfg, project, now)).0 != CacheCodec.NEGATIVE_SENTINEL
    ensures ReadEntry(cfg, CacheCodec.Encode(project, now)).0 != CacheCodec.NEGATIVE_SENTINEL
  {
    CacheCodec.EncodedIsNotSentinel(project, now);
    CacheCodec.EncodedSentinelIff(project, now);
    hide CacheCodec.Decode, CacheCodec.Encode;
  }

  /** The reply that reaches the cache: the sentinel is written exactly for a unanimous flight. */
  lemma StoringIff(cfg: Config, w: World, t: nat)
    requires Singleflight.Inv(w) && LookupsOk(cfg, w) && t < |w.tasks| && w.tasks[t].pc.Storing?
        && w.tasks[t].pc.reply.Err?
    ensures
      var Storing(reply, via) := w.tasks[t].pc;
      FanOut.IsAllProjectsNon200(reply.error) <==>
      via.Some? && via.value < |w.chans| && w.chans[via.value].key == Key(w.tasks[t].request)
          && Unanimous(w.chans[via.value])
  {
    assert Singleflight.TaskOk(w, t);
    var Storing(reply, via) := w.tasks[t].pc;
    hide Singleflight.Inv, FanOut.IsAllProjectsNon200, Key, MayStop, LookupReply, Unanimous;
    if via.None? { TimeoutIsNotClassified(); }
    else {
      assert ChanOk(cfg, w, via.value);
      ClassifiedIffUnanimous(cfg, w.tasks[w.chans[via.value].leader].request, w.chans[via.value]);
    }
  }

  lemma FoundIsKnown(cfg: Config, w: World, t: nat)
    requires Singleflight.Inv(w) && LookupsOk(cfg, w) && t < |w.tasks| && w.tasks[t].pc.Storing?
        && w.tasks[t].pc.reply.Ok?
    ensures w.tasks[t].pc.reply.value.project in cfg.projects
  {
    assert Singleflight.TaskOk(w, t);
    var c := w.tasks[t].pc.via.value;
    assert ChanOk(cfg, w, c);
    var chan, r := w.chans[c], w.tasks[w.chans[c].leader].request;
    VerdictIsKnown(cfg, r, chan.consulted, chan.arrivals);
  }

  lemma VerdictIsKnown(cfg: Config, r: Request, consulted: seq<string>, arrivals: seq<Arrival>)
    requires Known(cfg, consulted) && ArrivalsOk(consulted, arrivals) && LookupReply(r, arrivals).Ok?
    ensures LookupReply(r, arrivals).value.project in cfg.projects
  {
    var seen, ok := Outcomes(arrivals), FanOut.Accepting(r.accept);
    hide FanOut.Accepting, FanOut.IsAllProjectsNon200;
    var reply := LookupReply(r, arrivals);
    assert reply in seen;
    var n :| 0 <= n < |seen| && seen[n] == reply;
    assert arrivals[n].outcome == reply;
  }

  lemma StoreWritesWell(cfg: Config, w: World, t: nat, now: nat)
    requires Singleflight.Inv(w) && LookupsOk(cfg, w) && NoSentinelProject(cfg)
    requires t < |w.tasks| && (w.tasks[t].pc.Storing? || w.tasks[t].pc.Refreshing?) && now <= CacheCodec.U64_MAX
    ensures WritesWell(cfg, w, ApplyStore(cfg, w, t, now))
  {
    match w.tasks[t].pc
    case Refreshing(project) =>
      assert TaskOk(cfg, w.tasks[t].pc);
      ValueIsNoSentinel(cfg, project, now);
      hide Key, Singleflight.Inv, LookupsOk, CacheCodec.Encode, CacheKeys.OtherFamily, ReadEntry;
    case Storing(Ok(r), via) =>
      FoundIsKnown(cfg, w, t);
      ValueIsNoSentinel(cfg, r.project, now);
      hide Key, Singleflight.Inv, LookupsOk, CacheValue, CacheKeys.OtherFamily, ReadEntry;
    case Storing(Err(text), via) =>
      StoringIff(cfg, w, t);
      hide Key, Singleflight.Inv, LookupsOk, FanOut.IsAllProjectsNon200, Unanimous, CacheKeys.OtherFamily, ReadEntry;
  }

  lemma AmbientWritesWell(cfg: Config, w: World, b: Ambient)
    requires WarmOk(w) && AmbientEnabled(w, b)
    ensures WritesWell(cfg, w, ApplyAmbient(cfg, w, b))
  {
    match b
    case WarmKey(key, now) =>
      ValueIsNoSentinel(cfg, w.warming[key], now);
      hide CacheValue, CacheKeys.OtherFamily, IsSafeProjectName, ReadEntry;
    case WarmImage(key) =>
      ImageKeysAreOther(Before(key, ':'));
      hide CacheKeys.ImageKey, CacheKeys.OtherFamily, IsSafeProjectName, Before, ReadEntry;
    case _ => hide CacheKeys.OtherFamily, IsSafeProjectName, CacheCodec.Decode, ReadEntry;
  }

  lemma StoreImageWritesWell(cfg: Config, w: World, t: nat)
    requires t < |w.tasks|
    ensures WritesWell(cfg, w, ApplyStoreImage(w, t))
  {
    ImageKeysAreOther(w.tasks[t].request.image);
    hide CacheKeys.ImageKey, CacheKeys.OtherFamily, Key, ReadEntry;
  }

  lemma EvictWritesWell(cfg: Config, w: World, t: nat)
    requires Enabled(cfg, w, Evict(t))
    ensures WritesWell(cfg, w, Apply(cfg, w, Evict(t)))
  {
    hide CacheKeys.OtherFamily, Key, ReadEntry;
  }

  lemma StepWritesWell(cfg: Config, w: World, s: Step)
    requires Singleflight.Inv(w) && LookupsOk(cfg, w) && WarmOk(w) && NoSentinelProject(cfg) && Enabled(cfg, w, s)
    ensures WritesWell(cfg, w, Apply(cfg, w, s))
  {
    hide Singleflight.Inv, LookupsOk, WarmOk, NoSentinelProject, WritesWell, ApplyStore, ApplyStoreImage, ApplyAmbient,
        Goto;
    match s
    case Store(t, now) => StoreWritesWell(cfg, w, t, now);
    case StoreImage(t) => StoreImageWritesWell(cfg, w, t);
    case Evict(t) => EvictWritesWell(cfg, w, t);
    case Background(b) => AmbientWritesWell(cfg, w, b);
    case _ => Singleflight.OnlyWritersWrite(cfg, w, s); SameWritesWell(cfg, w, Apply(cfg, w, s)); hide Apply, Enabled;
  }

  lemma SameWritesWell(cfg: Config, w: World, w': World)
    requires w'.cache == w.cache
    ensures WritesWell(cfg, w, w')
  {
  }

  lemma AmbientKeepsWarmth(cfg: Config, w: World, b: Ambient)
    requires WarmOk(w) && AmbientEnabled(w, b)
    ensures WarmOk(ApplyAmbient(cfg, w, b))
  {
    if b.PersistRead? {
      hide IsSafeProjectName, CacheCodec.Decode;
    } else {
      hide NoSentinel, IsSafeProjectName, CacheValue, CacheKeys.ImageKey, Before, CacheKeys.OtherFamily;
      EmptyHasNoSentinel();
    }
  }

  lemma EmptyHasNoSentinel()
    ensures NoSentinel(map[])
  {
  }

  lemma StepKeepsWarmth(cfg: Config, w: World, s: Step)
    requires WarmOk(w) && Enabled(cfg, w, s)
    ensures WarmOk(Apply(cfg, w, s))
  {
    if s.Background? {
      AmbientKeepsWarmth(cfg, w, s.b);
      hide ApplyAmbient, AmbientEnabled, WarmOk;
    } else {
      Singleflight.OnlyWritersWrite(cfg, w, s);
      hide Apply, Enabled, NoSentinel;
    }
  }

  lemma StepKeepsInv(cfg: Config, w: World, s: Step)
    requires Singleflight.Inv(w) && Inv(cfg, w) && NoSentinelProject(cfg) && Enabled(cfg, w, s) && PlainErrors(s)
    ensures Inv(cfg, Apply(cfg, w, s))
  {
    var w' := Apply(cfg, w, s);
    StepKeepsLookups(cfg, w, s);
    StepKeepsWarmth(cfg, w, s);
    StepWritesWell(cfg, w, s);
    forall c | 0 <= c < |w.chans| && w.chans[c].reply.Some?
      ensures
        && c < |w'.chans| && w'.chans[c].key == w.chans[c].key && w'.chans[c].reply == w.chans[c].reply
        && w'.chans[c].consulted == w.chans[c].consulted && w'.chans[c].arrivals == w.chans[c].arrivals
    {
      RepliesStay(cfg, w, s, c);
    }
    Singleflight.Footprint(cfg, w, s);
    hide Apply, Enabled, Singleflight.Inv, LookupsOk, WarmOk, CacheKeys.OtherFamily, Witnessed;
    forall key | Witnessed(w.chans, key)
      ensures Witnessed(w'.chans, key)
    {
      WitnessStays(w, w', key);
    }
  }

  lemma {:induction false} RunKeepsInv(cfg: Config, w: World, steps: seq<Step>)
    requires Singleflight.Inv(w) && Inv(cfg, w) && NoSentinelProject(cfg) && Legal(cfg, w, steps)
    requires forall i :: 0 <= i < |steps| ==> PlainErrors(steps[i])
    ensures Singleflight.Inv(Run(cfg, w, steps)) && Inv(cfg, Run(cfg, w, steps))
    decreases |steps|
  {
    if steps != [] {
      Singleflight.StepKeepsInv(cfg, w, steps[0]);
      StepKeepsInv(cfg, w, steps[0]);
      var w' := Apply(cfg, w, steps[0]);
      hide Apply, Enabled, Inv, Singleflight.Inv;
      RunKeepsInv(cfg, w', steps[1..]);
    }
  }

  /** For all runs in which no answer's error text holds the phrase: a task, leader or follower, that is about
      to cache an error caches the sentinel exactly when its flight consulted some project and every consulted
      project answered with a status other than 200. */
  lemma SentinelIffUnanimous(cfg: Config, hot: map<string, string>, steps: seq<Step>, t: nat)
    requires NoSentinelProject(cfg) && NoSentinel(hot) && Legal(cfg, Init(hot), steps)
    requires forall i :: 0 <= i < |steps| ==> PlainErrors(steps[i])
    requires
      var w := Run(cfg, Init(hot), steps);
      t < |w.tasks| && w.tasks[t].pc.Storing? && w.tasks[t].pc.reply.Err?
    ensures
      var w := Run(cfg, Init(hot), steps);
      var via := w.tasks[t].pc.via;
      FanOut.IsAllProjectsNon200(w.tasks[t].pc.reply.error) <==>
      via.Some? && via.value < |w.chans| && w.chans[via.value].key == Key(w.tasks[t].request)
          && Unanimous(w.chans[via.value])
  {
    RunKeepsInv(cfg, Init(hot), steps);
    var w := Run(cfg, Init(hot), steps);
    hide Run, Legal, FanOut.IsAllProjectsNon200, Key;
    StoringIff(cfg, w, t);
  }

  /** And whenever, in any reachable state, a request would be answered "not found" from the cache, a completed flight
      of its very key is on record in which every consulted project denied the image. */
  lemma CachedSentinelIsBacked(cfg: Config, hot: map<string, string>, steps: seq<Step>, r: Request, now: nat)
    requires NoSentinelProject(cfg) && NoSentinel(hot) && Legal(cfg, Init(hot), steps)
    requires forall i :: 0 <= i < |steps| ==> PlainErrors(steps[i])
    requires CacheKeys.PlainImage(r.image)
    ensures
      var w := Run(cfg, Init(hot), steps);
      AfterLookUp(cfg, w.cache, r, now).Finished? ==> Witnessed(w.chans, Key(r))
  {
    RunKeepsInv(cfg, Init(hot), steps);
    CacheKeys.FamiliesDisjoint(r.image, r.reference);
    hide Run, Legal, Witnessed, CacheKeys.OtherFamily, ReadEntry, IsStale, FanOut.NotFoundText;
  }
}
