/** The cache-hit path for any upstream, steady or not: what a request does with the answer of its cached project, and
    that whatever a request finally answers as found is a 200. */
module CacheHits {
  import opened Text
  import opened Resolver
  import Breaker
  import CacheCodec
  import CacheKeys
  import FanOut
  import Singleflight

  // ----- every answer is a 200 -----

  predicate Ok200(reply: Reply) {
    reply.Ok? ==> reply.value.status == 200
  }

  /** A reply that a task carries, if any, is an error or a 200. */
  predicate Carries200(pc: Pc) {
    match pc
    case Publishing(_, reply) => Ok200(reply)
    case Removing(_, reply) => Ok200(reply)
    case Storing(reply, _) => Ok200(reply)
    case StoringImage(reply, _) => Ok200(reply)
    case Finished(reply) => Ok200(reply)
    case _ => true
  }

  predicate ChanOf200(c: Chan) {
    (c.value.Some? ==> Ok200(c.value.value)) && (c.reply.Some? ==> Ok200(c.reply.value))
  }

  ghost predicate All200(w: World) {
    && (forall t :: 0 <= t < |w.tasks| ==> Carries200(w.tasks[t].pc))
    && (forall c :: 0 <= c < |w.chans| ==> ChanOf200(w.chans[c]))
  }

  /** One task moves, others may arrive that carry nothing, and the channels stay. */
  lemma MoveKeeps200(w: World, w': World, t: nat)
    requires All200(w) && t < |w.tasks| <= |w'.tasks| && w'.chans == w.chans
    requires forall u :: 0 <= u < |w.tasks| && u != t ==> w'.tasks[u] == w.tasks[u]
    requires forall u :: |w.tasks| <= u < |w'.tasks| ==> Singleflight.Newcomer(w'.tasks[u].pc)
    requires Carries200(w'.tasks[t].pc)
    ensures All200(w')
  {
    hide ChanOf200;
    forall u | 0 <= u < |w'.tasks| ensures Carries200(w'.tasks[u].pc) {
      if u >= |w.tasks| { assert Singleflight.Newcomer(w'.tasks[u].pc); }
    }
  }

  lemma LookupIs200(r: Request, arrivals: seq<Arrival>)
    ensures Ok200(LookupReply(r, arrivals))
  {
    hide FanOut.Accepting, FanOut.NotFoundText;
  }

  lemma ReturnKeeps200(w: World, t: nat, role: Role, consulted: seq<string>, arrivals: seq<Arrival>, reply: Reply)
    requires All200(w) && t < |w.tasks| && (role.Leader? ==> role.chan < |w.chans|) && Ok200(reply)
    ensures All200(Return(w, t, role, consulted, arrivals, reply))
  {
    hide Ok200;
  }

  lemma FilterKeeps200(cfg: Config, w: World, t: nat, now: nat)
    requires All200(w) && t < |w.tasks| && w.tasks[t].pc.Filtering? && LeadsChan(w, t)
    ensures All200(ApplyFilter(cfg, w, t, now))
  {
    var role := w.tasks[t].pc.role;
    ReturnKeeps200(w, t, role, [], [], Err(FanOut.NO_PROJECTS));
    ReturnKeeps200(w, t, role, [], [], Err(FanOut.NONE_AVAILABLE));
    hide Return, Limit, Breaker.Admits, Breaker.Replay, Ok200;
  }

  lemma PublishKeeps200(w: World, t: nat)
    requires All200(w) && t < |w.tasks| && w.tasks[t].pc.Publishing? && w.tasks[t].pc.chan < |w.chans|
    ensures All200(ApplyPublish(w, t))
  {
    assert Carries200(w.tasks[t].pc);
    hide SomeReceiver, Ok200;
  }

  lemma JoinKeeps200(w: World, t: nat)
    requires All200(w) && t < |w.tasks|
    ensures All200(ApplyJoin(w, t))
  {
    hide Key, Ok200;
  }

  lemma FetchKeeps200(w: World, t: nat, outcome: Reply)
    requires All200(w) && t < |w.tasks| && w.tasks[t].pc.Fetching?
    ensures All200(ApplyFetch(w, t, outcome))
  {
    var w' := ApplyFetch(w, t, outcome);
    assert Carries200(w'.tasks[t].pc);
    hide All200, Carries200;
    MoveKeeps200(w, w', t);
  }

  lemma LookUpKeeps200(cfg: Config, w: World, t: nat, now: nat)
    requires All200(w) && t < |w.tasks|
    ensures All200(ApplyLookUp(cfg, w, t, now))
  {
    var w' := ApplyLookUp(cfg, w, t, now);
    assert Carries200(AfterLookUp(cfg, w.cache, w.tasks[t].request, now));
    hide All200, Carries200, AfterLookUp;
    MoveKeeps200(w, w', t);
  }

  lemma StoreKeeps200(cfg: Config, w: World, t: nat, now: nat)
    requires All200(w) && t < |w.tasks|
    ensures All200(ApplyStore(cfg, w, t, now))
  {
    hide WithReply, Key;
    assert Carries200(w.tasks[t].pc);
    var w' := ApplyStore(cfg, w, t, now);
    assert Carries200(w'.tasks[t].pc);
    hide All200, Carries200;
    MoveKeeps200(w, w', t);
  }

  lemma StoreImageKeeps200(w: World, t: nat)
    requires All200(w) && t < |w.tasks|
    ensures All200(ApplyStoreImage(w, t))
  {
    hide WithImage, CacheKeys.ImageKey;
    assert Carries200(w.tasks[t].pc);
    var w' := ApplyStoreImage(w, t);
    assert Carries200(w'.tasks[t].pc);
    hide All200, Carries200;
    MoveKeeps200(w, w', t);
  }

  lemma SimpleKeeps200(cfg: Config, w: World, s: Step)
    requires s.Evict? || s.Subscribe? || s.Peek? || s.Receive? || s.SendersGone? || s.TimeOut? || s.Remove? || s.Cancel?
             || s.Collect?
    requires All200(w) && Enabled(cfg, w, s)
    ensures All200(Apply(cfg, w, s))
  {
    hide Key, SomeSender, Matched, BreakerEvents;
    var t, w' := s.t, Apply(cfg, w, s);
    assert Carries200(w.tasks[t].pc);
    assert s.Peek? || s.Receive? ==> ChanOf200(w.chans[w.tasks[t].pc.chan]);
    assert Carries200(w'.tasks[t].pc);
    hide All200, Carries200, ChanOf200;
    MoveKeeps200(w, w', t);
  }

  lemma ArriveKeeps200(w: World, r: Request)
    requires All200(w)
    ensures All200(w.(tasks := w.tasks + [Task(r, LookingUp)]))
  {
  }

  lemma StepKeeps200(cfg: Config, w: World, s: Step)
    requires All200(w) && Enabled(cfg, w, s)
    ensures All200(Apply(cfg, w, s))
  {
    hide All200, ApplyJoin, ApplyFilter, ApplyPublish, ApplyLookUp, ApplyFetch, ApplyStore, ApplyStoreImage, Return,
        Goto;
    match s
    case Arrive(r) => ArriveKeeps200(w, r);
    case LookUp(t, now) => LookUpKeeps200(cfg, w, t, now);
    case Fetch(t, outcome) => FetchKeeps200(w, t, outcome);
    case Join(t) => JoinKeeps200(w, t);
    case Filter(t, now) => FilterKeeps200(cfg, w, t, now);
    case StopCollecting(t) =>
      var pc := w.tasks[t].pc;
      LookupIs200(w.tasks[t].request, pc.arrivals);
      ReturnKeeps200(w, t, pc.role, pc.consulted, pc.arrivals, LookupReply(w.tasks[t].request, pc.arrivals));
      hide LookupReply;
    case Publish(t) => PublishKeeps200(w, t);
    case Store(t, now) => StoreKeeps200(cfg, w, t, now);
    case StoreImage(t) => StoreImageKeeps200(w, t);
    case Background(b) =>
      Singleflight.AmbientFootprint(cfg, w, b);
      SameTasksSame200(w, ApplyAmbient(cfg, w, b));
      hide ApplyAmbient;
    case _ => SimpleKeeps200(cfg, w, s);
  }

  lemma SameTasksSame200(w: World, w': World)
    requires All200(w) && w'.tasks == w.tasks && w'.chans == w.chans
    ensures All200(w')
  {
  }

  lemma {:induction false} RunKeeps200(cfg: Config, w: World, steps: seq<Step>)
    requires All200(w) && Legal(cfg, w, steps)
    ensures All200(Run(cfg, w, steps))
    decreases |steps|
  {
    hide All200, Apply, Enabled;
    if steps != [] {
      StepKeeps200(cfg, w, steps[0]);
      RunKeeps200(cfg, Apply(cfg, w, steps[0]), steps[1..]);
    }
  }

  /** Whatever the projects answer, in any run: a request that ends with a response ends with a 200. */
  lemma FoundMeans200(cfg: Config, hot: map<string, string>, steps: seq<Step>, t: nat)
    requires Legal(cfg, Init(hot), steps) && t < |Run(cfg, Init(hot), steps).tasks|
    ensures
      var pc := Run(cfg, Init(hot), steps).tasks[t].pc;
      pc.Finished? && pc.reply.Ok? ==> pc.reply.value.status == 200
  {
    RunKeeps200(cfg, Init(hot), steps);
    assert Carries200(Run(cfg, Init(hot), steps).tasks[t].pc);
  }

  // ----- a cached project that does not answer 200 -----

  /** The steps of one task in a run, in order. */
  function OwnTrace(steps: seq<Step>, t: nat): seq<Step> {
    if steps == [] then []
    else (if Singleflight.Actor(steps[0]) == Some(t) then [steps[0]] else []) + OwnTrace(steps[1..], t)
  }

  lemma NotOwnNotMoved(cfg: Config, w: World, s: Step, t: nat)
    requires Enabled(cfg, w, s) && t < |w.tasks| && Singleflight.Actor(s) != Some(t)
    ensures t < |Apply(cfg, w, s).tasks| && Apply(cfg, w, s).tasks[t] == w.tasks[t]
  {
    Singleflight.Footprint(cfg, w, s);
    hide Apply, Enabled;
  }

  /** A task stands still while others move. */
  lemma {:induction false} StandsStill(cfg: Config, w: World, steps: seq<Step>, t: nat)
    requires Legal(cfg, w, steps) && t < |w.tasks| && OwnTrace(steps, t) == []
    ensures t < |Run(cfg, w, steps).tasks| && Run(cfg, w, steps).tasks[t] == w.tasks[t]
    decreases |steps|
  {
    hide Apply, Enabled;
    if steps != [] {
      NotOwnNotMoved(cfg, w, steps[0], t);
      StandsStill(cfg, Apply(cfg, w, steps[0]), steps[1..], t);
    }
  }

  lemma OwnStepAtEvicting(cfg: Config, w: World, s: Step, t: nat)
    requires Enabled(cfg, w, s) && t < |w.tasks| && w.tasks[t].pc.Evicting? && Singleflight.Actor(s) == Some(t)
    ensures s == Evict(t) || s == Cancel(t)
    ensures t < |Apply(cfg, w, s).tasks| && Apply(cfg, w, s).tasks[t].pc == if s == Evict(t) then Joining else Cancelled
    ensures s == Evict(t) ==> Key(w.tasks[t].request) !in Apply(cfg, w, s).cache
  {
    hide Key;
  }

  lemma OwnStepAtJoining(cfg: Config, w: World, s: Step, t: nat)
    requires Enabled(cfg, w, s) && t < |w.tasks| && w.tasks[t].pc.Joining? && Singleflight.Actor(s) == Some(t)
    ensures s == Join(t) || s == Cancel(t)
    ensures s == Cancel(t) ==> t < |Apply(cfg, w, s).tasks| && Apply(cfg, w, s).tasks[t].pc == Cancelled
  {
    hide ApplyJoin;
  }

  lemma {:induction false} CancelledIsOver(cfg: Config, w: World, steps: seq<Step>, t: nat)
    requires Legal(cfg, w, steps) && t < |w.tasks| && w.tasks[t].pc == Cancelled
    ensures OwnTrace(steps, t) == [] && t < |Run(cfg, w, steps).tasks| && Run(cfg, w, steps).tasks[t].pc == Cancelled
    decreases |steps|
  {
    if steps != [] {
      Singleflight.NoStepAfterCancel(cfg, w, steps[0], t);
      NotOwnNotMoved(cfg, w, steps[0], t);
      hide Apply, Enabled;
      CancelledIsOver(cfg, Apply(cfg, w, steps[0]), steps[1..], t);
    }
  }

  /** The next own step of a task at `Joining` is to join. */
  ghost predicate JoinsNext(trace: seq<Step>, t: nat, pc: Pc) {
    && (trace == [] ==> pc == Joining)
    && (trace != [] ==> trace[0] == Join(t) || (trace == [Cancel(t)] && pc == Cancelled))
  }

  lemma {:induction false} FromJoining(cfg: Config, w: World, steps: seq<Step>, t: nat)
    requires Legal(cfg, w, steps) && t < |w.tasks| && w.tasks[t].pc == Joining
    ensures
      var w' := Run(cfg, w, steps);
      t < |w'.tasks| && JoinsNext(OwnTrace(steps, t), t, w'.tasks[t].pc)
    decreases |steps|
  {
    if steps != [] {
      var w' := Apply(cfg, w, steps[0]);
      if Singleflight.Actor(steps[0]) == Some(t) {
        OwnStepAtJoining(cfg, w, steps[0], t);
        TasksRemain(cfg, w, steps, t);
        if steps[0] == Cancel(t) { CancelledIsOver(cfg, w', steps[1..], t); }
      } else {
        NotOwnNotMoved(cfg, w, steps[0], t);
        FromJoining(cfg, w', steps[1..], t);
      }
      hide Apply, Enabled;
    }
  }

  lemma {:induction false} TasksRemain(cfg: Config, w: World, steps: seq<Step>, t: nat)
    requires Legal(cfg, w, steps) && t < |w.tasks|
    ensures t < |Run(cfg, w, steps).tasks|
    decreases |steps|
  {
    if steps != [] {
      Singleflight.Footprint(cfg, w, steps[0]);
      hide Apply, Enabled;
      TasksRemain(cfg, Apply(cfg, w, steps[0]), steps[1..], t);
    }
  }

  /** The next own steps of a task at `Evicting` are to evict and to join. */
  ghost predicate EvictsAndJoins(trace: seq<Step>, t: nat, pc: Pc) {
    && (trace == [] ==> pc == Evicting)
    && (trace != [] ==>
          || (trace[0] == Evict(t) && JoinsNext(trace[1..], t, pc))
          || (trace == [Cancel(t)] && pc == Cancelled))
  }

  lemma EvictsFirst(cfg: Config, w: World, steps: seq<Step>, t: nat)
    requires Legal(cfg, w, steps) && t < |w.tasks| && w.tasks[t].pc == Evicting
    requires steps != [] && Singleflight.Actor(steps[0]) == Some(t)
    ensures
      var w' := Run(cfg, w, steps);
      t < |w'.tasks| && EvictsAndJoins(OwnTrace(steps, t), t, w'.tasks[t].pc)
  {
    var w' := Apply(cfg, w, steps[0]);
    OwnStepAtEvicting(cfg, w, steps[0], t);
    if steps[0] == Evict(t) {
      FromJoining(cfg, w', steps[1..], t);
      assert OwnTrace(steps, t)[1..] == OwnTrace(steps[1..], t);
    } else {
      CancelledIsOver(cfg, w', steps[1..], t);
    }
    hide Apply, Enabled, JoinsNext;
  }

  lemma {:induction false} FromEvicting(cfg: Config, w: World, steps: seq<Step>, t: nat)
    requires Legal(cfg, w, steps) && t < |w.tasks| && w.tasks[t].pc == Evicting
    ensures
      var w' := Run(cfg, w, steps);
      t < |w'.tasks| && EvictsAndJoins(OwnTrace(steps, t), t, w'.tasks[t].pc)
    decreases |steps|
  {
    if steps != [] {
      if Singleflight.Actor(steps[0]) == Some(t) {
        EvictsFirst(cfg, w, steps, t);
      } else {
        NotOwnNotMoved(cfg, w, steps[0], t);
        FromEvicting(cfg, Apply(cfg, w, steps[0]), steps[1..], t);
        hide Apply, Enabled, JoinsNext;
      }
    }
  }

  /** When the cached project answers with an error or any status but 200, that is not the answer: however the run goes
      on, the next own steps of the request, unless its client gives up, are to evict the entry and to join the
      singleflight, and only after these can it finish. */
  lemma OtherAnswersFallThrough(cfg: Config, w: World, t: nat, answer: Reply, steps: seq<Step>)
    requires Enabled(cfg, w, Fetch(t, answer)) && !(answer.Ok? && answer.value.status == 200)
    requires Legal(cfg, Apply(cfg, w, Fetch(t, answer)), steps)
    ensures
      var w1 := Apply(cfg, w, Fetch(t, answer));
      var w2, trace := Run(cfg, w1, steps), OwnTrace(steps, t);
      && t < |w1.tasks| == |w.tasks| && !w1.tasks[t].pc.Finished?
      && t < |w2.tasks|
      && (|trace| >= 1 ==> trace[0] == Evict(t) || trace == [Cancel(t)])
      && (|trace| >= 2 ==> trace[1] == Join(t) || trace == [Evict(t), Cancel(t)])
      && (w2.tasks[t].pc.Finished? ==> |trace| >= 2 && trace[0] == Evict(t) && trace[1] == Join(t))
  {
    var w1 := Apply(cfg, w, Fetch(t, answer));
    assert w1.tasks[t].pc == Evicting && |w1.tasks| == |w.tasks|;
    hide Apply, Enabled;
    FromEvicting(cfg, w1, steps, t);
    hide Run, Legal;
  }

  /** And that eviction takes the key out of the cache. */
  lemma EvictionForgets(cfg: Config, w: World, t: nat)
    requires Enabled(cfg, w, Evict(t))
    ensures Key(w.tasks[t].request) !in Apply(cfg, w, Evict(t)).cache
  {
    OwnStepAtEvicting(cfg, w, Evict(t), t);
  }

  // ----- a cached project that answers 200 -----

  /** The entry under `key` carries a timestamp older than the freshness limit. */
  predicate PastItsLimit(cfg: Config, cache: map<string, string>, key: string, now: nat) {
    && cfg.staleWindow && key in cache
    && var stamp := CacheCodec.Decode(cache[key]).1;
       stamp.Some? && now > stamp.value + cfg.cacheTtl
  }

  /** The cached project's 200 is the answer, and nobody else is asked for it; a background refresh of the same request
      is started exactly when the entry was past its limit at the lookup, whatever happened to it in between. */
  lemma HitIsAnswered(cfg: Config, w: World, t: nat, now: nat, between: seq<Step>, answer: Reply)
    requires Enabled(cfg, w, LookUp(t, now)) && Legal(cfg, Apply(cfg, w, LookUp(t, now)), between)
    requires OwnTrace(between, t) == []
    requires Enabled(cfg, Run(cfg, Apply(cfg, w, LookUp(t, now)), between), Fetch(t, answer))
    requires answer.Ok? && answer.value.status == 200
    ensures
      var w1 := Run(cfg, Apply(cfg, w, LookUp(t, now)), between);
      var w2 := Apply(cfg, w1, Fetch(t, answer));
      var key := Key(w.tasks[t].request);
      && t < |w2.tasks| && w2.tasks[t].pc == Finished(answer) && w2.cache == w1.cache && w2.flights == w1.flights
      && key in w.cache && answer.value.project == ReadEntry(cfg, w.cache[key]).0
      && (if PastItsLimit(cfg, w.cache, key, now)
          then w2.tasks[|w1.tasks|..] == [Task(w.tasks[t].request, Filtering(Refresher, 0, []))]
          else |w2.tasks| == |w1.tasks|)
  {
    var w0 := Apply(cfg, w, LookUp(t, now));
    assert w0.tasks == w.tasks[t := w.tasks[t].(pc := AfterLookUp(cfg, w.cache, w.tasks[t].request, now))];
    var w1 := Run(cfg, w0, between);
    hide AfterLookUp;
    StandsStill(cfg, w0, between, t);
    StaleFlag(cfg, w.cache, w.tasks[t].request, now);
    hide Run, Legal, Key, ReadEntry, PastItsLimit, OwnTrace;
  }

  lemma StaleFlag(cfg: Config, cache: map<string, string>, r: Request, now: nat)
    ensures
      var pc := AfterLookUp(cfg, cache, r, now);
      pc.Fetching? ==>
        && Key(r) in cache && pc.project == ReadEntry(cfg, cache[Key(r)]).0
        && (pc.stale <==> PastItsLimit(cfg, cache, Key(r), now))
  {
    hide Key, CacheCodec.Decode, FanOut.NotFoundText;
  }
}
