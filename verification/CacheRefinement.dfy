/** The refinement theorem: over all runs against a steady upstream, cache, singleflight, fan-out, background
    refresh and warm-up together answer what asking every project would answer. */
module CacheRefinement {
  import opened Text
  import opened Resolver
  import CacheCodec
  import CacheKeys
  import Counting
  import Delivery
  import FanOut
  import Breaker
  import NegativeCache
  import Singleflight

  datatype Answer = Answer(status: nat, contentType: string)

  /** What a project answers for an image and a reference, whatever the Accept header. */
  type Upstream = (string, string, string) -> Answer

  /** It finds the manifest or reports a client error, and never changes its mind. */
  ghost predicate Steady(up: Upstream) {
    forall p, i, r :: up(p, i, r).status == 200 || 400 <= up(p, i, r).status < 500
  }

  function Truth(up: Upstream, p: string, r: Request): Reply {
    var a := up(p, r.image, r.reference);
    Ok(FanOut.Response(p, a.status, a.contentType))
  }

  predicate WellFormed(cfg: Config) {
    && cfg.projects != [] && cfg.maxFanout >= 1 && 1 <= cfg.threshold < Breaker.U32
    && forall i :: 0 <= i < |cfg.projects| ==>
         '|' !in cfg.projects[i] && cfg.projects[i] != CacheCodec.NEGATIVE_SENTINEL
  }

  /** The projects a lookup asks. */
  function Candidates(cfg: Config): seq<string> {
    cfg.projects[..Limit(cfg)]
  }

  predicate Holds(cfg: Config, up: Upstream, image: string, reference: string, p: string) {
    p in Candidates(cfg) && up(p, image, reference).status == 200
  }

  ghost predicate NobodyHolds(cfg: Config, up: Upstream, image: string, reference: string) {
    forall p :: p in Candidates(cfg) ==> up(p, image, reference).status != 200
  }

  /** The answers that asking every candidate project may give. */
  ghost predicate AskEveryProject(cfg: Config, up: Upstream, image: string, reference: string, reply: Reply) {
    match reply
    case Ok(x) =>
      Holds(cfg, up, image, reference, x.project)
      && x == FanOut.Response(x.project, 200, up(x.project, image, reference).contentType)
    case Err(text) => text == FanOut.NotFoundText(image, reference) && NobodyHolds(cfg, up, image, reference)
  }

  /** Upstream answers truthfully, and requests name plain images. */
  ghost predicate Faithful(up: Upstream, w: World, s: Step) {
    match s
    case Arrive(r) => CacheKeys.PlainImage(r.image)
    case Fetch(t, outcome) =>
      t < |w.tasks| && w.tasks[t].pc.Fetching? && outcome == Truth(up, w.tasks[t].pc.project, w.tasks[t].request)
    case Collect(t, index, outcome, _) =>
      t < |w.tasks| && w.tasks[t].pc.Collecting? && index < |w.tasks[t].pc.consulted|
      && outcome == Truth(up, w.tasks[t].pc.consulted[index], w.tasks[t].request)
    case _ => true
  }

  ghost predicate FaithfulRun(cfg: Config, up: Upstream, w: World, steps: seq<Step>)
    requires Legal(cfg, w, steps)
    decreases |steps|
  {
    steps == [] || (Faithful(up, w, steps[0]) && FaithfulRun(cfg, up, Apply(cfg, w, steps[0]), steps[1..]))
  }

  // ----- the invariant -----

  ghost predicate Right(cfg: Config, up: Upstream, r: Request, reply: Reply) {
    AskEveryProject(cfg, up, r.image, r.reference, reply)
  }

  ghost predicate ArrivalsTrue(up: Upstream, r: Request, consulted: seq<string>, arrivals: seq<Arrival>) {
    && (forall n :: 0 <= n < |arrivals| ==>
          arrivals[n].index < |consulted| && arrivals[n].outcome == Truth(up, consulted[arrivals[n].index], r))
    && (forall n, m :: 0 <= n < m < |arrivals| ==> arrivals[n].index != arrivals[m].index)
  }

  ghost predicate RoleOk(cfg: Config, role: Role) {
    role.Refresher? ==> cfg.staleWindow
  }

  ghost predicate PcOk(cfg: Config, up: Upstream, r: Request, pc: Pc) {
    match pc
    case Fetching(p, stale) => Holds(cfg, up, r.image, r.reference, p) && (stale ==> cfg.staleWindow)
    case Filtering(role, next, consulted) => RoleOk(cfg, role) && next <= Limit(cfg)
        && consulted == cfg.projects[..next]
    case Collecting(role, consulted, arrivals) =>
      RoleOk(cfg, role) && consulted == Candidates(cfg) && ArrivalsTrue(up, r, consulted, arrivals)
    case Publishing(_, reply) => Right(cfg, up, r, reply)
    case Removing(_, reply) => Right(cfg, up, r, reply)
    case Storing(reply, via) => Right(cfg, up, r, reply) || reply == Err(TIMEOUT_TEXT)
    case StoringImage(reply, via) => Right(cfg, up, r, reply)
    case Refreshing(p) => cfg.staleWindow && Holds(cfg, up, r.image, r.reference, p)
    case Finished(reply) => Right(cfg, up, r, reply) || reply == Err(TIMEOUT_TEXT)
    case _ => true
  }

  ghost predicate TaskOk(cfg: Config, up: Upstream, task: Task) {
    CacheKeys.PlainImage(task.request.image) && PcOk(cfg, up, task.request, task.pc)
  }

  ghost predicate ChanOk(cfg: Config, up: Upstream, w: World, c: nat)
    requires c < |w.chans|
  {
    && w.chans[c].leader < |w.tasks|
    && w.chans[c].key == Key(w.tasks[w.chans[c].leader].request)
    && (w.chans[c].reply.Some? ==> Right(cfg, up, w.tasks[w.chans[c].leader].request, w.chans[c].reply.value))
  }

  ghost predicate TasksOk(cfg: Config, up: Upstream, w: World) {
    && (forall t :: 0 <= t < |w.tasks| ==> TaskOk(cfg, up, w.tasks[t]))
    && (forall c :: 0 <= c < |w.chans| ==> ChanOk(cfg, up, w, c))
  }

  /** A cached value stands for a candidate that holds the manifest, or for none holding it. */
  ghost predicate ValueOk(cfg: Config, up: Upstream, image: string, reference: string, value: string) {
    var p := CacheCodec.Decode(value).0;
    && (if p == CacheCodec.NEGATIVE_SENTINEL then NobodyHolds(cfg, up, image, reference)
        else Holds(cfg, up, image, reference, p))
    && (!cfg.staleWindow ==> p == value)
  }

  ghost predicate CacheOk(cfg: Config, up: Upstream, cache: map<string, string>) {
    forall image, reference :: CacheKeys.PlainImage(image) && CacheKeys.ManifestKey(image, reference) in cache ==>
      ValueOk(cfg, up, image, reference, cache[CacheKeys.ManifestKey(image, reference)])
  }

  /** Warm-up mappings that name, for each plain key, a candidate holding the manifest. */
  ghost predicate WarmOk(cfg: Config, up: Upstream, m: map<string, string>) {
    forall image, reference :: CacheKeys.PlainImage(image) && CacheKeys.ManifestKey(image, reference) in m ==>
      Holds(cfg, up, image, reference, m[CacheKeys.ManifestKey(image, reference)])
  }

  ghost predicate BreakersOk(w: World) {
    forall i :: 0 <= i < |w.breaker| ==> !w.breaker[i].Failure?
  }

  ghost predicate Inv(cfg: Config, up: Upstream, w: World) {
    && TasksOk(cfg, up, w) && CacheOk(cfg, up, w.cache) && BreakersOk(w)
    && WarmOk(cfg, up, w.hot) && WarmOk(cfg, up, w.gathered) && WarmOk(cfg, up, w.warming)
  }

  // ----- values and replies -----

  lemma HolderIsClean(cfg: Config, up: Upstream, image: string, reference: string, p: string)
    requires WellFormed(cfg) && Holds(cfg, up, image, reference, p)
    ensures '|' !in p && p != CacheCodec.NEGATIVE_SENTINEL
  {
    var i :| 0 <= i < Limit(cfg) && Candidates(cfg)[i] == p;
    assert cfg.projects[i] == p;
  }

  lemma EncodedHolderIsOk(cfg: Config, up: Upstream, image: string, reference: string, p: string, now: nat)
    requires WellFormed(cfg) && Holds(cfg, up, image, reference, p) && now <= CacheCodec.U64_MAX
    ensures ValueOk(cfg, up, image, reference, CacheValue(cfg, p, now))
    ensures cfg.staleWindow ==> ValueOk(cfg, up, image, reference, CacheCodec.Encode(p, now))
  {
    HolderIsClean(cfg, up, image, reference, p);
    CacheCodec.DecodeEncoded(p, now);
    CacheCodec.DecodePlain(p);
    hide Holds, CacheCodec.Decode, CacheCodec.Encode;
  }

  lemma SentinelIsOk(cfg: Config, up: Upstream, image: string, reference: string)
    requires NobodyHolds(cfg, up, image, reference)
    ensures ValueOk(cfg, up, image, reference, CacheCodec.NEGATIVE_SENTINEL)
  {
  }

  /** What a lookup over truthful answers replies is what asking every project replies. */
  lemma LookupIsRight(cfg: Config, up: Upstream, r: Request, arrivals: seq<Arrival>)
    requires WellFormed(cfg) && Steady(up) && ArrivalsTrue(up, r, Candidates(cfg), arrivals)
    requires MayStop(Candidates(cfg), arrivals, r.accept)
    ensures Right(cfg, up, r, LookupReply(r, arrivals))
  {
    var seen, ok, reply := Outcomes(arrivals), FanOut.Accepting(r.accept), LookupReply(r, arrivals);
    hide FanOut.Accepting, FanOut.NotFoundText;
    assert forall n :: 0 <= n < |seen| ==> seen[n] == arrivals[n].outcome;
    assert !FanOut.AnyErr(seen);
    if reply.Ok? {
      assert FanOut.Is200(reply) && reply in seen;
      var n :| 0 <= n < |seen| && seen[n] == reply;
      assert reply == Truth(up, Candidates(cfg)[arrivals[n].index], r);
    } else {
      assert !FanOut.Any200(seen) && |arrivals| == |Candidates(cfg)|;
      forall p | p in Candidates(cfg)
        ensures up(p, r.image, r.reference).status != 200
      {
        var i :| 0 <= i < |Candidates(cfg)| && Candidates(cfg)[i] == p;
        var n := Hit(up, r, Candidates(cfg), arrivals, i);
        assert !FanOut.Is200(seen[n]);
      }
    }
  }

  lemma Hit(up: Upstream, r: Request, consulted: seq<string>, arrivals: seq<Arrival>, i: nat) returns (n: nat)
    requires ArrivalsTrue(up, r, consulted, arrivals) && |arrivals| == |consulted| && i < |consulted|
    ensures n < |arrivals| && arrivals[n].index == i
  {
    if forall m :: 0 <= m < |arrivals| ==> arrivals[m].index != i {
      var indices := seq(|arrivals|, m requires 0 <= m < |arrivals| => arrivals[m].index);
      Counting.DistinctIndices(indices, |consulted|, i);
    }
    n :| n < |arrivals| && arrivals[n].index == i;
  }

  /** No breaker ever refuses: no failure is recorded in such runs. */
  lemma NoBreakerRefuses(cfg: Config, w: World, p: string, now: nat)
    requires WellFormed(cfg) && BreakersOk(w)
    ensures Breaker.Admits(Breaker.Replay(w.breaker, p, cfg.threshold, cfg.breakerTimeout), cfg.breakerTimeout, now)
  {
    Breaker.NoFailureNoRefusal(w.breaker, p, cfg.threshold, cfg.breakerTimeout, now);
  }

  // ----- tasks and channels -----

  lemma KeepTasks(cfg: Config, up: Upstream, w: World, w': World, actor: Option<nat>)
    requires TasksOk(cfg, up, w) && Singleflight.OnlyMoves(w, w', actor)
    requires forall u :: 0 <= u < |w.tasks| ==> w'.tasks[u].request == w.tasks[u].request
    requires forall u :: 0 <= u < |w'.tasks| && (Some(u) == actor || u >= |w.tasks|) ==> TaskOk(cfg, up, w'.tasks[u])
    requires forall c :: 0 <= c < |w'.chans| && (c >= |w.chans| || w'.chans[c] != w.chans[c]) ==> ChanOk(cfg, up, w', c)
    ensures TasksOk(cfg, up, w')
  {
    hide TaskOk, Right, Key, Leads;
    forall c | 0 <= c < |w'.chans|
      ensures ChanOk(cfg, up, w', c)
    {
      if c < |w.chans| && w'.chans[c] == w.chans[c] {
        assert ChanOk(cfg, up, w, c);
      }
    }
  }

  /** A task moves on and nothing else changes. */
  lemma KeepMoved(cfg: Config, up: Upstream, w: World, w': World, t: nat, pc: Pc)
    requires TasksOk(cfg, up, w) && t < |w.tasks| && w'.tasks == w.tasks[t := w.tasks[t].(pc := pc)]
        && w'.chans == w.chans
    requires PcOk(cfg, up, w.tasks[t].request, pc)
    ensures TasksOk(cfg, up, w')
  {
    assert TaskOk(cfg, up, w.tasks[t]);
    hide PcOk, Right;
    KeepTasks(cfg, up, w, w', Some(t));
  }

  /** Equal keys of plain images are equal images and references, so a reply is right for both. */
  lemma SharedReply(cfg: Config, up: Upstream, r: Request, q: Request, reply: Reply)
    requires CacheKeys.PlainImage(r.image) && CacheKeys.PlainImage(q.image) && Key(r) == Key(q)
    requires Right(cfg, up, q, reply)
    ensures Right(cfg, up, r, reply)
  {
    CacheKeys.ManifestKeyInjective(r.image, r.reference, q.image, q.reference);
  }

  lemma HeardReplyIsRight(cfg: Config, up: Upstream, w: World, t: nat, c: nat)
    requires Singleflight.Inv(w) && TasksOk(cfg, up, w) && t < |w.tasks| && Singleflight.ChanOfTask(w, t, c)
    ensures w.chans[c].value.Some? ==> Right(cfg, up, w.tasks[t].request, w.chans[c].value.value)
  {
    if w.chans[c].value.Some? {
      assert Singleflight.ChanOk(w.chans[c]);
      assert ChanOk(cfg, up, w, c);
      assert TaskOk(cfg, up, w.tasks[t]) && TaskOk(cfg, up, w.tasks[w.chans[c].leader]);
      hide PcOk, Right, Key, Singleflight.Inv;
      SharedReply(cfg, up, w.tasks[t].request, w.tasks[w.chans[c].leader].request, w.chans[c].value.value);
    }
  }

  lemma FollowerTasks(cfg: Config, up: Upstream, w: World, s: Step)
    requires Singleflight.Inv(w) && TasksOk(cfg, up, w) && (s.Peek? || s.Receive?) && Enabled(cfg, w, s)
    ensures TasksOk(cfg, up, Apply(cfg, w, s))
  {
    var t, w' := s.t, Apply(cfg, w, s);
    assert Singleflight.TaskOk(w, t);
    HeardReplyIsRight(cfg, up, w, t, w.tasks[t].pc.chan);
    if s.Receive? { Singleflight.ReceiveKeepsInv(cfg, w, t); }
    hide Right, Singleflight.Inv, Singleflight.TaskOk, Key, TasksOk;
    KeepMoved(cfg, up, w, w', t, w'.tasks[t].pc);
  }

  lemma LookUpTasks(cfg: Config, up: Upstream, w: World, t: nat, now: nat)
    requires WellFormed(cfg) && TasksOk(cfg, up, w) && CacheOk(cfg, up, w.cache) && t < |w.tasks|
    ensures TasksOk(cfg, up, ApplyLookUp(cfg, w, t, now))
  {
    var r := w.tasks[t].request;
    assert TaskOk(cfg, up, w.tasks[t]);
    if Key(r) in w.cache {
      assert ValueOk(cfg, up, r.image, r.reference, w.cache[Key(r)]);
    }
    assert PcOk(cfg, up, r, AfterLookUp(cfg, w.cache, r, now)) by {
      hide TasksOk, CacheOk, FanOut.NotFoundText, CacheCodec.Decode;
    }
    hide TasksOk, AfterLookUp, PcOk, CacheOk, WellFormed;
    KeepMoved(cfg, up, w, ApplyLookUp(cfg, w, t, now), t, AfterLookUp(cfg, w.cache, r, now));
  }

  lemma FetchTasks(cfg: Config, up: Upstream, w: World, t: nat, outcome: Reply)
    requires TasksOk(cfg, up, w) && t < |w.tasks| && w.tasks[t].pc.Fetching?
    requires outcome == Truth(up, w.tasks[t].pc.project, w.tasks[t].request)
    ensures TasksOk(cfg, up, ApplyFetch(w, t, outcome))
  {
    var w' := ApplyFetch(w, t, outcome);
    assert TaskOk(cfg, up, w.tasks[t]);
    assert w'.chans == w.chans && TaskOk(cfg, up, w'.tasks[t]);
    assert |w'.tasks| > |w.tasks| ==> TaskOk(cfg, up, w'.tasks[|w.tasks|]);
    hide TaskOk, Right, Truth;
    KeepTasks(cfg, up, w, w', Some(t));
  }

  lemma JoinTasks(cfg: Config, up: Upstream, w: World, t: nat)
    requires TasksOk(cfg, up, w) && t < |w.tasks|
    ensures TasksOk(cfg, up, ApplyJoin(w, t))
  {
    var w' := ApplyJoin(w, t);
    hide Key, Right;
    Singleflight.JoinFootprint(w, t);
    assert TaskOk(cfg, up, w.tasks[t]);
    assert cfg.projects[..0] == [];
    assert TaskOk(cfg, up, w'.tasks[t]);
    hide TaskOk;
    KeepTasks(cfg, up, w, w', Some(t));
  }

  lemma ReturnTasks(cfg: Config, up: Upstream, w: World, t: nat, role: Role, consulted: seq<string>,
      arrivals: seq<Arrival>, reply: Reply)
    requires Singleflight.Inv(w) && TasksOk(cfg, up, w) && t < |w.tasks| && (role.Leader? ==> role.chan < |w.chans|)
    requires (w.tasks[t].pc.Filtering? || w.tasks[t].pc.Collecting?) && w.tasks[t].pc.role == role
    requires Right(cfg, up, w.tasks[t].request, reply)
    ensures TasksOk(cfg, up, Return(w, t, role, consulted, arrivals, reply))
  {
    var w' := Return(w, t, role, consulted, arrivals, reply);
    assert TaskOk(cfg, up, w.tasks[t]);
    assert Singleflight.TaskOk(w, t);
    assert TaskOk(cfg, up, w'.tasks[t]);
    hide TaskOk, Right, Key, Holds, Singleflight.Inv;
    assert Singleflight.OnlyMoves(w, w', Some(t));
    KeepTasks(cfg, up, w, w', Some(t));
  }

  lemma FilterTasks(cfg: Config, up: Upstream, w: World, t: nat, now: nat)
    requires WellFormed(cfg) && TasksOk(cfg, up, w) && BreakersOk(w)
    requires t < |w.tasks| && w.tasks[t].pc.Filtering? && LeadsChan(w, t)
    ensures TasksOk(cfg, up, ApplyFilter(cfg, w, t, now))
  {
    var Filtering(role, next, consulted) := w.tasks[t].pc;
    assert TaskOk(cfg, up, w.tasks[t]);
    if next < Limit(cfg) {
      NoBreakerRefuses(cfg, w, cfg.projects[next], now);
      assert cfg.projects[..next + 1] == cfg.projects[..next] + [cfg.projects[next]];
    }
    hide Breaker.Admits, Breaker.Replay, Right, TasksOk;
    var w' := ApplyFilter(cfg, w, t, now);
    KeepMoved(cfg, up, w, w', t, w'.tasks[t].pc);
  }

  lemma CollectTasks(cfg: Config, up: Upstream, w: World, s: Step)
    requires TasksOk(cfg, up, w) && s.Collect? && Enabled(cfg, w, s) && Faithful(up, w, s)
    ensures TasksOk(cfg, up, Apply(cfg, w, s))
  {
    var t, pc, w' := s.t, w.tasks[s.t].pc, Apply(cfg, w, s);
    assert TaskOk(cfg, up, w.tasks[t]);
    hide Matched, BreakerEvents, Right, TasksOk, Truth;
    var arrivals := pc.arrivals + [Arrival(s.index, s.outcome)];
    assert forall n :: 0 <= n < |pc.arrivals| ==> arrivals[n] == pc.arrivals[n];
    assert ArrivalsTrue(up, w.tasks[t].request, pc.consulted, arrivals);
    hide ArrivalsTrue;
    KeepMoved(cfg, up, w, w', t, w'.tasks[t].pc);
  }

  lemma StopTasks(cfg: Config, up: Upstream, w: World, t: nat)
    requires WellFormed(cfg) && Steady(up) && Singleflight.Inv(w) && TasksOk(cfg, up, w)
        && Enabled(cfg, w, StopCollecting(t))
    ensures TasksOk(cfg, up, Apply(cfg, w, StopCollecting(t)))
  {
    var pc, r := w.tasks[t].pc, w.tasks[t].request;
    assert TaskOk(cfg, up, w.tasks[t]);
    hide TasksOk, Singleflight.Inv, Return, Right, ArrivalsTrue, LookupReply, WellFormed;
    LookupIsRight(cfg, up, r, pc.arrivals);
    ReturnTasks(cfg, up, w, t, pc.role, pc.consulted, pc.arrivals, LookupReply(r, pc.arrivals));
  }

  lemma PublishTasks(cfg: Config, up: Upstream, w: World, t: nat)
    requires Singleflight.Inv(w) && TasksOk(cfg, up, w) && t < |w.tasks| && w.tasks[t].pc.Publishing?
        && w.tasks[t].pc.chan < |w.chans|
    ensures TasksOk(cfg, up, ApplyPublish(w, t))
  {
    var w' := ApplyPublish(w, t);
    hide Right, SomeReceiver, Key, Singleflight.Inv;
    Singleflight.PublishFootprint(w, t);
    assert TaskOk(cfg, up, w.tasks[t]) && TaskOk(cfg, up, w'.tasks[t]);
    assert ChanOk(cfg, up, w, w.tasks[t].pc.chan);
    hide TaskOk;
    KeepTasks(cfg, up, w, w', Some(t));
  }

  lemma StoreTasks(cfg: Config, up: Upstream, w: World, t: nat, now: nat)
    requires TasksOk(cfg, up, w) && t < |w.tasks| && (w.tasks[t].pc.Storing? || w.tasks[t].pc.Refreshing?)
    ensures TasksOk(cfg, up, ApplyStore(cfg, w, t, now))
  {
    assert TaskOk(cfg, up, w.tasks[t]);
    hide Right, TasksOk, WithReply, Key;
    KeepMoved(cfg, up, w, ApplyStore(cfg, w, t, now), t, AfterStore(w.tasks[t].pc));
  }

  lemma StoreImageTasks(cfg: Config, up: Upstream, w: World, t: nat)
    requires TasksOk(cfg, up, w) && t < |w.tasks|
    ensures TasksOk(cfg, up, ApplyStoreImage(w, t))
  {
    assert TaskOk(cfg, up, w.tasks[t]);
    hide Right, TasksOk, WithImage, CacheKeys.ImageKey;
    KeepMoved(cfg, up, w, ApplyStoreImage(w, t), t, AfterImage(w.tasks[t].pc));
  }

  lemma ArriveTasks(cfg: Config, up: Upstream, w: World, r: Request)
    requires TasksOk(cfg, up, w) && CacheKeys.PlainImage(r.image)
    ensures TasksOk(cfg, up, w.(tasks := w.tasks + [Task(r, LookingUp)]))
  {
    var w' := w.(tasks := w.tasks + [Task(r, LookingUp)]);
    assert TaskOk(cfg, up, w'.tasks[|w.tasks|]);
    hide TaskOk, Right, Key;
    KeepTasks(cfg, up, w, w', None);
  }

  lemma SimpleTasks(cfg: Config, up: Upstream, w: World, s: Step)
    requires s.Evict? || s.Subscribe? || s.TimeOut? || s.Remove? || s.Cancel?
    requires TasksOk(cfg, up, w) && Enabled(cfg, w, s)
    ensures TasksOk(cfg, up, Apply(cfg, w, s))
  {
    var t, w' := Singleflight.Actor(s).value, Apply(cfg, w, s);
    assert TaskOk(cfg, up, w.tasks[t]);
    hide Right, TasksOk, Key;
    KeepMoved(cfg, up, w, w', t, w'.tasks[t].pc);
  }

  lemma StepKeepsTasks(cfg: Config, up: Upstream, w: World, s: Step)
    requires WellFormed(cfg) && Steady(up) && Singleflight.Inv(w) && Inv(cfg, up, w) && Enabled(cfg, w, s)
        && Faithful(up, w, s)
    ensures TasksOk(cfg, up, Apply(cfg, w, s))
  {
    hide TasksOk, CacheOk, BreakersOk, WarmOk, WellFormed, Singleflight.Inv, Truth,
      ApplyJoin, ApplyFilter, ApplyPublish, ApplyLookUp, ApplyFetch, ApplyStore, ApplyStoreImage, ApplyAmbient, Return,
          Goto;
    match s
    case Arrive(r) => ArriveTasks(cfg, up, w, r);
    case LookUp(t, now) => LookUpTasks(cfg, up, w, t, now);
    case Fetch(t, outcome) => FetchTasks(cfg, up, w, t, outcome);
    case Join(t) => JoinTasks(cfg, up, w, t);
    case Peek(t) => FollowerTasks(cfg, up, w, s);
    case Receive(t) => FollowerTasks(cfg, up, w, s);
    case SendersGone(t) => Singleflight.NeverWithoutSender(cfg, w, t);
    case Filter(t, now) => FilterTasks(cfg, up, w, t, now);
    case Collect(_, _, _, _) => CollectTasks(cfg, up, w, s);
    case StopCollecting(t) => StopTasks(cfg, up, w, t);
    case Publish(t) => PublishTasks(cfg, up, w, t);
    case Store(t, now) => StoreTasks(cfg, up, w, t, now);
    case StoreImage(t) => StoreImageTasks(cfg, up, w, t);
    case Background(b) => Singleflight.AmbientFootprint(cfg, w, b); SameTasks(cfg, up, w, ApplyAmbient(cfg, w, b));
    case _ => SimpleTasks(cfg, up, w, s);
  }

  lemma SameTasks(cfg: Config, up: Upstream, w: World, w': World)
    requires TasksOk(cfg, up, w) && w'.tasks == w.tasks && w'.chans == w.chans
    ensures TasksOk(cfg, up, w')
  {
    hide TaskOk, Right, Key;
    KeepTasks(cfg, up, w, w', None);
  }

  // ----- cache, warm-up and breakers -----

  lemma PutOwnKey(cfg: Config, up: Upstream, cache: map<string, string>, image: string, reference: string,
      value: string)
    requires CacheOk(cfg, up, cache) && CacheKeys.PlainImage(image) && ValueOk(cfg, up, image, reference, value)
    ensures CacheOk(cfg, up, cache[CacheKeys.ManifestKey(image, reference) := value])
  {
    var key := CacheKeys.ManifestKey(image, reference);
    hide ValueOk;
    forall i, r | CacheKeys.PlainImage(i) && CacheKeys.ManifestKey(i, r) in cache[key := value]
      ensures ValueOk(cfg, up, i, r, cache[key := value][CacheKeys.ManifestKey(i, r)])
    {
      if CacheKeys.ManifestKey(i, r) == key {
        CacheKeys.ManifestKeyInjective(i, r, image, reference);
      }
    }
  }

  lemma PutOtherKey(cfg: Config, up: Upstream, cache: map<string, string>, key: string, value: string)
    requires CacheOk(cfg, up, cache) && CacheKeys.OtherFamily(key)
    ensures CacheOk(cfg, up, cache[key := value])
  {
    hide ValueOk, CacheKeys.OtherFamily;
    forall i, r | CacheKeys.PlainImage(i) && CacheKeys.ManifestKey(i, r) in cache[key := value]
      ensures ValueOk(cfg, up, i, r, cache[key := value][CacheKeys.ManifestKey(i, r)])
    {
      CacheKeys.FamiliesDisjoint(i, r);
    }
  }

  lemma RemoveKey(cfg: Config, up: Upstream, cache: map<string, string>, key: string)
    requires CacheOk(cfg, up, cache)
    ensures CacheOk(cfg, up, cache - {key})
  {
    hide ValueOk, CacheKeys.ManifestKey;
  }

  lemma StoreCache(cfg: Config, up: Upstream, w: World, t: nat, now: nat)
    requires WellFormed(cfg) && TasksOk(cfg, up, w) && CacheOk(cfg, up, w.cache)
    requires t < |w.tasks| && (w.tasks[t].pc.Storing? || w.tasks[t].pc.Refreshing?) && now <= CacheCodec.U64_MAX
    ensures CacheOk(cfg, up, ApplyStore(cfg, w, t, now).cache)
  {
    var Task(r, pc) := w.tasks[t];
    assert TaskOk(cfg, up, w.tasks[t]);
    hide TasksOk, CacheOk, WellFormed, ValueOk, CacheCodec.Encode, CacheValue;
    match pc
    case Refreshing(p) =>
      EncodedHolderIsOk(cfg, up, r.image, r.reference, p, now);
      PutOwnKey(cfg, up, w.cache, r.image, r.reference, CacheCodec.Encode(p, now));
    case Storing(Ok(x), _) =>
      EncodedHolderIsOk(cfg, up, r.image, r.reference, x.project, now);
      PutOwnKey(cfg, up, w.cache, r.image, r.reference, CacheValue(cfg, x.project, now));
    case Storing(Err(text), _) =>
      if text == TIMEOUT_TEXT {
        NegativeCache.TimeoutIsNotClassified();
      } else {
        SentinelIsOk(cfg, up, r.image, r.reference);
        PutOwnKey(cfg, up, w.cache, r.image, r.reference, CacheCodec.NEGATIVE_SENTINEL);
        hide FanOut.IsAllProjectsNon200;
      }
  }

  lemma WarmKeyCache(cfg: Config, up: Upstream, w: World, key: string, now: nat)
    requires WellFormed(cfg) && CacheOk(cfg, up, w.cache) && WarmOk(cfg, up, w.warming)
    requires key in w.warming && now <= CacheCodec.U64_MAX
    ensures CacheOk(cfg, up, w.cache[key := CacheValue(cfg, w.warming[key], now)])
  {
    var value := CacheValue(cfg, w.warming[key], now);
    hide ValueOk, CacheValue, WellFormed, Holds;
    forall i, r | CacheKeys.PlainImage(i) && CacheKeys.ManifestKey(i, r) in w.cache[key := value]
      ensures ValueOk(cfg, up, i, r, w.cache[key := value][CacheKeys.ManifestKey(i, r)])
    {
      if CacheKeys.ManifestKey(i, r) == key {
        EncodedHolderIsOk(cfg, up, i, r, w.warming[key], now);
      }
    }
  }

  lemma PersistedIsHeld(cfg: Config, up: Upstream, w: World, key: string)
    requires CacheOk(cfg, up, w.cache) && WarmOk(cfg, up, w.gathered) && key in w.cache
    requires CacheCodec.Decode(w.cache[key]).0 != CacheCodec.NEGATIVE_SENTINEL
    ensures WarmOk(cfg, up, w.gathered[key := CacheCodec.Decode(w.cache[key]).0])
  {
    hide CacheCodec.Decode, Holds, NobodyHolds, CacheKeys.ManifestKey, CacheKeys.PlainImage;
    var m := w.gathered[key := CacheCodec.Decode(w.cache[key]).0];
    forall i, r | CacheKeys.PlainImage(i) && CacheKeys.ManifestKey(i, r) in m
      ensures Holds(cfg, up, i, r, m[CacheKeys.ManifestKey(i, r)])
    {
      if CacheKeys.ManifestKey(i, r) == key {
        assert ValueOk(cfg, up, i, r, w.cache[key]);
      }
    }
  }

  lemma AmbientKeeps(cfg: Config, up: Upstream, w: World, b: Ambient)
    requires WellFormed(cfg) && Inv(cfg, up, w) && AmbientEnabled(w, b)
    ensures
      var w' := ApplyAmbient(cfg, w, b);
      CacheOk(cfg, up, w'.cache) && WarmOk(cfg, up, w'.hot) && WarmOk(cfg, up, w'.gathered)
          && WarmOk(cfg, up, w'.warming)
  {
    EmptyIsWarm(cfg, up);
    match b {
      case Expire(key) => RemoveKey(cfg, up, w.cache, key);
      case WriteOther(key, value) => PutOtherKey(cfg, up, w.cache, key, value);
      case PersistRead(key) =>
        if CacheCodec.Decode(w.cache[key]).0 != CacheCodec.NEGATIVE_SENTINEL { PersistedIsHeld(cfg, up, w, key); }
      case WarmKey(key, now) => WarmKeyCache(cfg, up, w, key, now);
      case WarmImage(key) =>
        NegativeCache.ImageKeysAreOther(Before(key, ':'));
        PutOtherKey(cfg, up, w.cache, CacheKeys.ImageKey(Before(key, ':')), w.warming[key]);
      case _ =>
    }
    hide TasksOk, CacheOk, WarmOk, BreakersOk, WellFormed, CacheCodec.Decode, CacheValue, CacheKeys.ImageKey, Before,
      IsSafeProjectName, CacheKeys.OtherFamily;
  }

  lemma EmptyIsWarm(cfg: Config, up: Upstream)
    ensures WarmOk(cfg, up, map[])
  {
  }

  lemma StepKeepsCache(cfg: Config, up: Upstream, w: World, s: Step)
    requires WellFormed(cfg) && Inv(cfg, up, w) && Enabled(cfg, w, s)
    ensures CacheOk(cfg, up, Apply(cfg, w, s).cache)
  {
    hide TasksOk, CacheOk, WarmOk, BreakersOk, WellFormed, ApplyStore, ApplyAmbient, Goto;
    match s
    case Store(t, now) => StoreCache(cfg, up, w, t, now);
    case StoreImage(t) => StoreImageCache(cfg, up, w, t);
    case Evict(t) => RemoveKey(cfg, up, w.cache, Key(w.tasks[t].request)); EvictedCache(cfg, w, t); hide Apply;
    case Background(b) => AmbientKeeps(cfg, up, w, b);
    case _ => Singleflight.OnlyWritersWrite(cfg, w, s); hide Apply, Enabled;
  }

  lemma EvictedCache(cfg: Config, w: World, t: nat)
    requires Enabled(cfg, w, Evict(t))
    ensures Apply(cfg, w, Evict(t)).cache == w.cache - {Key(w.tasks[t].request)}
  {
    hide Key;
  }

  lemma StoreImageCache(cfg: Config, up: Upstream, w: World, t: nat)
    requires CacheOk(cfg, up, w.cache) && t < |w.tasks|
    ensures CacheOk(cfg, up, ApplyStoreImage(w, t).cache)
  {
    var Task(r, pc) := w.tasks[t];
    NegativeCache.ImageKeysAreOther(r.image);
    hide CacheOk, CacheKeys.ImageKey, CacheKeys.OtherFamily;
    match pc
    case RefreshingImage(p) => PutOtherKey(cfg, up, w.cache, CacheKeys.ImageKey(r.image), p);
    case StoringImage(Ok(x), _) => PutOtherKey(cfg, up, w.cache, CacheKeys.ImageKey(r.image), x.project);
    case _ =>
  }

  lemma StepKeepsBreakers(cfg: Config, up: Upstream, w: World, s: Step)
    requires Steady(up) && BreakersOk(w) && Enabled(cfg, w, s) && Faithful(up, w, s)
    ensures BreakersOk(Apply(cfg, w, s))
  {
    if s.Collect? {
      hide Matched, Key;
    } else if s.Filter? {
      FilterBreakers(cfg, w, s.t, s.now);
    } else {
      Singleflight.OnlyWritersWrite(cfg, w, s);
      hide Apply, Enabled;
    }
  }

  lemma FilterBreakers(cfg: Config, w: World, t: nat, now: nat)
    requires BreakersOk(w) && t < |w.tasks| && w.tasks[t].pc.Filtering? && LeadsChan(w, t)
    ensures BreakersOk(ApplyFilter(cfg, w, t, now))
  {
    hide Breaker.Admits, Breaker.Replay, Limit;
  }

  lemma StepKeepsInv(cfg: Config, up: Upstream, w: World, s: Step)
    requires WellFormed(cfg) && Steady(up) && Singleflight.Inv(w) && Inv(cfg, up, w) && Enabled(cfg, w, s)
        && Faithful(up, w, s)
    ensures Inv(cfg, up, Apply(cfg, w, s))
  {
    StepKeepsTasks(cfg, up, w, s);
    StepKeepsCache(cfg, up, w, s);
    StepKeepsBreakers(cfg, up, w, s);
    if s.Background? {
      AmbientKeeps(cfg, up, w, s.b);
      hide ApplyAmbient, AmbientEnabled, TasksOk, CacheOk, WarmOk, BreakersOk, WellFormed, Singleflight.Inv, Faithful;
    } else {
      Singleflight.OnlyWritersWrite(cfg, w, s);
      hide Apply, Enabled, TasksOk, CacheOk, WarmOk, BreakersOk, WellFormed, Singleflight.Inv, Faithful;
    }
  }

  lemma {:induction false} RunKeepsInv(cfg: Config, up: Upstream, w: World, steps: seq<Step>)
    requires WellFormed(cfg) && Steady(up) && Singleflight.Inv(w) && Inv(cfg, up, w)
    requires Legal(cfg, w, steps) && FaithfulRun(cfg, up, w, steps)
    ensures Inv(cfg, up, Run(cfg, w, steps))
    decreases |steps|
  {
    if steps != [] {
      Singleflight.StepKeepsInv(cfg, w, steps[0]);
      StepKeepsInv(cfg, up, w, steps[0]);
      var w' := Apply(cfg, w, steps[0]);
      hide Apply, Enabled, Inv, Singleflight.Inv, WellFormed, Faithful;
      RunKeepsInv(cfg, up, w', steps[1..]);
    }
  }

  // ----- who times out -----

  /** A task that carries a follower's timeout. */
  predicate TimedOut(pc: Pc) {
    match pc
    case Storing(reply, _) => Delivery.IsTimeout(reply)
    case StoringImage(reply, _) => Delivery.IsTimeout(reply)
    case Finished(reply) => Delivery.IsTimeout(reply)
    case _ => false
  }

  lemma RightIsNoTimeout(cfg: Config, up: Upstream, r: Request, reply: Reply)
    requires Right(cfg, up, r, reply)
    ensures !Delivery.IsTimeout(reply)
  {
    NotFoundIsNoTimeout(r);
  }

  lemma NotFoundIsNoTimeout(r: Request)
    ensures !Delivery.IsTimeout(Err(FanOut.NotFoundText(r.image, r.reference)))
  {
    Delivery.TextIsNoTimeout(FanOut.NotFoundText(r.image, r.reference));
  }

  lemma LookUpTimesNobodyOut(cfg: Config, w: World, t: nat, now: nat)
    requires t < |w.tasks| && w.tasks[t].pc.LookingUp?
    ensures t < |ApplyLookUp(cfg, w, t, now).tasks| && !TimedOut(ApplyLookUp(cfg, w, t, now).tasks[t].pc)
  {
    NotFoundIsNoTimeout(w.tasks[t].request);
    hide Key, ReadEntry, IsStale, FanOut.NotFoundText, Delivery.IsTimeout;
  }

  lemma HeardTimesNobodyOut(cfg: Config, up: Upstream, w: World, s: Step, t: nat)
    requires Singleflight.Inv(w) && TasksOk(cfg, up, w) && Enabled(cfg, w, s)
    requires (s.Peek? || s.Receive? || s.Remove?) && s.t == t
    ensures t < |Apply(cfg, w, s).tasks| && !TimedOut(Apply(cfg, w, s).tasks[t].pc)
  {
    assert Singleflight.TaskOk(w, t) && TaskOk(cfg, up, w.tasks[t]);
    if s.Remove? {
      RightIsNoTimeout(cfg, up, w.tasks[t].request, w.tasks[t].pc.reply);
    } else {
      var c := w.tasks[t].pc.chan;
      HeardReplyIsRight(cfg, up, w, t, c);
      if s.Receive? { Singleflight.ReceiveKeepsInv(cfg, w, t); }
      if w.chans[c].value.Some? { RightIsNoTimeout(cfg, up, w.tasks[t].request, w.chans[c].value.value); }
    }
    hide Singleflight.Inv, TasksOk, Right, Key, Delivery.IsTimeout;
  }

  lemma StoreTimesNobodyOut(cfg: Config, w: World, t: nat, now: nat)
    requires t < |w.tasks| && (w.tasks[t].pc.Storing? || w.tasks[t].pc.Refreshing?) && !TimedOut(w.tasks[t].pc)
    ensures t < |ApplyStore(cfg, w, t, now).tasks| && !TimedOut(ApplyStore(cfg, w, t, now).tasks[t].pc)
  {
    hide WithReply, Key, Delivery.IsTimeout;
  }

  lemma StoreImageTimesNobodyOut(w: World, t: nat)
    requires t < |w.tasks| && (w.tasks[t].pc.StoringImage? || w.tasks[t].pc.RefreshingImage?)
        && !TimedOut(w.tasks[t].pc)
    ensures t < |ApplyStoreImage(w, t).tasks| && !TimedOut(ApplyStoreImage(w, t).tasks[t].pc)
  {
    hide WithImage, CacheKeys.ImageKey, Delivery.IsTimeout;
  }

  lemma FetchTimesNobodyOut(w: World, t: nat, outcome: Reply)
    requires t < |w.tasks| && w.tasks[t].pc.Fetching?
    ensures t < |ApplyFetch(w, t, outcome).tasks| && !TimedOut(ApplyFetch(w, t, outcome).tasks[t].pc)
  {
  }

  lemma FilterTimesNobodyOut(cfg: Config, w: World, t: nat, now: nat)
    requires t < |w.tasks| && w.tasks[t].pc.Filtering? && LeadsChan(w, t)
    ensures t < |ApplyFilter(cfg, w, t, now).tasks| && !TimedOut(ApplyFilter(cfg, w, t, now).tasks[t].pc)
  {
    var role := w.tasks[t].pc.role;
    ReturnTimesNobodyOut(w, t, role, [], [], Err(FanOut.NO_PROJECTS));
    ReturnTimesNobodyOut(w, t, role, [], [], Err(FanOut.NONE_AVAILABLE));
    hide Breaker.Replay, Breaker.Admits, Limit, Return;
  }

  lemma ReturnTimesNobodyOut(w: World, t: nat, role: Role, consulted: seq<string>, arrivals: seq<Arrival>, reply: Reply)
    requires t < |w.tasks| && (role.Leader? ==> role.chan < |w.chans|)
    ensures
      var w' := Return(w, t, role, consulted, arrivals, reply);
      t < |w'.tasks| && !TimedOut(w'.tasks[t].pc)
  {
  }

  lemma SimpleTimesNobodyOut(cfg: Config, w: World, s: Step, t: nat)
    requires (s.Evict? || s.Subscribe? || s.Collect? || s.Publish? || s.Join? || s.Cancel?) && s.t == t
    requires Enabled(cfg, w, s)
    ensures t < |Apply(cfg, w, s).tasks| && !TimedOut(Apply(cfg, w, s).tasks[t].pc)
  {
    hide Key, SomeReceiver, Matched, BreakerEvents;
  }

  /** Nothing but its own timeout as a follower makes a task carry one. */
  lemma OnlyTimeOutTimesOut(cfg: Config, up: Upstream, w: World, s: Step, t: nat)
    requires Singleflight.Inv(w) && TasksOk(cfg, up, w) && Enabled(cfg, w, s)
    requires t < |w.tasks| ==> !TimedOut(w.tasks[t].pc)
    ensures t < |Apply(cfg, w, s).tasks| && TimedOut(Apply(cfg, w, s).tasks[t].pc) ==> s == TimeOut(t)
  {
    if Singleflight.Actor(s) == Some(t) {
      hide TimedOut, Singleflight.Inv, TasksOk,
        ApplyJoin, ApplyFilter, ApplyPublish, ApplyLookUp, ApplyFetch, ApplyStore, ApplyStoreImage, Return, Goto;
      match s
      case LookUp(_, now) => LookUpTimesNobodyOut(cfg, w, t, now);
      case Fetch(_, outcome) => FetchTimesNobodyOut(w, t, outcome);
      case Peek(_) => HeardTimesNobodyOut(cfg, up, w, s, t);
      case Receive(_) => HeardTimesNobodyOut(cfg, up, w, s, t);
      case Remove(_) => HeardTimesNobodyOut(cfg, up, w, s, t);
      case SendersGone(_) => Singleflight.NeverWithoutSender(cfg, w, t);
      case TimeOut(_) =>
      case Filter(_, now) => FilterTimesNobodyOut(cfg, w, t, now);
      case StopCollecting(_) =>
        var pc := w.tasks[t].pc;
        ReturnTimesNobodyOut(w, t, pc.role, pc.consulted, pc.arrivals, LookupReply(w.tasks[t].request, pc.arrivals));
        hide LookupReply;
      case Store(_, now) => StoreTimesNobodyOut(cfg, w, t, now);
      case StoreImage(_) => StoreImageTimesNobodyOut(w, t);
      case _ => SimpleTimesNobodyOut(cfg, w, s, t);
    } else {
      Singleflight.Footprint(cfg, w, s);
      hide Apply, Enabled, Delivery.IsTimeout;
      if |w.tasks| <= t < |Apply(cfg, w, s).tasks| {
        assert Singleflight.Newcomer(Apply(cfg, w, s).tasks[t].pc);
      }
    }
  }

  lemma {:induction false} TimeOutsAreOwn(cfg: Config, up: Upstream, w: World, steps: seq<Step>, t: nat)
    requires WellFormed(cfg) && Steady(up) && Singleflight.Inv(w) && Inv(cfg, up, w)
    requires Legal(cfg, w, steps) && FaithfulRun(cfg, up, w, steps)
    requires t < |w.tasks| ==> !TimedOut(w.tasks[t].pc)
    ensures
      var w' := Run(cfg, w, steps);
      t < |w'.tasks| && TimedOut(w'.tasks[t].pc) ==> TimeOut(t) in steps
    decreases |steps|
  {
    if steps != [] {
      var w' := Apply(cfg, w, steps[0]);
      Singleflight.StepKeepsInv(cfg, w, steps[0]);
      StepKeepsInv(cfg, up, w, steps[0]);
      OnlyTimeOutTimesOut(cfg, up, w, steps[0], t);
      assert TimeOut(t) in steps[1..] ==> TimeOut(t) in steps;
      hide Apply, Enabled, Inv, Singleflight.Inv, WellFormed, Faithful, TimedOut;
      if !(t < |w'.tasks| && TimedOut(w'.tasks[t].pc)) {
        TimeOutsAreOwn(cfg, up, w', steps[1..], t);
      }
    }
  }

  /** Refinement: from an empty cache and warm-up mappings persisted under the same upstream, in any
      interleaving of requests, expiries, evictions, refreshes, cancellations and warm-ups, every finished
      request carries an answer that asking every candidate project gives; the one exception is a follower that
      timed out in that run. */
  lemma ResolvesLikeAskingEveryProject(cfg: Config, up: Upstream, hot: map<string, string>, steps: seq<Step>, t: nat)
    requires WellFormed(cfg) && Steady(up) && WarmOk(cfg, up, hot)
    requires Legal(cfg, Init(hot), steps) && FaithfulRun(cfg, up, Init(hot), steps)
    requires t < |Run(cfg, Init(hot), steps).tasks|
    ensures
      var Task(r, pc) := Run(cfg, Init(hot), steps).tasks[t];
      pc.Finished? ==>
        || AskEveryProject(cfg, up, r.image, r.reference, pc.reply)
        || (pc.reply == Err(TIMEOUT_TEXT) && TimeOut(t) in steps)
  {
    EmptyIsWarm(cfg, up);
    RunKeepsInv(cfg, up, Init(hot), steps);
    TimeOutsAreOwn(cfg, up, Init(hot), steps, t);
    var w := Run(cfg, Init(hot), steps);
    hide Run, Legal, FaithfulRun, WellFormed, CacheOk, WarmOk, BreakersOk;
    assert TaskOk(cfg, up, w.tasks[t]);
  }

  /** And no breaker refuses anybody in such runs. */
  lemma NoBreakerEverOpens(cfg: Config, up: Upstream, hot: map<string, string>, steps: seq<Step>, p: string, now: nat)
    requires WellFormed(cfg) && Steady(up) && WarmOk(cfg, up, hot)
    requires Legal(cfg, Init(hot), steps) && FaithfulRun(cfg, up, Init(hot), steps)
    ensures
      var w := Run(cfg, Init(hot), steps);
      && Breaker.Replay(w.breaker, p, cfg.threshold, cfg.breakerTimeout).state == Breaker.Closed
      && Breaker.Admits(Breaker.Replay(w.breaker, p, cfg.threshold, cfg.breakerTimeout), cfg.breakerTimeout, now)
  {
    EmptyIsWarm(cfg, up);
    RunKeepsInv(cfg, up, Init(hot), steps);
    var w := Run(cfg, Init(hot), steps);
    hide Run, Legal, FaithfulRun, TasksOk, CacheOk, WarmOk;
    NoBreakerRefuses(cfg, w, p, now);
    Breaker.NoTrailing(w.breaker, p);
    Breaker.ReplayMeans(w.breaker, p, cfg.threshold, cfg.breakerTimeout);
  }
}
