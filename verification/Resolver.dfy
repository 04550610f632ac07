/** Manifest resolution as a step system: cache, singleflight map, watch channels, fan-out, background
    refresh and warm-up, one step per atomic action, for any number of requests in any interleaving. */
module Resolver {
  import opened Text
  import CacheCodec
  import CacheKeys
  import FanOut
  import Breaker

  type Reply = FanOut.Outcome

  const SINGLEFLIGHT := "singleflight: "
  const TIMEOUT_TEXT := SINGLEFLIGHT + "follower timed out waiting for leader"
  const DROPPED_TEXT := SINGLEFLIGHT + "leader dropped channel"
  const EMPTY_TEXT := SINGLEFLIGHT + "leader sent empty result"

  /** `staleWindow` says whether stale-while-revalidate is enabled. */
  datatype Config = Config(
    projects: seq<string>, maxFanout: nat, threshold: nat, breakerTimeout: nat, cacheTtl: nat, staleWindow: bool)

  datatype Request = Request(image: string, reference: string, accept: seq<string>)

  /** The answer of the `index`-th consulted project. */
  datatype Arrival = Arrival(index: nat, outcome: Reply)

  datatype Role = Leader(chan: nat) | Refresher

  /** Where a task stands; each constructor names the atomic action that comes next. A follower's `early`
      says that it subscribed before the publish; `seen` is the channel version its receiver has seen;
      `via` is the flight that a reply came from. */
  datatype Pc =
    | LookingUp
    | Fetching(project: string, stale: bool)
    | Evicting
    | Joining
    | Subscribing(chan: nat)
    | Peeking(chan: nat, early: bool)
    | Waiting(chan: nat, early: bool, seen: nat)
    | Filtering(role: Role, next: nat, consulted: seq<string>)
    | Collecting(role: Role, consulted: seq<string>, arrivals: seq<Arrival>)
    | Publishing(chan: nat, reply: Reply)
    | Removing(chan: nat, reply: Reply)
    | Storing(reply: Reply, via: Option<nat>)
    | StoringImage(reply: Reply, via: Option<nat>)
    | Refreshing(project: string)
    | RefreshingImage(project: string)
    | Finished(reply: Reply)
    | Ended
    | Cancelled

  datatype Task = Task(request: Request, pc: Pc)

  /** A flight's watch channel: its value and version, and for the proofs who leads it, what its lookup
      saw and replied, whether the reply was sent and whether any receiver heard it. */
  datatype Chan = Chan(
    key: string, leader: nat, value: Option<Reply>, version: nat,
    consulted: seq<string>, arrivals: seq<Arrival>, reply: Option<Reply>, sent: bool, heard: bool)

  datatype World = World(
    cache: map<string, string>, flights: map<string, nat>, chans: seq<Chan>, tasks: seq<Task>,
    breaker: Breaker.History,
    hot: map<string, string>, gathered: map<string, string>, warming: map<string, string>)

  datatype Step =
    | Arrive(request: Request)
    | LookUp(t: nat, now: nat)
    | Fetch(t: nat, outcome: Reply)
    | Evict(t: nat)
    | Join(t: nat)
    | Subscribe(t: nat)
    | Peek(t: nat)
    | Receive(t: nat)
    | SendersGone(t: nat)
    | TimeOut(t: nat)
    | Filter(t: nat, now: nat)
    | Collect(t: nat, index: nat, outcome: Reply, now: nat)
    | StopCollecting(t: nat)
    | Publish(t: nat)
    | Remove(t: nat)
    | Store(t: nat, now: nat)
    | StoreImage(t: nat)
    | Cancel(t: nat)
    | Background(b: Ambient)

  /** What happens beside the requests: expiry, other cache traffic, persisting hot entries and warming up. */
  datatype Ambient =
    | Expire(key: string)
    | WriteOther(key: string, value: string)
    | PersistRead(key: string)
    | PersistWrite
    | WarmLoad
    | WarmKey(key: string, now: nat)
    | WarmImage(key: string)

  function Init(hot: map<string, string>): World {
    World(map[], map[], [], [], [], hot, map[], map[])
  }

  function Key(r: Request): string {
    CacheKeys.ManifestKey(r.image, r.reference)
  }

  /** How many projects a lookup considers. */
  function Limit(cfg: Config): (n: nat)
    ensures n <= |cfg.projects|
  {
    if |cfg.projects| > cfg.maxFanout then cfg.maxFanout else |cfg.projects|
  }

  /** How a cached value is read on the fast path. */
  function ReadEntry(cfg: Config, value: string): (string, Option<nat>) {
    if cfg.staleWindow then CacheCodec.Decode(value) else (value, None)
  }

  function CacheValue(cfg: Config, project: string, now: nat): string {
    CacheCodec.StoredValue(cfg.staleWindow, project, now)
  }

  predicate IsStale(cfg: Config, stamp: Option<nat>, now: nat) {
    cfg.staleWindow && stamp.Some? && Breaker.SaturatingSub(now, stamp.value) > cfg.cacheTtl
  }

  function Outcomes(arrivals: seq<Arrival>): seq<Reply> {
    seq(|arrivals|, i requires 0 <= i < |arrivals| => arrivals[i].outcome)
  }

  /** The loop has just received a matching 200 and returns. */
  predicate Matched(arrivals: seq<Arrival>, accept: seq<string>) {
    arrivals != [] && FanOut.IsMatch(arrivals[|arrivals| - 1].outcome, FanOut.Accepting(accept))
  }

  /** The loop may end: on a match, when all have arrived, or by the grace timer once there is a fallback. */
  predicate MayStop(consulted: seq<string>, arrivals: seq<Arrival>, accept: seq<string>) {
    Matched(arrivals, accept) || |arrivals| == |consulted| || FanOut.Any200(Outcomes(arrivals))
  }

  function LookupReply(r: Request, arrivals: seq<Arrival>): Reply {
    FanOut.Verdict(Outcomes(arrivals), FanOut.Accepting(r.accept), r.image, r.reference)
  }

  /** `should_record_transport_failure` */
  predicate IsTransportFailure(text: string) {
    !(Contains(text, "builder error") || Contains(text, "invalid URL") || Contains(text, "relative URL without a base"))
  }

  /** What a project's answer records on its breaker. */
  function BreakerEvents(project: string, outcome: Reply, now: nat): Breaker.History {
    match outcome
    case Ok(r) =>
      if r.status == 200 then [Breaker.Success(project)]
      else if 400 <= r.status < 500 then []
      else [Breaker.Failure(project, now)]
    case Err(text) => if IsTransportFailure(text) then [Breaker.Failure(project, now)] else []
  }

  function Leads(pc: Pc): Option<nat> {
    match pc
    case Filtering(Leader(c), _, _) => Some(c)
    case Collecting(Leader(c), _, _) => Some(c)
    case Publishing(c, _) => Some(c)
    case Removing(c, _) => Some(c)
    case _ => None
  }

  /** A live `watch::Receiver` of channel `c`. */
  predicate HasReceiver(pc: Pc, c: nat) {
    (pc.Peeking? && pc.chan == c) || (pc.Waiting? && pc.chan == c)
  }

  /** A live `watch::Sender` of channel `c`: the leader's, or the clone a follower keeps until it returns. */
  predicate HasSender(pc: Pc, c: nat) {
    HasReceiver(pc, c) || (pc.Subscribing? && pc.chan == c) || Leads(pc) == Some(c)
  }

  predicate SomeReceiver(tasks: seq<Task>, c: nat) {
    exists u :: 0 <= u < |tasks| && HasReceiver(tasks[u].pc, c)
  }

  predicate SomeSender(w: World, c: nat) {
    c in w.flights.Values || exists u :: 0 <= u < |w.tasks| && HasSender(w.tasks[u].pc, c)
  }

  /** The await points, where a disconnecting client drops the future. */
  predicate Cancellable(pc: Pc) {
    pc.LookingUp? || pc.Fetching? || pc.Evicting? || pc.Joining? || pc.Waiting? || pc.Storing? || pc.StoringImage?
    || (pc.Collecting? && pc.role.Leader?)
  }

  predicate Enabled(cfg: Config, w: World, s: Step) {
    match s
    case Arrive(_) => true
    case LookUp(t, now) => t < |w.tasks| && w.tasks[t].pc.LookingUp?
    case Fetch(t, outcome) =>
      t < |w.tasks| && w.tasks[t].pc.Fetching? && (outcome.Ok? ==> outcome.value.project == w.tasks[t].pc.project)
    case Evict(t) => t < |w.tasks| && w.tasks[t].pc.Evicting?
    case Join(t) => t < |w.tasks| && w.tasks[t].pc.Joining?
    case Subscribe(t) => t < |w.tasks| && w.tasks[t].pc.Subscribing? && w.tasks[t].pc.chan < |w.chans|
    case Peek(t) => t < |w.tasks| && w.tasks[t].pc.Peeking? && w.tasks[t].pc.chan < |w.chans|
    case Receive(t) =>
      t < |w.tasks| && w.tasks[t].pc.Waiting? && w.tasks[t].pc.chan < |w.chans|
      && w.chans[w.tasks[t].pc.chan].version != w.tasks[t].pc.seen
    case SendersGone(t) => t < |w.tasks| && w.tasks[t].pc.Waiting? && !SomeSender(w, w.tasks[t].pc.chan)
    case TimeOut(t) => t < |w.tasks| && w.tasks[t].pc.Waiting?
    case Filter(t, now) => t < |w.tasks| && w.tasks[t].pc.Filtering? && LeadsChan(w, t)
    case Collect(t, index, outcome, now) =>
      && t < |w.tasks| && w.tasks[t].pc.Collecting?
      && var pc := w.tasks[t].pc;
         && !Matched(pc.arrivals, w.tasks[t].request.accept)
         && index < |pc.consulted| && (forall n :: 0 <= n < |pc.arrivals| ==> pc.arrivals[n].index != index)
         && (outcome.Ok? ==> outcome.value.project == pc.consulted[index])
    case StopCollecting(t) =>
      && t < |w.tasks| && w.tasks[t].pc.Collecting? && LeadsChan(w, t)
      && MayStop(w.tasks[t].pc.consulted, w.tasks[t].pc.arrivals, w.tasks[t].request.accept)
    case Publish(t) => t < |w.tasks| && w.tasks[t].pc.Publishing? && w.tasks[t].pc.chan < |w.chans|
    case Remove(t) => t < |w.tasks| && w.tasks[t].pc.Removing?
    case Store(t, now) => t < |w.tasks| && (w.tasks[t].pc.Storing? || w.tasks[t].pc.Refreshing?)
        && now <= CacheCodec.U64_MAX
    case StoreImage(t) => t < |w.tasks| && (w.tasks[t].pc.StoringImage? || w.tasks[t].pc.RefreshingImage?)
    case Cancel(t) => t < |w.tasks| && Cancellable(w.tasks[t].pc)
    case Background(b) => AmbientEnabled(w, b)
  }

  predicate AmbientEnabled(w: World, b: Ambient) {
    match b
    case Expire(_) => true
    case WriteOther(key, _) => CacheKeys.OtherFamily(key)
    case PersistRead(key) => key in w.cache
    case PersistWrite => true
    case WarmLoad => true
    case WarmKey(key, now) => key in w.warming && IsSafeProjectName(w.warming[key]) && now <= CacheCodec.U64_MAX
    case WarmImage(key) => key in w.warming && IsSafeProjectName(w.warming[key])
  }

  predicate LeadsChan(w: World, t: nat)
    requires t < |w.tasks|
  {
    Leads(w.tasks[t].pc).Some? ==> Leads(w.tasks[t].pc).value < |w.chans|
  }

  function Goto(w: World, t: nat, pc: Pc): World
    requires t < |w.tasks|
  {
    w.(tasks := w.tasks[t := w.tasks[t].(pc := pc)])
  }

  /** `parallel_lookup` returns: a leader goes on to publish, a background refresh to store or end. */
  function Return(w: World, t: nat, role: Role, consulted: seq<string>, arrivals: seq<Arrival>, reply: Reply): World
    requires t < |w.tasks| && (role.Leader? ==> role.chan < |w.chans|)
  {
    match role
    case Leader(c) =>
      Goto(w, t, Publishing(c, reply)).(
        chans := w.chans[c := w.chans[c].(consulted := consulted, arrivals := arrivals, reply := Some(reply))])
    case Refresher => Goto(w, t, if reply.Ok? then Refreshing(reply.value.project) else Ended)
  }

  function Apply(cfg: Config, w: World, s: Step): World
    requires Enabled(cfg, w, s)
  {
    match s
    case Arrive(r) => w.(tasks := w.tasks + [Task(r, LookingUp)])
    case LookUp(t, now) => ApplyLookUp(cfg, w, t, now)
    case Fetch(t, outcome) => ApplyFetch(w, t, outcome)
    case Evict(t) => Goto(w, t, Joining).(cache := w.cache - {Key(w.tasks[t].request)})
    case Join(t) => ApplyJoin(w, t)
    case Subscribe(t) => var c := w.tasks[t].pc.chan; Goto(w, t, Peeking(c, !w.chans[c].sent))
    case Peek(t) =>
      var pc := w.tasks[t].pc;
      var chan := w.chans[pc.chan];
      Goto(w, t, if chan.value.Some? then Storing(chan.value.value, Some(pc.chan))
                 else Waiting(pc.chan, pc.early, chan.version))
    case Receive(t) =>
      var c := w.tasks[t].pc.chan;
      Goto(w, t, if w.chans[c].value.Some? then Storing(w.chans[c].value.value, Some(c))
                 else Storing(Err(EMPTY_TEXT), None))
    case SendersGone(t) => Goto(w, t, Storing(Err(DROPPED_TEXT), None))
    case TimeOut(t) => Goto(w, t, Storing(Err(TIMEOUT_TEXT), None))
    case Filter(t, now) => ApplyFilter(cfg, w, t, now)
    case Collect(t, index, outcome, now) =>
      var pc := w.tasks[t].pc;
      Goto(w, t, pc.(arrivals := pc.arrivals + [Arrival(index, outcome)])).(
        breaker := w.breaker + BreakerEvents(pc.consulted[index], outcome, now))
    case StopCollecting(t) =>
      var pc := w.tasks[t].pc;
      Return(w, t, pc.role, pc.consulted, pc.arrivals, LookupReply(w.tasks[t].request, pc.arrivals))
    case Publish(t) => ApplyPublish(w, t)
    case Remove(t) =>
      var pc := w.tasks[t].pc;
      Goto(w, t, Storing(pc.reply, Some(pc.chan))).(flights := w.flights - {Key(w.tasks[t].request)})
    case Store(t, now) => ApplyStore(cfg, w, t, now)
    case StoreImage(t) => ApplyStoreImage(w, t)
    case Cancel(t) => Goto(w, t, Cancelled)
    case Background(b) => ApplyAmbient(cfg, w, b)
  }

  /** The write under the image key, for blob routing. */
  function ApplyStoreImage(w: World, t: nat): World
    requires t < |w.tasks|
  {
    var Task(request, pc) := w.tasks[t];
    Goto(w, t, AfterImage(pc)).(cache := WithImage(w.cache, CacheKeys.ImageKey(request.image), pc))
  }

  function AfterImage(pc: Pc): Pc {
    if pc.StoringImage? && pc.reply.Ok? then Finished(pc.reply) else Ended
  }

  function WithImage(cache: map<string, string>, key: string, pc: Pc): map<string, string> {
    match pc
    case RefreshingImage(project) => cache[key := project]
    case StoringImage(Ok(r), _) => cache[key := r.project]
    case _ => cache
  }

  function ApplyAmbient(cfg: Config, w: World, b: Ambient): World
    requires AmbientEnabled(w, b)
  {
    match b
    case Expire(key) => w.(cache := w.cache - {key})
    case WriteOther(key, value) => w.(cache := w.cache[key := value])
    case PersistRead(key) =>
      var project := CacheCodec.HotProject(w.cache[key]);
      if project.Some? then w.(gathered := w.gathered[key := project.value]) else w
    case PersistWrite => if w.gathered == map[] then w else w.(hot := w.gathered, gathered := map[])
    case WarmLoad => w.(warming := w.hot)
    case WarmKey(key, now) => w.(cache := w.cache[key := CacheValue(cfg, w.warming[key], now)])
    case WarmImage(key) => w.(cache := w.cache[CacheKeys.ImageKey(Before(key, ':')) := w.warming[key]])
  }

  function ApplyLookUp(cfg: Config, w: World, t: nat, now: nat): World
    requires t < |w.tasks|
  {
    Goto(w, t, AfterLookUp(cfg, w.cache, w.tasks[t].request, now))
  }

  function AfterLookUp(cfg: Config, cache: map<string, string>, r: Request, now: nat): Pc {
    if Key(r) !in cache then Joining else
      var (project, stamp) := ReadEntry(cfg, cache[Key(r)]);
      if project == CacheCodec.NEGATIVE_SENTINEL
      then Finished(Err(FanOut.NotFoundText(r.image, r.reference)))
      else Fetching(project, IsStale(cfg, stamp, now))
  }

  /** A 200 from the cached project is the answer; if the entry was stale a refresh is spawned. */
  function ApplyFetch(w: World, t: nat, outcome: Reply): World
    requires t < |w.tasks| && w.tasks[t].pc.Fetching?
  {
    var task := w.tasks[t];
    if FanOut.Is200(outcome) then
      var done := Goto(w, t, Finished(outcome));
      if task.pc.stale then done.(tasks := done.tasks + [Task(task.request, Filtering(Refresher, 0, []))]) else done
    else Goto(w, t, Evicting)
  }

  /** The map's entry operation: the first task for a key leads, later ones follow. */
  function ApplyJoin(w: World, t: nat): World
    requires t < |w.tasks|
  {
    var key := Key(w.tasks[t].request);
    if key in w.flights then Goto(w, t, Subscribing(w.flights[key]))
    else
      Goto(w, t, Filtering(Leader(|w.chans|), 0, [])).(
        flights := w.flights[key := |w.chans|],
        chans := w.chans + [Chan(key, t, None, 0, [], [], None, false, false)])
  }

  /** One project is checked against its breaker; after the last one the requests go out. */
  function ApplyFilter(cfg: Config, w: World, t: nat, now: nat): World
    requires t < |w.tasks| && w.tasks[t].pc.Filtering? && LeadsChan(w, t)
  {
    var Filtering(role, next, consulted) := w.tasks[t].pc;
    if cfg.projects == [] then Return(w, t, role, [], [], Err(FanOut.NO_PROJECTS))
    else if next < Limit(cfg) then
      var p := cfg.projects[next];
      var health := Breaker.Replay(w.breaker, p, cfg.threshold, cfg.breakerTimeout);
      var available := Breaker.Admits(health, cfg.breakerTimeout, now);
      Goto(w, t, Filtering(role, next + 1, if available then consulted + [p] else consulted)).(
        breaker := w.breaker + [Breaker.Probe(p, now)])
    else if consulted == [] then Return(w, t, role, [], [], Err(FanOut.NONE_AVAILABLE))
    else Goto(w, t, Collecting(role, consulted, []))
  }

  /** `tx.send`: the value is stored only if a receiver is alive at this moment. */
  function ApplyPublish(w: World, t: nat): World
    requires t < |w.tasks| && w.tasks[t].pc.Publishing? && w.tasks[t].pc.chan < |w.chans|
  {
    var Publishing(c, reply) := w.tasks[t].pc;
    var chan := w.chans[c];
    var sent :=
      if SomeReceiver(w.tasks, c) then
        chan.(value := Some(reply), version := chan.version + 1, sent := true, heard := true)
      else chan.(sent := true);
    Goto(w, t, Removing(c, reply)).(chans := w.chans[c := sent])
  }

  /** The write under the manifest key: the project, the negative sentinel, or nothing. */
  function ApplyStore(cfg: Config, w: World, t: nat, now: nat): World
    requires t < |w.tasks|
  {
    var Task(request, pc) := w.tasks[t];
    Goto(w, t, AfterStore(pc)).(cache := WithReply(cfg, w.cache, Key(request), pc, now))
  }

  function AfterStore(pc: Pc): Pc {
    match pc
    case Refreshing(project) => RefreshingImage(project)
    case Storing(reply, via) => if reply.Ok? then StoringImage(reply, via) else Finished(reply)
    case _ => pc
  }

  function WithReply(cfg: Config, cache: map<string, string>, key: string, pc: Pc, now: nat): map<string, string> {
    match pc
    case Refreshing(project) => cache[key := CacheCodec.Encode(project, now)]
    case Storing(Ok(r), _) => cache[key := CacheValue(cfg, r.project, now)]
    case Storing(Err(text), _) =>
      if FanOut.IsAllProjectsNon200(text) then cache[key := CacheCodec.NEGATIVE_SENTINEL] else cache
    case _ => cache
  }

  ghost predicate Legal(cfg: Config, w: World, steps: seq<Step>)
    decreases |steps|
  {
    steps == [] || (Enabled(cfg, w, steps[0]) && Legal(cfg, Apply(cfg, w, steps[0]), steps[1..]))
  }

  ghost function Run(cfg: Config, w: World, steps: seq<Step>): World
    requires Legal(cfg, w, steps)
    decreases |steps|
  {
    if steps == [] then w else Run(cfg, Apply(cfg, w, steps[0]), steps[1..])
  }
}
