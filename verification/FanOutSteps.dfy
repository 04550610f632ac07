/** The fan-out inside the running system: whom a lookup asks, what the breakers learn from the answers, and that its
    answers are processed as the result loop processes them. */
module FanOutSteps {
  import opened Text
  import opened Resolver
  import Breaker
  import CacheKeys
  import FanOut
  import Singleflight

  // ----- whom a lookup asks -----

  /** One availability check of a lookup: the calls made on the breakers before it, and the clock it reads. */
  datatype Check = Check(history: Breaker.History, now: nat)

  /** The checks that task `t` makes in a run, in order. */
  ghost function Checks(cfg: Config, w: World, steps: seq<Step>, t: nat): seq<Check>
    requires Legal(cfg, w, steps)
    decreases |steps|
  {
    if steps == [] then [] else
      (if steps[0].Filter? && steps[0].t == t then [Check(w.breaker, steps[0].now)] else [])
      + Checks(cfg, Apply(cfg, w, steps[0]), steps[1..], t)
  }

  /** The projects that a lookup considers: the first `max_fanout`. */
  function Considered(cfg: Config): seq<string> {
    if |cfg.projects| > cfg.maxFanout then cfg.projects[..cfg.maxFanout] else cfg.projects
  }

  /** At this check the breaker of `p` is open: enough failures in a row, the latest one young enough, and no probe let
      through since. */
  predicate Refused(cfg: Config, p: string, c: Check) {
    && Breaker.Trailing(c.history, p) >= cfg.threshold
    && cfg.breakerTimeout > 0 && c.now < Breaker.LastFailure(c.history, p) + cfg.breakerTimeout
    && !Breaker.SomeLetThrough(c.history, p, cfg.threshold, cfg.breakerTimeout)
  }

  /** The projects that were not refused at their check, in order. */
  function NotRefused(cfg: Config, projects: seq<string>, checks: seq<Check>): seq<string>
    requires |projects| <= |checks|
  {
    if projects == [] then [] else
      var n := |projects| - 1;
      NotRefused(cfg, projects[..n], checks) + if Refused(cfg, projects[n], checks[n]) then [] else [projects[n]]
  }

  lemma {:induction false} NotRefusedGrows(cfg: Config, projects: seq<string>, checks: seq<Check>, c: Check)
    requires |projects| <= |checks|
    ensures NotRefused(cfg, projects, checks + [c]) == NotRefused(cfg, projects, checks)
  {
    if projects != [] {
      NotRefusedGrows(cfg, projects[..|projects| - 1], checks, c);
    }
  }

  lemma LimitIsConsidered(cfg: Config)
    ensures Limit(cfg) == |Considered(cfg)|
    ensures forall n :: 0 <= n <= Limit(cfg) ==> cfg.projects[..n] == Considered(cfg)[..n]
  {
  }

  lemma AdmitsUnlessRefused(cfg: Config, p: string, c: Check)
    requires 1 <= cfg.threshold < Breaker.U32
    ensures Breaker.Admits(Breaker.Replay(c.history, p, cfg.threshold, cfg.breakerTimeout), cfg.breakerTimeout, c.now)
            <==> !Refused(cfg, p, c)
  {
    Breaker.RefusesExactly(c.history, p, cfg.threshold, cfg.breakerTimeout, c.now);
    hide Breaker.SomeLetThrough, Breaker.Replay, Breaker.Admits, Breaker.Trailing, Breaker.LastFailure;
  }

  // ----- the invariant of one task -----

  /** No answer but the last one ended the loop. */
  predicate OnlyLastMatches(accept: seq<string>, arrivals: seq<Arrival>) {
    forall j :: 0 <= j < |arrivals| - 1 ==> !FanOut.IsMatch(arrivals[j].outcome, FanOut.Accepting(accept))
  }

  predicate Replied(cfg: Config, checks: seq<Check>, reply: Reply) {
    cfg.projects != [] ==>
      && |checks| == |Considered(cfg)| + 1
      && (NotRefused(cfg, Considered(cfg), checks) == [] <==> reply == Err(FanOut.NONE_AVAILABLE))
  }

  predicate Gate(cfg: Config, accept: seq<string>, pc: Pc, checks: seq<Check>) {
    match pc
    case LookingUp => checks == []
    case Fetching(_, _) => checks == []
    case Evicting => checks == []
    case Joining => checks == []
    case Filtering(_, next, consulted) =>
      |checks| == next <= |Considered(cfg)| && consulted == NotRefused(cfg, Considered(cfg)[..next], checks)
    case Collecting(_, consulted, arrivals) =>
      && |checks| == |Considered(cfg)| + 1 && consulted == NotRefused(cfg, Considered(cfg), checks) && consulted != []
      && OnlyLastMatches(accept, arrivals)
    case Publishing(_, reply) => Replied(cfg, checks, reply)
    case Removing(_, reply) => Replied(cfg, checks, reply)
    case _ => true
  }

  ghost predicate GateOk(cfg: Config, w: World, t: nat, checks: seq<Check>) {
    if t < |w.tasks| then Gate(cfg, w.tasks[t].request.accept, w.tasks[t].pc, checks) else checks == []
  }

  lemma ReturnGate(cfg: Config, w: World, t: nat, role: Role, consulted: seq<string>, arrivals: seq<Arrival>,
      reply: Reply, checks: seq<Check>)
    requires t < |w.tasks| && (role.Leader? ==> role.chan < |w.chans|) && Replied(cfg, checks, reply)
    ensures GateOk(cfg, Return(w, t, role, consulted, arrivals, reply), t, checks)
  {
    hide Replied;
  }

  lemma CheckGate(cfg: Config, w: World, t: nat, now: nat, checks: seq<Check>)
    requires 1 <= cfg.threshold < Breaker.U32 && GateOk(cfg, w, t, checks)
    requires t < |w.tasks| && w.tasks[t].pc.Filtering? && LeadsChan(w, t) && cfg.projects != []
    requires w.tasks[t].pc.next < Limit(cfg)
    ensures GateOk(cfg, ApplyFilter(cfg, w, t, now), t, checks + [Check(w.breaker, now)])
    ensures ApplyFilter(cfg, w, t, now).breaker == w.breaker + [Breaker.Probe(Considered(cfg)[w.tasks[t].pc.next], now)]
  {
    var Filtering(role, next, consulted) := w.tasks[t].pc;
    var c, ps := Check(w.breaker, now), Considered(cfg);
    LimitIsConsidered(cfg);
    assert cfg.projects[next] == ps[next] by {
      assert cfg.projects[..next + 1][next] == ps[..next + 1][next];
    }
    AdmitsUnlessRefused(cfg, ps[next], c);
    NotRefusedGrows(cfg, ps[..next], checks, c);
    assert ps[..next + 1][..next] == ps[..next];
    hide Breaker.Admits, Breaker.Replay, Refused, Limit, Return, Considered;
    assert NotRefused(cfg, ps[..next + 1], checks + [c])
        == NotRefused(cfg, ps[..next], checks) + if Refused(cfg, ps[next], c) then [] else [ps[next]];
  }

  lemma LastCheckGate(cfg: Config, w: World, t: nat, now: nat, checks: seq<Check>)
    requires GateOk(cfg, w, t, checks)
    requires t < |w.tasks| && w.tasks[t].pc.Filtering? && LeadsChan(w, t)
    requires cfg.projects == [] || w.tasks[t].pc.next >= Limit(cfg)
    ensures GateOk(cfg, ApplyFilter(cfg, w, t, now), t, checks + [Check(w.breaker, now)])
  {
    var Filtering(role, next, consulted) := w.tasks[t].pc;
    var c, ps := Check(w.breaker, now), Considered(cfg);
    LimitIsConsidered(cfg);
    assert ps[..|ps|] == ps;
    hide Breaker.Admits, Breaker.Replay, Refused, Limit, Return;
    if cfg.projects == [] {
      ReturnGate(cfg, w, t, role, [], [], Err(FanOut.NO_PROJECTS), checks + [c]);
    } else {
      NotRefusedGrows(cfg, ps, checks, c);
      if consulted == [] { ReturnGate(cfg, w, t, role, [], [], Err(FanOut.NONE_AVAILABLE), checks + [c]); }
    }
  }

  lemma LookupIsNotNone(r: Request, arrivals: seq<Arrival>)
    ensures LookupReply(r, arrivals) != Err(FanOut.NONE_AVAILABLE)
  {
    var reply := LookupReply(r, arrivals);
    if reply.Err? {
      var seen := Outcomes(arrivals);
      assert seen == [] || !FanOut.IsMatch(seen[|seen| - 1], FanOut.Accepting(r.accept));
      assert reply.error[0] == 'a' || reply.error[0] == 'i';
      assert FanOut.NONE_AVAILABLE[0] == 'n';
    }
  }

  lemma StopGate(cfg: Config, w: World, t: nat, checks: seq<Check>)
    requires GateOk(cfg, w, t, checks) && Enabled(cfg, w, StopCollecting(t))
    ensures GateOk(cfg, Apply(cfg, w, StopCollecting(t)), t, checks)
  {
    var pc, r := w.tasks[t].pc, w.tasks[t].request;
    LookupIsNotNone(r, pc.arrivals);
    assert Replied(cfg, checks, LookupReply(r, pc.arrivals));
    ReturnGate(cfg, w, t, pc.role, pc.consulted, pc.arrivals, LookupReply(r, pc.arrivals), checks);
    hide LookupReply, MayStop, Return, GateOk, Replied;
  }

  lemma CollectGate(cfg: Config, w: World, s: Step, checks: seq<Check>)
    requires s.Collect? && Enabled(cfg, w, s) && GateOk(cfg, w, s.t, checks)
    ensures GateOk(cfg, Apply(cfg, w, s), s.t, checks)
  {
    var pc := w.tasks[s.t].pc;
    OnlyLastGrows(w.tasks[s.t].request.accept, pc.arrivals, Arrival(s.index, s.outcome));
    hide BreakerEvents, NotRefused, Considered, OnlyLastMatches, Matched;
  }

  lemma OnlyLastGrows(accept: seq<string>, arrivals: seq<Arrival>, a: Arrival)
    requires OnlyLastMatches(accept, arrivals) && !Matched(arrivals, accept)
    ensures OnlyLastMatches(accept, arrivals + [a])
  {
    hide FanOut.IsMatch, FanOut.Accepting;
    assert forall n :: 0 <= n < |arrivals| ==> (arrivals + [a])[n] == arrivals[n];
  }

  lemma LookUpGate(cfg: Config, w: World, t: nat, now: nat, checks: seq<Check>)
    requires t < |w.tasks| && w.tasks[t].pc.LookingUp? && GateOk(cfg, w, t, checks)
    ensures GateOk(cfg, ApplyLookUp(cfg, w, t, now), t, checks)
  {
    hide ReadEntry, IsStale, Key, FanOut.NotFoundText;
  }

  lemma FetchGate(cfg: Config, w: World, t: nat, outcome: Reply, checks: seq<Check>)
    requires t < |w.tasks| && w.tasks[t].pc.Fetching? && GateOk(cfg, w, t, checks)
    ensures GateOk(cfg, ApplyFetch(w, t, outcome), t, checks)
  {
    hide FanOut.Is200;
  }

  lemma JoinGate(cfg: Config, w: World, t: nat, checks: seq<Check>)
    requires t < |w.tasks| && w.tasks[t].pc.Joining? && GateOk(cfg, w, t, checks)
    ensures GateOk(cfg, ApplyJoin(w, t), t, checks)
  {
    assert Considered(cfg)[..0] == [];
    hide Key, Considered;
  }

  lemma PublishGate(cfg: Config, w: World, t: nat, checks: seq<Check>)
    requires t < |w.tasks| && w.tasks[t].pc.Publishing? && w.tasks[t].pc.chan < |w.chans| && GateOk(cfg, w, t, checks)
    ensures GateOk(cfg, ApplyPublish(w, t), t, checks)
  {
    hide SomeReceiver, Replied;
  }

  lemma StoreGate(cfg: Config, w: World, t: nat, now: nat, checks: seq<Check>)
    requires t < |w.tasks| && (w.tasks[t].pc.Storing? || w.tasks[t].pc.Refreshing?)
    ensures GateOk(cfg, ApplyStore(cfg, w, t, now), t, checks)
  {
    hide WithReply, Key;
  }

  lemma StoreImageGate(cfg: Config, w: World, t: nat, checks: seq<Check>)
    requires t < |w.tasks| && (w.tasks[t].pc.StoringImage? || w.tasks[t].pc.RefreshingImage?)
    ensures GateOk(cfg, ApplyStoreImage(w, t), t, checks)
  {
    hide WithImage, CacheKeys.ImageKey;
  }

  lemma SimpleGate(cfg: Config, w: World, s: Step, t: nat, checks: seq<Check>)
    requires s.Evict? || s.Subscribe? || s.Peek? || s.Receive? || s.SendersGone? || s.TimeOut? || s.Remove? || s.Cancel?
    requires Enabled(cfg, w, s) && s.t == t && GateOk(cfg, w, t, checks)
    ensures GateOk(cfg, Apply(cfg, w, s), t, checks)
  {
    hide Key, SomeSender;
  }

  lemma OwnStepKeepsGate(cfg: Config, w: World, s: Step, t: nat, checks: seq<Check>)
    requires 1 <= cfg.threshold < Breaker.U32 && GateOk(cfg, w, t, checks)
    requires Enabled(cfg, w, s) && Singleflight.Actor(s) == Some(t)
    ensures GateOk(cfg, Apply(cfg, w, s), t, checks + if s.Filter? then [Check(w.breaker, s.now)] else [])
  {
    assert checks + [] == checks;
    hide GateOk, ApplyJoin, ApplyFilter, ApplyPublish, ApplyLookUp, ApplyFetch, ApplyStore, ApplyStoreImage, Return,
        Goto;
    match s
    case LookUp(_, now) => LookUpGate(cfg, w, t, now, checks);
    case Fetch(_, outcome) => FetchGate(cfg, w, t, outcome, checks);
    case Join(_) => JoinGate(cfg, w, t, checks);
    case Filter(_, now) =>
      if cfg.projects != [] && w.tasks[t].pc.next < Limit(cfg) { CheckGate(cfg, w, t, now, checks); }
      else { LastCheckGate(cfg, w, t, now, checks); }
    case Collect(_, _, _, _) => CollectGate(cfg, w, s, checks);
    case StopCollecting(_) => StopGate(cfg, w, t, checks);
    case Publish(_) => PublishGate(cfg, w, t, checks);
    case Store(_, now) => StoreGate(cfg, w, t, now, checks);
    case StoreImage(_) => StoreImageGate(cfg, w, t, checks);
    case _ => SimpleGate(cfg, w, s, t, checks);
  }

  lemma StepKeepsGate(cfg: Config, w: World, s: Step, t: nat, checks: seq<Check>)
    requires 1 <= cfg.threshold < Breaker.U32 && GateOk(cfg, w, t, checks) && Enabled(cfg, w, s)
    ensures GateOk(cfg, Apply(cfg, w, s), t, checks + if s.Filter? && s.t == t then [Check(w.breaker, s.now)] else [])
  {
    if Singleflight.Actor(s) == Some(t) {
      OwnStepKeepsGate(cfg, w, s, t, checks);
      hide GateOk, Apply, Enabled;
    } else {
      Singleflight.Footprint(cfg, w, s);
      assert checks + [] == checks;
      NewcomerGate(cfg, w, Apply(cfg, w, s), s, t, checks);
      hide GateOk, Apply, Enabled;
    }
  }

  lemma NewcomerGate(cfg: Config, w: World, w': World, s: Step, t: nat, checks: seq<Check>)
    requires GateOk(cfg, w, t, checks) && Singleflight.OnlyMoves(w, w', Singleflight.Actor(s))
    requires Singleflight.Actor(s) != Some(t)
    ensures GateOk(cfg, w', t, checks)
  {
    if |w.tasks| <= t < |w'.tasks| {
      assert Singleflight.Newcomer(w'.tasks[t].pc);
      assert Considered(cfg)[..0] == [];
    }
    hide NotRefused, Considered, OnlyLastMatches, Replied;
  }

  lemma {:induction false} RunKeepsGate(cfg: Config, w: World, steps: seq<Step>, t: nat, checks: seq<Check>)
    requires 1 <= cfg.threshold < Breaker.U32 && GateOk(cfg, w, t, checks) && Legal(cfg, w, steps)
    ensures GateOk(cfg, Run(cfg, w, steps), t, checks + Checks(cfg, w, steps, t))
    decreases |steps|
  {
    hide GateOk, Apply, Enabled;
    if steps == [] {
      assert checks + [] == checks;
    } else {
      var s, w' := steps[0], Apply(cfg, w, steps[0]);
      var own := if s.Filter? && s.t == t then [Check(w.breaker, s.now)] else [];
      StepKeepsGate(cfg, w, s, t, checks);
      RunKeepsGate(cfg, w', steps[1..], t, checks + own);
      assert checks + (own + Checks(cfg, w', steps[1..], t)) == (checks + own) + Checks(cfg, w', steps[1..], t);
    }
  }

  lemma TaskIsGated(cfg: Config, hot: map<string, string>, steps: seq<Step>, t: nat)
    requires 1 <= cfg.threshold < Breaker.U32 && Legal(cfg, Init(hot), steps) && t < |Run(cfg, Init(hot), steps).tasks|
    ensures
      var task := Run(cfg, Init(hot), steps).tasks[t];
      Gate(cfg, task.request.accept, task.pc, Checks(cfg, Init(hot), steps, t))
  {
    RunKeepsGate(cfg, Init(hot), steps, t, []);
    var checks := Checks(cfg, Init(hot), steps, t);
    assert [] + checks == checks;
    hide Gate, Run, Legal, Checks;
  }

  /** In any run and with any upstream, the projects that a lookup asks are exactly those of the first `max_fanout`
      whose breaker did not refuse at their check; and it fails with "all circuits open" exactly if that leaves
      none. */
  lemma AsksExactlyTheAdmitted(cfg: Config, hot: map<string, string>, steps: seq<Step>, t: nat)
    requires 1 <= cfg.threshold < Breaker.U32 && cfg.projects != []
    requires Legal(cfg, Init(hot), steps) && t < |Run(cfg, Init(hot), steps).tasks|
    ensures
      var checks := Checks(cfg, Init(hot), steps, t);
      match Run(cfg, Init(hot), steps).tasks[t].pc
      case Collecting(_, consulted, _) =>
        |checks| == |Considered(cfg)| + 1 && consulted == NotRefused(cfg, Considered(cfg), checks)
      case Publishing(_, reply) =>
        && |checks| == |Considered(cfg)| + 1
        && (NotRefused(cfg, Considered(cfg), checks) == [] <==> reply == Err(FanOut.NONE_AVAILABLE))
      case _ => true
  {
    TaskIsGated(cfg, hot, steps, t);
    hide Run, Legal, Checks, NotRefused;
  }

  /** Every check is itself a call on that project's breaker. */
  lemma ChecksAreRecorded(cfg: Config, hot: map<string, string>, steps: seq<Step>, t: nat, now: nat)
    requires 1 <= cfg.threshold < Breaker.U32 && cfg.projects != [] && Legal(cfg, Init(hot), steps)
    requires Enabled(cfg, Run(cfg, Init(hot), steps), Filter(t, now))
    ensures
      var w, n := Run(cfg, Init(hot), steps), |Checks(cfg, Init(hot), steps, t)|;
      n < |Considered(cfg)| ==>
        Apply(cfg, w, Filter(t, now)).breaker == w.breaker + [Breaker.Probe(Considered(cfg)[n], now)]
  {
    TaskIsGated(cfg, hot, steps, t);
    LimitIsConsidered(cfg);
    var w, checks := Run(cfg, Init(hot), steps), Checks(cfg, Init(hot), steps, t);
    hide Run, Legal, Checks;
    if |checks| < |Considered(cfg)| { CheckGate(cfg, w, t, now, checks); }
    hide NotRefused, Considered, ApplyFilter;
  }

  // ----- what the breakers learn -----

  /** How an answer changes the failures in a row of the project that gave it: a 200 ends them, a client error leaves
      them, any other status adds one, and so does an error unless its text says that no request could be made. */
  lemma BreakersLearn(cfg: Config, w: World, t: nat, index: nat, answer: Reply, now: nat, q: string)
    requires Enabled(cfg, w, Collect(t, index, answer, now))
    ensures
      var before, after := w.breaker, Apply(cfg, w, Collect(t, index, answer, now)).breaker;
      var p := w.tasks[t].pc.consulted[index];
      var failed := match answer
        case Ok(x) => x.status != 200 && !(400 <= x.status < 500)
        case Err(text) =>
          !Contains(text, "builder error") && !Contains(text, "invalid URL")
          && !Contains(text, "relative URL without a base");
      && (q != p ==> Breaker.Trailing(after, q) == Breaker.Trailing(before, q)
                     && Breaker.LastFailure(after, q) == Breaker.LastFailure(before, q))
      && (q == p && answer.Ok? && answer.value.status == 200 ==> Breaker.Trailing(after, q) == 0)
      && (q == p && failed ==> Breaker.Trailing(after, q) == Breaker.Trailing(before, q) + 1
                               && Breaker.LastFailure(after, q) == now)
      && (q == p && !failed && !(answer.Ok? && answer.value.status == 200) ==>
            Breaker.Trailing(after, q) == Breaker.Trailing(before, q)
            && Breaker.LastFailure(after, q) == Breaker.LastFailure(before, q))
  {
    var p := w.tasks[t].pc.consulted[index];
    var events := BreakerEvents(p, answer, now);
    assert Apply(cfg, w, Collect(t, index, answer, now)).breaker == w.breaker + events;
    hide Apply, Enabled, Contains;
    if events == [] {
      assert w.breaker + events == w.breaker;
    } else {
      assert events == [events[0]];
      assert (w.breaker + events)[..|w.breaker|] == w.breaker;
    }
  }

  // ----- the loop -----

  /** The answers of a lookup that stops are processed as the result loop processes them: for whatever the projects not
      heard would have answered, there is a timing with which the loop, run on all of them, stops at the same point and
      returns the same reply. */
  lemma StopsAsTheLoopDoes(cfg: Config, hot: map<string, string>, steps: seq<Step>, t: nat, unheard: seq<Reply>)
    requires 1 <= cfg.threshold < Breaker.U32 && Legal(cfg, Init(hot), steps)
    requires Enabled(cfg, Run(cfg, Init(hot), steps), StopCollecting(t))
    requires
      var pc := Run(cfg, Init(hot), steps).tasks[t].pc;
      |pc.arrivals| + |unheard| == |pc.consulted|
    ensures
      var task := Run(cfg, Init(hot), steps).tasks[t];
      var all, n, ok := Outcomes(task.pc.arrivals) + unheard, |task.pc.arrivals|, FanOut.Accepting(task.request.accept);
      exists wins: seq<bool> ::
        && |wins| == |all| && FanOut.StopsAt(all, wins, ok, n)
        && LookupReply(task.request, task.pc.arrivals)
           == FanOut.Verdict(all[..n], ok, task.request.image, task.request.reference)
  {
    TaskIsGated(cfg, hot, steps, t);
    var task := Run(cfg, Init(hot), steps).tasks[t];
    hide Run, Legal, Checks, NotRefused, Considered;
    LoopStops(task.request, task.pc.consulted, task.pc.arrivals, unheard);
  }

  lemma LoopStops(r: Request, consulted: seq<string>, arrivals: seq<Arrival>, unheard: seq<Reply>)
    requires OnlyLastMatches(r.accept, arrivals) && MayStop(consulted, arrivals, r.accept)
    requires |arrivals| + |unheard| == |consulted|
    ensures
      var all, n, ok := Outcomes(arrivals) + unheard, |arrivals|, FanOut.Accepting(r.accept);
      exists wins: seq<bool> ::
        && |wins| == |all| && FanOut.StopsAt(all, wins, ok, n)
        && LookupReply(r, arrivals) == FanOut.Verdict(all[..n], ok, r.image, r.reference)
  {
    var seen, n, ok := Outcomes(arrivals), |arrivals|, FanOut.Accepting(r.accept);
    var all := seen + unheard;
    assert all[..n] == seen;
    var wins := seq(|all|, j requires 0 <= j < |all| => j == n);
    hide FanOut.Accepting, FanOut.Verdict;
    assert forall j :: 0 <= j < n ==> all[j] == arrivals[j].outcome;
    assert FanOut.StopsAt(all, wins, ok, n);
  }
}
