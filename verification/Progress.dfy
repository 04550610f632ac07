/** No request hangs: in every reachable state each unfinished task has a step of its own to take, and it can
    take only so many of them, whatever the other tasks do. */
module Progress {
  import opened Text
  import opened Resolver
  import Counting
  import Breaker
  import CacheKeys
  import FanOut
  import Singleflight

  predicate Over(pc: Pc) {
    pc.Finished? || pc.Ended? || pc.Cancelled?
  }

  predicate Answered(arrivals: seq<Arrival>, i: nat) {
    exists n :: 0 <= n < |arrivals| && arrivals[n].index == i
  }

  /** The consulted projects that have not answered yet. */
  function Missing(consulted: seq<string>, arrivals: seq<Arrival>): (m: set<nat>)
    ensures |m| <= |consulted|
  {
    var m := set i: nat | i < |consulted| && !Answered(arrivals, i);
    MissingFits(m, |consulted|);
    m
  }

  lemma {:induction false} MissingFits(m: set<nat>, k: nat)
    requires forall i <- m :: i < k
    ensures |m| <= k
  {
    if k > 0 {
      MissingFits(m - {k - 1}, k - 1);
    } else {
      assert m == {};
    }
  }

  /** Twice the projects that are still to be checked against their breakers. */
  function Unchecked(cfg: Config, next: nat): nat {
    if next < Limit(cfg) then 2 * (Limit(cfg) - next) else 0
  }

  /** An upper bound on the steps that a task at `pc` still takes. */
  function Left(cfg: Config, pc: Pc): nat {
    match pc
    case LookingUp => 10 + Unchecked(cfg, 0)
    case Fetching(_, _) => 9 + Unchecked(cfg, 0)
    case Evicting => 8 + Unchecked(cfg, 0)
    case Joining => 7 + Unchecked(cfg, 0)
    case Filtering(_, next, consulted) => 6 + |consulted| + Unchecked(cfg, next)
    case Collecting(_, consulted, arrivals) => 5 + |Missing(consulted, arrivals)|
    case Publishing(_, _) => 4
    case Subscribing(_) => 5
    case Peeking(_, _) => 4
    case Waiting(_, _, _) => 3
    case Removing(_, _) => 3
    case Storing(_, _) => 2
    case Refreshing(_) => 2
    case StoringImage(_, _) => 1
    case RefreshingImage(_) => 1
    case _ => 0
  }

  /** An answer of a project that had not answered. */
  lemma AnswerTaken(consulted: seq<string>, arrivals: seq<Arrival>, a: Arrival)
    requires a.index < |consulted| && !Answered(arrivals, a.index)
    ensures |Missing(consulted, arrivals + [a])| == |Missing(consulted, arrivals)| - 1
  {
    var more := arrivals + [a];
    forall i: nat ensures Answered(more, i) <==> Answered(arrivals, i) || i == a.index {
      assert forall n :: 0 <= n < |arrivals| ==> more[n] == arrivals[n];
      assert more[|arrivals|] == a;
    }
    hide Answered;
    assert Missing(consulted, more) == Missing(consulted, arrivals) - {a.index};
  }

  /** Each consulted project has answered at most once. */
  predicate AnswersOk(pc: Pc) {
    pc.Collecting? ==>
      && (forall n :: 0 <= n < |pc.arrivals| ==> pc.arrivals[n].index < |pc.consulted|)
      && (forall n, m :: 0 <= n < m < |pc.arrivals| ==> pc.arrivals[n].index != pc.arrivals[m].index)
  }

  /** Task `t` exists before and after, and what is left for it shrinks. */
  ghost predicate Shrinks(cfg: Config, w: World, w': World, t: nat) {
    && t < |w.tasks| && t < |w'.tasks|
    && Left(cfg, w'.tasks[t].pc) < Left(cfg, w.tasks[t].pc)
    && (AnswersOk(w.tasks[t].pc) ==> AnswersOk(w'.tasks[t].pc))
  }

  lemma ReturnShrinks(cfg: Config, w: World, t: nat, role: Role, consulted: seq<string>, arrivals: seq<Arrival>,
      reply: Reply)
    requires t < |w.tasks| && (role.Leader? ==> role.chan < |w.chans|)
    requires w.tasks[t].pc.Filtering? || w.tasks[t].pc.Collecting?
    ensures Shrinks(cfg, w, Return(w, t, role, consulted, arrivals, reply), t)
  {
    hide Missing, Unchecked;
  }

  lemma FilterShrinks(cfg: Config, w: World, t: nat, now: nat)
    requires t < |w.tasks| && w.tasks[t].pc.Filtering? && LeadsChan(w, t)
    ensures Shrinks(cfg, w, ApplyFilter(cfg, w, t, now), t)
  {
    var Filtering(role, next, consulted) := w.tasks[t].pc;
    ReturnShrinks(cfg, w, t, role, [], [], Err(FanOut.NO_PROJECTS));
    ReturnShrinks(cfg, w, t, role, [], [], Err(FanOut.NONE_AVAILABLE));
    hide Missing, Limit, Return, Breaker.Admits, Breaker.Replay;
    if cfg.projects != [] && (next < Limit(cfg) || consulted != []) {
      var w' := ApplyFilter(cfg, w, t, now);
      assert Left(cfg, w'.tasks[t].pc) < Left(cfg, w.tasks[t].pc);
    }
  }

  lemma LookUpShrinks(cfg: Config, w: World, t: nat, now: nat)
    requires t < |w.tasks| && w.tasks[t].pc.LookingUp?
    ensures Shrinks(cfg, w, ApplyLookUp(cfg, w, t, now), t)
  {
    hide ReadEntry, IsStale, FanOut.NotFoundText, Unchecked, Key;
  }

  lemma CollectShrinks(cfg: Config, w: World, s: Step)
    requires s.Collect? && Enabled(cfg, w, s)
    ensures Shrinks(cfg, w, Apply(cfg, w, s), s.t)
  {
    var pc := w.tasks[s.t].pc;
    AnswerTaken(pc.consulted, pc.arrivals, Arrival(s.index, s.outcome));
    hide Missing, Matched, BreakerEvents, Unchecked;
  }

  lemma StoreShrinks(cfg: Config, w: World, t: nat, now: nat)
    requires t < |w.tasks| && (w.tasks[t].pc.Storing? || w.tasks[t].pc.Refreshing?)
    ensures Shrinks(cfg, w, ApplyStore(cfg, w, t, now), t)
  {
    hide WithReply, Key, Missing, Unchecked;
  }

  lemma StoreImageShrinks(cfg: Config, w: World, t: nat)
    requires t < |w.tasks| && (w.tasks[t].pc.StoringImage? || w.tasks[t].pc.RefreshingImage?)
    ensures Shrinks(cfg, w, ApplyStoreImage(w, t), t)
  {
    hide WithImage, CacheKeys.ImageKey, Missing, Unchecked;
  }

  lemma FetchShrinks(cfg: Config, w: World, t: nat, outcome: Reply)
    requires t < |w.tasks| && w.tasks[t].pc.Fetching?
    ensures Shrinks(cfg, w, ApplyFetch(w, t, outcome), t)
  {
    hide FanOut.Is200, Missing, Unchecked;
  }

  lemma JoinShrinks(cfg: Config, w: World, t: nat)
    requires t < |w.tasks| && w.tasks[t].pc.Joining?
    ensures Shrinks(cfg, w, ApplyJoin(w, t), t)
  {
    hide Key, Missing;
  }

  lemma PublishShrinks(cfg: Config, w: World, t: nat)
    requires t < |w.tasks| && w.tasks[t].pc.Publishing? && w.tasks[t].pc.chan < |w.chans|
    ensures Shrinks(cfg, w, ApplyPublish(w, t), t)
  {
    hide SomeReceiver, Missing, Unchecked;
  }

  lemma SimpleShrinks(cfg: Config, w: World, s: Step, t: nat)
    requires s.Evict? || s.Subscribe? || s.Peek? || s.Receive? || s.SendersGone? || s.TimeOut? || s.Remove? || s.Cancel?
    requires Enabled(cfg, w, s) && t == s.t
    ensures Shrinks(cfg, w, Apply(cfg, w, s), t)
  {
    hide SomeSender, Key, Missing, Unchecked;
  }

  /** A step of a task leaves it fewer steps to take. */
  lemma OwnStepShrinks(cfg: Config, w: World, s: Step, t: nat)
    requires Enabled(cfg, w, s) && Singleflight.Actor(s) == Some(t)
    ensures Shrinks(cfg, w, Apply(cfg, w, s), t)
  {
    hide Shrinks, ApplyJoin, ApplyFilter, ApplyPublish, ApplyLookUp, ApplyFetch, ApplyStore, ApplyStoreImage, Return,
        Goto;
    match s
    case LookUp(_, now) => LookUpShrinks(cfg, w, t, now);
    case Filter(_, now) => FilterShrinks(cfg, w, t, now);
    case Collect(_, _, _, _) => CollectShrinks(cfg, w, s);
    case StopCollecting(_) =>
      var pc := w.tasks[t].pc;
      ReturnShrinks(cfg, w, t, pc.role, pc.consulted, pc.arrivals, LookupReply(w.tasks[t].request, pc.arrivals));
      hide LookupReply;
    case Store(_, now) => StoreShrinks(cfg, w, t, now);
    case StoreImage(_) => StoreImageShrinks(cfg, w, t);
    case Fetch(_, outcome) => FetchShrinks(cfg, w, t, outcome);
    case Join(_) => JoinShrinks(cfg, w, t);
    case Publish(_) => PublishShrinks(cfg, w, t);
    case _ => SimpleShrinks(cfg, w, s, t);
  }

  function OwnSteps(steps: seq<Step>, t: nat): nat {
    if steps == [] then 0 else (if Singleflight.Actor(steps[0]) == Some(t) then 1 else 0) + OwnSteps(steps[1..], t)
  }

  function MostSteps(cfg: Config): nat {
    10 + 2 * Limit(cfg)
  }

  /** What is left for task `t`, which may not have arrived yet. */
  function Budget(cfg: Config, w: World, t: nat): nat {
    if t < |w.tasks| then Left(cfg, w.tasks[t].pc) else MostSteps(cfg)
  }

  lemma StepSpends(cfg: Config, w: World, s: Step, t: nat)
    requires Enabled(cfg, w, s)
    ensures Budget(cfg, Apply(cfg, w, s), t) + OwnSteps([s], t) <= Budget(cfg, w, t)
  {
    assert [s][1..] == [];
    var w' := Apply(cfg, w, s);
    if Singleflight.Actor(s) == Some(t) {
      OwnStepShrinks(cfg, w, s, t);
    } else {
      Singleflight.Footprint(cfg, w, s);
      hide Apply, Enabled;
      OthersKeepBudget(cfg, w, w', Singleflight.Actor(s), t);
      hide Budget;
    }
  }

  lemma OthersKeepBudget(cfg: Config, w: World, w': World, actor: Option<nat>, t: nat)
    requires Singleflight.OnlyMoves(w, w', actor) && actor != Some(t)
    ensures Budget(cfg, w', t) <= Budget(cfg, w, t)
  {
    if |w.tasks| <= t < |w'.tasks| {
      assert Singleflight.Newcomer(w'.tasks[t].pc);
    }
    hide Missing;
  }

  /** A request takes at most ten steps of its own and two per project, in any interleaving. */
  lemma {:induction false} StepsAreBounded(cfg: Config, w: World, steps: seq<Step>, t: nat)
    requires Legal(cfg, w, steps)
    ensures OwnSteps(steps, t) + Budget(cfg, Run(cfg, w, steps), t) <= Budget(cfg, w, t)
    decreases |steps|
  {
    if steps != [] {
      StepSpends(cfg, w, steps[0], t);
      StepsAreBounded(cfg, Apply(cfg, w, steps[0]), steps[1..], t);
      hide Budget, Apply, Enabled;
      assert [steps[0]][1..] == [];
    }
  }

  lemma {:induction false} MissingCount(consulted: seq<string>, arrivals: seq<Arrival>)
    requires AnswersOk(Collecting(Refresher, consulted, arrivals))
    ensures |Missing(consulted, arrivals)| + |arrivals| == |consulted|
  {
    if arrivals == [] {
      assert Missing(consulted, []) == Counting.Below(|consulted|);
    } else {
      var n := |arrivals| - 1;
      var front, a := arrivals[..n], arrivals[n];
      MissingCount(consulted, front);
      assert arrivals == front + [a];
      assert !Answered(front, a.index);
      AnswerTaken(consulted, front, a);
    }
  }

  /** Where an unfinished task can always go on without its client giving up; a waiting follower by its own timeout
      at the latest. */
  lemma NextStep(cfg: Config, w: World, t: nat) returns (s: Step)
    requires Singleflight.Inv(w) && t < |w.tasks| && !Over(w.tasks[t].pc) && AnswersOk(w.tasks[t].pc)
    ensures Enabled(cfg, w, s) && Singleflight.Actor(s) == Some(t) && !s.Cancel?
  {
    ChansExist(w, t);
    hide Singleflight.Inv, Key, SomeSender;
    match w.tasks[t].pc
    case LookingUp => s := LookUp(t, 0);
    case Fetching(_, _) => s := Fetch(t, Err(""));
    case Evicting => s := Evict(t);
    case Joining => s := Join(t);
    case Subscribing(_) => s := Subscribe(t);
    case Peeking(_, _) => s := Peek(t);
    case Waiting(_, _, _) => s := TimeOut(t);
    case Filtering(_, _, _) => s := Filter(t, 0);
    case Collecting(_, consulted, arrivals) => s := NextAnswer(cfg, w, t);
    case Publishing(_, _) => s := Publish(t);
    case Removing(_, _) => s := Remove(t);
    case Storing(_, _) => s := Store(t, 0);
    case Refreshing(_) => s := Store(t, 0);
    case StoringImage(_, _) => s := StoreImage(t);
    case RefreshingImage(_) => s := StoreImage(t);
  }

  lemma ChansExist(w: World, t: nat)
    requires Singleflight.Inv(w) && t < |w.tasks|
    ensures LeadsChan(w, t)
    ensures
      var pc := w.tasks[t].pc;
      pc.Subscribing? || pc.Peeking? || pc.Publishing? ==> pc.chan < |w.chans|
  {
    assert Singleflight.TaskOk(w, t);
    hide Singleflight.Inv, Key;
  }

  lemma NextAnswer(cfg: Config, w: World, t: nat) returns (s: Step)
    requires t < |w.tasks| && w.tasks[t].pc.Collecting? && AnswersOk(w.tasks[t].pc) && LeadsChan(w, t)
    ensures Enabled(cfg, w, s) && Singleflight.Actor(s) == Some(t) && !s.Cancel?
  {
    var pc := w.tasks[t].pc;
    var missing := Missing(pc.consulted, pc.arrivals);
    if missing == {} || Matched(pc.arrivals, w.tasks[t].request.accept) {
      MissingCount(pc.consulted, pc.arrivals);
      s := StopCollecting(t);
    } else {
      var i :| i in missing;
      assert !Answered(pc.arrivals, i);
      s := Collect(t, i, Err(""), 0);
    }
  }

  ghost predicate AllAnswersOk(w: World) {
    forall t :: 0 <= t < |w.tasks| ==> AnswersOk(w.tasks[t].pc)
  }

  lemma StepKeepsAnswers(cfg: Config, w: World, s: Step)
    requires AllAnswersOk(w) && Enabled(cfg, w, s)
    ensures AllAnswersOk(Apply(cfg, w, s))
  {
    var w' := Apply(cfg, w, s);
    Singleflight.Footprint(cfg, w, s);
    if Singleflight.Actor(s).Some? { OwnStepShrinks(cfg, w, s, Singleflight.Actor(s).value); }
    hide Apply, Enabled;
    forall t | 0 <= t < |w'.tasks| ensures AnswersOk(w'.tasks[t].pc) {
      if t >= |w.tasks| { assert Singleflight.Newcomer(w'.tasks[t].pc); }
    }
  }

  lemma {:induction false} RunKeepsAnswers(cfg: Config, w: World, steps: seq<Step>)
    requires AllAnswersOk(w) && Legal(cfg, w, steps)
    ensures AllAnswersOk(Run(cfg, w, steps))
    decreases |steps|
  {
    if steps != [] {
      StepKeepsAnswers(cfg, w, steps[0]);
      hide AllAnswersOk, Apply, Enabled;
      RunKeepsAnswers(cfg, Apply(cfg, w, steps[0]), steps[1..]);
    }
  }

  /** In every reachable state an unfinished task has a step of its own to take other than being cancelled, and never
      more than the bound allows: no request waits for ever, on a wedged key or otherwise. */
  lemma NoTaskIsStuck(cfg: Config, hot: map<string, string>, steps: seq<Step>, t: nat)
    requires Legal(cfg, Init(hot), steps) && t < |Run(cfg, Init(hot), steps).tasks|
    ensures var w := Run(cfg, Init(hot), steps);
      && (Over(w.tasks[t].pc) || exists s :: Enabled(cfg, w, s) && Singleflight.Actor(s) == Some(t) && !s.Cancel?)
      && OwnSteps(steps, t) + Left(cfg, w.tasks[t].pc) <= MostSteps(cfg)
  {
    Singleflight.ReachableInv(cfg, hot, steps);
    RunKeepsAnswers(cfg, Init(hot), steps);
    StepsAreBounded(cfg, Init(hot), steps, t);
    var w := Run(cfg, Init(hot), steps);
    hide Run, Legal, Left, OwnSteps;
    if !Over(w.tasks[t].pc) {
      var s := NextStep(cfg, w, t);
    }
  }
}
