/** What `is_available` answers: under contention, by what each call reads; and for calls one after another, by the
    history of the calls before. */
module BreakerAnswers {
  import opened Text
  import opened BreakerSteps
  import Breaker

  // ----- under contention -----

  /** What the shared state and the clock show when a call takes one of its steps. */
  datatype View = View(state: State, stamp: nat, clock: nat)

  /** The views that call `i` gets in a run, one for each of its steps. */
  ghost function Views(w: World, run: seq<Choice>, threshold: nat, timeout: nat, i: nat): seq<View>
    requires Legal(w, run, threshold, timeout)
    decreases |run|
  {
    if run == [] then [] else
      (if run[0].thread == i then [View(w.state, w.stamp, run[0].clock)] else [])
      + Views(Step(w, run[0].thread, threshold, timeout, run[0].clock), run[1..], threshold, timeout, i)
  }

  /** The call found the breaker open when it looked first. */
  predicate FoundOpen(v: seq<View>) {
    |v| >= 1 && v[0].state == Breaker.Open
  }

  /** The clock that it read second is short of the stamp that it read third by the timeout. */
  predicate TooEarly(v: seq<View>, timeout: nat) {
    |v| >= 3 && timeout > 0 && v[1].clock < v[2].stamp + timeout
  }

  predicate ViewsOk(t: Thread, v: seq<View>, timeout: nat) {
    t.call == IsAvailable ==>
      match t.pc
      case ProbeLoad => v == []
      case ProbeClock => |v| == 1 && FoundOpen(v)
      case ProbeStamp(now) => |v| == 2 && FoundOpen(v) && v[1].clock == now
      case ProbeCas => |v| == 3 && FoundOpen(v) && !TooEarly(v, timeout)
      case Count(edge) =>
        |v| == 4 && FoundOpen(v) && !TooEarly(v, timeout)
        && v[3].state == Breaker.Open && edge == Edge(Breaker.Open, Breaker.HalfOpen)
      case Done(available) =>
        |v| >= 1 && (FoundOpen(v) ==> |v| >= 3) && (available <==> !(FoundOpen(v) && TooEarly(v, timeout)))
      case _ => false
  }

  lemma OwnStepViews(w: World, i: nat, threshold: nat, timeout: nat, clock: nat, v: seq<View>)
    requires i < |w.threads| && !w.threads[i].pc.Done? && ViewsOk(w.threads[i], v, timeout)
    ensures
      var w' := Step(w, i, threshold, timeout, clock);
      i < |w'.threads| && ViewsOk(w'.threads[i], v + [View(w.state, w.stamp, clock)], timeout)
  {
  }

  lemma {:induction false} RunViews(w: World, run: seq<Choice>, threshold: nat, timeout: nat, i: nat, v: seq<View>)
    requires Legal(w, run, threshold, timeout) && i < |w.threads| && ViewsOk(w.threads[i], v, timeout)
    ensures
      var w' := Run(w, run, threshold, timeout);
      i < |w'.threads| && ViewsOk(w'.threads[i], v + Views(w, run, threshold, timeout, i), timeout)
    decreases |run|
  {
    hide Step, ViewsOk;
    if run == [] {
      assert v + [] == v;
    } else {
      var c := run[0];
      var w' := Step(w, c.thread, threshold, timeout, c.clock);
      StepKeepsCalls(w, c.thread, threshold, timeout, c.clock);
      var rest := Views(w', run[1..], threshold, timeout, i);
      if c.thread == i {
        var view := View(w.state, w.stamp, c.clock);
        OwnStepViews(w, i, threshold, timeout, c.clock, v);
        RunViews(w', run[1..], threshold, timeout, i, v + [view]);
        assert v + ([view] + rest) == (v + [view]) + rest;
      } else {
        RunViews(w', run[1..], threshold, timeout, i, v);
        assert v + ([] + rest) == v + rest;
      }
    }
  }

  /** In any schedule: an availability call refuses exactly if it found the breaker open and the clock it then read was
      short of the stamp it then read by the timeout. Losing the swap to HALF_OPEN changes nothing. */
  lemma RefusesByWhatItReads(calls: seq<Call>, run: seq<Choice>, threshold: nat, timeout: nat, i: nat)
    requires Legal(Init(calls), run, threshold, timeout) && i < |calls| && calls[i] == IsAvailable
    ensures
      var w, v := Run(Init(calls), run, threshold, timeout), Views(Init(calls), run, threshold, timeout, i);
      && i < |w.threads|
      && (w.threads[i].pc.Done? ==>
            && |v| >= 1 && (v[0].state == Breaker.Open ==> |v| >= 3)
            && (w.threads[i].pc == Done(false) <==>
                  v[0].state == Breaker.Open && timeout > 0 && v[1].clock < v[2].stamp + timeout))
  {
    RunViews(Init(calls), run, threshold, timeout, i, []);
    RunKeepsCalls(Init(calls), run, threshold, timeout);
    assert [] + Views(Init(calls), run, threshold, timeout, i) == Views(Init(calls), run, threshold, timeout, i);
    hide Run, Legal, Views;
  }

  /** Only availability calls come to the swap to HALF_OPEN. */
  predicate ProbesOnly(t: Thread) {
    t.pc.ProbeLoad? || t.pc.ProbeClock? || t.pc.ProbeStamp? || t.pc.ProbeCas? ==> t.call == IsAvailable
  }

  predicate ProberOk(w: World, i: nat, v: seq<View>, timeout: nat) {
    && i < |w.threads| && w.threads[i].call == IsAvailable && (w.threads[i].pc.Count? || w.threads[i].pc.Done?)
    && |v| >= 4 && FoundOpen(v) && !TooEarly(v, timeout) && v[3].state == Breaker.Open
  }

  lemma StepKeepsProber(w: World, c: Choice, threshold: nat, timeout: nat, i: nat, v: seq<View>)
    requires c.thread < |w.threads| && !w.threads[c.thread].pc.Done? && ProberOk(w, i, v, timeout)
    ensures
      var w' := Step(w, c.thread, threshold, timeout, c.clock);
      ProberOk(w', i, v + if c.thread == i then [View(w.state, w.stamp, c.clock)] else [], timeout)
  {
    StepKeepsCalls(w, c.thread, threshold, timeout, c.clock);
    assert v + [] == v;
  }

  lemma NewProber(w: World, c: Choice, threshold: nat, timeout: nat, v: seq<View>)
    requires c.thread < |w.threads| && !w.threads[c.thread].pc.Done? && ViewsOk(w.threads[c.thread], v, timeout)
    requires ProbesOnly(w.threads[c.thread])
    ensures
      var w' := Step(w, c.thread, threshold, timeout, c.clock);
      w'.swaps == w.swaps ||
      (w'.swaps == w.swaps + [w'.swaps[|w.swaps|]] && w'.swaps[|w.swaps|].thread == c.thread
       && (w'.swaps[|w.swaps|].edge.to == Breaker.HalfOpen ==>
             ProberOk(w', c.thread, v + [View(w.state, w.stamp, c.clock)], timeout)))
  {
  }

  /** What holds of call `i` and of its transitions, given the views it has had so far. */
  ghost predicate Seen(w: World, i: nat, v: seq<View>, timeout: nat) {
    && i < |w.threads| && ViewsOk(w.threads[i], v, timeout) && ProbesOnly(w.threads[i])
    && forall n :: 0 <= n < |w.swaps| && w.swaps[n].thread == i && w.swaps[n].edge.to == Breaker.HalfOpen ==>
         ProberOk(w, i, v, timeout)
  }

  lemma StepKeepsProbesOnly(w: World, i: nat, threshold: nat, timeout: nat, clock: nat)
    requires i < |w.threads| && !w.threads[i].pc.Done? && ProbesOnly(w.threads[i])
    ensures i < |Step(w, i, threshold, timeout, clock).threads|
        && ProbesOnly(Step(w, i, threshold, timeout, clock).threads[i])
  {
    hide Breaker.SaturatingSub;
    StepKeepsCalls(w, i, threshold, timeout, clock);
  }

  lemma StepKeepsSeen(w: World, c: Choice, threshold: nat, timeout: nat, i: nat, v: seq<View>)
    requires c.thread < |w.threads| && !w.threads[c.thread].pc.Done? && Seen(w, i, v, timeout)
    ensures
      Seen(Step(w, c.thread, threshold, timeout, c.clock), i,
           v + if c.thread == i then [View(w.state, w.stamp, c.clock)] else [], timeout)
  {
    var w' := Step(w, c.thread, threshold, timeout, c.clock);
    StepKeepsCalls(w, c.thread, threshold, timeout, c.clock);
    SwapsGrow(w, c, threshold, timeout);
    if c.thread == i {
      OwnStepViews(w, i, threshold, timeout, c.clock, v);
      StepKeepsProbesOnly(w, i, threshold, timeout, c.clock);
      NewProber(w, c, threshold, timeout, v);
    }
    assert v + [] == v;
    if ProberOk(w, i, v, timeout) { StepKeepsProber(w, c, threshold, timeout, i, v); }
    hide Step, ViewsOk, ProbesOnly, ProberOk;
  }

  lemma SwapsGrow(w: World, c: Choice, threshold: nat, timeout: nat)
    requires c.thread < |w.threads| && !w.threads[c.thread].pc.Done?
    ensures
      var swaps := Step(w, c.thread, threshold, timeout, c.clock).swaps;
      swaps == w.swaps || (|swaps| == |w.swaps| + 1 && swaps[..|w.swaps|] == w.swaps
          && swaps[|w.swaps|].thread == c.thread)
  {
    hide Breaker.SaturatingSub, CloseLoop, OpenLoop;
  }

  lemma {:induction false} RunKeepsSeen(w: World, run: seq<Choice>, threshold: nat, timeout: nat, i: nat, v: seq<View>)
    requires Legal(w, run, threshold, timeout) && Seen(w, i, v, timeout)
    ensures Seen(Run(w, run, threshold, timeout), i, v + Views(w, run, threshold, timeout, i), timeout)
    decreases |run|
  {
    hide Step, Seen;
    if run == [] {
      assert v + [] == v;
    } else {
      var c := run[0];
      var w' := Step(w, c.thread, threshold, timeout, c.clock);
      var own := if c.thread == i then [View(w.state, w.stamp, c.clock)] else [];
      StepKeepsSeen(w, c, threshold, timeout, i, v);
      RunKeepsSeen(w', run[1..], threshold, timeout, i, v + own);
      var rest := Views(w', run[1..], threshold, timeout, i);
      assert v + (own + rest) == (v + own) + rest;
    }
  }

  /** In any schedule, every transition into HALF_OPEN was made by an availability call that had found the breaker open
      and read a clock at least the timeout past the stamp it read. */
  lemma HalfOpenIsDue(calls: seq<Call>, run: seq<Choice>, threshold: nat, timeout: nat, n: nat)
    requires Legal(Init(calls), run, threshold, timeout)
    requires
      var w := Run(Init(calls), run, threshold, timeout);
      n < |w.swaps| && w.swaps[n].edge.to == Breaker.HalfOpen
    ensures
      var i := Run(Init(calls), run, threshold, timeout).swaps[n].thread;
      var v := Views(Init(calls), run, threshold, timeout, i);
      && i < |calls| && calls[i] == IsAvailable && |v| >= 4
      && v[0].state == Breaker.Open && v[3].state == Breaker.Open
      && (timeout == 0 || v[1].clock >= v[2].stamp + timeout)
  {
    var w := Run(Init(calls), run, threshold, timeout);
    RunKeepsCalls(Init(calls), run, threshold, timeout);
    RunKeepsSwappers(Init(calls), run, threshold, timeout);
    var i := w.swaps[n].thread;
    var v := Views(Init(calls), run, threshold, timeout, i);
    RunKeepsSeen(Init(calls), run, threshold, timeout, i, []);
    assert [] + v == v;
    hide Run, Legal, Views, ViewsOk;
  }

  /** Transitions are made by calls of the run. */
  lemma {:induction false} RunKeepsSwappers(w: World, run: seq<Choice>, threshold: nat, timeout: nat)
    requires Legal(w, run, threshold, timeout)
    requires forall n :: 0 <= n < |w.swaps| ==> w.swaps[n].thread < |w.threads|
    ensures
      var w' := Run(w, run, threshold, timeout);
      |w'.threads| == |w.threads| && forall n :: 0 <= n < |w'.swaps| ==> w'.swaps[n].thread < |w.threads|
    decreases |run|
  {
    hide Step;
    if run != [] {
      var c := run[0];
      var w' := Step(w, c.thread, threshold, timeout, c.clock);
      StepKeepsCalls(w, c.thread, threshold, timeout, c.clock);
      SwapsGrow(w, c, threshold, timeout);
      assert forall n :: 0 <= n < |w.swaps| && |w'.swaps| > |w.swaps| ==> w'.swaps[n] == w'.swaps[..|w.swaps|][n];
      RunKeepsSwappers(w', run[1..], threshold, timeout);
    }
  }

  // ----- one call after another -----

  /** Call `i` alone, until it returns; its clock shows `clock`. */
  ghost function Solo(w: World, i: nat, threshold: nat, timeout: nat, clock: nat): (w': World)
    requires i < |w.threads|
    ensures |w'.threads| == |w.threads| && w'.threads[i].pc.Done?
    ensures forall j :: 0 <= j < |w.threads| && j != i ==> w'.threads[j] == w.threads[j]
    decreases Weight(w, w.threads[i])
  {
    if w.threads[i].pc.Done? then w else
      OwnWeight(w, i, threshold, timeout, clock);
      StepKeepsCalls(w, i, threshold, timeout, clock);
      Solo(Step(w, i, threshold, timeout, clock), i, threshold, timeout, clock)
  }

  /** The calls of `order`, each from beginning to end, one after another. */
  ghost function Serial(w: World, order: seq<Choice>, threshold: nat, timeout: nat): (w': World)
    requires forall c <- order :: c.thread < |w.threads|
    ensures |w'.threads| == |w.threads|
    ensures forall j: nat :: j < |w.threads| && (forall c <- order :: c.thread != j) ==> w'.threads[j] == w.threads[j]
    decreases |order|
  {
    if order == [] then w
    else Serial(Solo(w, order[0].thread, threshold, timeout, order[0].clock), order[1..], threshold, timeout)
  }

  /** The shared state as the call-by-call model has it. */
  function Shared(w: World): Breaker.Health {
    Breaker.Health(w.failures, w.stamp, w.state)
  }

  function EventOf(call: Call, p: string, clock: nat): Breaker.Event {
    match call
    case IsAvailable => Breaker.Probe(p, clock)
    case RecordSuccess => Breaker.Success(p)
    case RecordFailure => Breaker.Failure(p, clock)
  }

  /** The history of serial calls. */
  function HistoryOf(calls: seq<Call>, order: seq<Choice>, p: string): Breaker.History
    requires forall c <- order :: c.thread < |calls|
  {
    if order == [] then [] else
      [EventOf(calls[order[0].thread], p, order[0].clock)] + HistoryOf(calls, order[1..], p)
  }

  /** A call that has not begun. */
  predicate Fresh(t: Thread) {
    t.pc == Entry(t.call)
  }

  /** One step of a solo call. */
  lemma SoloStep(w: World, i: nat, threshold: nat, timeout: nat, clock: nat) returns (w': World)
    requires i < |w.threads| && !w.threads[i].pc.Done?
    ensures w' == Step(w, i, threshold, timeout, clock) && i < |w'.threads|
    ensures Solo(w, i, threshold, timeout, clock) == Solo(w', i, threshold, timeout, clock)
    ensures w'.threads[i].call == w.threads[i].call
  {
    w' := Step(w, i, threshold, timeout, clock);
    StepKeepsCalls(w, i, threshold, timeout, clock);
    hide Step;
  }

  lemma SoloDone(w: World, i: nat, threshold: nat, timeout: nat, clock: nat)
    requires i < |w.threads| && w.threads[i].pc.Done?
    ensures Solo(w, i, threshold, timeout, clock) == w
  {
  }

  /** A success alone resets the counter and closes the breaker. */
  lemma SoloSuccess(w: World, i: nat, threshold: nat, timeout: nat, clock: nat)
    requires i < |w.threads| && w.threads[i].call == RecordSuccess && Fresh(w.threads[i])
    ensures Shared(Solo(w, i, threshold, timeout, clock)) == Breaker.Health(0, w.stamp, Breaker.Closed)
  {
    hide Solo;
    var w' := SoloStep(w, i, threshold, timeout, clock);
    assert w'.threads[i].pc == SuccessLoad && w'.failures == 0;
    w' := SoloStep(w', i, threshold, timeout, clock);
    if w.state != Breaker.Closed {
      assert w'.threads[i].pc == CloseCas(w.state) && w'.state == w.state;
      w' := SoloStep(w', i, threshold, timeout, clock);
      assert w'.threads[i].pc.Count? && w'.state == Breaker.Closed;
      w' := SoloStep(w', i, threshold, timeout, clock);
    }
    SoloDone(w', i, threshold, timeout, clock);
  }

  /** A failure alone counts and stamps. */
  lemma SoloCounts(w: World, i: nat, threshold: nat, timeout: nat, clock: nat) returns (w': World)
    requires i < |w.threads| && w.threads[i].call == RecordFailure && Fresh(w.threads[i])
    ensures i < |w'.threads| && w'.threads[i].call == RecordFailure
    ensures
      var failures := (w.failures + 1) % Breaker.U32;
      Shared(w') == Breaker.Health(failures, clock, w.state)
      && w'.threads[i].pc == if failures >= threshold then FailureLoad else Gauge
    ensures Solo(w, i, threshold, timeout, clock) == Solo(w', i, threshold, timeout, clock)
  {
    hide Solo;
    var failures := (w.failures + 1) % Breaker.U32;
    w' := SoloStep(w, i, threshold, timeout, clock);
    assert w'.threads[i].pc == FailureClock(failures) && w'.failures == failures && w'.state == w.state;
    w' := SoloStep(w', i, threshold, timeout, clock);
    assert w'.threads[i].pc == FailureStamp(failures, clock) && w'.failures == failures && w'.state == w.state;
    w' := SoloStep(w', i, threshold, timeout, clock);
  }

  /** And from the threshold on it opens the breaker. */
  lemma SoloFailure(w: World, i: nat, threshold: nat, timeout: nat, clock: nat)
    requires i < |w.threads| && w.threads[i].call == RecordFailure && Fresh(w.threads[i])
    ensures Shared(Solo(w, i, threshold, timeout, clock)) == Breaker.AfterFailure(Shared(w), threshold, clock)
  {
    hide Solo;
    var w' := SoloCounts(w, i, threshold, timeout, clock);
    if w'.threads[i].pc == FailureLoad { w' := SoloOpens(w', i, threshold, timeout, clock); }
    var last := SoloStep(w', i, threshold, timeout, clock);
    assert Shared(last) == Shared(w') && last.threads[i].pc.Done?;
    SoloDone(last, i, threshold, timeout, clock);
    hide Step;
  }

  lemma SoloOpens(w: World, i: nat, threshold: nat, timeout: nat, clock: nat) returns (w': World)
    requires i < |w.threads| && w.threads[i].call == RecordFailure && w.threads[i].pc == FailureLoad
    ensures i < |w'.threads| && w'.threads[i].pc == Gauge
    ensures Shared(w') == Breaker.Health(w.failures, w.stamp, Breaker.Open)
    ensures Solo(w, i, threshold, timeout, clock) == Solo(w', i, threshold, timeout, clock)
  {
    hide Solo;
    w' := SoloStep(w, i, threshold, timeout, clock);
    if w.state != Breaker.Open {
      assert w'.threads[i].pc == OpenCas(w.state) && w'.state == w.state && Shared(w') == Shared(w);
      w' := SoloStep(w', i, threshold, timeout, clock);
      assert w'.threads[i].pc.Count? && w'.state == Breaker.Open && w'.failures == w.failures && w'.stamp == w.stamp;
      w' := SoloStep(w', i, threshold, timeout, clock);
    }
  }

  /** An availability call alone answers as the call-by-call model does. */
  lemma SoloProbe(w: World, i: nat, threshold: nat, timeout: nat, clock: nat)
    requires i < |w.threads| && w.threads[i].call == IsAvailable && Fresh(w.threads[i])
    ensures
      var w' := Solo(w, i, threshold, timeout, clock);
      && Shared(w') == Breaker.AfterProbe(Shared(w), timeout, clock)
      && w'.threads[i].pc == Done(Breaker.Admits(Shared(w), timeout, clock))
  {
    hide Solo;
    var w' := SoloStep(w, i, threshold, timeout, clock);
    if w.state == Breaker.Open {
      assert w'.threads[i].pc == ProbeClock && Shared(w') == Shared(w);
      w' := SoloStep(w', i, threshold, timeout, clock);
      assert w'.threads[i].pc == ProbeStamp(clock) && Shared(w') == Shared(w);
      w' := SoloStep(w', i, threshold, timeout, clock);
      if w'.threads[i].pc == ProbeCas {
        assert Shared(w') == Shared(w);
        w' := SoloStep(w', i, threshold, timeout, clock);
        assert w'.threads[i].pc.Count? && w'.state == Breaker.HalfOpen;
        w' := SoloStep(w', i, threshold, timeout, clock);
      }
    }
    SoloDone(w', i, threshold, timeout, clock);
  }

  lemma SoloReplays(w: World, i: nat, threshold: nat, timeout: nat, clock: nat, h: Breaker.History, p: string)
    requires i < |w.threads| && Fresh(w.threads[i]) && Shared(w) == Breaker.Replay(h, p, threshold, timeout)
    ensures
      var w' := Solo(w, i, threshold, timeout, clock);
      && Shared(w') == Breaker.Replay(h + [EventOf(w.threads[i].call, p, clock)], p, threshold, timeout)
      && (w.threads[i].call == IsAvailable ==>
            w'.threads[i].pc == Done(Breaker.Admits(Breaker.Replay(h, p, threshold, timeout), timeout, clock)))
  {
    hide Solo;
    var e := EventOf(w.threads[i].call, p, clock);
    assert (h + [e])[..|h|] == h;
    match w.threads[i].call
    case IsAvailable => SoloProbe(w, i, threshold, timeout, clock);
    case RecordSuccess => SoloSuccess(w, i, threshold, timeout, clock);
    case RecordFailure => SoloFailure(w, i, threshold, timeout, clock);
  }

  /** Each call of `order` is another one, and none has begun. */
  ghost predicate Queued(w: World, calls: seq<Call>, order: seq<Choice>) {
    && |w.threads| == |calls|
    && (forall k :: 0 <= k < |order| ==>
          order[k].thread < |calls| && Fresh(w.threads[order[k].thread])
          && w.threads[order[k].thread].call == calls[order[k].thread])
    && (forall k, m :: 0 <= k < m < |order| ==> order[k].thread != order[m].thread)
  }

  lemma {:induction false} SerialReplays(w: World, calls: seq<Call>, order: seq<Choice>, threshold: nat, timeout: nat,
      h: Breaker.History, p: string, k: nat)
    requires Queued(w, calls, order) && Shared(w) == Breaker.Replay(h, p, threshold, timeout)
    requires k < |order| && calls[order[k].thread] == IsAvailable
    ensures
      var before := h + HistoryOf(calls, order[..k], p);
      Serial(w, order, threshold, timeout).threads[order[k].thread].pc
      == Done(Breaker.Admits(Breaker.Replay(before, p, threshold, timeout), timeout, order[k].clock))
    decreases |order|
  {
    var c := order[0];
    var w' := Solo(w, c.thread, threshold, timeout, c.clock);
    var e := EventOf(calls[c.thread], p, c.clock);
    SoloReplays(w, c.thread, threshold, timeout, c.clock, h, p);
    hide Solo, Breaker.Replay, Breaker.Admits;
    QueuedTail(w, w', calls, order);
    assert Serial(w, order, threshold, timeout) == Serial(w', order[1..], threshold, timeout);
    if k == 0 {
      assert h + HistoryOf(calls, order[..0], p) == h;
      FirstStays(w', order, threshold, timeout);
    } else {
      hide Queued, Serial;
      assert order[1..][k - 1] == order[k];
      SerialReplays(w', calls, order[1..], threshold, timeout, h + [e], p, k - 1);
      HistoryTail(calls, order, p, h, k);
    }
  }

  lemma QueuedTail(w: World, w': World, calls: seq<Call>, order: seq<Choice>)
    requires Queued(w, calls, order) && order != [] && |w'.threads| == |w.threads|
    requires forall j :: 0 <= j < |w.threads| && j != order[0].thread ==> w'.threads[j] == w.threads[j]
    ensures Queued(w', calls, order[1..])
  {
    hide Fresh;
    forall k | 0 <= k < |order| - 1
      ensures order[1..][k] == order[k + 1] && order[k + 1].thread != order[0].thread
    {
    }
  }

  lemma FirstStays(w: World, order: seq<Choice>, threshold: nat, timeout: nat)
    requires order != [] && forall k, m :: 0 <= k < m < |order| ==> order[k].thread != order[m].thread
    requires forall c <- order :: c.thread < |w.threads|
    ensures Serial(w, order[1..], threshold, timeout).threads[order[0].thread] == w.threads[order[0].thread]
  {
    hide Serial;
    forall c <- order[1..] ensures c.thread != order[0].thread {
      var m :| 0 <= m < |order[1..]| && order[1..][m] == c;
      assert order[m + 1] == c;
    }
  }

  lemma HistoryTail(calls: seq<Call>, order: seq<Choice>, p: string, h: Breaker.History, k: nat)
    requires (forall c <- order :: c.thread < |calls|) && 0 < k <= |order|
    ensures h + HistoryOf(calls, order[..k], p) ==
            (h + [EventOf(calls[order[0].thread], p, order[0].clock)]) + HistoryOf(calls, order[1..][..k - 1], p)
  {
    assert order[..k][1..] == order[1..][..k - 1] && order[..k][0] == order[0];
  }

  /** And they leave the shared state as the replay of their history. */
  lemma {:induction false} SerialStateIsReplay(w: World, calls: seq<Call>, order: seq<Choice>, threshold: nat,
      timeout: nat, h: Breaker.History, p: string)
    requires Queued(w, calls, order) && Shared(w) == Breaker.Replay(h, p, threshold, timeout)
    requires forall c <- order :: c.thread < |calls|
    ensures Shared(Serial(w, order, threshold, timeout))
         == Breaker.Replay(h + HistoryOf(calls, order, p), p, threshold, timeout)
    decreases |order|
  {
    if order == [] {
      assert h + HistoryOf(calls, order, p) == h;
    } else {
      var c := order[0];
      var w', e := Solo(w, c.thread, threshold, timeout, c.clock), EventOf(calls[c.thread], p, c.clock);
      SoloReplays(w, c.thread, threshold, timeout, c.clock, h, p);
      hide Solo, Breaker.Replay;
      QueuedTail(w, w', calls, order);
      assert Serial(w, order, threshold, timeout) == Serial(w', order[1..], threshold, timeout);
      hide Queued, Serial;
      SerialStateIsReplay(w', calls, order[1..], threshold, timeout, h + [e], p);
      HistoryTail(calls, order, p, h, |order|);
      assert order[..|order|] == order && order[1..][..|order| - 1] == order[1..];
      hide HistoryOf;
    }
  }

  /** The link to the call-by-call model: when the calls run one after another, in any order and with any clocks, each
      availability call refuses exactly as the history of the calls before it says. */
  lemma SerialCallsFollowTheHistory(
      calls: seq<Call>, order: seq<Choice>, threshold: nat, timeout: nat, p: string, k: nat)
    requires 1 <= threshold < Breaker.U32
    requires forall c <- order :: c.thread < |calls|
    requires forall k, m :: 0 <= k < m < |order| ==> order[k].thread != order[m].thread
    requires k < |order| && calls[order[k].thread] == IsAvailable
    ensures
      var h, now := HistoryOf(calls, order[..k], p), order[k].clock;
      Serial(Init(calls), order, threshold, timeout).threads[order[k].thread].pc == Done(false) <==>
      && Breaker.Trailing(h, p) >= threshold
      && timeout > 0 && now < Breaker.LastFailure(h, p) + timeout
      && !Breaker.SomeLetThrough(h, p, threshold, timeout)
  {
    var w, h := Init(calls), HistoryOf(calls, order[..k], p);
    assert forall k :: 0 <= k < |order| ==> order[k] in order;
    assert Queued(w, calls, order);
    SerialReplays(w, calls, order, threshold, timeout, [], p, k);
    assert [] + h == h;
    Breaker.RefusesExactly(h, p, threshold, timeout, order[k].clock);
    hide Breaker.Replay, Breaker.Admits, Breaker.SomeLetThrough, Breaker.Trailing, Breaker.LastFailure, Serial,
        HistoryOf;
  }

  // ----- serial calls are schedules -----

  lemma {:induction false} Concat(w: World, a: seq<Choice>, b: seq<Choice>, threshold: nat, timeout: nat)
    requires Legal(w, a, threshold, timeout) && Legal(Run(w, a, threshold, timeout), b, threshold, timeout)
    ensures Legal(w, a + b, threshold, timeout)
    ensures Run(w, a + b, threshold, timeout) == Run(Run(w, a, threshold, timeout), b, threshold, timeout)
    decreases |a|
  {
    hide Step;
    if a == [] {
      assert a + b == b;
    } else {
      Concat(Step(w, a[0].thread, threshold, timeout, a[0].clock), a[1..], b, threshold, timeout);
      assert (a + b)[1..] == a[1..] + b;
    }
  }

  lemma {:induction false} SoloIsASchedule(w: World, i: nat, threshold: nat, timeout: nat, clock: nat)
      returns (run: seq<Choice>)
    requires i < |w.threads|
    ensures Legal(w, run, threshold, timeout)
        && Run(w, run, threshold, timeout) == Solo(w, i, threshold, timeout, clock)
    decreases Weight(w, w.threads[i])
  {
    if w.threads[i].pc.Done? {
      run := [];
    } else {
      OwnWeight(w, i, threshold, timeout, clock);
      hide Weight;
      var w' := SoloStep(w, i, threshold, timeout, clock);
      hide Step, Solo;
      var rest := SoloIsASchedule(w', i, threshold, timeout, clock);
      run := [Choice(i, clock)] + rest;
      assert run[1..] == rest;
    }
  }

  /** Running calls one after another is one of the schedules. */
  lemma {:induction false} SerialIsASchedule(w: World, order: seq<Choice>, threshold: nat, timeout: nat)
      returns (run: seq<Choice>)
    requires forall c <- order :: c.thread < |w.threads|
    ensures Legal(w, run, threshold, timeout) && Run(w, run, threshold, timeout) == Serial(w, order, threshold, timeout)
    decreases |order|
  {
    if order == [] {
      run := [];
    } else {
      var first := SoloIsASchedule(w, order[0].thread, threshold, timeout, order[0].clock);
      var w' := Solo(w, order[0].thread, threshold, timeout, order[0].clock);
      hide Solo;
      var rest := SerialIsASchedule(w', order[1..], threshold, timeout);
      Concat(w, first, rest, threshold, timeout);
      run := first + rest;
    }
  }
}
