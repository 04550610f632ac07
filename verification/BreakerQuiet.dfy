/** When a breaker at rest is CLOSED exactly below the threshold: as long as no success overlaps a failure. */
module BreakerQuiet {
  import opened Text
  import opened BreakerSteps
  import Breaker

  /** A success between its reset and its last look at the state. */
  predicate SuccessUnderWay(t: Thread) {
    t.pc.SuccessLoad? || t.pc.CloseCas?
  }

  /** A failure between its increment and its last look at the state. */
  predicate FailureUnderWay(t: Thread) {
    t.pc.FailureClock? || t.pc.FailureStamp? || t.pc.FailureLoad? || t.pc.OpenCas?
  }

  ghost predicate SomeSuccess(w: World) {
    exists i :: 0 <= i < |w.threads| && SuccessUnderWay(w.threads[i])
  }

  ghost predicate SomeFailure(w: World) {
    exists i :: 0 <= i < |w.threads| && FailureUnderWay(w.threads[i])
  }

  ghost predicate Apart(w: World) {
    !(SomeSuccess(w) && SomeFailure(w))
  }

  /** No success overlaps a failure in any state of the run. */
  ghost predicate ApartRun(w: World, run: seq<Choice>, threshold: nat, timeout: nat)
    requires Legal(w, run, threshold, timeout)
    decreases |run|
  {
    Apart(w) && (run == [] ||
      ApartRun(Step(w, run[0].thread, threshold, timeout, run[0].clock), run[1..], threshold, timeout))
  }

  ghost predicate AtRest(w: World) {
    !SomeSuccess(w) && !SomeFailure(w)
  }

  // ----- the invariant -----

  /** A failure that has counted to the threshold and is bound to find the state open or to open it. */
  predicate WillOpen(t: Thread, threshold: nat) {
    match t.pc
    case FailureClock(failures) => failures >= threshold
    case FailureStamp(failures, _) => failures >= threshold
    case FailureLoad => true
    case OpenCas(_) => true
    case _ => false
  }

  /** What a failure under way has counted is still counted. */
  predicate StillCounted(t: Thread, failures: nat, threshold: nat) {
    match t.pc
    case FailureClock(f) => f <= failures
    case FailureStamp(f, _) => f <= failures
    case FailureLoad => threshold <= failures
    case OpenCas(_) => threshold <= failures
    case _ => true
  }

  ghost predicate SomeWillOpen(w: World, threshold: nat) {
    exists i :: 0 <= i < |w.threads| && WillOpen(w.threads[i], threshold)
  }

  ghost predicate QuietInv(w: World, threshold: nat) {
    && (forall i :: 0 <= i < |w.threads| ==> StillCounted(w.threads[i], w.failures, threshold))
    && (if SomeSuccess(w) then w.failures == 0
        else && (w.failures < threshold ==> w.state == Breaker.Closed)
             && (w.failures >= threshold && w.state == Breaker.Closed ==> SomeWillOpen(w, threshold)))
  }

  /** The other calls stand still. */
  lemma OthersStand(w: World, i: nat, threshold: nat, timeout: nat, clock: nat)
    requires i < |w.threads| && !w.threads[i].pc.Done?
    ensures
      var w' := Step(w, i, threshold, timeout, clock);
      |w'.threads| == |w.threads| && forall j :: 0 <= j < |w.threads| && j != i ==> w'.threads[j] == w.threads[j]
  {
    StepKeepsCalls(w, i, threshold, timeout, clock);
  }

  /** A step of a call that is neither a success nor a failure under way, before or after. */
  lemma ProbeStepKeeps(w: World, i: nat, threshold: nat, timeout: nat, clock: nat)
    requires QuietInv(w, threshold) && i < |w.threads|
    requires w.threads[i].pc.ProbeLoad? || w.threads[i].pc.ProbeClock? || w.threads[i].pc.ProbeStamp?
             || w.threads[i].pc.ProbeCas? || w.threads[i].pc.Count? || w.threads[i].pc.Gauge?
    ensures QuietInv(Step(w, i, threshold, timeout, clock), threshold)
  {
    var w' := Step(w, i, threshold, timeout, clock);
    OthersStand(w, i, threshold, timeout, clock);
    assert w'.failures == w.failures;
    assert (w'.state == w.state || (w.state == Breaker.Open && w'.state == Breaker.HalfOpen));
    assert !WillOpen(w'.threads[i], threshold) && !SuccessUnderWay(w'.threads[i]) && !FailureUnderWay(w'.threads[i]);
    SameUnderWay(w, w', i, threshold);
    hide Step, SomeSuccess, SomeFailure, SomeWillOpen;
  }

  lemma SameUnderWay(w: World, w': World, i: nat, threshold: nat)
    requires i < |w.threads| == |w'.threads|
    requires forall j :: 0 <= j < |w.threads| && j != i ==> w'.threads[j] == w.threads[j]
    ensures SuccessUnderWay(w.threads[i]) == SuccessUnderWay(w'.threads[i]) ==> SomeSuccess(w) == SomeSuccess(w')
    ensures FailureUnderWay(w.threads[i]) == FailureUnderWay(w'.threads[i]) ==> SomeFailure(w) == SomeFailure(w')
    ensures (WillOpen(w.threads[i], threshold) ==> WillOpen(w'.threads[i], threshold)) ==>
              (SomeWillOpen(w, threshold) ==> SomeWillOpen(w', threshold))
    ensures SuccessUnderWay(w'.threads[i]) ==> SomeSuccess(w')
    ensures FailureUnderWay(w'.threads[i]) ==> SomeFailure(w')
    ensures WillOpen(w'.threads[i], threshold) ==> SomeWillOpen(w', threshold)
    ensures SomeSuccess(w') ==> SomeSuccess(w) || SuccessUnderWay(w'.threads[i])
  {
    hide SuccessUnderWay, FailureUnderWay, WillOpen;
    if j :| 0 <= j < |w.threads| && SuccessUnderWay(w.threads[j]) { assert j == i || w'.threads[j] == w.threads[j]; }
    if j :| 0 <= j < |w'.threads| && SuccessUnderWay(w'.threads[j]) { assert j == i || w'.threads[j] == w.threads[j]; }
    if j :| 0 <= j < |w.threads| && FailureUnderWay(w.threads[j]) { assert j == i || w'.threads[j] == w.threads[j]; }
    if j :| 0 <= j < |w'.threads| && FailureUnderWay(w'.threads[j]) { assert j == i || w'.threads[j] == w.threads[j]; }
    if j :| 0 <= j < |w.threads| && WillOpen(w.threads[j], threshold) {
      assert j == i || w'.threads[j] == w.threads[j];
    }
  }

  /** A success resets while no failure is under way, and ends with the state closed and the counter at zero. */
  lemma SuccessStepKeeps(w: World, i: nat, threshold: nat, timeout: nat, clock: nat)
    requires QuietInv(w, threshold) && i < |w.threads| && threshold >= 1
    requires w.threads[i].pc.SuccessReset? || w.threads[i].pc.SuccessLoad? || w.threads[i].pc.CloseCas?
    requires Apart(Step(w, i, threshold, timeout, clock)) && Apart(w)
    ensures QuietInv(Step(w, i, threshold, timeout, clock), threshold)
  {
    var w' := Step(w, i, threshold, timeout, clock);
    OthersStand(w, i, threshold, timeout, clock);
    SameUnderWay(w, w', i, threshold);
    assert SuccessUnderWay(w'.threads[i]) || (w'.failures == 0 && w'.state == Breaker.Closed) by {
      if w.threads[i].pc.SuccessLoad? || w.threads[i].pc.CloseCas? { assert SuccessUnderWay(w.threads[i]); }
      hide StillCounted;
    }
    assert w'.failures == 0 by {
      if !w.threads[i].pc.SuccessReset? { assert SuccessUnderWay(w.threads[i]); }
    }
    assert !FailureUnderWay(w'.threads[i]);
    NoneStillCounts(w, w', i, threshold);
    hide Step, SomeSuccess, SomeFailure, SomeWillOpen;
  }

  lemma NoneStillCounts(w: World, w': World, i: nat, threshold: nat)
    requires i < |w.threads| == |w'.threads| && !FailureUnderWay(w'.threads[i])
    requires forall j :: 0 <= j < |w.threads| && j != i ==> w'.threads[j] == w.threads[j]
    requires !SomeFailure(w) || w'.failures == w.failures
    requires forall j :: 0 <= j < |w.threads| ==> StillCounted(w.threads[j], w.failures, threshold)
    ensures forall j :: 0 <= j < |w'.threads| ==> StillCounted(w'.threads[j], w'.failures, threshold)
  {
    forall j | 0 <= j < |w'.threads| ensures StillCounted(w'.threads[j], w'.failures, threshold) {
      if FailureUnderWay(w'.threads[j]) {
        assert w'.threads[j] == w.threads[j];
        assert SomeFailure(w);
      }
    }
  }

  /** A failure counts while no success is under way; if it leaves, it leaves the state open or the counter below. */
  lemma FailureStepKeeps(w: World, i: nat, threshold: nat, timeout: nat, clock: nat)
    requires QuietInv(w, threshold) && i < |w.threads|
    requires w.threads[i].pc.FailureAdd? || FailureUnderWay(w.threads[i])
    requires w.threads[i].pc.FailureAdd? ==> w.failures + 1 < Breaker.U32
    requires Apart(Step(w, i, threshold, timeout, clock)) && Apart(w)
    ensures QuietInv(Step(w, i, threshold, timeout, clock), threshold)
  {
    var w' := Step(w, i, threshold, timeout, clock);
    OthersStand(w, i, threshold, timeout, clock);
    SameUnderWay(w, w', i, threshold);
    assert !SomeSuccess(w') by {
      if !FailureUnderWay(w'.threads[i]) { assert FailureUnderWay(w.threads[i]) && SomeFailure(w); }
    }
    FailureOutcome(w, i, threshold, timeout, clock);
    hide Step, SomeSuccess, SomeFailure, SomeWillOpen;
    forall j | 0 <= j < |w'.threads| ensures StillCounted(w'.threads[j], w'.failures, threshold) {
      if j != i { assert StillCounted(w.threads[j], w.failures, threshold); }
    }
  }

  lemma FailureOutcome(w: World, i: nat, threshold: nat, timeout: nat, clock: nat)
    requires i < |w.threads| && StillCounted(w.threads[i], w.failures, threshold)
    requires w.threads[i].pc.FailureAdd? || FailureUnderWay(w.threads[i])
    requires w.threads[i].pc.FailureAdd? ==> w.failures + 1 < Breaker.U32
    ensures
      var w' := Step(w, i, threshold, timeout, clock);
      && |w'.threads| == |w.threads| && !SuccessUnderWay(w'.threads[i])
      && w'.failures >= w.failures && StillCounted(w'.threads[i], w'.failures, threshold)
      && (w'.state == w.state || (w'.state == Breaker.Open && threshold <= w'.failures))
      && (WillOpen(w.threads[i], threshold) ==> WillOpen(w'.threads[i], threshold) || w'.state == Breaker.Open)
      && (w'.failures > w.failures && w'.failures >= threshold ==> WillOpen(w'.threads[i], threshold))
  {
  }

  /** The counter is far from wrapping while a call has yet to count. */
  lemma RoomToCount(w: World, i: nat, threshold: nat)
    requires Inv(w, threshold) && i < |w.threads| && w.threads[i].pc.FailureAdd?
    ensures w.failures + 1 < Breaker.U32
  {
    FewOps(w, i, threshold);
    IncrementsBound(w.ops);
  }

  lemma StepKeepsQuiet(w: World, i: nat, threshold: nat, timeout: nat, clock: nat)
    requires Inv(w, threshold) && QuietInv(w, threshold) && threshold >= 1
    requires i < |w.threads| && !w.threads[i].pc.Done?
    requires Apart(w) && Apart(Step(w, i, threshold, timeout, clock))
    ensures QuietInv(Step(w, i, threshold, timeout, clock), threshold)
  {
    hide Inv, QuietInv, Apart, Step;
    match w.threads[i].pc
    case SuccessReset => SuccessStepKeeps(w, i, threshold, timeout, clock);
    case SuccessLoad => SuccessStepKeeps(w, i, threshold, timeout, clock);
    case CloseCas(_) => SuccessStepKeeps(w, i, threshold, timeout, clock);
    case FailureAdd =>
      RoomToCount(w, i, threshold);
      FailureStepKeeps(w, i, threshold, timeout, clock);
    case FailureClock(_) => FailureStepKeeps(w, i, threshold, timeout, clock);
    case FailureStamp(_, _) => FailureStepKeeps(w, i, threshold, timeout, clock);
    case FailureLoad => FailureStepKeeps(w, i, threshold, timeout, clock);
    case OpenCas(_) => FailureStepKeeps(w, i, threshold, timeout, clock);
    case _ => ProbeStepKeeps(w, i, threshold, timeout, clock);
  }

  lemma {:induction false} RunKeepsQuiet(w: World, run: seq<Choice>, threshold: nat, timeout: nat)
    requires Inv(w, threshold) && QuietInv(w, threshold) && threshold >= 1
    requires Legal(w, run, threshold, timeout) && ApartRun(w, run, threshold, timeout)
    ensures QuietInv(Run(w, run, threshold, timeout), threshold)
    decreases |run|
  {
    hide Inv, QuietInv, Apart, Step;
    if run != [] {
      var w' := Step(w, run[0].thread, threshold, timeout, run[0].clock);
      assert ApartRun(w', run[1..], threshold, timeout);
      BreakerSteps.StepKeepsInv(w, run[0].thread, threshold, timeout, run[0].clock);
      StepKeepsQuiet(w, run[0].thread, threshold, timeout, run[0].clock);
      RunKeepsQuiet(w', run[1..], threshold, timeout);
    }
  }

  /** For any calls in any schedule in which no success overlaps a failure: whenever neither is under way, the
      breaker is CLOSED exactly while its counter is below the threshold, whatever probes are doing. */
  lemma ClosedIffBelowThreshold(calls: seq<Call>, run: seq<Choice>, threshold: nat, timeout: nat)
    requires |calls| < Breaker.U32 && threshold >= 1
    requires Legal(Init(calls), run, threshold, timeout) && ApartRun(Init(calls), run, threshold, timeout)
    requires AtRest(Run(Init(calls), run, threshold, timeout))
    ensures
      var w := Run(Init(calls), run, threshold, timeout);
      w.state == Breaker.Closed <==> w.failures < threshold
  {
    var w0 := Init(calls);
    InitOk(calls, threshold);
    assert QuietInv(w0, threshold) by {
      forall i | 0 <= i < |w0.threads|
        ensures !SuccessUnderWay(w0.threads[i]) && StillCounted(w0.threads[i], 0, threshold)
      {
        assert w0.threads[i].pc == Entry(calls[i]);
      }
    }
    RunKeepsQuiet(w0, run, threshold, timeout);
    var w := Run(w0, run, threshold, timeout);
    hide Run, Legal, ApartRun, Inv, Init;
    assert forall i :: 0 <= i < |w.threads| && WillOpen(w.threads[i], threshold) ==> FailureUnderWay(w.threads[i]);
  }

  /** With overlap it fails the other way round as well: a failure that has counted to the threshold, and whose
      count a success then takes back, still opens the breaker. At rest it is OPEN with the counter at zero. */
  lemma OpenAtZero() returns (w: World)
    ensures Leads(Init([RecordFailure, RecordSuccess]), w)
    ensures w.state == Breaker.Open && w.failures == 0
    ensures forall i :: 0 <= i < |w.threads| ==> w.threads[i].pc.Done?
  {
    var w0 := Init([RecordFailure, RecordSuccess]);
    assert Leads(w0, w0) by {
      assert Legal(w0, [], 1, 0) && Run(w0, [], 1, 0) == w0;
    }
    hide Leads, Step;
    w := FailureHead(w0, w0, 0);
    w := SuccessTakesBack(w0, w);
    w := LateOpen(w0, w);
  }

  lemma SuccessTakesBack(w0: World, w: World) returns (w': World)
    requires Leads(w0, w) && |w.threads| == 2 && w.state == Breaker.Closed
    requires w.threads[0].pc == FailureLoad && w.threads[0].call == RecordFailure && w.threads[1].pc == SuccessReset
    ensures Leads(w0, w') && |w'.threads| == 2 && w'.state == Breaker.Closed && w'.failures == 0
    ensures w'.threads[0].pc == OpenCas(Breaker.Closed) && w'.threads[1].pc.Done?
    ensures w'.threads[0].call == RecordFailure
  {
    hide Leads;
    w' := Then(w0, w, 0);
    assert w'.threads[0].pc == OpenCas(Breaker.Closed) && w'.threads[1].pc == SuccessReset;
    w' := Then(w0, w', 1);
    assert w'.threads[1].pc == SuccessLoad && w'.failures == 0 && w'.state == Breaker.Closed;
    w' := Then(w0, w', 1);
  }

  lemma LateOpen(w0: World, w: World) returns (w': World)
    requires Leads(w0, w) && |w.threads| == 2 && w.state == Breaker.Closed && w.failures == 0
    requires w.threads[0].pc == OpenCas(Breaker.Closed) && w.threads[1].pc.Done? && w.threads[0].call == RecordFailure
    ensures Leads(w0, w') && w'.state == Breaker.Open && w'.failures == 0
    ensures forall i :: 0 <= i < |w'.threads| ==> w'.threads[i].pc.Done?
  {
    hide Leads;
    w' := Then(w0, w, 0);
    assert w'.threads[0].pc == Count(Edge(Breaker.Closed, Breaker.Open)) && w'.state == Breaker.Open
        && w'.failures == 0;
    w' := Then(w0, w', 0);
    assert w'.threads[0].pc == Gauge && w'.threads[1].pc.Done? && w'.state == Breaker.Open;
    w' := Then(w0, w', 0);
    assert |w'.threads| == 2;
  }
}
