/** The circuit breaker of one project under contention: any number of concurrent calls, one step per
    atomic operation, in any sequentially consistent interleaving. */
module BreakerSteps {
  import opened Text
  import Breaker
  import opened Counting

  type State = Breaker.State

  datatype Call = IsAvailable | RecordSuccess | RecordFailure

  /** A transition as the metrics label it. */
  datatype Edge = Edge(from: State, to: State)

  /** Where a call stands; each constructor names the atomic operation that comes next. */
  datatype Pc =
    | ProbeLoad
    | ProbeClock
    | ProbeStamp(now: nat)
    | ProbeCas
    | SuccessReset
    | SuccessLoad
    | CloseCas(current: State)
    | FailureAdd
    | FailureClock(failures: nat)
    | FailureStamp(failures: nat, now: nat)
    | FailureLoad
    | OpenCas(current: State)
    | Count(edge: Edge)
    | Gauge
    | Done(available: bool)

  /** A call, with what the proofs remember of it: how many transitions it has seen, the position of its
      own counter increment, and for each failed compare-and-swap the transition charged for it. */
  datatype Thread = Thread(call: Call, pc: Pc, seen: nat, increment: nat, charges: seq<nat>, swapped: bool)

  datatype Swap = Swap(thread: nat, edge: Edge)
  datatype Op = Reset(thread: nat) | Increment(thread: nat)
  datatype Stamp = Stamp(thread: nat, now: nat)

  datatype World = World(
    failures: nat, stamp: nat, state: State, counters: multiset<Edge>,
    threads: seq<Thread>, swaps: seq<Swap>, ops: seq<Op>, stamps: seq<Stamp>)

  function Entry(call: Call): Pc {
    match call
    case IsAvailable => ProbeLoad
    case RecordSuccess => SuccessReset
    case RecordFailure => FailureAdd
  }

  function Init(calls: seq<Call>): World {
    var threads := seq(|calls|, i requires 0 <= i < |calls| => Thread(calls[i], Entry(calls[i]), 0, 0, [], false));
    World(0, 0, Breaker.Closed, multiset{}, threads, [], [], [])
  }

  function Increments(ops: seq<Op>): nat {
    if ops == [] || ops[|ops| - 1].Reset? then 0 else 1 + Increments(ops[..|ops| - 1])
  }

  /** `compare_exchange(expected, to)` by thread `i`, which continues at `lost` when it fails. */
  function TrySwap(w: World, i: nat, expected: State, to: State, lost: Pc): World
    requires i < |w.threads|
  {
    var t := w.threads[i];
    if w.state == expected then
      w.(state := to, swaps := w.swaps + [Swap(i, Edge(expected, to))],
         threads := w.threads[i := t.(pc := Count(Edge(expected, to)), swapped := true)])
    else
      w.(threads := w.threads[i := t.(pc := lost, seen := |w.swaps|,
                                      charges := t.charges + [if w.swaps == [] then 0 else |w.swaps| - 1])])
  }

  /** The loop test of the two compare-and-swap loops. */
  function CloseLoop(current: State): Pc {
    if current == Breaker.Closed then Done(true) else CloseCas(current)
  }

  function OpenLoop(current: State): Pc {
    if current == Breaker.Open then Gauge else OpenCas(current)
  }

  /** The next atomic step of thread `i`; `clock` is what a clock reading returns. */
  function Step(w: World, i: nat, threshold: nat, timeout: nat, clock: nat): World
    requires i < |w.threads| && !w.threads[i].pc.Done?
  {
    var t := w.threads[i];
    match t.pc
    case ProbeLoad => At(w, i, t.(pc := if w.state == Breaker.Open then ProbeClock else Done(true), seen := |w.swaps|))
    case ProbeClock => At(w, i, t.(pc := ProbeStamp(clock)))
    case ProbeStamp(now) =>
      At(w, i, t.(pc := if Breaker.SaturatingSub(now, w.stamp) >= timeout then ProbeCas else Done(false)))
    case ProbeCas => TrySwap(w, i, Breaker.Open, Breaker.HalfOpen, Done(true))
    case SuccessReset => At(w, i, t.(pc := SuccessLoad)).(failures := 0, ops := w.ops + [Reset(i)])
    case SuccessLoad => At(w, i, t.(pc := CloseLoop(w.state), seen := |w.swaps|))
    case CloseCas(current) => TrySwap(w, i, current, Breaker.Closed, CloseLoop(w.state))
    case FailureAdd =>
      var failures := (w.failures + 1) % Breaker.U32;
      At(w, i, t.(pc := FailureClock(failures), increment := |w.ops|)).(
        failures := failures, ops := w.ops + [Increment(i)])
    case FailureClock(failures) => At(w, i, t.(pc := FailureStamp(failures, clock)))
    case FailureStamp(failures, now) =>
      At(w, i, t.(pc := if failures >= threshold then FailureLoad else Gauge)).(
        stamp := now, stamps := w.stamps + [Stamp(i, now)])
    case FailureLoad => At(w, i, t.(pc := OpenLoop(w.state), seen := |w.swaps|))
    case OpenCas(current) => TrySwap(w, i, current, Breaker.Open, OpenLoop(w.state))
    case Count(edge) =>
      At(w, i, t.(pc := if t.call.RecordFailure? then Gauge else Done(true))).(counters := w.counters + multiset{edge})
    case Gauge => At(w, i, t.(pc := Done(true)))
  }

  function At(w: World, i: nat, t: Thread): World
    requires i < |w.threads|
  {
    w.(threads := w.threads[i := t])
  }

  /** One scheduling choice: which call moves, and what its clock shows. */
  datatype Choice = Choice(thread: nat, clock: nat)

  ghost predicate Legal(w: World, run: seq<Choice>, threshold: nat, timeout: nat)
    decreases |run|
  {
    run == [] ||
    (run[0].thread < |w.threads| && !w.threads[run[0].thread].pc.Done? &&
     Legal(Step(w, run[0].thread, threshold, timeout, run[0].clock), run[1..], threshold, timeout))
  }

  ghost function Run(w: World, run: seq<Choice>, threshold: nat, timeout: nat): World
    requires Legal(w, run, threshold, timeout)
    decreases |run|
  {
    if run == [] then w
    else Run(Step(w, run[0].thread, threshold, timeout, run[0].clock), run[1..], threshold, timeout)
  }

  // ----- the invariant -----

  /** The state reached by the first `n` transitions. */
  function StateAfter(swaps: seq<Swap>, n: nat): State
    requires n <= |swaps|
  {
    if n == 0 then Breaker.Closed else swaps[n - 1].edge.to
  }

  /** The transitions form one path from CLOSED to the current state, each labelled with the state it left. */
  ghost predicate PathOk(w: World) {
    && w.state == StateAfter(w.swaps, |w.swaps|)
    && (forall n :: 0 <= n < |w.swaps| ==>
          w.swaps[n].edge.from == StateAfter(w.swaps, n) && w.swaps[n].edge.from != w.swaps[n].edge.to)
  }

  ghost predicate SwapOk(w: World, n: nat, threshold: nat)
    requires n < |w.swaps|
  {
    var s := w.swaps[n];
    && s.thread < |w.threads| && w.threads[s.thread].swapped
    && (forall m :: n < m < |w.swaps| ==> w.swaps[m].thread != s.thread)
    && (s.edge.to == Breaker.HalfOpen ==> s.edge.from == Breaker.Open && w.threads[s.thread].call == IsAvailable)
    && (s.edge.to == Breaker.Closed ==> w.threads[s.thread].call == RecordSuccess)
    && (s.edge.to == Breaker.Open ==>
          w.threads[s.thread].call == RecordFailure && Justified(w, s.thread, threshold) && w.stamps != [])
  }

  /** Thread `i` incremented the counter, and did so for at least the threshold-th time since the latest reset. */
  ghost predicate Justified(w: World, i: nat, threshold: nat)
    requires i < |w.threads|
  {
    var n := w.threads[i].increment;
    n < |w.ops| && w.ops[n] == Increment(i) && Increments(w.ops[..n + 1]) >= threshold
  }

  ghost predicate OpOk(w: World, n: nat)
    requires n < |w.ops|
  {
    && w.ops[n].thread < |w.threads|
    && !(w.threads[w.ops[n].thread].pc.SuccessReset? || w.threads[w.ops[n].thread].pc.FailureAdd?)
    && forall m :: n < m < |w.ops| ==> w.ops[m].thread != w.ops[n].thread
  }

  /** The state that the call read last and still relies on. */
  function Expecting(pc: Pc): Option<State> {
    match pc
    case ProbeClock => Some(Breaker.Open)
    case ProbeStamp(_) => Some(Breaker.Open)
    case ProbeCas => Some(Breaker.Open)
    case CloseCas(current) => Some(current)
    case OpenCas(current) => Some(current)
    case _ => None
  }

  /** The call has not yet lost a compare-and-swap. */
  predicate Unopposed(pc: Pc) {
    !(pc.CloseCas? || pc.OpenCas? || pc.Count? || pc.Gauge? || pc.Done?)
  }

  ghost predicate ThreadOk(w: World, i: nat, threshold: nat)
    requires i < |w.threads|
  {
    var t := w.threads[i];
    && PcOfCall(t.call, t.pc)
    && (t.swapped ==> t.pc.Count? || t.pc.Gauge? || t.pc.Done?)
    && (t.pc.CloseCas? ==> t.pc.current != Breaker.Closed)
    && (t.pc.OpenCas? ==> t.pc.current != Breaker.Open)
    && t.seen <= |w.swaps|
    && (Expecting(t.pc).Some? ==> StateAfter(w.swaps, t.seen) == Expecting(t.pc).value)
    && ((t.pc.FailureLoad? || t.pc.OpenCas?) ==> Justified(w, i, threshold) && w.stamps != [])
    && ((t.pc.FailureClock? || t.pc.FailureStamp?) ==>
          && t.increment < |w.ops| && w.ops[t.increment] == Increment(i)
          && t.pc.failures == Increments(w.ops[..t.increment + 1]))
    && (Unopposed(t.pc) ==> t.charges == [])
    && ChargesOk(w, i)
  }

  /** Each failed compare-and-swap is charged to a distinct transition, made by another call. */
  ghost predicate ChargesOk(w: World, i: nat)
    requires i < |w.threads|
  {
    var t := w.threads[i];
    && (forall c :: 0 <= c < |t.charges| ==>
          t.charges[c] < |w.swaps| && t.charges[c] < t.seen && w.swaps[t.charges[c]].thread != i)
    && (forall c, d :: 0 <= c < d < |t.charges| ==> t.charges[c] < t.charges[d])
  }

  predicate PcOfCall(call: Call, pc: Pc) {
    match pc
    case ProbeLoad => call == IsAvailable
    case ProbeClock => call == IsAvailable
    case ProbeStamp(_) => call == IsAvailable
    case ProbeCas => call == IsAvailable
    case SuccessReset => call == RecordSuccess
    case SuccessLoad => call == RecordSuccess
    case CloseCas(_) => call == RecordSuccess
    case Count(_) => true
    case Done(_) => true
    case _ => call == RecordFailure
  }

  ghost predicate Inv(w: World, threshold: nat) {
    && |w.threads| < Breaker.U32
    && PathOk(w)
    && (forall n :: 0 <= n < |w.swaps| ==> SwapOk(w, n, threshold))
    && (forall n :: 0 <= n < |w.ops| ==> OpOk(w, n))
    && (forall i :: 0 <= i < |w.threads| ==> ThreadOk(w, i, threshold))
    && w.failures == Increments(w.ops)
    && (w.stamps == [] ==> w.stamp == 0)
    && (w.stamps != [] ==> w.stamp == w.stamps[|w.stamps| - 1].now)
    && (forall n :: 0 <= n < |w.stamps| ==>
          w.stamps[n].thread < |w.threads| && w.threads[w.stamps[n].thread].call == RecordFailure)
  }

  // ----- preservation -----

  lemma InitOk(calls: seq<Call>, threshold: nat)
    requires |calls| < Breaker.U32
    ensures Inv(Init(calls), threshold)
  {
  }

  /** Appending to the logs and moving thread `i` keeps what is known of the others. */
  ghost predicate Extends(w: World, w': World, i: nat) {
    && |w'.threads| == |w.threads| && i < |w.threads|
    && (forall j :: 0 <= j < |w.threads| && j != i ==> w'.threads[j] == w.threads[j])
    && w'.threads[i].call == w.threads[i].call
    && w.swaps <= w'.swaps && w.ops <= w'.ops && w.stamps <= w'.stamps
  }

  lemma OthersKeep(w: World, w': World, i: nat, j: nat, threshold: nat)
    requires Extends(w, w', i) && j < |w.threads| && j != i && ThreadOk(w, j, threshold)
    ensures ThreadOk(w', j, threshold)
  {
    var t := w.threads[j];
    if t.increment < |w.ops| {
      assert w'.ops[..t.increment + 1] == w.ops[..t.increment + 1];
    }
    assert forall n :: 0 <= n < |w.swaps| ==> w'.swaps[n] == w.swaps[n];
  }

  lemma SwapsKeep(w: World, w': World, i: nat, threshold: nat)
    requires Inv(w, threshold) && Extends(w, w', i)
    requires w'.threads[i].swapped == w.threads[i].swapped && w'.swaps == w.swaps
    requires w'.threads[i].increment == w.threads[i].increment || !w.threads[i].swapped
    ensures forall n :: 0 <= n < |w.swaps| ==> SwapOk(w', n, threshold)
  {
    forall n | 0 <= n < |w.swaps|
      ensures SwapOk(w', n, threshold)
    {
      assert SwapOk(w, n, threshold);
      var m := w.threads[w.swaps[n].thread].increment;
      if m < |w.ops| {
        assert w'.ops[..m + 1] == w.ops[..m + 1];
      }
    }
  }

  lemma OpsKeep(w: World, w': World, i: nat)
    requires Extends(w, w', i) && w'.ops == w.ops
    requires !w'.threads[i].pc.SuccessReset? && !w'.threads[i].pc.FailureAdd?
    requires forall n :: 0 <= n < |w.ops| ==> OpOk(w, n)
    ensures forall n :: 0 <= n < |w.ops| ==> OpOk(w', n)
  {
    forall n | 0 <= n < |w.ops|
      ensures OpOk(w', n)
    {
      assert OpOk(w, n);
    }
  }

  /** Enough to check thread `i`, the path, the swaps and the counter operations. */
  lemma Assemble(w: World, w': World, i: nat, threshold: nat)
    requires Inv(w, threshold) && Extends(w, w', i)
    requires ThreadOk(w', i, threshold) && PathOk(w') && w'.failures == Increments(w'.ops)
    requires forall n :: 0 <= n < |w'.swaps| ==> SwapOk(w', n, threshold)
    requires forall n :: 0 <= n < |w'.ops| ==> OpOk(w', n)
    requires w'.stamps == w.stamps && w'.stamp == w.stamp
    ensures Inv(w', threshold)
  {
    forall j | 0 <= j < |w.threads|
      ensures ThreadOk(w', j, threshold)
    {
      if j != i { OthersKeep(w, w', i, j, threshold); }
    }
    hide ThreadOk, SwapOk, OpOk, PathOk;
  }

  ghost predicate ReadyToSwap(w: World, i: nat, expected: State, to: State, lost: Pc) {
    && i < |w.threads|
    && match w.threads[i].pc
       case ProbeCas => expected == Breaker.Open && to == Breaker.HalfOpen && lost == Done(true)
       case CloseCas(current) => expected == current && to == Breaker.Closed && lost == CloseLoop(w.state)
       case OpenCas(current) => expected == current && to == Breaker.Open && lost == OpenLoop(w.state)
       case _ => false
  }

  lemma WinThread(w: World, i: nat, expected: State, to: State, lost: Pc, threshold: nat)
    requires ReadyToSwap(w, i, expected, to, lost) && w.state == expected && ThreadOk(w, i, threshold)
    ensures ThreadOk(TrySwap(w, i, expected, to, lost), i, threshold)
  {
    var w' := TrySwap(w, i, expected, to, lost);
    assert forall n :: 0 <= n < |w.swaps| ==> w'.swaps[n] == w.swaps[n];
  }

  lemma WinSwaps(w: World, i: nat, expected: State, to: State, lost: Pc, threshold: nat)
    requires ReadyToSwap(w, i, expected, to, lost) && w.state == expected && ThreadOk(w, i, threshold)
    requires forall n :: 0 <= n < |w.swaps| ==> SwapOk(w, n, threshold)
    ensures
      var w' := TrySwap(w, i, expected, to, lost);
      forall n :: 0 <= n < |w'.swaps| ==> SwapOk(w', n, threshold)
  {
    var w' := TrySwap(w, i, expected, to, lost);
    forall n | 0 <= n < |w'.swaps|
      ensures SwapOk(w', n, threshold)
    {
      if n < |w.swaps| { assert SwapOk(w, n, threshold); }
    }
  }

  lemma SwapMoves(w: World, i: nat, expected: State, to: State, lost: Pc, threshold: nat)
    requires ReadyToSwap(w, i, expected, to, lost) && ThreadOk(w, i, threshold)
    ensures expected != to
  {
  }

  lemma WinPath(w: World, i: nat, expected: State, to: State, lost: Pc)
    requires i < |w.threads| && w.state == expected != to && PathOk(w)
    ensures PathOk(TrySwap(w, i, expected, to, lost))
  {
    var w' := TrySwap(w, i, expected, to, lost);
    forall n | 0 <= n <= |w.swaps|
      ensures StateAfter(w'.swaps, n) == StateAfter(w.swaps, n)
    {
    }
  }

  /** A lost compare-and-swap means that another call moved the state since this call read it. */
  lemma LossHasACause(w: World, i: nat, expected: State, to: State, lost: Pc, threshold: nat)
    requires ReadyToSwap(w, i, expected, to, lost) && w.state != expected && ThreadOk(w, i, threshold) && PathOk(w)
    requires forall n :: 0 <= n < |w.swaps| ==> SwapOk(w, n, threshold)
    ensures w.threads[i].seen < |w.swaps| && w.swaps[|w.swaps| - 1].thread != i
  {
    assert w.swaps != [];
    assert SwapOk(w, |w.swaps| - 1, threshold);
  }

  lemma LossThread(w: World, i: nat, expected: State, to: State, lost: Pc, threshold: nat)
    requires ReadyToSwap(w, i, expected, to, lost) && w.state != expected && ThreadOk(w, i, threshold)
    requires w.state == StateAfter(w.swaps, |w.swaps|)
    requires w.threads[i].seen < |w.swaps| && w.swaps[|w.swaps| - 1].thread != i
    ensures ThreadOk(TrySwap(w, i, expected, to, lost), i, threshold)
  {
    hide Increments;
    var t := w.threads[i];
    var t' := TrySwap(w, i, expected, to, lost).threads[i];
    assert ChargesOk(w, i);
    assert forall c :: 0 <= c < |t.charges| ==> t'.charges[c] == t.charges[c];
    assert t'.charges[|t.charges|] == |w.swaps| - 1;
  }

  lemma TrySwapKeepsInv(w: World, i: nat, expected: State, to: State, lost: Pc, threshold: nat)
    requires Inv(w, threshold) && ReadyToSwap(w, i, expected, to, lost)
    ensures Inv(TrySwap(w, i, expected, to, lost), threshold)
  {
    var w' := TrySwap(w, i, expected, to, lost);
    assert ThreadOk(w, i, threshold);
    OpsKeep(w, w', i);
    if w.state == expected {
      WinThread(w, i, expected, to, lost, threshold);
      WinSwaps(w, i, expected, to, lost, threshold);
      SwapMoves(w, i, expected, to, lost, threshold);
      WinPath(w, i, expected, to, lost);
    } else {
      LossHasACause(w, i, expected, to, lost, threshold);
      LossThread(w, i, expected, to, lost, threshold);
      SwapsKeep(w, w', i, threshold);
    }
    hide ThreadOk, SwapOk, OpOk, ReadyToSwap, Increments;
    Assemble(w, w', i, threshold);
  }

  /** The steps that touch neither the transition log nor the counter nor the stamp. */
  predicate Quiet(pc: Pc) {
    pc.ProbeLoad? || pc.ProbeClock? || pc.ProbeStamp? || pc.SuccessLoad? || pc.FailureClock? || pc.FailureLoad?
    || pc.Count? || pc.Gauge?
  }

  predicate ProbeRead(pc: Pc) {
    pc.ProbeLoad? || pc.ProbeClock? || pc.ProbeStamp?
  }

  predicate RecordRead(pc: Pc) {
    pc.SuccessLoad? || pc.FailureClock? || pc.FailureLoad?
  }

  lemma ProbeReadThread(w: World, i: nat, threshold: nat, timeout: nat, clock: nat)
    requires i < |w.threads| && ProbeRead(w.threads[i].pc) && ThreadOk(w, i, threshold)
    requires w.state == StateAfter(w.swaps, |w.swaps|)
    ensures ThreadOk(Step(w, i, threshold, timeout, clock), i, threshold)
  {
    hide Increments, Justified, Breaker.SaturatingSub;
  }

  lemma RecordReadThread(w: World, i: nat, threshold: nat, timeout: nat, clock: nat)
    requires i < |w.threads| && RecordRead(w.threads[i].pc) && ThreadOk(w, i, threshold)
    requires w.state == StateAfter(w.swaps, |w.swaps|)
    ensures ThreadOk(Step(w, i, threshold, timeout, clock), i, threshold)
  {
    hide Increments;
  }

  lemma QuietThread(w: World, i: nat, threshold: nat, timeout: nat, clock: nat)
    requires i < |w.threads| && Quiet(w.threads[i].pc) && ThreadOk(w, i, threshold)
    requires w.state == StateAfter(w.swaps, |w.swaps|)
    ensures ThreadOk(Step(w, i, threshold, timeout, clock), i, threshold)
  {
    hide ThreadOk, Step;
    if ProbeRead(w.threads[i].pc) { ProbeReadThread(w, i, threshold, timeout, clock); }
    else if RecordRead(w.threads[i].pc) { RecordReadThread(w, i, threshold, timeout, clock); }
    else { LastStepThread(w, i, threshold, timeout, clock); }
  }

  lemma LastStepThread(w: World, i: nat, threshold: nat, timeout: nat, clock: nat)
    requires i < |w.threads| && (w.threads[i].pc.Count? || w.threads[i].pc.Gauge?) && ThreadOk(w, i, threshold)
    ensures ThreadOk(Step(w, i, threshold, timeout, clock), i, threshold)
  {
    hide Increments, Justified;
  }

  lemma QuietKeepsInv(w: World, i: nat, threshold: nat, timeout: nat, clock: nat)
    requires Inv(w, threshold) && i < |w.threads| && Quiet(w.threads[i].pc)
    ensures Inv(Step(w, i, threshold, timeout, clock), threshold)
  {
    var w' := Step(w, i, threshold, timeout, clock);
    assert ThreadOk(w, i, threshold);
    QuietThread(w, i, threshold, timeout, clock);
    SwapsKeep(w, w', i, threshold);
    OpsKeep(w, w', i);
    assert PathOk(w');
    hide ThreadOk, SwapOk, OpOk, PathOk, Increments;
    Assemble(w, w', i, threshold);
  }

  /** A counter operation by a call that has done none: the new entry is its own, and few enough came
      before for the counter not to wrap. */
  lemma CounterStepKeepsInv(w: World, i: nat, threshold: nat, timeout: nat, clock: nat)
    requires Inv(w, threshold) && i < |w.threads| && (w.threads[i].pc.SuccessReset? || w.threads[i].pc.FailureAdd?)
    ensures Inv(Step(w, i, threshold, timeout, clock), threshold)
  {
    var w' := Step(w, i, threshold, timeout, clock);
    var op := w'.ops[|w.ops|];
    assert w'.ops == w.ops + [op] && w'.ops[..|w.ops|] == w.ops && w'.ops[..|w.ops| + 1] == w'.ops;
    FewOps(w, i, threshold);
    IncrementsBound(w.ops);
    assert w'.failures == Increments(w'.ops);
    assert ThreadOk(w, i, threshold);
    CounterThread(w, i, threshold, timeout, clock);
    SwapsKeep(w, w', i, threshold);
    OpAppended(w, w', i, threshold);
    assert PathOk(w');
    hide ThreadOk, SwapOk, OpOk, PathOk, Increments;
    Assemble(w, w', i, threshold);
  }

  lemma CounterThread(w: World, i: nat, threshold: nat, timeout: nat, clock: nat)
    requires i < |w.threads| && (w.threads[i].pc.SuccessReset? || w.threads[i].pc.FailureAdd?)
        && ThreadOk(w, i, threshold)
    requires w.failures == Increments(w.ops) && w.failures + 1 < Breaker.U32
    ensures ThreadOk(Step(w, i, threshold, timeout, clock), i, threshold)
  {
    var w' := Step(w, i, threshold, timeout, clock);
    assert w'.ops[..|w.ops| + 1] == w'.ops && w'.ops[..|w.ops|] == w.ops;
  }

  lemma OpAppended(w: World, w': World, i: nat, threshold: nat)
    requires Inv(w, threshold) && Extends(w, w', i) && (w.threads[i].pc.SuccessReset? || w.threads[i].pc.FailureAdd?)
    requires !w'.threads[i].pc.SuccessReset? && !w'.threads[i].pc.FailureAdd?
    requires |w'.ops| == |w.ops| + 1 && w'.ops[|w.ops|].thread == i
    ensures forall n :: 0 <= n < |w'.ops| ==> OpOk(w', n)
  {
    forall n | 0 <= n < |w'.ops|
      ensures OpOk(w', n)
    {
      if n < |w.ops| { assert OpOk(w, n); }
    }
  }

  lemma FewOps(w: World, i: nat, threshold: nat)
    requires Inv(w, threshold) && i < |w.threads| && (w.threads[i].pc.SuccessReset? || w.threads[i].pc.FailureAdd?)
    ensures |w.ops| <= |w.threads| - 1
  {
    var owners := seq(|w.ops|, n requires 0 <= n < |w.ops| => w.ops[n].thread);
    forall n | 0 <= n < |owners|
      ensures owners[n] < |w.threads| && owners[n] != i && forall m :: n < m < |owners| ==> owners[m] != owners[n]
    {
      assert OpOk(w, n);
    }
    DistinctIndices(owners, |w.threads|, i);
  }

  lemma {:induction false} IncrementsBound(ops: seq<Op>)
    ensures Increments(ops) <= |ops|
  {
    if ops != [] { IncrementsBound(ops[..|ops| - 1]); }
  }

  lemma StampKeepsInv(w: World, i: nat, threshold: nat, timeout: nat, clock: nat)
    requires Inv(w, threshold) && i < |w.threads| && w.threads[i].pc.FailureStamp?
    ensures Inv(Step(w, i, threshold, timeout, clock), threshold)
  {
    var w' := Step(w, i, threshold, timeout, clock);
    assert ThreadOk(w, i, threshold);
    forall j | 0 <= j < |w.threads|
      ensures ThreadOk(w', j, threshold)
    {
      if j != i { OthersKeep(w, w', i, j, threshold); }
    }
    SwapsKeep(w, w', i, threshold);
    OpsKeep(w, w', i);
    assert PathOk(w');
    hide ThreadOk, SwapOk, OpOk, PathOk, Increments;
  }

  lemma StepKeepsInv(w: World, i: nat, threshold: nat, timeout: nat, clock: nat)
    requires Inv(w, threshold) && i < |w.threads| && !w.threads[i].pc.Done?
    ensures Inv(Step(w, i, threshold, timeout, clock), threshold)
  {
    var pc := w.threads[i].pc;
    hide Inv, Increments;
    if Quiet(pc) { QuietKeepsInv(w, i, threshold, timeout, clock); }
    else {
      match pc
      case ProbeCas => TrySwapKeepsInv(w, i, Breaker.Open, Breaker.HalfOpen, Done(true), threshold);
      case CloseCas(current) => TrySwapKeepsInv(w, i, current, Breaker.Closed, CloseLoop(w.state), threshold);
      case OpenCas(current) => TrySwapKeepsInv(w, i, current, Breaker.Open, OpenLoop(w.state), threshold);
      case FailureStamp(_, _) => StampKeepsInv(w, i, threshold, timeout, clock);
      case _ => CounterStepKeepsInv(w, i, threshold, timeout, clock);
    }
  }

  lemma {:induction false} RunKeepsInv(w: World, run: seq<Choice>, threshold: nat, timeout: nat)
    requires Inv(w, threshold) && Legal(w, run, threshold, timeout)
    ensures Inv(Run(w, run, threshold, timeout), threshold)
    decreases |run|
  {
    if run != [] {
      StepKeepsInv(w, run[0].thread, threshold, timeout, run[0].clock);
      RunKeepsInv(Step(w, run[0].thread, threshold, timeout, run[0].clock), run[1..], threshold, timeout);
    }
  }

  // ----- bounded retries and termination -----

  /** The state that a call at a compare-and-swap expects. */
  function SwapExpects(pc: Pc): Option<State> {
    match pc
    case ProbeCas => Some(Breaker.Open)
    case CloseCas(current) => Some(current)
    case OpenCas(current) => Some(current)
    case _ => None
  }

  /** Whether this scheduling choice is a compare-and-swap of call `i`, tried at all, and won. */
  predicate Tries(w: World, choice: Choice, i: nat) {
    choice.thread == i && i < |w.threads| && SwapExpects(w.threads[i].pc).Some?
  }

  predicate Wins(w: World, choice: Choice, i: nat) {
    Tries(w, choice, i) && SwapExpects(w.threads[i].pc) == Some(w.state)
  }

  /** How many compare-and-swaps call `i` tries in a run, and how many it wins. */
  ghost function Attempts(w: World, run: seq<Choice>, threshold: nat, timeout: nat, i: nat): nat
    requires Legal(w, run, threshold, timeout)
    decreases |run|
  {
    if run == [] then 0 else
      Unit(Tries(w, run[0], i))
      + Attempts(Step(w, run[0].thread, threshold, timeout, run[0].clock), run[1..], threshold, timeout, i)
  }

  ghost function Successes(w: World, run: seq<Choice>, threshold: nat, timeout: nat, i: nat): nat
    requires Legal(w, run, threshold, timeout)
    decreases |run|
  {
    if run == [] then 0 else
      Unit(Wins(w, run[0], i))
      + Successes(Step(w, run[0].thread, threshold, timeout, run[0].clock), run[1..], threshold, timeout, i)
  }

  function Unit(b: bool): nat {
    if b then 1 else 0
  }

  function SwapsBy(swaps: seq<Swap>, i: nat): nat {
    if swaps == [] then 0 else SwapsBy(swaps[..|swaps| - 1], i) + Unit(swaps[|swaps| - 1].thread == i)
  }

  /** Every lost compare-and-swap is charged, and every won one is in the log. */
  lemma StepIsLogged(w: World, c: Choice, threshold: nat, timeout: nat, i: nat)
    requires c.thread < |w.threads| && !w.threads[c.thread].pc.Done? && i < |w.threads|
    ensures
      var w' := Step(w, c.thread, threshold, timeout, c.clock);
      && |w'.threads| == |w.threads|
      && SwapsBy(w'.swaps, i) == SwapsBy(w.swaps, i) + Unit(Wins(w, c, i))
      && |w'.threads[i].charges| + Unit(Wins(w, c, i)) == |w.threads[i].charges| + Unit(Tries(w, c, i))
  {
    var w' := Step(w, c.thread, threshold, timeout, c.clock);
    assert w'.swaps != w.swaps ==> w'.swaps[..|w.swaps|] == w.swaps;
    hide Increments, Breaker.SaturatingSub, CloseLoop, OpenLoop;
  }

  lemma {:induction false} RunIsLogged(w: World, run: seq<Choice>, threshold: nat, timeout: nat, i: nat)
    requires Legal(w, run, threshold, timeout) && i < |w.threads|
    ensures
      var w' := Run(w, run, threshold, timeout);
      var tried, won := Attempts(w, run, threshold, timeout, i), Successes(w, run, threshold, timeout, i);
      && |w'.threads| == |w.threads|
      && SwapsBy(w'.swaps, i) == SwapsBy(w.swaps, i) + won
      && |w'.threads[i].charges| + won == |w.threads[i].charges| + tried
    decreases |run|
  {
    hide Step, SwapsBy, Tries, Wins;
    if run != [] {
      StepIsLogged(w, run[0], threshold, timeout, i);
      RunIsLogged(Step(w, run[0].thread, threshold, timeout, run[0].clock), run[1..], threshold, timeout, i);
    }
  }

  lemma {:induction false} AtMostOneSwap(swaps: seq<Swap>, i: nat)
    requires forall n, m :: 0 <= n < m < |swaps| ==> swaps[n].thread != i || swaps[m].thread != i
    ensures SwapsBy(swaps, i) <= 1
  {
    if swaps != [] {
      var n := |swaps| - 1;
      AtMostOneSwap(swaps[..n], i);
      if swaps[n].thread == i { NoSwap(swaps[..n], i); }
    }
  }

  lemma {:induction false} NoSwap(swaps: seq<Swap>, i: nat)
    requires forall n :: 0 <= n < |swaps| ==> swaps[n].thread != i
    ensures SwapsBy(swaps, i) == 0
  {
    if swaps != [] { NoSwap(swaps[..|swaps| - 1], i); }
  }

  /** Both loops exit within k iterations: in any run of k calls each tries at most k compare-and-swaps and wins at
      most one of them. */
  lemma AttemptsBounded(calls: seq<Call>, run: seq<Choice>, threshold: nat, timeout: nat, i: nat)
    requires |calls| < Breaker.U32 && Legal(Init(calls), run, threshold, timeout) && i < |calls|
    ensures Attempts(Init(calls), run, threshold, timeout, i) <= |calls|
    ensures Successes(Init(calls), run, threshold, timeout, i) <= 1
  {
    InitOk(calls, threshold);
    RunKeepsInv(Init(calls), run, threshold, timeout);
    RunIsLogged(Init(calls), run, threshold, timeout, i);
    var w := Run(Init(calls), run, threshold, timeout);
    ChargedToOthers(w, i, threshold);
    forall n, m | 0 <= n < m < |w.swaps| ensures w.swaps[n].thread != i || w.swaps[m].thread != i {
      assert SwapOk(w, n, threshold);
    }
    hide Inv, Run, Attempts, Successes, Legal;
    AtMostOneSwap(w.swaps, i);
  }

  /** The transition charged for the `c`-th lost compare-and-swap of call `i`, and the call that made it. */
  function Payer(w: World, i: nat, c: nat): nat
    requires i < |w.threads| && c < |w.threads[i].charges| && w.threads[i].charges[c] < |w.swaps|
  {
    w.swaps[w.threads[i].charges[c]].thread
  }

  /** Each lost compare-and-swap is charged to a transition of its own, made by a call of its own, never by the
      loser. */
  lemma ChargedToOthers(w: World, i: nat, threshold: nat)
    requires Inv(w, threshold) && i < |w.threads|
    ensures
      var charges := w.threads[i].charges;
      && (forall c :: 0 <= c < |charges| ==>
            charges[c] < |w.swaps| && Payer(w, i, c) < |w.threads| && Payer(w, i, c) != i)
      && (forall c, d :: 0 <= c < d < |charges| ==> charges[c] != charges[d] && Payer(w, i, c) != Payer(w, i, d))
      && |charges| <= |w.threads| - 1
  {
    var charges := w.threads[i].charges;
    assert ThreadOk(w, i, threshold);
    assert ChargesOk(w, i);
    var payers := seq(|charges|, c requires 0 <= c < |charges| => w.swaps[charges[c]].thread);
    forall c | 0 <= c < |payers|
      ensures payers[c] < |w.threads| && payers[c] != i && forall d :: c < d < |payers| ==> payers[d] != payers[c]
    {
      assert SwapOk(w, charges[c], threshold);
    }
    hide Inv;
    assert forall c :: 0 <= c < |charges| ==> Payer(w, i, c) == payers[c];
    DistinctIndices(payers, |w.threads|, i);
  }

  lemma StepKeepsCalls(w: World, i: nat, threshold: nat, timeout: nat, clock: nat)
    requires i < |w.threads| && !w.threads[i].pc.Done?
    ensures
      var w' := Step(w, i, threshold, timeout, clock);
      && |w'.threads| == |w.threads|
      && (forall j :: 0 <= j < |w.threads| ==> w'.threads[j].call == w.threads[j].call)
      && (forall j :: 0 <= j < |w.threads| && j != i ==> w'.threads[j] == w.threads[j])
  {
  }

  lemma {:induction false} RunKeepsCalls(w: World, run: seq<Choice>, threshold: nat, timeout: nat)
    requires Legal(w, run, threshold, timeout)
    ensures |Run(w, run, threshold, timeout).threads| == |w.threads|
    ensures forall i :: 0 <= i < |w.threads| ==> Run(w, run, threshold, timeout).threads[i].call == w.threads[i].call
    decreases |run|
  {
    hide Step;
    if run != [] {
      StepKeepsCalls(w, run[0].thread, threshold, timeout, run[0].clock);
      RunKeepsCalls(Step(w, run[0].thread, threshold, timeout, run[0].clock), run[1..], threshold, timeout);
    }
  }

  /** The steps that a call still has to take, were it alone, plus the retries it may be forced into. */
  function Weight(w: World, t: Thread): nat {
    var k := |w.threads|;
    match t.pc
    case Done(_) => 0
    case Gauge => 1
    case Count(_) => 2
    case CloseCas(current) => k + 3 + if current == w.state then 0 else 1
    case OpenCas(current) => k + 3 + if current == w.state then 0 else 1
    case ProbeCas => k + 4
    case ProbeStamp(_) => k + 5
    case ProbeClock => k + 6
    case ProbeLoad => k + 7
    case SuccessLoad => k + 5
    case SuccessReset => k + 6
    case FailureLoad => k + 5
    case FailureStamp(_, _) => k + 6
    case FailureClock(_) => k + 7
    case FailureAdd => k + 8
  }

  function Weights(w: World): seq<nat> {
    seq(|w.threads|, i requires 0 <= i < |w.threads| => Weight(w, w.threads[i]))
  }

  function Measure(w: World): nat {
    Sum(Weights(w))
  }

  lemma SwapWeight(w: World, i: nat, threshold: nat, timeout: nat, clock: nat)
    requires i < |w.threads| && SwapExpects(w.threads[i].pc).Some?
    ensures
      var w' := Step(w, i, threshold, timeout, clock);
      && |w'.threads| == |w.threads|
      && Weight(w', w'.threads[i]) < Weight(w, w.threads[i])
      && (w'.state != w.state ==> Weight(w', w'.threads[i]) + |w.threads| <= Weight(w, w.threads[i]))
  {
  }

  lemma PlainWeight(w: World, i: nat, threshold: nat, timeout: nat, clock: nat)
    requires i < |w.threads| && SwapExpects(w.threads[i].pc).None? && !w.threads[i].pc.Done?
    ensures
      var w' := Step(w, i, threshold, timeout, clock);
      && |w'.threads| == |w.threads| && w'.state == w.state
      && Weight(w', w'.threads[i]) < Weight(w, w.threads[i])
  {
    hide Breaker.SaturatingSub;
  }

  lemma OwnWeight(w: World, i: nat, threshold: nat, timeout: nat, clock: nat)
    requires i < |w.threads| && !w.threads[i].pc.Done?
    ensures
      var w' := Step(w, i, threshold, timeout, clock);
      && |w'.threads| == |w.threads|
      && Weight(w', w'.threads[i]) < Weight(w, w.threads[i])
      && (w'.state != w.state ==> Weight(w', w'.threads[i]) + |w.threads| <= Weight(w, w.threads[i]))
  {
    hide Weight, Step;
    if SwapExpects(w.threads[i].pc).Some? { SwapWeight(w, i, threshold, timeout, clock); }
    else { PlainWeight(w, i, threshold, timeout, clock); }
  }

  /** Every atomic step of any call lowers the measure, a lost compare-and-swap included. */
  lemma StepDecreases(w: World, i: nat, threshold: nat, timeout: nat, clock: nat)
    requires i < |w.threads| && !w.threads[i].pc.Done?
    ensures Measure(Step(w, i, threshold, timeout, clock)) < Measure(w)
  {
    var w' := Step(w, i, threshold, timeout, clock);
    var slack := if w'.state == w.state then 0 else 1;
    OwnWeight(w, i, threshold, timeout, clock);
    StepKeepsCalls(w, i, threshold, timeout, clock);
    hide Step;
    forall j | 0 <= j < |w.threads| && j != i
      ensures Weights(w')[j] <= Weights(w)[j] + slack
    {
      assert w'.threads[j] == w.threads[j];
    }
    hide Weight;
    SumExcept(Weights(w), Weights(w'), i, slack);
  }

  lemma MeasureBound(w: World)
    ensures Measure(w) <= |w.threads| * (|w.threads| + 8)
  {
    var k := |w.threads|;
    var zeros := seq(k, i requires 0 <= i < k => 0);
    forall j | 0 <= j < k
      ensures Weights(w)[j] <= zeros[j] + (k + 8)
    {
      assert Weight(w, w.threads[j]) <= k + 8;
    }
    SumAll(zeros, Weights(w), k + 8);
    SumZeros(zeros);
  }

  /** Any schedule of k calls has at most k * (k + 8) atomic steps; when none can move, every call has returned. */
  lemma {:induction false} AllCallsReturn(w: World, run: seq<Choice>, threshold: nat, timeout: nat)
    requires Legal(w, run, threshold, timeout)
    ensures |run| + Measure(Run(w, run, threshold, timeout)) <= Measure(w) <= |w.threads| * (|w.threads| + 8)
    decreases |run|
  {
    MeasureBound(w);
    hide Measure;
    if run != [] {
      StepDecreases(w, run[0].thread, threshold, timeout, run[0].clock);
      var w' := Step(w, run[0].thread, threshold, timeout, run[0].clock);
      AllCallsReturn(w', run[1..], threshold, timeout);
    }
  }

  lemma {:induction false} SumZeros(zeros: seq<nat>)
    requires forall i :: 0 <= i < |zeros| ==> zeros[i] == 0
    ensures Sum(zeros) == 0
  {
    if zeros != [] { SumZeros(zeros[..|zeros| - 1]); }
  }

  // ----- transition flow -----

  /** Calls that made a transition along `e` and have not counted it yet. */
  function Pending(threads: seq<Thread>, e: Edge): nat {
    if threads == [] then 0
    else Pending(threads[..|threads| - 1], e) + if threads[|threads| - 1].pc == Count(e) then 1 else 0
  }

  function Taken(swaps: seq<Swap>, e: Edge): nat {
    if swaps == [] then 0 else Taken(swaps[..|swaps| - 1], e) + if swaps[|swaps| - 1].edge == e then 1 else 0
  }

  lemma {:induction false} PendingUpdate(threads: seq<Thread>, i: nat, t: Thread, e: Edge)
    requires i < |threads|
    ensures Pending(threads[i := t], e) + (if threads[i].pc == Count(e) then 1 else 0) ==
            Pending(threads, e) + if t.pc == Count(e) then 1 else 0
  {
    var n := |threads| - 1;
    if i < n {
      assert threads[i := t][..n] == threads[..n][i := t];
      PendingUpdate(threads[..n], i, t, e);
    } else {
      assert threads[i := t][..n] == threads[..n];
    }
  }

  /** Every transition is either counted or about to be, under the label of the states it really joined. */
  ghost predicate Accounted(w: World) {
    forall e :: w.counters[e] + Pending(w.threads, e) == Taken(w.swaps, e)
  }

  lemma StepAccount(w: World, i: nat, threshold: nat, timeout: nat, clock: nat, e: Edge)
    requires i < |w.threads| && !w.threads[i].pc.Done?
    ensures
      var w' := Step(w, i, threshold, timeout, clock);
      && |w'.threads| == |w.threads| && w'.threads == w.threads[i := w'.threads[i]]
      && (w'.swaps == w.swaps || (|w'.swaps| == |w.swaps| + 1 && w'.swaps[..|w.swaps|] == w.swaps))
      && w'.counters[e] + Unit(w'.threads[i].pc == Count(e)) ==
         w.counters[e] + Unit(w.threads[i].pc == Count(e))
         + Unit(w'.swaps != w.swaps && w'.swaps[|w'.swaps| - 1].edge == e)
  {
  }

  lemma StepKeepsAccounts(w: World, i: nat, threshold: nat, timeout: nat, clock: nat)
    requires i < |w.threads| && !w.threads[i].pc.Done? && Accounted(w)
    ensures Accounted(Step(w, i, threshold, timeout, clock))
  {
    var w' := Step(w, i, threshold, timeout, clock);
    forall e
      ensures w'.counters[e] + Pending(w'.threads, e) == Taken(w'.swaps, e)
    {
      StepAccount(w, i, threshold, timeout, clock, e);
      hide Step;
      PendingUpdate(w.threads, i, w'.threads[i], e);
      assert w.counters[e] + Pending(w.threads, e) == Taken(w.swaps, e);
    }
  }

  lemma {:induction false} RunKeepsAccounts(w: World, run: seq<Choice>, threshold: nat, timeout: nat)
    requires Legal(w, run, threshold, timeout) && Accounted(w)
    ensures Accounted(Run(w, run, threshold, timeout))
    decreases |run|
  {
    if run != [] {
      StepKeepsAccounts(w, run[0].thread, threshold, timeout, run[0].clock);
      RunKeepsAccounts(Step(w, run[0].thread, threshold, timeout, run[0].clock), run[1..], threshold, timeout);
    }
  }

  /** Counted plus pending transitions into `s`, and out of it. */
  function Into(w: World, s: State): nat {
    w.counters[Edge(Breaker.Closed, s)] + w.counters[Edge(Breaker.Open, s)] + w.counters[Edge(Breaker.HalfOpen, s)]
    + Pending(w.threads, Edge(Breaker.Closed, s)) + Pending(w.threads, Edge(Breaker.Open, s))
    + Pending(w.threads, Edge(Breaker.HalfOpen, s))
  }

  function OutOf(w: World, s: State): nat {
    w.counters[Edge(s, Breaker.Closed)] + w.counters[Edge(s, Breaker.Open)] + w.counters[Edge(s, Breaker.HalfOpen)]
    + Pending(w.threads, Edge(s, Breaker.Closed)) + Pending(w.threads, Edge(s, Breaker.Open))
    + Pending(w.threads, Edge(s, Breaker.HalfOpen))
  }

  function TakenInto(swaps: seq<Swap>, s: State): nat {
    Taken(swaps, Edge(Breaker.Closed, s)) + Taken(swaps, Edge(Breaker.Open, s))
    + Taken(swaps, Edge(Breaker.HalfOpen, s))
  }

  function TakenOutOf(swaps: seq<Swap>, s: State): nat {
    Taken(swaps, Edge(s, Breaker.Closed)) + Taken(swaps, Edge(s, Breaker.Open))
    + Taken(swaps, Edge(s, Breaker.HalfOpen))
  }

  lemma {:induction false} PathFlow(swaps: seq<Swap>, s: State)
    requires forall n :: 0 <= n < |swaps| ==> swaps[n].edge.from == StateAfter(swaps, n)
    ensures TakenInto(swaps, s) - TakenOutOf(swaps, s) ==
            Unit(StateAfter(swaps, |swaps|) == s) - Unit(s == Breaker.Closed)
  {
    if swaps != [] {
      var n := |swaps| - 1;
      forall m | 0 <= m <= n
        ensures StateAfter(swaps[..n], m) == StateAfter(swaps, m)
      {
      }
      PathFlow(swaps[..n], s);
      assert swaps[n].edge.from == StateAfter(swaps, n);
    }
  }

  /** The metrics balance in every reachable state: for each state, transitions in minus transitions out is
      one for the current state, minus one for CLOSED, where every path starts. */
  lemma TransitionsBalance(calls: seq<Call>, run: seq<Choice>, threshold: nat, timeout: nat, s: State)
    requires |calls| < Breaker.U32 && Legal(Init(calls), run, threshold, timeout)
    ensures
      var w := Run(Init(calls), run, threshold, timeout);
      Into(w, s) - OutOf(w, s) == Unit(w.state == s) - Unit(s == Breaker.Closed)
  {
    var w0 := Init(calls);
    InitOk(calls, threshold);
    RunKeepsInv(w0, run, threshold, timeout);
    assert Accounted(w0) by {
      forall e ensures Pending(w0.threads, e) == 0 { NonePending(w0.threads, e); }
    }
    RunKeepsAccounts(w0, run, threshold, timeout);
    var w := Run(w0, run, threshold, timeout);
    PathFlow(w.swaps, s);
    assert forall from: State ::
        w.counters[Edge(from, s)] + Pending(w.threads, Edge(from, s)) == Taken(w.swaps, Edge(from, s));
    assert forall to: State :: w.counters[Edge(s, to)] + Pending(w.threads, Edge(s, to)) == Taken(w.swaps, Edge(s, to));
  }

  lemma {:induction false} NonePending(threads: seq<Thread>, e: Edge)
    requires forall i :: 0 <= i < |threads| ==> !threads[i].pc.Count?
    ensures Pending(threads, e) == 0
  {
    if threads != [] { NonePending(threads[..|threads| - 1], e); }
  }

  // ----- what opens, closes and half-opens -----

  /** What a transition owes to the call that made it. */
  ghost predicate Earned(w: World, calls: seq<Call>, n: nat, threshold: nat)
    requires n < |w.swaps| && |w.threads| == |calls|
  {
    var s := w.swaps[n];
    && s.thread < |calls|
    && s.edge.from == StateAfter(w.swaps, n)
    && (s.edge.to == Breaker.Open ==> calls[s.thread] == RecordFailure && Justified(w, s.thread, threshold))
    && (s.edge.to == Breaker.HalfOpen ==> calls[s.thread] == IsAvailable && s.edge.from == Breaker.Open)
    && (s.edge.to == Breaker.Closed ==> calls[s.thread] == RecordSuccess)
  }

  /** In every reachable state: a transition into OPEN was made by a failure call whose increment was at
      least the threshold-th since the latest reset; HALF_OPEN is entered from OPEN by a probe only;
      CLOSED is re-entered by a success only; and while the state is OPEN the stamp was written by a failure. */
  lemma TransitionsAreJustified(calls: seq<Call>, run: seq<Choice>, threshold: nat, timeout: nat)
    requires |calls| < Breaker.U32 && Legal(Init(calls), run, threshold, timeout)
    ensures
      var w := Run(Init(calls), run, threshold, timeout);
      && |w.threads| == |calls|
      && (forall n :: 0 <= n < |w.swaps| ==> Earned(w, calls, n, threshold))
      && (w.state == Breaker.Open ==>
            && w.stamps != [] && w.stamp == w.stamps[|w.stamps| - 1].now
            && w.stamps[|w.stamps| - 1].thread < |calls| && calls[w.stamps[|w.stamps| - 1].thread] == RecordFailure)
  {
    InitOk(calls, threshold);
    RunKeepsInv(Init(calls), run, threshold, timeout);
    RunKeepsCalls(Init(calls), run, threshold, timeout);
    var w := Run(Init(calls), run, threshold, timeout);
    hide Increments, Run, ThreadOk, OpOk, Legal;
    forall n | 0 <= n < |w.swaps|
      ensures Earned(w, calls, n, threshold)
    {
      assert SwapOk(w, n, threshold);
    }
    if w.state == Breaker.Open {
      assert SwapOk(w, |w.swaps| - 1, threshold);
    }
  }

  // ----- what interleaving breaks -----

  /** Some schedule with threshold 1 leads from one world to the other. */
  ghost predicate Leads(w: World, w': World) {
    exists run: seq<Choice> :: Legal(w, run, 1, 0) && Run(w, run, 1, 0) == w'
  }

  lemma StepLeads(w: World, i: nat)
    requires i < |w.threads| && !w.threads[i].pc.Done?
    ensures Leads(w, Step(w, i, 1, 0, 0))
  {
    var run := [Choice(i, 0)];
    assert run[1..] == [];
    assert Legal(w, run, 1, 0) && Run(w, run, 1, 0) == Step(w, i, 1, 0, 0);
  }

  lemma {:induction false} Concat(w: World, a: seq<Choice>, b: seq<Choice>)
    requires Legal(w, a, 1, 0) && Legal(Run(w, a, 1, 0), b, 1, 0)
    ensures Legal(w, a + b, 1, 0) && Run(w, a + b, 1, 0) == Run(Run(w, a, 1, 0), b, 1, 0)
    decreases |a|
  {
    hide Step;
    if a == [] {
      assert a + b == b;
    } else {
      Concat(Step(w, a[0].thread, 1, 0, a[0].clock), a[1..], b);
      assert (a + b)[1..] == a[1..] + b;
    }
  }

  lemma LeadsOn(w: World, w': World, w'': World)
    requires Leads(w, w') && Leads(w', w'')
    ensures Leads(w, w'')
  {
    var a :| Legal(w, a, 1, 0) && Run(w, a, 1, 0) == w';
    var b :| Legal(w', b, 1, 0) && Run(w', b, 1, 0) == w'';
    Concat(w, a, b);
  }

  lemma Then(w0: World, w: World, i: nat) returns (w': World)
    requires Leads(w0, w) && i < |w.threads| && !w.threads[i].pc.Done?
    ensures Leads(w0, w') && w' == Step(w, i, 1, 0, 0)
  {
    w' := Step(w, i, 1, 0, 0);
    hide Step;
    StepLeads(w, i);
    LeadsOn(w0, w, w');
  }

  /** A failure call up to the point where it reads the state. */
  lemma FailureHead(w0: World, w: World, i: nat) returns (w': World)
    requires Leads(w0, w) && i < |w.threads| && w.threads[i].pc == FailureAdd && w.failures == 0
    ensures Leads(w0, w') && |w'.threads| == |w.threads| && w'.threads == w.threads[i := w'.threads[i]]
        && w'.threads[i].pc == FailureLoad
    ensures w'.state == w.state && w'.failures == 1 && w'.threads[i].call == w.threads[i].call
  {
    hide Leads;
    w' := Then(w0, w, i);
    assert w'.threads[i].pc == FailureClock(1) && w'.failures == 1;
    w' := Then(w0, w', i);
    assert w'.threads[i].pc == FailureStamp(1, 0) && w'.failures == 1;
    w' := Then(w0, w', i);
    assert w'.threads == w.threads[i := w'.threads[i]];
  }

  /** Under interleaving a quiet breaker can be CLOSED with its counter at the threshold: a success that has
      reset the counter closes the breaker only after a later failure has counted and seen it open. */
  lemma ClosedAtThreshold() returns (w: World)
    ensures Leads(Init([RecordFailure, RecordSuccess, RecordFailure]), w)
    ensures w.state == Breaker.Closed && w.failures == 1
    ensures forall i :: 0 <= i < |w.threads| ==> w.threads[i].pc.Done?
  {
    var w0 := Init([RecordFailure, RecordSuccess, RecordFailure]);
    assert Leads(w0, w0) by {
      assert Legal(w0, [], 1, 0) && Run(w0, [], 1, 0) == w0;
    }
    hide Leads, Step;
    w := EarlyFailure(w0, w0);
    w := LateFailure(w0, w);
    w := LateSuccess(w0, w);
  }

  lemma EarlyFailure(w0: World, w: World) returns (w': World)
    requires Leads(w0, w) && |w.threads| == 3 && w.state == Breaker.Closed && w.failures == 0
    requires w.threads[0].pc == FailureAdd && w.threads[1].pc == SuccessReset && w.threads[2].pc == FailureAdd
    requires w.threads[0].call == RecordFailure && w.threads[1].call == RecordSuccess
    ensures Leads(w0, w') && |w'.threads| == 3 && w'.state == Breaker.Open
    ensures w'.threads[0].pc.Done? && w'.threads[1].pc == SuccessReset && w'.threads[2].pc == FailureAdd
    ensures w'.threads[1].call == RecordSuccess
  {
    hide Leads;
    w' := FailureHead(w0, w, 0);
    w' := Then(w0, w', 0);
    assert w'.threads[0].pc == OpenCas(Breaker.Closed) && w'.state == Breaker.Closed;
    w' := Then(w0, w', 0);
    assert w'.threads[0].pc == Count(Edge(Breaker.Closed, Breaker.Open)) && w'.state == Breaker.Open;
    w' := Then(w0, w', 0);
    assert w'.threads[0].pc == Gauge && w'.state == Breaker.Open;
    w' := Then(w0, w', 0);
  }

  lemma LateFailure(w0: World, w: World) returns (w': World)
    requires Leads(w0, w) && |w.threads| == 3 && w.state == Breaker.Open
    requires w.threads[0].pc.Done? && w.threads[1].pc == SuccessReset && w.threads[2].pc == FailureAdd
    requires w.threads[1].call == RecordSuccess
    ensures Leads(w0, w') && |w'.threads| == 3 && w'.state == Breaker.Open && w'.failures == 1
    ensures w'.threads[0].pc.Done? && w'.threads[1].pc == SuccessLoad && w'.threads[2].pc.Done?
    ensures w'.threads[1].call == RecordSuccess
  {
    hide Leads;
    w' := Then(w0, w, 1);
    assert w'.failures == 0 && w'.threads[1].pc == SuccessLoad && w'.threads[2].pc == FailureAdd;
    w' := FailureHead(w0, w', 2);
    w' := Then(w0, w', 2);
    assert w'.threads[2].pc == Gauge && w'.threads[1].pc == SuccessLoad && w'.failures == 1;
    w' := Then(w0, w', 2);
  }

  lemma LateSuccess(w0: World, w: World) returns (w': World)
    requires Leads(w0, w) && |w.threads| == 3 && w.state == Breaker.Open && w.failures == 1
    requires w.threads[0].pc.Done? && w.threads[1].pc == SuccessLoad && w.threads[2].pc.Done?
    requires w.threads[1].call == RecordSuccess
    ensures Leads(w0, w') && w'.state == Breaker.Closed && w'.failures == 1
    ensures forall i :: 0 <= i < |w'.threads| ==> w'.threads[i].pc.Done?
  {
    hide Leads;
    w' := Then(w0, w, 1);
    assert w'.threads[1].pc == CloseCas(Breaker.Open) && w'.threads[2].pc.Done? && w'.threads[0].pc.Done?;
    w' := Then(w0, w', 1);
    assert w'.threads[1].pc == Count(Edge(Breaker.Open, Breaker.Closed)) && w'.state == Breaker.Closed
        && w'.failures == 1;
    w' := Then(w0, w', 1);
    assert |w'.threads| == 3;
  }
}
