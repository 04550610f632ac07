/** The per-project circuit breaker, one call at a time: the class over its three counters per project,
    and the history it is a function of. */
module Breaker {
  import opened Text

  const U32: nat := 0x1_0000_0000

  datatype State = Closed | Open | HalfOpen

  datatype Event =
    | Probe(project: string, now: nat)
    | Success(project: string)
    | Failure(project: string, now: nat)

  type History = seq<Event>

  /** The three atomics of a project; the failure counter wraps at 32 bits. */
  datatype Health = Health(failures: nat, lastFailure: nat, state: State)

  const FRESH := Health(0, 0, Closed)

  function SaturatingSub(a: nat, b: nat): nat {
    if a >= b then a - b else 0
  }

  // ----- the history -----

  /** Failures of `p` since its latest success. */
  function Trailing(h: History, p: string): nat {
    if h == [] then 0 else
      var front := h[..|h| - 1];
      match h[|h| - 1]
      case Failure(q, _) => Trailing(front, p) + if q == p then 1 else 0
      case Success(q) => if q == p then 0 else Trailing(front, p)
      case Probe(_, _) => Trailing(front, p)
  }

  /** The instant of the latest failure of `p`, 0 before any. */
  function LastFailure(h: History, p: string): nat {
    if h == [] then 0 else
      match h[|h| - 1]
      case Failure(q, now) => if q == p then now else LastFailure(h[..|h| - 1], p)
      case _ => LastFailure(h[..|h| - 1], p)
  }

  /** The latest clock reading. */
  function Clock(h: History): nat {
    if h == [] then 0 else
      match h[|h| - 1]
      case Probe(_, now) => now
      case Failure(_, now) => now
      case Success(_) => Clock(h[..|h| - 1])
  }

  /** The clock never goes back, and no project fails 2^32 times in a row. */
  predicate Sane(h: History) {
    h == [] ||
    var front := h[..|h| - 1];
    && Sane(front)
    && match h[|h| - 1]
       case Probe(_, now) => Clock(front) <= now
       case Failure(p, now) => Clock(front) <= now && Trailing(h, p) < U32
       case Success(_) => true
  }

  // ----- what each call does to the atomics -----

  function AfterProbe(s: Health, timeout: nat, now: nat): Health {
    if s.state == Open && SaturatingSub(now, s.lastFailure) >= timeout then s.(state := HalfOpen) else s
  }

  function AfterFailure(s: Health, threshold: nat, now: nat): Health {
    var failures := (s.failures + 1) % U32;
    Health(failures, now, if failures >= threshold then Open else s.state)
  }

  function Replay(h: History, p: string, threshold: nat, timeout: nat): Health {
    if h == [] then FRESH else
      var s := Replay(h[..|h| - 1], p, threshold, timeout);
      match h[|h| - 1]
      case Probe(q, now) => if q == p then AfterProbe(s, timeout, now) else s
      case Success(q) => if q == p then Health(0, s.lastFailure, Closed) else s
      case Failure(q, now) => if q == p then AfterFailure(s, threshold, now) else s
  }

  /** What `is_available` answers: false only while open and inside the timeout. */
  predicate Admits(s: Health, timeout: nat, now: nat) {
    s.state != Open || SaturatingSub(now, s.lastFailure) >= timeout
  }

  lemma {:induction false} LastFailureBeforeClock(h: History, p: string)
    requires Sane(h)
    ensures LastFailure(h, p) <= Clock(h)
  {
    if h != [] { LastFailureBeforeClock(h[..|h| - 1], p); }
  }

  /** Wrap-around included: the counter is the trailing count modulo 2^32, the stamp is the latest failure,
      and the breaker is closed exactly while the trailing count is below the threshold. */
  lemma {:induction false} ReplayMeans(h: History, p: string, threshold: nat, timeout: nat)
    requires 1 <= threshold < U32
    ensures
      var s := Replay(h, p, threshold, timeout);
      && s.failures == Trailing(h, p) % U32
      && s.lastFailure == LastFailure(h, p)
      && (s.state == Closed <==> Trailing(h, p) < threshold)
  {
    if h != [] {
      ReplayMeans(h[..|h| - 1], p, threshold, timeout);
      var n := Trailing(h[..|h| - 1], p);
      assert (n % U32 + 1) % U32 == (n + 1) % U32;
    }
  }

  /** Event `j` settles the state of `p`: a success closes it, a failure counted at the threshold or above opens it. */
  predicate Settles(h: History, j: nat, p: string, threshold: nat)
    requires j < |h|
  {
    match h[j]
    case Success(q) => q == p
    case Failure(q, _) => q == p && Trailing(h[..j + 1], p) % U32 >= threshold
    case Probe(_, _) => false
  }

  /** Event `i` is a probe of `p` that read a clock at least the timeout past the latest failure, and nothing has
      settled the state since. */
  predicate LetThrough(h: History, i: nat, p: string, threshold: nat, timeout: nat)
    requires i < |h|
  {
    && h[i].Probe? && h[i].project == p
    && SaturatingSub(h[i].now, LastFailure(h[..i], p)) >= timeout
    && forall j :: i < j < |h| ==> !Settles(h, j, p, threshold)
  }

  predicate SomeLetThrough(h: History, p: string, threshold: nat, timeout: nat) {
    exists i :: 0 <= i < |h| && LetThrough(h, i, p, threshold, timeout)
  }

  lemma LetThroughSnoc(h: History, p: string, threshold: nat, timeout: nat)
    requires h != []
    ensures
      var front, n := h[..|h| - 1], |h| - 1;
      SomeLetThrough(h, p, threshold, timeout) <==>
      LetThrough(h, n, p, threshold, timeout)
      || (!Settles(h, n, p, threshold) && SomeLetThrough(front, p, threshold, timeout))
  {
    var front, n := h[..|h| - 1], |h| - 1;
    forall j | 0 <= j < n ensures Settles(h, j, p, threshold) <==> Settles(front, j, p, threshold) {
      assert front[..j + 1] == h[..j + 1];
    }
    hide Settles;
    forall i | 0 <= i < n
      ensures LetThrough(h, i, p, threshold, timeout) <==>
              LetThrough(front, i, p, threshold, timeout) && !Settles(h, n, p, threshold)
    {
      assert front[..i] == h[..i];
    }
  }

  /** The state is open exactly from the threshold on and until a probe is let through; no hypothesis on the clock
      and none on the number of failures. */
  lemma {:induction false} OpenIff(h: History, p: string, threshold: nat, timeout: nat)
    requires 1 <= threshold < U32
    ensures Replay(h, p, threshold, timeout).state == Open <==>
            Trailing(h, p) >= threshold && !SomeLetThrough(h, p, threshold, timeout)
  {
    if h != [] {
      var front, n := h[..|h| - 1], |h| - 1;
      OpenIff(front, p, threshold, timeout);
      ReplayMeans(front, p, threshold, timeout);
      ReplayMeans(h, p, threshold, timeout);
      LetThroughSnoc(h, p, threshold, timeout);
      assert h[..n + 1] == h;
      assert h[..n] == front;
      hide SomeLetThrough;
    }
  }

  /** Exactly when a call is refused, for every history: the trailing failures reach the threshold, the latest is
      younger than the timeout by this clock reading, and no earlier probe was let through since. */
  lemma RefusesExactly(h: History, p: string, threshold: nat, timeout: nat, now: nat)
    requires 1 <= threshold < U32
    ensures !Admits(Replay(h, p, threshold, timeout), timeout, now) <==>
            && Trailing(h, p) >= threshold
            && SaturatingSub(now, LastFailure(h, p)) < timeout
            && !SomeLetThrough(h, p, threshold, timeout)
  {
    OpenIff(h, p, threshold, timeout);
    ReplayMeans(h, p, threshold, timeout);
    hide Replay, SomeLetThrough;
  }

  /** With a clock that does not go back, a probe let through earlier leaves nothing to refuse now. */
  lemma {:induction false} LetThroughIsPastTimeout(h: History, p: string, threshold: nat, timeout: nat)
    requires 1 <= threshold < U32 && Sane(h) && Trailing(h, p) >= threshold
    requires SomeLetThrough(h, p, threshold, timeout)
    ensures Clock(h) - LastFailure(h, p) >= timeout
  {
    LastFailureBeforeClock(h, p);
    var front, n := h[..|h| - 1], |h| - 1;
    LetThroughSnoc(h, p, threshold, timeout);
    LastFailureBeforeClock(front, p);
    assert h[..n] == front && h[..n + 1] == h;
    hide SomeLetThrough;
    if !LetThrough(h, n, p, threshold, timeout) {
      SaneTrailing(h, p);
      LetThroughIsPastTimeout(front, p, threshold, timeout);
    }
  }

  lemma {:induction false} SaneTrailing(h: History, p: string)
    requires Sane(h)
    ensures Trailing(h, p) < U32
  {
    if h != [] { SaneTrailing(h[..|h| - 1], p); }
  }

  /** Hence, with such a clock, the breaker is a function of its trailing failures: a call is refused exactly when
      they reach the threshold and the latest one is younger than the timeout. HALF_OPEN leaves no trace. */
  lemma RefusesIff(h: History, p: string, threshold: nat, timeout: nat, now: nat)
    requires 1 <= threshold < U32 && Sane(h) && Clock(h) <= now
    ensures !Admits(Replay(h, p, threshold, timeout), timeout, now) <==>
            Trailing(h, p) >= threshold && now - LastFailure(h, p) < timeout
  {
    RefusesExactly(h, p, threshold, timeout, now);
    LastFailureBeforeClock(h, p);
    hide SomeLetThrough, Replay;
    if Trailing(h, p) >= threshold && SomeLetThrough(h, p, threshold, timeout) {
      LetThroughIsPastTimeout(h, p, threshold, timeout);
    }
  }

  /** A failure at or past the threshold always reopens, also when it answers a half-open probe. */
  lemma FailedProbeReopens(h: History, p: string, threshold: nat, timeout: nat, now: nat)
    requires 1 <= threshold <= Trailing(h, p) + 1 < U32
    ensures Replay(h + [Failure(p, now)], p, threshold, timeout).state == Open
  {
    var longer := h + [Failure(p, now)];
    assert longer[..|longer| - 1] == h;
    ReplayMeans(h, p, threshold, timeout);
  }

  /** No project is refused past the timeout, whatever happened before, clock jumps and wrap-around included. */
  lemma NeverRefusedPastTimeout(h: History, p: string, threshold: nat, timeout: nat, now: nat)
    requires 1 <= threshold < U32 && now >= LastFailure(h, p) + timeout
    ensures Admits(Replay(h, p, threshold, timeout), timeout, now)
  {
    ReplayMeans(h, p, threshold, timeout);
  }

  /** The clock hypothesis is needed: after a probe at a late instant, an earlier reading is still admitted. */
  lemma BackwardClockAdmits(p: string, timeout: nat)
    requires timeout > 0
    ensures
      var h := [Failure(p, 0), Probe(p, timeout)];
      Admits(Replay(h, p, 1, timeout), timeout, 0) && Trailing(h, p) >= 1 && 0 - LastFailure(h, p) < timeout
  {
    var h := [Failure(p, 0), Probe(p, timeout)];
    assert h[..1] == [Failure(p, 0)] && h[..1][..0] == [];
    assert Replay(h[..1], p, 1, timeout) == Health(1, 0, Open);
  }

  /** A project that never failed is always admitted. */
  lemma {:induction false} NoFailureNoRefusal(h: History, p: string, threshold: nat, timeout: nat, now: nat)
    requires 1 <= threshold < U32
    requires forall i :: 0 <= i < |h| ==> !h[i].Failure?
    ensures Admits(Replay(h, p, threshold, timeout), timeout, now)
  {
    NoTrailing(h, p);
    ReplayMeans(h, p, threshold, timeout);
  }

  lemma {:induction false} NoTrailing(h: History, p: string)
    requires forall i :: 0 <= i < |h| ==> !h[i].Failure?
    ensures Trailing(h, p) == 0
  {
    if h != [] { NoTrailing(h[..|h| - 1], p); }
  }

  lemma AnotherProject(h: History, e: Event, p: string, threshold: nat, timeout: nat)
    requires e.project != p
    ensures Replay(h + [e], p, threshold, timeout) == Replay(h, p, threshold, timeout)
    ensures Trailing(h + [e], p) == Trailing(h, p) && LastFailure(h + [e], p) == LastFailure(h, p)
  {
    assert (h + [e])[..|h|] == h;
  }

  lemma FailureCounts(h: History, p: string, now: nat)
    ensures Trailing(h + [Failure(p, now)], p) == Trailing(h, p) + 1
  {
    assert (h + [Failure(p, now)])[..|h|] == h;
  }

  lemma FailureReplays(h: History, p: string, threshold: nat, timeout: nat, now: nat)
    ensures Replay(h + [Failure(p, now)], p, threshold, timeout) ==
            AfterFailure(Replay(h, p, threshold, timeout), threshold, now)
  {
    assert (h + [Failure(p, now)])[..|h|] == h;
  }

  // ----- the class -----

  class ProjectHealth {
    var consecutiveFailures: nat
    var lastFailureEpoch: nat
    var state: State

    constructor ()
      ensures View() == FRESH
    {
      consecutiveFailures, lastFailureEpoch, state := 0, 0, Closed;
    }

    function View(): Health
      reads this
    {
      Health(consecutiveFailures, lastFailureEpoch, state)
    }
  }

  class CircuitBreaker {
    var projects: map<string, ProjectHealth>
    const threshold: nat
    const timeoutSecs: nat
    ghost var history: History

    /** Every project's atomics are the replay of the history; a project without an entry is fresh. */
    ghost predicate Valid()
      reads this, projects.Values
    {
      && 1 <= threshold < U32
      && (forall p, q :: p in projects && q in projects && p != q ==> projects[p] != projects[q])
      && (forall p :: p in projects ==> projects[p].View() == Replay(history, p, threshold, timeoutSecs))
      && (forall p: string :: p !in projects ==> Replay(history, p, threshold, timeoutSecs) == FRESH)
    }

    constructor (threshold: nat, timeoutSecs: nat)
      requires threshold < U32
      ensures Valid() && history == [] && projects == map[]
      ensures this.threshold == (if threshold == 0 then 1 else threshold) && this.timeoutSecs == timeoutSecs
    {
      this.threshold := if threshold == 0 then 1 else threshold;
      this.timeoutSecs := timeoutSecs;
      projects := map[];
      history := [];
    }

    method GetHealth(project: string) returns (health: ProjectHealth)
      requires Valid()
      modifies this`projects
      ensures Valid() && project in projects && health == projects[project]
      ensures fresh(projects.Values - old(projects.Values))
      ensures forall p :: p in old(projects) ==> p in projects && projects[p] == old(projects[p])
      ensures forall p :: p in projects && p !in old(projects) ==> p == project
    {
      if project !in projects {
        var created := new ProjectHealth();
        projects := projects[project := created];
      }
      health := projects[project];
    }

    /** Refuses exactly the projects whose trailing failures reach the threshold within the timeout. */
    method IsAvailable(project: string, now: nat) returns (available: bool)
      requires Valid()
      modifies this, projects.Values
      ensures Valid() && history == old(history) + [Probe(project, now)]
      ensures fresh(projects.Values - old(projects.Values))
      ensures Sane(history) ==>
        (!available <==> Trailing(history, project) >= threshold && now - LastFailure(history, project) < timeoutSecs)
      ensures !available <==>
        && Trailing(old(history), project) >= threshold
        && SaturatingSub(now, LastFailure(old(history), project)) < timeoutSecs
        && !SomeLetThrough(old(history), project, threshold, timeoutSecs)
    {
      var health := GetHealth(project);
      available := true;
      if health.state == Open {
        if SaturatingSub(now, health.lastFailureEpoch) >= timeoutSecs {
          health.state := HalfOpen;
        } else {
          available := false;
        }
      }
      RefusesExactly(history, project, threshold, timeoutSecs, now);
      Advance(Probe(project, now), health);
      if Sane(history) {
        RefusesIff(old(history), project, threshold, timeoutSecs, now);
      }
    }

    method RecordSuccess(project: string)
      requires Valid()
      modifies this, projects.Values
      ensures Valid() && history == old(history) + [Success(project)]
      ensures fresh(projects.Values - old(projects.Values))
      ensures Trailing(history, project) == 0
    {
      var health := GetHealth(project);
      health.consecutiveFailures := 0;
      if health.state != Closed {
        health.state := Closed;
      }
      Advance(Success(project), health);
    }

    method RecordFailure(project: string, now: nat)
      requires Valid()
      modifies this, projects.Values
      ensures Valid() && history == old(history) + [Failure(project, now)]
      ensures fresh(projects.Values - old(projects.Values))
      ensures Trailing(history, project) == Trailing(old(history), project) + 1
      ensures project in projects && projects[project].lastFailureEpoch == now
      ensures threshold <= Trailing(history, project) < U32 ==> projects[project].state == Open
    {
      hide Replay, Trailing, LastFailure;
      FailureCounts(history, project, now);
      var health := GetHealth(project);
      health.consecutiveFailures := (health.consecutiveFailures + 1) % U32;
      health.lastFailureEpoch := now;
      if health.consecutiveFailures >= threshold && health.state != Open {
        health.state := Open;
      }
      FailureReplays(history, project, threshold, timeoutSecs, now);
      Advance(Failure(project, now), health);
      if threshold <= Trailing(history, project) < U32 {
        FailedProbeReopens(old(history), project, threshold, timeoutSecs, now);
      }
    }

    /** Extends the history by the call just made. */
    ghost method Advance(e: Event, health: ProjectHealth)
      requires 1 <= threshold < U32
      requires forall p, q :: p in projects && q in projects && p != q ==> projects[p] != projects[q]
      requires e.project in projects && health == projects[e.project]
      requires forall p :: p in projects && p != e.project ==>
          projects[p].View() == Replay(history, p, threshold, timeoutSecs)
      requires forall p: string :: p !in projects ==> Replay(history, p, threshold, timeoutSecs) == FRESH
      requires health.View() == Replay(history + [e], e.project, threshold, timeoutSecs)
      modifies this`history
      ensures history == old(history) + [e] && Valid()
    {
      forall p: string | p != e.project
        ensures Replay(history + [e], p, threshold, timeoutSecs) == Replay(history, p, threshold, timeoutSecs)
      {
        AnotherProject(history, e, p, threshold, timeoutSecs);
      }
      history := history + [e];
    }
  }
}
