/** The retry loop around one upstream manifest request, with exponential backoff. */
module Retry {
  import opened Text

  const U32_RANGE: nat := 0x1_0000_0000

  /** The longest `std::time::Duration`, in nanoseconds. */
  const MAX_DURATION: nat := 18_446_744_073_709_551_615 * 1_000_000_000 + 999_999_999

  type U32 = n: nat | n < U32_RANGE

  /** What one `fetch_manifest` call came back with: a status, or the text of its error. */
  datatype Outcome = Response(status: nat) | Failure(message: string)

  /** Multiplying a duration panics when the product does not fit. */
  datatype Ending = Returned(outcome: Outcome) | Panicked

  predicate Retryable(o: Outcome) {
    match o
    case Response(status) => 502 <= status <= 504
    case Failure(m) =>
      Contains(m, "timeout") || Contains(m, "connection") || Contains(m, "reset")
      || Contains(m, "broken pipe") || Contains(m, "timed out")
  }

  function Pow2(n: nat): (p: nat)
    ensures p > 0
  {
    if n == 0 then 1 else 2 * Pow2(n - 1)
  }

  /** `2u32.pow(attempt)` in a build without overflow checks. */
  function BackoffFactor(attempt: nat): nat {
    Pow2(attempt) % U32_RANGE
  }

  /** The time slept by the first `r` retries. */
  function Slept(base: nat, r: nat): nat {
    if r == 0 then 0 else Slept(base, r - 1) + base * BackoffFactor(r - 1)
  }

  lemma {:induction false} Pow2Monotone(a: nat, b: nat)
    requires a <= b
    ensures Pow2(a) <= Pow2(b)
  {
    if a < b { Pow2Monotone(a, b - 1); }
  }

  lemma Pow2At32()
    ensures Pow2(32) == U32_RANGE
  {
    assert Pow2(8) == 256;
    assert Pow2(16) == 256 * Pow2(8) by { assert Pow2(12) == 16 * Pow2(8); }
    assert Pow2(24) == 256 * Pow2(16) by { assert Pow2(20) == 16 * Pow2(16); }
    assert Pow2(28) == 16 * Pow2(24);
  }

  lemma {:induction false} MultipleOfRange(attempt: nat)
    requires attempt >= 32
    ensures Pow2(attempt) % U32_RANGE == 0
  {
    if attempt == 32 { Pow2At32(); } else { MultipleOfRange(attempt - 1); }
  }

  /** The factor doubles up to 2^31 and is zero from attempt 32 on. */
  lemma FactorIs(attempt: nat)
    ensures BackoffFactor(attempt) == if attempt < 32 then Pow2(attempt) else 0
  {
    if attempt < 32 {
      Pow2Monotone(attempt, 31);
      Pow2At32();
    } else {
      MultipleOfRange(attempt);
    }
  }

  lemma SleptStep(base: nat, r: nat)
    ensures Slept(base, 0) == 0
    ensures Slept(base, r + 1) == Slept(base, r) + base * BackoffFactor(r)
  {
  }

  lemma Doubled(base: nat, p: nat, q: nat)
    requires q == 2 * p
    ensures base * (p - 1) + base * p == base * (q - 1)
  {
    assert base * (q - 1) == base * (p + (p - 1));
  }

  /** Closed form of the total delay: a geometric sum that stops growing after 32 retries. */
  lemma {:induction false} SleptClosedForm(base: nat, r: nat)
    ensures Slept(base, r) == base * (Pow2(if r <= 32 then r else 32) - 1)
  {
    if r == 0 {
      assert base * (Pow2(0) - 1) == 0;
    } else {
      SleptClosedForm(base, r - 1);
      FactorIs(r - 1);
      SleptStep(base, r - 1);
      if r <= 32 {
        assert Pow2(r) == 2 * Pow2(r - 1);
        hide Pow2, Slept, BackoffFactor;
        Doubled(base, Pow2(r - 1), Pow2(r));
      } else {
        assert base * BackoffFactor(r - 1) == 0;
      }
    }
  }

  function Attempts(maxAttempts: U32): (n: U32)
    ensures n >= 1 && n >= maxAttempts
    ensures maxAttempts >= 1 ==> n == maxAttempts
  {
    if maxAttempts == 0 then 1 else maxAttempts
  }

  /** `fetch_manifest_with_retry`. `fetch(k)` is the outcome of the k-th request; `fetches` counts the requests
      made and `slept` is the time spent sleeping, both observed by the caller's environment. */
  method FetchWithRetry(maxAttempts: U32, base: nat, fetch: nat -> Outcome)
    returns (ending: Ending, fetches: nat, slept: nat)
    requires base <= MAX_DURATION
    ensures 1 <= fetches <= Attempts(maxAttempts)
    ensures forall k :: 0 <= k < fetches - 1 ==> Retryable(fetch(k))
    ensures ending.Returned? ==> ending.outcome == fetch(fetches - 1)
    ensures ending.Returned? ==> fetches == Attempts(maxAttempts) || !Retryable(fetch(fetches - 1))
    ensures ending.Panicked? ==> fetches < Attempts(maxAttempts) && Retryable(fetch(fetches - 1))
    ensures ending.Panicked? ==> fetches <= 32 && base * Pow2(fetches - 1) > MAX_DURATION
    ensures forall k :: 0 <= k < fetches - 1 && k < 32 ==> base * Pow2(k) <= MAX_DURATION
    ensures slept == base * (Pow2(if fetches <= 33 then fetches - 1 else 32) - 1)
  {
    hide Retryable, Pow2, Slept, BackoffFactor, Attempts;
    var max := Attempts(maxAttempts);
    SleptStep(base, 0);
    fetches, slept := 0, 0;
    for attempt := 0 to max
      invariant fetches == attempt
      invariant slept == Slept(base, attempt)
      invariant forall k :: 0 <= k < attempt ==> Retryable(fetch(k))
      invariant forall k :: 0 <= k < attempt && k < 32 ==> base * Pow2(k) <= MAX_DURATION
      invariant attempt < max
    {
      var result := fetch(attempt);
      fetches := fetches + 1;
      SleptClosedForm(base, attempt);
      if Retryable(result) && attempt + 1 < max {
        FactorIs(attempt);
        SleptStep(base, attempt);
        var delay := base * BackoffFactor(attempt);
        if delay > MAX_DURATION { return Panicked, fetches, slept; }
        slept := slept + delay;
      } else {
        return Returned(result), fetches, slept;
      }
    }
    assert false;
  }

  /** The texts that make an error worth another attempt. */
  const TRANSIENT := ["timeout", "connection", "reset", "broken pipe", "timed out"]

  lemma ContainsIff(s: string, p: string)
    ensures Contains(s, p) <==> exists a, b :: s == a + p + b
  {
    if Contains(s, p) {
      var i: nat :| i <= |s| && OccursAt(s, p, i);
      assert s == s[..i] + p + s[i + |p|..] by { assert s == s[..i] + s[i..i + |p|] + s[i + |p|..]; }
    }
    if a, b :| s == a + p + b {
      assert s[|a|..|a| + |p|] == p;
      assert OccursAt(s, p, |a|);
    }
  }

  /** Exactly which outcomes are tried again: the statuses 502, 503 and 504, and errors with one of these texts in
      them. */
  lemma RetriedIff(o: Outcome)
    ensures Retryable(o) <==>
      match o
      case Response(status) => status == 502 || status == 503 || status == 504
      case Failure(message) => exists k, a, b :: 0 <= k < 5 && message == a + TRANSIENT[k] + b
  {
    if o.Failure? {
      var m := o.message;
      forall k | 0 <= k < 5 ensures Contains(m, TRANSIENT[k]) <==> exists a, b :: m == a + TRANSIENT[k] + b {
        ContainsIff(m, TRANSIENT[k]);
      }
      hide Contains;
      assert Retryable(o) <==> exists k :: 0 <= k < 5 && Contains(m, TRANSIENT[k]) by {
        assert TRANSIENT[0] == "timeout" && TRANSIENT[1] == "connection" && TRANSIENT[2] == "reset";
        assert TRANSIENT[3] == "broken pipe" && TRANSIENT[4] == "timed out";
      }
    }
  }
}
