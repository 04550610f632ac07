/** Finite sums and the pigeonhole principle over sequences. */
module Counting {

  function Sum(s: seq<nat>): nat {
    if s == [] then 0 else Sum(s[..|s| - 1]) + s[|s| - 1]
  }

  /** Raising every other summand by at most one is paid for by lowering one summand by the length. */
  lemma {:induction false} SumExcept(a: seq<nat>, b: seq<nat>, i: nat, slack: nat)
    requires |a| == |b| && i < |a|
    requires forall j :: 0 <= j < |a| && j != i ==> b[j] <= a[j] + slack
    ensures Sum(b) + a[i] <= Sum(a) + b[i] + slack * (|a| - 1)
  {
    var n := |a| - 1;
    if i == n {
      SumAll(a[..n], b[..n], slack);
    } else {
      SumExcept(a[..n], b[..n], i, slack);
      assert slack * n == slack * (n - 1) + slack;
    }
  }

  lemma {:induction false} SumAll(a: seq<nat>, b: seq<nat>, slack: nat)
    requires |a| == |b|
    requires forall j :: 0 <= j < |a| ==> b[j] <= a[j] + slack
    ensures Sum(b) <= Sum(a) + slack * |a|
  {
    if a != [] {
      var n := |a| - 1;
      SumAll(a[..n], b[..n], slack);
      assert slack * |a| == slack * n + slack;
    }
  }

  predicate Distinct<T(==)>(s: seq<T>) {
    forall i, j :: 0 <= i < j < |s| ==> s[i] != s[j]
  }

  lemma {:induction false} DistinctFits<T>(s: seq<T>, room: set<T>)
    requires Distinct(s) && forall i :: 0 <= i < |s| ==> s[i] in room
    ensures |s| <= |room|
  {
    if s != [] {
      var n := |s| - 1;
      DistinctFits(s[..n], room - {s[n]});
    }
  }

  ghost function Below(k: nat): (s: set<nat>)
    ensures |s| == k
    ensures forall j: nat :: j in s <==> j < k
  {
    if k == 0 then {} else Below(k - 1) + {k - 1}
  }

  /** Distinct indices below `k`, all different from `i`, number at most `k - 1`. */
  lemma DistinctIndices(s: seq<nat>, k: nat, i: nat)
    requires i < k && Distinct(s) && forall j :: 0 <= j < |s| ==> s[j] < k && s[j] != i
    ensures |s| <= k - 1
  {
    DistinctFits(s, Below(k) - {i});
  }
}
