/** Cache values: `project|timestamp`, a bare project, or the negative sentinel. */
module CacheCodec {
  import opened Text

  const NEGATIVE_SENTINEL := "__NEGATIVE__"
  const U64_MAX: nat := 0xFFFF_FFFF_FFFF_FFFF

  predicate IsDigit(c: char) { '0' <= c <= '9' }

  function DigitChar(d: nat): (c: char)
    requires d < 10
    ensures IsDigit(c)
  {
    '0' + d as char
  }

  function DigitValue(c: char): (d: nat)
    requires IsDigit(c)
    ensures d < 10
  {
    (c - '0') as nat
  }

  predicate AllDigits(s: string) {
    forall i :: 0 <= i < |s| ==> IsDigit(s[i])
  }

  /** The decimal digits of `n`, as `format!("{}", n)` prints them. */
  function PrintU64(n: nat): (s: string)
    ensures s != "" && AllDigits(s)
    decreases n
  {
    if n < 10 then [DigitChar(n)] else PrintU64(n / 10) + [DigitChar(n % 10)]
  }

  /** The number that a digit string denotes, with no bound on its size. */
  function Value(s: string): nat
    requires AllDigits(s)
  {
    if s == "" then 0 else 10 * Value(s[..|s| - 1]) + DigitValue(s[|s| - 1])
  }

  /** The accumulation of `str::parse::<u64>` over the digits, left to right, with its two overflow checks. */
  function Accumulate(s: string): Option<nat> {
    if s == "" then Some(0) else
      var c := s[|s| - 1];
      match Accumulate(s[..|s| - 1])
      case None => None
      case Some(acc) =>
        if !IsDigit(c) || 10 * acc > U64_MAX || 10 * acc + DigitValue(c) > U64_MAX then None
        else Some(10 * acc + DigitValue(c))
  }

  /** `s.parse::<u64>().ok()`: one leading `+` is accepted, an empty number is not. */
  function ParseU64(s: string): Option<nat> {
    var digits := if s != "" && s[0] == '+' then s[1..] else s;
    if digits == "" then None else Accumulate(digits)
  }

  /** The checked accumulation accepts exactly the digit strings whose value fits, and computes that value. */
  lemma {:induction false} AccumulateIsValue(s: string)
    ensures Accumulate(s).Some? <==> AllDigits(s) && Value(s) <= U64_MAX
    ensures Accumulate(s).Some? ==> Accumulate(s).value == Value(s)
  {
    if s != "" {
      var hi := s[..|s| - 1];
      AccumulateIsValue(hi);
      assert AllDigits(s) <==> AllDigits(hi) && IsDigit(s[|s| - 1]) by {
        assert s == hi + [s[|s| - 1]];
      }
    }
  }

  lemma {:induction false} PrintedValue(n: nat)
    ensures Value(PrintU64(n)) == n
  {
    if n < 10 {
      assert PrintU64(n)[..0] == "";
    } else {
      PrintedValue(n / 10);
      assert PrintU64(n)[..|PrintU64(n)| - 1] == PrintU64(n / 10);
    }
  }

  /** Printing and parsing a `u64` are inverse, and the overflow check rejects exactly the larger numbers. */
  lemma ParsePrinted(n: nat)
    ensures ParseU64(PrintU64(n)) == if n <= U64_MAX then Some(n) else None
  {
    AccumulateIsValue(PrintU64(n));
    PrintedValue(n);
    assert IsDigit(PrintU64(n)[0]);
  }

  function Encode(project: string, timestamp: nat): string {
    project + "|" + PrintU64(timestamp)
  }

  /** `decode_cache_value`: the project and, when the value carries one, its timestamp. */
  function Decode(value: string): (string, Option<nat>) {
    if value == NEGATIVE_SENTINEL then (NEGATIVE_SENTINEL, None) else
      var i := FirstIndex(value, '|');
      if i < |value| && ParseU64(value[i + 1..]).Some?
      then (value[..i], ParseU64(value[i + 1..]))
      else (value, None)
  }

  lemma EncodedIsNotSentinel(project: string, timestamp: nat)
    ensures Encode(project, timestamp) != NEGATIVE_SENTINEL
  {
    assert Encode(project, timestamp)[|project|] == '|';
    assert '|' !in NEGATIVE_SENTINEL;
  }

  /** Decoding gives back what was encoded exactly when the project holds no separator. */
  lemma DecodeEncoded(project: string, timestamp: nat)
    requires timestamp <= U64_MAX
    ensures Decode(Encode(project, timestamp)) == (project, Some(timestamp)) <==> '|' !in project
  {
    var value := Encode(project, timestamp);
    EncodedIsNotSentinel(project, timestamp);
    if '|' !in project {
      FirstIndexAt(project, '|', PrintU64(timestamp));
      assert value == project + ['|'] + PrintU64(timestamp);
      assert value[|project| + 1..] == PrintU64(timestamp);
      ParsePrinted(timestamp);
    } else {
      var k :| 0 <= k < |project| && project[k] == '|';
      assert value[k] == '|';
      assert FirstIndex(value, '|') <= k;
    }
  }

  /** So does the project alone: no separator, no loss. */
  lemma EncodedYieldsIff(project: string, now: nat)
    requires now <= U64_MAX
    ensures Decode(Encode(project, now)).0 == project <==> '|' !in project
  {
    DecodeEncoded(project, now);
    EncodedIsNotSentinel(project, now);
    var value := Encode(project, now);
    if '|' in project {
      var i := FirstIndex(value, '|');
      var k :| 0 <= k < |project| && project[k] == '|';
      assert value[k] == '|' && value[k] in value[..k + 1];
      assert i <= k;
      assert |value| > |project|;
    }
  }

  /** A value without separator decodes to itself. */
  lemma DecodePlain(value: string)
    requires '|' !in value
    ensures Decode(value) == (value, None)
  {
  }

  /** A value that carries a timestamp. */
  predicate Stamped(value: string) {
    Decode(value).1.Some?
  }

  /** The values that decode to the sentinel: it alone, and it with a timestamp. */
  predicate IsNegative(value: string) {
    value == NEGATIVE_SENTINEL
    || (NEGATIVE_SENTINEL + "|" <= value && ParseU64(value[|NEGATIVE_SENTINEL| + 1..]).Some?)
  }

  lemma DecodesToSentinelIff(value: string)
    ensures Decode(value).0 == NEGATIVE_SENTINEL <==> IsNegative(value)
  {
    var i := FirstIndex(value, '|');
    hide ParseU64;
    assert '|' !in NEGATIVE_SENTINEL;
    if NEGATIVE_SENTINEL + "|" <= value {
      FirstIndexAt(NEGATIVE_SENTINEL, '|', value[|NEGATIVE_SENTINEL| + 1..]);
      assert value == NEGATIVE_SENTINEL + ['|'] + value[|NEGATIVE_SENTINEL| + 1..];
    } else if i < |value| {
      assert value[..i] + "|" == value[..i + 1];
    }
  }

  /** Only a value with a timestamp decodes to something else than itself. */
  lemma BareDecodesToItself(value: string)
    ensures Decode(value).0 == value <==> !Stamped(value)
  {
  }

  /** A stamped project is read as the sentinel only if it is the sentinel. */
  lemma EncodedSentinelIff(project: string, now: nat)
    requires now <= U64_MAX
    ensures Decode(Encode(project, now)).0 == NEGATIVE_SENTINEL <==> project == NEGATIVE_SENTINEL
  {
    var value := Encode(project, now);
    if '|' !in project {
      EncodedYieldsIff(project, now);
    } else {
      EncodedIsNotSentinel(project, now);
      SecondSeparatorIsNoNumber(project, now);
    }
  }

  /** With a separator in the project, the first one is not followed by a number. */
  lemma SecondSeparatorIsNoNumber(project: string, now: nat)
    requires '|' in project
    ensures Decode(Encode(project, now)) == (Encode(project, now), None)
  {
    var value := Encode(project, now);
    EncodedIsNotSentinel(project, now);
    var i, k := FirstIndex(value, '|'), |project|;
    var j :| 0 <= j < k && project[j] == '|';
    assert value[j] == '|' && value[j] in value[..j + 1] && value[k] == '|';
    assert i <= j < k;
    var rest := value[i + 1..];
    assert rest[k - i - 1] == '|';
    var digits := if rest != "" && rest[0] == '+' then rest[1..] else rest;
    assert '|' in digits by { assert digits[if digits == rest then k - i - 1 else k - i - 2] == '|'; }
    AccumulateIsValue(digits);
  }

  /** How a project is written to the cache: stamped when entries may be served stale, bare otherwise. */
  function StoredValue(staleWindow: bool, project: string, now: nat): string {
    if staleWindow then Encode(project, now) else project
  }

  /** The project that a cached value is persisted with, unless it is negative or unsafe. */
  function HotProject(value: string): Option<string> {
    var project := Decode(value).0;
    if project != NEGATIVE_SENTINEL && IsSafeProjectName(project) then Some(project) else None
  }

  /** Which strings parse: digits, after one optional `+`, whose value fits. */
  lemma ParsesIff(s: string)
    ensures
      var digits := if s != "" && s[0] == '+' then s[1..] else s;
      && (ParseU64(s).Some? <==>
            digits != "" && (forall c <- digits :: '0' <= c <= '9') && AllDigits(digits)
            && Value(digits) <= 18_446_744_073_709_551_615)
      && (ParseU64(s).Some? ==> ParseU64(s).value == Value(digits))
  {
    var digits := if s != "" && s[0] == '+' then s[1..] else s;
    AccumulateIsValue(digits);
    assert AllDigits(digits) ==> forall c <- digits :: '0' <= c <= '9';
  }

  /** Which entries are hot: those of a safe project, bare or with a timestamp, that is not the sentinel. */
  lemma HotEntries(project: string, now: nat)
    requires '|' !in project && now <= U64_MAX
    ensures HotProject(project) == HotProject(Encode(project, now))
    ensures HotProject(project) ==
            if IsSafeProjectName(project) && project != "__NEGATIVE__" then Some(project) else None
  {
    DecodePlain(project);
    DecodeEncoded(project, now);
    hide IsSafeProjectName, Decode, Encode;
  }
}
