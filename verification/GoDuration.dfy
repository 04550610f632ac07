/** Durations in Go's notation, such as `300ms` or `2h30m`. */
module GoDuration {
  import opened Text

  const TWO_TO_THE_64: nat := 0x1_0000_0000_0000_0000

  datatype TimeUnit = Millisecond | Second | Minute | Hour

  datatype Token = Token(number: string, unit: TimeUnit)

  /** The milliseconds of one token; `None` when the number text is not a number, such as `1.2.3`. */
  type TokenValue = Token -> Option<nat>

  predicate IsNumberChar(c: char) {
    '0' <= c <= '9' || c == '.'
  }

  predicate ValidToken(t: Token) {
    t.number != "" && forall i :: 0 <= i < |t.number| ==> IsNumberChar(t.number[i])
  }

  predicate ValidTokens(ts: seq<Token>) {
    forall i :: 0 <= i < |ts| ==> ValidToken(ts[i])
  }

  function UnitText(u: TimeUnit): (s: string)
    ensures s != "" && !IsNumberChar(s[0])
  {
    match u
    case Millisecond => "ms"
    case Second => "s"
    case Minute => "m"
    case Hour => "h"
  }

  function PrintToken(t: Token): string {
    t.number + UnitText(t.unit)
  }

  function Print(ts: seq<Token>): string {
    if ts == [] then "" else PrintToken(ts[0]) + Print(ts[1..])
  }

  /** How many of the first characters belong to a number. */
  function NumberLength(s: string): (k: nat)
    ensures k <= |s| && forall i :: 0 <= i < k ==> IsNumberChar(s[i])
    ensures k < |s| ==> !IsNumberChar(s[k])
  {
    if s != "" && IsNumberChar(s[0]) then 1 + NumberLength(s[1..]) else 0
  }

  /** The unit at the head of `s`. An `m` is a minute unless an `s` follows. */
  function HeadUnit(s: string): (u: Option<TimeUnit>)
    requires s != ""
    ensures u.Some? ==> UnitText(u.value) <= s
  {
    if s[0] == 'm' && |s| > 1 && s[1] == 's' then Some(Millisecond)
    else if s[0] == 's' then Some(Second)
    else if s[0] == 'm' then Some(Minute)
    else if s[0] == 'h' then Some(Hour)
    else None
  }

  /** The token at the head of `s`, read greedily. */
  function HeadToken(s: string): (t: Option<Token>)
    ensures t.Some? ==> ValidToken(t.value) && PrintToken(t.value) <= s
  {
    var k := NumberLength(s);
    if k == 0 || k == |s| then None
    else match HeadUnit(s[k..])
      case None => None
      case Some(u) =>
        assert s == s[..k] + s[k..];
        Some(Token(s[..k], u))
  }

  /** The greedy reading of the whole of `s`. */
  function Tokenize(s: string): Option<seq<Token>>
    decreases |s|
  {
    if s == "" then Some([]) else
      match HeadToken(s)
      case None => None
      case Some(t) => Prepend([t], Tokenize(s[|PrintToken(t)|..]))
  }

  function Prepend(ts: seq<Token>, rest: Option<seq<Token>>): Option<seq<Token>> {
    match rest
    case None => None
    case Some(us) => Some(ts + us)
  }

  lemma TokenizeHead(t: Token, rest: string)
    requires HeadToken(PrintToken(t) + rest) == Some(t)
    ensures Tokenize(PrintToken(t) + rest) == Prepend([t], Tokenize(rest))
  {
    hide HeadToken;
    var s := PrintToken(t) + rest;
    assert s[|PrintToken(t)|..] == rest;
    assert |PrintToken(t)| > 0;
  }

  /** The sum of the token values; `None` when one of them has none. */
  function Total(ts: seq<Token>, value: TokenValue): Option<nat> {
    if ts == [] then Some(0) else
      match (Total(ts[..|ts| - 1], value), value(ts[|ts| - 1]))
      case (Some(a), Some(b)) => Some(a + b)
      case _ => None
  }

  /** The meaning of a duration string: a non-empty token list and its sum, kept in 64 bits. */
  function Meaning(s: string, value: TokenValue): Option<nat> {
    if s == "" || Tokenize(s).None? || Total(Tokenize(s).value, value).None? then None
    else Some(Wrap(Total(Tokenize(s).value, value).value))
  }

  lemma {:induction false} PrintTokenized(s: string)
    ensures Tokenize(s).Some? ==> ValidTokens(Tokenize(s).value) && Print(Tokenize(s).value) == s
    decreases |s|
  {
    hide HeadToken, ValidToken;
    if s != "" && HeadToken(s).Some? {
      var t := HeadToken(s).value;
      var rest := s[|PrintToken(t)|..];
      PrintTokenized(rest);
      hide PrintToken;
      assert s == PrintToken(t) + rest;
      if Tokenize(rest).Some? { assert ([t] + Tokenize(rest).value)[1..] == Tokenize(rest).value; }
    }
  }

  /** The greedy reader takes exactly the printed token, whatever follows, unless that turns its `m` into `ms`. */
  lemma HeadOfPrinted(t: Token, rest: string)
    requires ValidToken(t)
    requires t.unit.Minute? ==> !("s" <= rest)
    ensures HeadToken(PrintToken(t) + rest) == Some(t)
  {
    var s, n := PrintToken(t) + rest, |t.number|;
    assert s[..n] == t.number && s[n..] == UnitText(t.unit) + rest;
    assert NumberLength(s) == n by {
      var k := NumberLength(s);
      assert forall i :: 0 <= i < n ==> s[i] == t.number[i];
      assert s[n] == UnitText(t.unit)[0];
    }
  }

  lemma PrintStartsWithNumber(ts: seq<Token>)
    requires ValidTokens(ts)
    ensures !("s" <= Print(ts))
  {
    if ts != [] { assert Print(ts)[0] == ts[0].number[0]; }
  }

  lemma NothingRead()
    ensures Tokenize("") == Some([])
    ensures forall value :: Total([], value) == Some(0)
  {
  }

  lemma {:induction false} TokenizePrinted(ts: seq<Token>)
    requires ValidTokens(ts)
    ensures Tokenize(Print(ts)) == Some(ts)
  {
    if ts != [] {
      hide HeadToken, ValidToken, PrintToken, Tokenize;
      var t, us := ts[0], ts[1..];
      var rest := Print(us);
      assert Print(ts) == PrintToken(t) + rest;
      hide Print;
      TokenizePrinted(us);
      PrintStartsWithNumber(us);
      HeadOfPrinted(t, rest);
      TokenizeHead(t, rest);
      assert ts == [t] + us;
    }
  }

  /** Every string has at most one reading as tokens, despite `m` and `ms`: the greedy one. */
  lemma ReadingIsUnique(s: string, ts: seq<Token>)
    ensures Tokenize(s) == Some(ts) <==> ValidTokens(ts) && Print(ts) == s
  {
    PrintTokenized(s);
    if ValidTokens(ts) { TokenizePrinted(ts); }
  }

  lemma {:induction false} PrintConcat(a: seq<Token>, b: seq<Token>)
    ensures Print(a + b) == Print(a) + Print(b)
  {
    hide PrintToken;
    if a == [] {
      assert a + b == b;
    } else {
      PrintConcat(a[1..], b);
      assert (a + b)[1..] == a[1..] + b;
      var t, x, y := PrintToken(a[0]), Print(a[1..]), Print(b);
      assert Print(a + b) == t + Print(a[1..] + b);
      hide Print;
      assert t + (x + y) == (t + x) + y;
    }
  }

  lemma {:induction false} TotalConcat(a: seq<Token>, b: seq<Token>, value: TokenValue)
    ensures Total(a + b, value).Some? <==> Total(a, value).Some? && Total(b, value).Some?
    ensures Total(a + b, value).Some? ==> Total(a + b, value).value == Total(a, value).value + Total(b, value).value
  {
    if b == [] {
      assert a + b == a;
    } else {
      TotalConcat(a, b[..|b| - 1], value);
      assert (a + b)[..|a + b| - 1] == a + b[..|b| - 1];
    }
  }

  /** Unsigned 64-bit arithmetic without overflow checks. */
  function Wrap(n: nat): nat {
    n % TWO_TO_THE_64
  }

  lemma WrapSmall(x: nat)
    requires x < TWO_TO_THE_64
    ensures Wrap(x) == x
  {
  }

  lemma WrapSum(x: nat, y: nat)
    ensures Wrap(Wrap(x) + y) == Wrap(x + y)
  {
    var q := x / TWO_TO_THE_64;
    assert x + y == (x % TWO_TO_THE_64 + y) + q * TWO_TO_THE_64;
  }

  /** A cut is bad when it separates the two letters of `ms`. */
  predicate CutsMilliseconds(a: string, b: string) {
    EndsWith(a, "m") && StartsWith(b, "s")
  }

  /** The readings of a concatenation are the concatenations of readings. */
  lemma TokenizeConcat(a: string, b: string)
    requires Tokenize(a).Some? && Tokenize(b).Some?
    ensures Tokenize(a + b) == Some(Tokenize(a).value + Tokenize(b).value)
  {
    hide Tokenize, Print, ValidToken;
    var ta, tb := Tokenize(a).value, Tokenize(b).value;
    PrintTokenized(a);
    PrintTokenized(b);
    PrintConcat(ta, tb);
    ReadingIsUnique(a + b, ta + tb);
  }

  lemma MeaningOf(s: string, ts: seq<Token>, value: TokenValue)
    requires s != "" && Tokenize(s) == Some(ts)
    ensures Meaning(s, value).Some? <==> Total(ts, value).Some?
    ensures Total(ts, value).Some? ==> Meaning(s, value) == Some(Wrap(Total(ts, value).value))
  {
    hide Tokenize, Total, Wrap;
  }

  /** What parsing means, without any reading order: `s` has the value `r` exactly when it is the print of some
      non-empty token list whose values sum to `r` in 64 bits. */
  lemma ParsesIffTokens(s: string, value: TokenValue, r: nat)
    ensures Meaning(s, value) == Some(r) <==>
            exists ts | Total(ts, value).Some? ::
              ts != [] && ValidTokens(ts) && Print(ts) == s && r == Wrap(Total(ts, value).value)
  {
    if Meaning(s, value) == Some(r) {
      PrintTokenized(s);
      assert Total(Tokenize(s).value, value).Some?;
    }
    if ts :| && Total(ts, value).Some? && ts != [] && ValidTokens(ts) && Print(ts) == s
             && r == Wrap(Total(ts, value).value) {
      hide Total, Wrap, Tokenize;
      ReadingIsUnique(s, ts);
      assert PrintToken(ts[0]) <= s;
      MeaningOf(s, ts, value);
    }
  }

  /** Parsing is a homomorphism from concatenation to addition. */
  lemma ParseIsHomomorphism(a: string, b: string, value: TokenValue)
    requires Meaning(a, value).Some? && Meaning(b, value).Some?
    ensures Meaning(a + b, value) == Some(Wrap(Meaning(a, value).value + Meaning(b, value).value))
  {
    hide Tokenize, Total, Wrap;
    var ta, tb := Tokenize(a).value, Tokenize(b).value;
    TokenizeConcat(a, b);
    TotalConcat(ta, tb, value);
    MeaningOf(a, ta, value);
    MeaningOf(b, tb, value);
    MeaningOf(a + b, ta + tb, value);
    hide Meaning;
    var x, y := Total(ta, value).value, Total(tb, value).value;
    WrapSum(x, y);
    WrapSum(y, Wrap(x));
    assert Wrap(x) + y == y + Wrap(x) && Wrap(x) + Wrap(y) == Wrap(y) + Wrap(x);
  }

  /** What follows the head token of `a` begins with a number, and its last letter is that of `a`. */
  lemma AfterHead(a: string, t: Token, rest: string, b: string)
    requires a == PrintToken(t) + rest && Tokenize(rest).Some? && !CutsMilliseconds(a, b)
    ensures !CutsMilliseconds(rest, b)
    ensures t.unit.Minute? ==> !("s" <= rest + b)
  {
    if rest == "" {
      assert rest + b == b;
      assert t.unit.Minute? ==> a[|a| - 1..] == "m";
    } else {
      assert (rest + b)[0] == rest[0];
      assert rest[|rest| - 1..] == a[|a| - 1..];
      assert IsNumberChar(rest[0]) by { assert HeadToken(rest).Some?; }
    }
  }

  lemma PrependTwice(t: Token, ts: seq<Token>, rest: Option<seq<Token>>)
    ensures Prepend([t], Prepend(ts, rest)) == Prepend([t] + ts, rest)
  {
    if rest.Some? { assert [t] + (ts + rest.value) == ([t] + ts) + rest.value; }
  }

  lemma SplitHead(a: string) returns (t: Token, rest: string)
    requires a != "" && Tokenize(a).Some?
    ensures HeadToken(a) == Some(t) && a == PrintToken(t) + rest && |rest| < |a|
    ensures ValidToken(t) && Tokenize(rest).Some? && Tokenize(a).value == [t] + Tokenize(rest).value
  {
    hide HeadToken, ValidToken;
    t := HeadToken(a).value;
    rest := a[|PrintToken(t)|..];
  }

  /** After a readable prefix the rest of a string is read on its own, if no `ms` is cut. */
  lemma {:induction false} TokenizeAfter(a: string, b: string)
    requires Tokenize(a).Some? && !CutsMilliseconds(a, b)
    ensures Tokenize(a + b) == Prepend(Tokenize(a).value, Tokenize(b))
    decreases |a|
  {
    hide HeadToken, ValidToken, PrintToken, CutsMilliseconds, Tokenize;
    if a == "" {
      NothingRead();
      assert a + b == b;
      if Tokenize(b).Some? { assert [] + Tokenize(b).value == Tokenize(b).value; }
    } else {
      var t, rest := SplitHead(a);
      assert a + b == PrintToken(t) + (rest + b);
      AfterHead(a, t, rest, b);
      HeadOfPrinted(t, rest + b);
      TokenizeHead(t, rest + b);
      TokenizeAfter(rest, b);
      PrependTwice(t, Tokenize(rest).value, Tokenize(b));
    }
  }

  /** Cutting `ms` is the one way in which a readable whole and a readable prefix leave an unreadable rest. */
  lemma RestIsReadableIff(a: string, b: string)
    requires Tokenize(a).Some? && Tokenize(a + b).Some?
    ensures Tokenize(b).Some? <==> !CutsMilliseconds(a, b)
  {
    if CutsMilliseconds(a, b) {
      assert b[0] == 's';
      assert !IsNumberChar(b[0]);
    } else {
      TokenizeAfter(a, b);
    }
  }

  /** Reading one token extends what has been read so far. */
  lemma ReadOne(done: seq<Token>, t: Token, tail: string, rest: string)
    requires tail == PrintToken(t) + rest && HeadToken(tail) == Some(t)
    ensures Prepend(done, Tokenize(tail)) == Prepend(done + [t], Tokenize(rest))
  {
    TokenizeHead(t, rest);
    hide Tokenize;
    if Tokenize(rest).Some? {
      assert done + ([t] + Tokenize(rest).value) == (done + [t]) + Tokenize(rest).value;
    }
  }

  lemma AddToken(done: seq<Token>, t: Token, value: TokenValue)
    ensures Total(done + [t], value) ==
            if Total(done, value).Some? && value(t).Some? then Some(Total(done, value).value + value(t).value) else None
  {
    assert (done + [t])[..|done + [t]| - 1] == done;
  }

  /** What the character scan finds at the head of `tail`: the end of its number and the unit there. */
  lemma TokenizeTail(tail: string, k: nat)
    requires tail != "" && k <= |tail|
    requires forall i :: 0 <= i < k ==> IsNumberChar(tail[i])
    requires k < |tail| ==> !IsNumberChar(tail[k])
    ensures k == 0 || k == |tail| || HeadUnit(tail[k..]).None? ==> Tokenize(tail).None?
    ensures 0 < k < |tail| && HeadUnit(tail[k..]).Some? ==>
              HeadToken(tail) == Some(Token(tail[..k], HeadUnit(tail[k..]).value))
  {
    assert NumberLength(tail) == k;
  }

  lemma TailSplits(s: string, start: nat, k: nat, i: nat, unit: TimeUnit)
    requires start <= k <= i <= |s| && s[k..i] == UnitText(unit)
    ensures s[start..] == PrintToken(Token(s[start..k], unit)) + s[i..]
  {
    assert s[start..] == s[start..k] + (s[k..i] + s[i..]);
  }

  lemma TotalPrefix(ts: seq<Token>, rest: Option<seq<Token>>, value: TokenValue)
    requires Total(ts, value).None? && rest.Some?
    ensures Total(Prepend(ts, rest).value, value).None?
  {
    TotalConcat(ts, rest.value, value);
  }

  /** `parse_go_duration`: two nested loops over the characters; the sum wraps at 64 bits. */
  method ParseGoDuration(s: string, value: TokenValue) returns (r: Option<nat>)
    ensures r == Meaning(s, value)
  {
    hide Tokenize, Total, HeadToken, PrintToken, Wrap;
    if s == "" { return None; }
    var total: nat := 0;
    var i := 0;
    ghost var done: seq<Token> := [];
    NothingRead();
    assert s[0..] == s;
    assert Tokenize(s) == Prepend([], Tokenize(s)) by {
      if Tokenize(s).Some? { assert [] + Tokenize(s).value == Tokenize(s).value; }
    }
    WrapSmall(0);
    while i < |s|
      invariant 0 <= i <= |s|
      invariant Tokenize(s) == Prepend(done, Tokenize(s[i..]))
      invariant Total(done, value).Some? && total == Wrap(Total(done, value).value)
    {
      var start := i;
      while i < |s| && IsNumberChar(s[i])
        invariant start <= i <= |s|
        invariant forall k :: start <= k < i ==> IsNumberChar(s[k])
      {
        i := i + 1;
      }
      ghost var tail := s[start..];
      TokenizeTail(tail, i - start);
      if i == start || i >= |s| { return None; }
      assert tail[..i - start] == s[start..i] && tail[i - start..] == s[i..];
      var number, unit := s[start..i], Second;
      if i + 1 < |s| && s[i] == 'm' && s[i + 1] == 's' {
        unit := Millisecond;
        i := i + 2;
      } else {
        match s[i] {
          case 's' => unit := Second;
          case 'm' => unit := Minute;
          case 'h' => unit := Hour;
          case _ => return None;
        }
        i := i + 1;
      }
      var token := Token(number, unit);
      TailSplits(s, start, start + |number|, i, unit);
      ReadOne(done, token, tail, s[i..]);
      AddToken(done, token, value);
      var ms := value(token);
      if ms.None? {
        if Tokenize(s).Some? { TotalPrefix(done + [token], Tokenize(s[i..]), value); }
        return None;
      }
      WrapSum(Total(done, value).value, ms.value);
      total := Wrap(total + ms.value);
      done := done + [token];
    }
    assert s[i..] == "" && done + [] == done;
    r := Some(total);
  }

  // ----- what is readable -----

  predicate Digits(s: string) {
    s != "" && forall i :: 0 <= i < |s| ==> '0' <= s[i] <= '9'
  }

  lemma OneToken(number: string, unit: TimeUnit)
    requires ValidToken(Token(number, unit))
    ensures Tokenize(number + UnitText(unit)) == Some([Token(number, unit)])
  {
    var t := Token(number, unit);
    assert Print([t]) == PrintToken(t) + Print([]) && PrintToken(t) + "" == PrintToken(t);
    hide ValidToken, PrintToken, Print;
    TokenizePrinted([t]);
  }

  /** A number, whole or with a decimal point, followed by a unit is one token: `300ms`, `10s`, `5m`, `1h`, `1.5h`. */
  lemma NumbersAreReadable(whole: string, fraction: string)
    requires Digits(whole) && Digits(fraction)
    ensures Tokenize(whole + "ms") == Some([Token(whole, Millisecond)])
    ensures Tokenize(whole + "s") == Some([Token(whole, Second)])
    ensures Tokenize(whole + "m") == Some([Token(whole, Minute)])
    ensures Tokenize(whole + "h") == Some([Token(whole, Hour)])
    ensures Tokenize(whole + "." + fraction + "h") == Some([Token(whole + "." + fraction, Hour)])
  {
    hide Tokenize;
    OneToken(whole, Millisecond);
    OneToken(whole, Second);
    OneToken(whole, Minute);
    OneToken(whole, Hour);
    OneToken(whole + "." + fraction, Hour);
  }
}
