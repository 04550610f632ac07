/** The string operations the router relies on: substring search, splitting on a
    character and trimming, as Rust's `str` defines them over Unicode scalar values. */
module Text {

  datatype Option<+T> = None | Some(value: T)

  datatype Result<+T> = Ok(value: T) | Err(error: string)

  predicate OccursAt(s: string, p: string, i: nat) {
    i + |p| <= |s| && s[i..i + |p|] == p
  }

  /** `s.contains(p)` */
  predicate Contains(s: string, p: string) {
    exists i: nat :: i <= |s| && OccursAt(s, p, i)
  }

  predicate StartsWith(s: string, p: string) {
    p <= s
  }

  predicate EndsWith(s: string, p: string) {
    |p| <= |s| && s[|s| - |p|..] == p
  }

  /** The index of the first `c` in `s`, or `|s|`. */
  function FirstIndex(s: string, c: char): (i: nat)
    ensures i <= |s| && c !in s[..i]
    ensures i < |s| ==> s[i] == c
    ensures i == |s| <==> c !in s
  {
    if s == "" || s[0] == c then 0 else
      var i := 1 + FirstIndex(s[1..], c);
      assert s[..i] == [s[0]] + s[1..][..i - 1];
      i
  }

  /** What precedes the first `c`: `s.split(c).next()`. */
  function Before(s: string, c: char): string {
    s[..FirstIndex(s, c)]
  }

  lemma FirstIndexAt(a: string, c: char, b: string)
    requires c !in a
    ensures FirstIndex(a + [c] + b, c) == |a|
    ensures Before(a + [c] + b, c) == a
  {
    var s := a + [c] + b;
    var i := FirstIndex(s, c);
    assert s[|a|] == c;
    assert forall j :: 0 <= j < |a| ==> s[j] == a[j];
    assert forall j :: 0 <= j < i ==> s[j] in s[..i];
  }

  /** `s.split(c)`: always at least one piece. */
  function Split(s: string, c: char): (pieces: seq<string>)
    ensures |pieces| >= 1
    decreases |s|
  {
    var i := FirstIndex(s, c);
    if i == |s| then [s] else [s[..i]] + Split(s[i + 1..], c)
  }

  lemma {:induction false} SplitJoined(a: string, c: char, b: string)
    ensures Split(a + [c] + b, c) == Split(a, c) + Split(b, c)
    decreases |a|
  {
    var s := a + [c] + b;
    var i := FirstIndex(a, c);
    if i == |a| {
      FirstIndexAt(a, c, b);
      assert s[|a| + 1..] == b;
    } else {
      var rest := a[i + 1..];
      assert a == a[..i] + [c] + rest;
      assert s == a[..i] + [c] + (rest + [c] + b);
      FirstIndexAt(a[..i], c, rest + [c] + b);
      assert s[i + 1..] == rest + [c] + b;
      SplitJoined(rest, c, b);
      assert s[..i] == a[..i];
    }
  }

  /** Unicode `White_Space`. */
  predicate IsWhitespace(c: char) {
    '\t' <= c <= '\r' || c == ' ' || c == '\U{85}' || c == '\U{A0}' || c == '\U{1680}'
    || '\U{2000}' <= c <= '\U{200A}' || c == '\U{2028}' || c == '\U{2029}'
    || c == '\U{202F}' || c == '\U{205F}' || c == '\U{3000}'
  }

  /** Unicode general category Cc. */
  predicate IsControl(c: char) {
    c <= '\U{1F}' || '\U{7F}' <= c <= '\U{9F}'
  }

  function TrimStart(s: string): string {
    if s != "" && IsWhitespace(s[0]) then TrimStart(s[1..]) else s
  }

  function TrimEnd(s: string): string {
    if s != "" && IsWhitespace(s[|s| - 1]) then TrimEnd(s[..|s| - 1]) else s
  }

  function Trim(s: string): string {
    TrimEnd(TrimStart(s))
  }

  function LowerAscii(c: char): char {
    if 'A' <= c <= 'Z' then c - 'A' + 'a' else c
  }

  predicate EqIgnoreAsciiCase(a: string, b: string) {
    |a| == |b| && forall i :: 0 <= i < |a| ==> LowerAscii(a[i]) == LowerAscii(b[i])
  }

  /** The names of proxy projects that may appear in a URL. It permits `|`. */
  predicate IsSafeProjectName(name: string) {
    name != "" && '/' !in name && '\\' !in name && !Contains(name, "..")
    && (forall i :: 0 <= i < |name| ==> !IsControl(name[i])) && name == Trim(name)
  }

  lemma {:induction false} TrimStartShortens(s: string)
    ensures |TrimStart(s)| <= |s| && (|TrimStart(s)| == |s| <==> s == "" || !IsWhitespace(s[0]))
    ensures |TrimStart(s)| == |s| ==> TrimStart(s) == s
  {
    if s != "" && IsWhitespace(s[0]) { TrimStartShortens(s[1..]); }
  }

  lemma {:induction false} TrimEndShortens(s: string)
    ensures |TrimEnd(s)| <= |s| && (|TrimEnd(s)| == |s| <==> s == "" || !IsWhitespace(s[|s| - 1]))
    ensures |TrimEnd(s)| == |s| ==> TrimEnd(s) == s
  {
    if s != "" && IsWhitespace(s[|s| - 1]) { TrimEndShortens(s[..|s| - 1]); }
  }

  /** A string is trimmed exactly if it neither begins nor ends with white space. */
  lemma TrimmedIff(s: string)
    ensures s == Trim(s) <==> s == "" || (!IsWhitespace(s[0]) && !IsWhitespace(s[|s| - 1]))
  {
    TrimStartShortens(s);
    TrimEndShortens(TrimStart(s));
    hide TrimStart, TrimEnd, IsWhitespace;
  }

  /** Two dots in a row. */
  predicate HasTwoDots(s: string) {
    exists i :: 0 <= i < |s| - 1 && s[i] == '.' && s[i + 1] == '.'
  }

  lemma ContainsTwoDots(s: string)
    ensures Contains(s, "..") <==> HasTwoDots(s)
  {
    forall i: nat | i + 2 <= |s| ensures OccursAt(s, "..", i) <==> s[i] == '.' && s[i + 1] == '.' {
      assert s[i..i + 2] == [s[i], s[i + 1]];
    }
    if Contains(s, "..") {
      var i: nat :| i <= |s| && OccursAt(s, "..", i);
      assert s[i] == '.' && s[i + 1] == '.';
    }
    if HasTwoDots(s) {
      var i :| 0 <= i < |s| - 1 && s[i] == '.' && s[i + 1] == '.';
      assert OccursAt(s, "..", i);
    }
  }

  /** Which project names are safe: not empty, without slash, backslash, two dots in a row or control characters, and
      with no white space at either end. */
  lemma SafeProjectNameIff(name: string)
    ensures IsSafeProjectName(name) <==>
      && name != "" && !HasTwoDots(name)
      && (forall c <- name :: c != '/' && c != '\\' && c >= ' ' && !('\U{7F}' <= c <= '\U{9F}'))
      && !IsWhitespace(name[0]) && !IsWhitespace(name[|name| - 1])
  {
    TrimmedIff(name);
    ContainsTwoDots(name);
    hide Trim, HasTwoDots, Contains;
    assert forall i :: 0 <= i < |name| ==> name[i] in name;
  }
}
