/** Content negotiation: does a response media type satisfy the client's Accept header values? */
module Accept {
  import opened Text

  /** A media range after its parameters are dropped (RFC 7231, section 5.3.2, grammar only). */
  datatype MediaRange = Blank | Any | OfType(mainType: string, text: string) | Exact(text: string)

  /** What precedes the parameters. */
  function MediaType(value: string): string {
    Trim(Before(value, ';'))
  }

  function ParseRange(element: string): MediaRange {
    var text := MediaType(element);
    if text == "" then Blank
    else if text == "*/*" then Any
    else if EndsWith(text, "/*") then OfType(text[..|text| - 2], text)
    else Exact(text)
  }

  /** Whether the media type `ct` lies in a range; the main type is compared case-sensitively. */
  predicate InRange(ct: string, range: MediaRange) {
    match range
    case Blank => false
    case Any => true
    case OfType(mainType, text) => Before(ct, '/') == mainType || EqIgnoreAsciiCase(ct, text)
    case Exact(text) => EqIgnoreAsciiCase(ct, text)
  }

  function Pieces(headerValue: string): (pieces: seq<string>)
    ensures |pieces| >= 1
  {
    Split(headerValue, ',')
  }

  /** The list elements of all header values, as one list (RFC 7230, section 3.2.2). */
  function Flatten(acceptValues: seq<string>): seq<string> {
    if acceptValues == [] then [] else Pieces(acceptValues[0]) + Flatten(acceptValues[1..])
  }

  predicate AnyInRange(ct: string, elements: seq<string>) {
    exists i :: 0 <= i < |elements| && InRange(ct, ParseRange(elements[i]))
  }

  predicate Matches(responseType: string, acceptValues: seq<string>) {
    AnyInRange(MediaType(responseType), Flatten(acceptValues))
  }

  lemma {:induction false} FlattenConcat(a: seq<string>, b: seq<string>)
    ensures Flatten(a + b) == Flatten(a) + Flatten(b)
  {
    if a == [] {
      assert a + b == b;
    } else {
      calc {
        Flatten(a + b);
        { assert (a + b)[1..] == a[1..] + b && (a + b)[0] == a[0]; }
        Pieces(a[0]) + Flatten(a[1..] + b);
        { FlattenConcat(a[1..], b); }
        Pieces(a[0]) + (Flatten(a[1..]) + Flatten(b));
        (Pieces(a[0]) + Flatten(a[1..])) + Flatten(b);
      }
    }
  }

  lemma AnyInConcat(ct: string, a: seq<string>, b: seq<string>)
    ensures AnyInRange(ct, a + b) <==> AnyInRange(ct, a) || AnyInRange(ct, b)
  {
    assert forall i :: 0 <= i < |a| ==> (a + b)[i] == a[i];
    assert forall i :: 0 <= i < |b| ==> (a + b)[|a| + i] == b[i];
  }

  lemma Snoc(ct: string, pieces: seq<string>, j: nat)
    requires j < |pieces|
    ensures AnyInRange(ct, pieces[..j + 1]) <==> AnyInRange(ct, pieces[..j]) || InRange(ct, ParseRange(pieces[j]))
    ensures AnyInRange(ct, pieces[..j + 1]) ==> AnyInRange(ct, pieces)
  {
    assert forall i :: 0 <= i <= j ==> pieces[..j + 1][i] == pieces[i];
    assert forall i :: 0 <= i < j ==> pieces[..j][i] == pieces[i];
  }

  lemma FlattenOne(value: string)
    ensures Flatten([value]) == Pieces(value)
  {
    assert [value][1..] == [];
    assert Flatten([]) == [];
  }

  lemma CutAt<T>(s: seq<T>, h: nat)
    requires h < |s|
    ensures s[..h + 1] == s[..h] + [s[h]]
    ensures s[..h + 1] + s[h + 1..] == s
  {
  }

  lemma FlattenSnoc(values: seq<string>, h: nat)
    requires h < |values|
    ensures Flatten(values[..h + 1]) == Flatten(values[..h]) + Pieces(values[h])
    ensures Flatten(values) == Flatten(values[..h + 1]) + Flatten(values[h + 1..])
  {
    hide Flatten, Pieces;
    FlattenOne(values[h]);
    FlattenConcat(values[..h], [values[h]]);
    FlattenConcat(values[..h + 1], values[h + 1..]);
    CutAt(values, h);
  }

  lemma Extend(ct: string, values: seq<string>, h: nat)
    requires h < |values|
    ensures AnyInRange(ct, Flatten(values[..h + 1])) <==>
            AnyInRange(ct, Flatten(values[..h])) || AnyInRange(ct, Pieces(values[h]))
    ensures AnyInRange(ct, Pieces(values[h])) ==> AnyInRange(ct, Flatten(values))
  {
    FlattenSnoc(values, h);
    AnyInConcat(ct, Flatten(values[..h]), Pieces(values[h]));
    AnyInConcat(ct, Flatten(values[..h + 1]), Flatten(values[h + 1..]));
  }

  /** `content_type_matches`: the two nested loops with their early returns decide exactly whether
      some element of the flattened list is a matching media range. */
  method ContentTypeMatches(responseCt: string, acceptValues: seq<string>) returns (verdict: bool)
    ensures verdict <==> Matches(responseCt, acceptValues)
  {
    if acceptValues == [] {
      return false;
    }
    var ct := MediaType(responseCt);
    for h := 0 to |acceptValues|
      invariant !AnyInRange(ct, Flatten(acceptValues[..h]))
    {
      var pieces := Pieces(acceptValues[h]);
      Extend(ct, acceptValues, h);
      for j := 0 to |pieces|
        invariant !AnyInRange(ct, pieces[..j])
      {
        Snoc(ct, pieces, j);
        var av := MediaType(pieces[j]);
        if av == "" {
          continue;
        }
        if av == "*/*" {
          return true;
        }
        if EndsWith(av, "/*") {
          var prefix := av[..|av| - 2];
          if Before(ct, '/') == prefix {
            return true;
          }
        }
        if EqIgnoreAsciiCase(ct, av) {
          return true;
        }
      }
      assert pieces[..|pieces|] == pieces;
    }
    assert acceptValues[..|acceptValues|] == acceptValues;
    return false;
  }

  /** Combining two header values into one comma-joined value never changes the verdict. */
  lemma CombiningKeepsVerdict(responseCt: string, before: seq<string>, a: string, b: string, after: seq<string>)
    ensures Matches(responseCt, before + [a, b] + after) <==> Matches(responseCt, before + [a + "," + b] + after)
  {
    var joined := a + "," + b;
    assert Flatten([a, b]) == Flatten([joined]) by {
      assert joined == a + [','] + b;
      SplitJoined(a, ',', b);
      assert [a, b][1..] == [b] && [b][1..] == [] && [joined][1..] == [];
    }
    FlattenConcat(before, [a, b]);
    FlattenConcat(before, [joined]);
    FlattenConcat(before + [a, b], after);
    FlattenConcat(before + [joined], after);
  }

  /** Media types are case-insensitive in RFC 7231, section 3.1.1.1; this is membership so read. */
  predicate InRangeIgnoringCase(ct: string, range: MediaRange) {
    match range
    case Blank => false
    case Any => true
    case OfType(mainType, text) => EqIgnoreAsciiCase(Before(ct, '/'), mainType) || EqIgnoreAsciiCase(ct, text)
    case Exact(text) => EqIgnoreAsciiCase(ct, text)
  }

  predicate MatchesIgnoringCase(responseCt: string, acceptValues: seq<string>) {
    var elements := Flatten(acceptValues);
    exists i :: 0 <= i < |elements| && InRangeIgnoringCase(MediaType(responseCt), ParseRange(elements[i]))
  }

  /** Letters of a media type that survive trimming and splitting. */
  predicate Clean(s: string) {
    s != "" && ';' !in s && ',' !in s && '/' !in s && !IsWhitespace(s[0]) && !IsWhitespace(s[|s| - 1])
  }

  lemma CleanType(main: string, sub: string)
    requires Clean(main) && Clean(sub)
    ensures MediaType(main + "/" + sub) == main + "/" + sub
    ensures Before(main + "/" + sub, '/') == main
    ensures Flatten([main + "/" + sub]) == [main + "/" + sub]
  {
    var s := main + "/" + sub;
    assert s == main + ['/'] + sub;
    FirstIndexAt(main, '/', sub);
    assert s[0] == main[0] && s[|s| - 1] == sub[|sub| - 1];
    assert ';' !in s && ',' !in s;
    FlattenOne(s);
  }

  lemma ParsesAsType(main: string)
    requires Clean(main) && main != "*"
    ensures ParseRange(main + "/*") == OfType(main, main + "/*")
  {
    var text := main + "/*";
    CleanType(main, "*");
    hide Flatten, Before, Clean, Trim;
    assert text == main + "/" + "*";
    assert MediaType(text) == text;
    hide MediaType;
    assert text[|text| - 2..] == "/*" && text[..|text| - 2] == main;
  }

  lemma StarIsNotSub(main: string, other: string, sub: string)
    requires |main| == |other| && sub != "*"
    ensures !EqIgnoreAsciiCase(main + "/" + sub, other + "/*")
  {
    var a, b := main + "/" + sub, other + "/*";
    assert b[|main| + 1] == '*';
    if |sub| == 1 {
      assert a[|main| + 1] == sub[0] && sub == [sub[0]];
    }
  }

  lemma OneElement(responseCt: string, element: string)
    requires Flatten([element]) == [element]
    ensures Matches(responseCt, [element]) <==> InRange(MediaType(responseCt), ParseRange(element))
    ensures MatchesIgnoringCase(responseCt, [element]) <==>
            InRangeIgnoringCase(MediaType(responseCt), ParseRange(element))
  {
    hide Flatten, MediaType, ParseRange, InRange, InRangeIgnoringCase;
    assert [element][0] == element;
  }

  /** The disagreement is reached by every wildcard written in another case. */
  lemma WildcardInOtherCaseIsMissed(main: string, other: string, sub: string)
    requires Clean(main) && Clean(other) && Clean(sub)
    requires main != other && EqIgnoreAsciiCase(main, other) && sub != "*" && other != "*"
    ensures !Matches(main + "/" + sub, [other + "/*"])
    ensures MatchesIgnoringCase(main + "/" + sub, [other + "/*"])
  {
    hide Flatten, MediaType, ParseRange, Before;
    CleanType(main, sub);
    CleanType(other, "*");
    assert other + "/" + "*" == other + "/*";
    ParsesAsType(other);
    StarIsNotSub(main, other, sub);
    OneElement(main + "/" + sub, other + "/*");
  }

  // ----- which headers agree with the RFC -----

  predicate ListsWildcard(elements: seq<string>, mainType: string) {
    exists i :: 0 <= i < |elements| && ParseRange(elements[i]).OfType? && ParseRange(elements[i]).mainType == mainType
  }

  predicate ListsAny(elements: seq<string>) {
    exists i :: 0 <= i < |elements| && ParseRange(elements[i]).Any?
  }

  /** Every spelling of a listed main type is listed too. */
  ghost predicate EverySpellingListed(elements: seq<string>) {
    forall main, spelling: string ::
      ListsWildcard(elements, main) && '/' !in main && EqIgnoreAsciiCase(spelling, main) ==>
        ListsWildcard(elements, spelling)
  }

  lemma CaseKeepsPunctuation(a: string, b: string, c: char)
    requires EqIgnoreAsciiCase(a, b) && !('A' <= c <= 'Z') && !('a' <= c <= 'z')
    ensures c in a <==> c in b
  {
    assert forall i :: 0 <= i < |a| ==> (a[i] == c <==> LowerAscii(a[i]) == c);
    assert forall i :: 0 <= i < |b| ==> (b[i] == c <==> LowerAscii(b[i]) == c);
    assert forall i :: 0 <= i < |a| ==> (a[i] == c <==> b[i] == c);
  }

  lemma {:induction false} TrimmedStart(s: string)
    ensures TrimStart(s) != "" ==> !IsWhitespace(TrimStart(s)[0])
    ensures forall c :: c in TrimStart(s) ==> c in s
  {
    if s != "" && IsWhitespace(s[0]) { TrimmedStart(s[1..]); }
  }

  lemma {:induction false} TrimmedEnd(s: string)
    ensures TrimEnd(s) <= s
  {
    if s != "" && IsWhitespace(s[|s| - 1]) {
      TrimmedEnd(s[..|s| - 1]);
    }
  }

  /** A media type starts with no white space and holds no `;`. */
  lemma MediaTypeIsTrimmed(value: string)
    ensures MediaType(value) != "" ==> !IsWhitespace(MediaType(value)[0])
    ensures ';' !in MediaType(value)
  {
    var before := Before(value, ';');
    TrimmedStart(before);
    TrimmedEnd(TrimStart(before));
    var start := TrimStart(before);
    assert forall c :: c in TrimEnd(start) ==> c in start;
  }

  /** Longer than every element. */
  function Longest(elements: seq<string>): (n: nat)
    ensures forall i :: 0 <= i < |elements| ==> |MediaType(elements[i])| < n
    ensures n > 0
  {
    if elements == [] then 1 else
      var m, e := Longest(elements[..|elements| - 1]), |MediaType(elements[|elements| - 1])|;
      if m <= e then e + 1 else m
  }

  function Repeat(n: nat): (s: string)
    ensures |s| == n && forall i :: 0 <= i < n ==> s[i] == 'x'
  {
    seq(n, i => 'x')
  }

  lemma ListedMainIsTrimmed(elements: seq<string>, main: string)
    requires ListsWildcard(elements, main)
    ensures ';' !in main && (main != "" ==> !IsWhitespace(main[0]))
  {
    var i :| 0 <= i < |elements| && ParseRange(elements[i]).OfType? && ParseRange(elements[i]).mainType == main;
    var text := MediaType(elements[i]);
    MediaTypeIsTrimmed(elements[i]);
    hide MediaType, IsWhitespace;
    assert main == text[..|text| - 2];
    assert main != "" ==> main[0] == text[0];
  }

  lemma OtherSpelling(main: string, spelling: string)
    requires ';' !in main && '/' !in main && (main != "" ==> !IsWhitespace(main[0]))
    requires EqIgnoreAsciiCase(spelling, main) && spelling != main
    ensures spelling != "" && ';' !in spelling && '/' !in spelling && !IsWhitespace(spelling[0])
  {
    CaseKeepsPunctuation(spelling, main, '/');
    CaseKeepsPunctuation(spelling, main, ';');
    assert |spelling| == |main|;
    assert main == "" <==> spelling == "";
    assert LowerAscii(spelling[0]) == LowerAscii(main[0]);
  }

  lemma CleanTypeIsMediaType(main: string, sub: string)
    requires main != "" && ';' !in main && '/' !in main && !IsWhitespace(main[0])
    requires sub != "" && forall i :: 0 <= i < |sub| ==> sub[i] == 'x'
    ensures MediaType(main + "/" + sub) == main + "/" + sub && Before(main + "/" + sub, '/') == main
  {
    var ct := main + "/" + sub;
    assert ct == main + ['/'] + sub;
    FirstIndexAt(main, '/', sub);
    assert ct[0] == main[0] && ct[|ct| - 1] == sub[|sub| - 1] == 'x';
    assert ';' !in ct;
  }

  /** A response type with the main type spelled as given and a subtype that no element lists. */
  lemma FreshType(elements: seq<string>, main: string, spelling: string) returns (ct: string)
    requires ListsWildcard(elements, main) && '/' !in main
    requires EqIgnoreAsciiCase(spelling, main) && spelling != main
    ensures MediaType(ct) == ct && Before(ct, '/') == spelling
    ensures forall i :: 0 <= i < |elements| ==> |MediaType(elements[i])| < |ct|
  {
    hide MediaType, EqIgnoreAsciiCase, IsWhitespace, ListsWildcard, Before;
    ListedMainIsTrimmed(elements, main);
    OtherSpelling(main, spelling);
    var sub := Repeat(Longest(elements));
    CleanTypeIsMediaType(spelling, sub);
    ct := spelling + "/" + sub;
  }

  lemma SpelledOtherwise(elements: seq<string>, main: string, spelling: string)
    requires !ListsAny(elements) && ListsWildcard(elements, main) && '/' !in main
    requires EqIgnoreAsciiCase(spelling, main) && !ListsWildcard(elements, spelling)
    ensures exists ct: string :: MediaType(ct) == ct && !AnyInRange(ct, elements)
              && exists i :: 0 <= i < |elements| && InRangeIgnoringCase(ct, ParseRange(elements[i]))
  {
    hide MediaType, Before, EqIgnoreAsciiCase;
    var ct := FreshType(elements, main, spelling);
    forall i | 0 <= i < |elements| ensures !InRange(ct, ParseRange(elements[i])) {
      LongerIsOther(ct, MediaType(elements[i]));
    }
    var k :| 0 <= k < |elements| && ParseRange(elements[k]).OfType? && ParseRange(elements[k]).mainType == main;
    assert InRangeIgnoringCase(ct, ParseRange(elements[k]));
  }

  lemma LongerIsOther(a: string, b: string)
    requires |b| < |a|
    ensures !EqIgnoreAsciiCase(a, b)
  {
  }

  lemma InRangeImpliesIgnoringCase(ct: string, range: MediaRange)
    ensures InRange(ct, range) ==> InRangeIgnoringCase(ct, range)
  {
  }

  /** Without a main type in a spelling that is not listed, the two readings agree on every type. */
  lemma ListedSpellingsAgree(elements: seq<string>, ct: string)
    requires ListsAny(elements) || EverySpellingListed(elements)
    ensures AnyInRange(ct, elements) <==>
            exists i :: 0 <= i < |elements| && InRangeIgnoringCase(ct, ParseRange(elements[i]))
  {
    forall i | 0 <= i < |elements|
      ensures InRange(ct, ParseRange(elements[i])) ==> InRangeIgnoringCase(ct, ParseRange(elements[i]))
    {
      InRangeImpliesIgnoringCase(ct, ParseRange(elements[i]));
    }
    if ListsAny(elements) {
      var i :| 0 <= i < |elements| && ParseRange(elements[i]).Any?;
      assert InRange(ct, ParseRange(elements[i]));
    } else if i :| && 0 <= i < |elements| && InRangeIgnoringCase(ct, ParseRange(elements[i]))
                   && !InRange(ct, ParseRange(elements[i])) {
      var range, spelling := ParseRange(elements[i]), Before(ct, '/');
      hide ParseRange, Before;
      CaseKeepsPunctuation(spelling, range.mainType, '/');
      BeforeHasNone(ct);
      assert ListsWildcard(elements, range.mainType);
      assert ListsWildcard(elements, spelling);
      var k :| 0 <= k < |elements| && ParseRange(elements[k]).OfType? && ParseRange(elements[k]).mainType == spelling;
      assert InRange(ct, ParseRange(elements[k]));
    }
  }

  lemma BeforeHasNone(ct: string)
    ensures '/' !in Before(ct, '/')
  {
  }

  /** Exactly which Accept headers are read as RFC 7231 has it, for every response: those with a full wildcard, and
      those that list, with each wildcard over one main type, that type in every spelling of upper and lower case. */
  lemma AgreesWithRfcIff(acceptValues: seq<string>)
    ensures (forall responseCt :: Matches(responseCt, acceptValues) <==> MatchesIgnoringCase(responseCt, acceptValues))
            <==> ListsAny(Flatten(acceptValues)) || EverySpellingListed(Flatten(acceptValues))
  {
    var elements := Flatten(acceptValues);
    hide Flatten, ParseRange, InRange, InRangeIgnoringCase;
    if ListsAny(elements) || EverySpellingListed(elements) {
      forall responseCt ensures Matches(responseCt, acceptValues) <==> MatchesIgnoringCase(responseCt, acceptValues) {
        ListedSpellingsAgree(elements, MediaType(responseCt));
      }
    } else {
      var main, spelling: string :| ListsWildcard(elements, main) && '/' !in main && EqIgnoreAsciiCase(spelling, main)
        && !ListsWildcard(elements, spelling);
      SpelledOtherwise(elements, main, spelling);
      var ct: string :| MediaType(ct) == ct && !AnyInRange(ct, elements)
        && exists i :: 0 <= i < |elements| && InRangeIgnoringCase(ct, ParseRange(elements[i]));
      assert !Matches(ct, acceptValues) && MatchesIgnoringCase(ct, acceptValues);
    }
  }
}
