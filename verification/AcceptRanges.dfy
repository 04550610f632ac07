/** What content negotiation decides for the media ranges that clients send, written out. */
module AcceptRanges {
  import opened Text
  import opened Accept

  /** Spaces and tabs, as HTTP allows around list elements. */
  predicate Blanks(s: string) {
    forall i :: 0 <= i < |s| ==> s[i] == ' ' || s[i] == '\t'
  }

  /** Nothing, or parameters such as `;q=0.8`; they hold no comma. */
  predicate Parameters(s: string) {
    s == "" || (s[0] == ';' && ',' !in s)
  }

  /** A list element: a text in optional white space, with optional parameters. */
  function Element(before: string, text: string, after: string, parameters: string): string {
    before + text + after + parameters
  }

  predicate Padding(before: string, after: string, parameters: string) {
    Blanks(before) && Blanks(after) && Parameters(parameters)
  }

  /** A text that stands by itself in a list element. */
  predicate Bare(text: string) {
    ';' !in text && ',' !in text
    && (text != "" ==> !IsWhitespace(text[0]) && !IsWhitespace(text[|text| - 1]))
  }

  lemma {:induction false} TrimStartSkips(blanks: string, s: string)
    requires Blanks(blanks)
    ensures TrimStart(blanks + s) == TrimStart(s)
  {
    if blanks == "" {
      assert blanks + s == s;
    } else {
      TrimStartSkips(blanks[1..], s);
      assert (blanks + s)[1..] == blanks[1..] + s;
    }
  }

  lemma {:induction false} TrimEndSkips(s: string, blanks: string)
    requires Blanks(blanks)
    ensures TrimEnd(s + blanks) == TrimEnd(s)
  {
    if blanks == "" {
      assert s + blanks == s;
    } else {
      var n := |blanks| - 1;
      TrimEndSkips(s, blanks[..n]);
      assert (s + blanks)[..|s + blanks| - 1] == s + blanks[..n];
    }
  }

  lemma {:induction false} OnlyBlanks(blanks: string)
    requires Blanks(blanks)
    ensures TrimStart(blanks) == ""
  {
    if blanks != "" { OnlyBlanks(blanks[1..]); }
  }

  lemma TrimPadded(before: string, text: string, after: string)
    requires Blanks(before) && Blanks(after) && Bare(text)
    ensures Trim(before + text + after) == text
  {
    assert before + text + after == before + (text + after);
    TrimStartSkips(before, text + after);
    if text == "" {
      assert text + after == after;
      OnlyBlanks(after);
    } else {
      assert (text + after)[0] == text[0];
      TrimEndSkips(text, after);
    }
  }

  /** Padding and parameters drop out. */
  lemma ElementIsText(before: string, text: string, after: string, parameters: string)
    requires Padding(before, after, parameters) && Bare(text)
    ensures MediaType(Element(before, text, after, parameters)) == text
  {
    var head := before + text + after;
    assert ';' !in head;
    if parameters == "" {
      assert Element(before, text, after, parameters) == head;
    } else {
      assert Element(before, text, after, parameters) == head + [';'] + parameters[1..];
      FirstIndexAt(head, ';', parameters[1..]);
    }
    hide TrimStart, TrimEnd;
    TrimPadded(before, text, after);
  }

  lemma ElementIsOnePiece(before: string, text: string, after: string, parameters: string)
    requires Padding(before, after, parameters) && Bare(text)
    ensures Flatten([Element(before, text, after, parameters)]) == [Element(before, text, after, parameters)]
  {
    var e := Element(before, text, after, parameters);
    assert ',' !in e;
    FlattenOne(e);
  }

  /** A list matches exactly if one of its elements alone does. */
  lemma ElementsDecide(responseCt: string, acceptValues: seq<string>)
    ensures Matches(responseCt, acceptValues) <==>
            exists i :: 0 <= i < |Flatten(acceptValues)| && Matches(responseCt, [Flatten(acceptValues)[i]])
  {
    var elements := Flatten(acceptValues);
    forall i | 0 <= i < |elements|
      ensures Matches(responseCt, [elements[i]]) <==> InRange(MediaType(responseCt), ParseRange(elements[i]))
    {
      ElementHasNoComma(acceptValues, i);
      FlattenOne(elements[i]);
      assert Flatten([elements[i]]) == [elements[i]];
      hide Flatten, MediaType, ParseRange, InRange;
      assert [elements[i]][0] == elements[i];
    }
    hide Flatten, MediaType, ParseRange, InRange;
  }

  lemma {:induction false} PiecesHaveNoComma(s: string)
    ensures forall piece <- Split(s, ',') :: ',' !in piece
    decreases |s|
  {
    var i := FirstIndex(s, ',');
    if i < |s| { PiecesHaveNoComma(s[i + 1..]); }
  }

  lemma {:induction false} FlattenHasNoComma(values: seq<string>)
    ensures forall e <- Flatten(values) :: ',' !in e
  {
    if values != [] {
      PiecesHaveNoComma(values[0]);
      FlattenHasNoComma(values[1..]);
    }
  }

  lemma ElementHasNoComma(values: seq<string>, i: nat)
    requires i < |Flatten(values)|
    ensures ',' !in Flatten(values)[i] && Split(Flatten(values)[i], ',') == [Flatten(values)[i]]
  {
    FlattenHasNoComma(values);
    assert Flatten(values)[i] in Flatten(values);
  }

  /** What one element decides. */
  lemma OneElementDecides(responseCt: string, before: string, text: string, after: string, parameters: string)
    requires Padding(before, after, parameters) && Bare(text)
    ensures
      var ct := MediaType(responseCt);
      Matches(responseCt, [Element(before, text, after, parameters)]) <==>
      && text != ""
      && (text == "*/*"
          || (EndsWith(text, "/*") && Before(ct, '/') == text[..|text| - 2])
          || EqIgnoreAsciiCase(ct, text))
  {
    var e := Element(before, text, after, parameters);
    ElementIsText(before, text, after, parameters);
    ElementIsOnePiece(before, text, after, parameters);
    OneElement(responseCt, e);
    hide Flatten, MediaType, Matches, Before, EqIgnoreAsciiCase;
  }

  /** The full wildcard, anywhere in any list, padded and with parameters or not, takes every response. */
  lemma FullWildcardTakesAll(responseCt: string, acceptValues: seq<string>, before: string, after: string,
      parameters: string)
    requires Padding(before, after, parameters)
    requires before + "*/*" + after + parameters in Flatten(acceptValues)
    ensures Matches(responseCt, acceptValues)
  {
    var e := Element(before, "*/*", after, parameters);
    OneElementDecides(responseCt, before, "*/*", after, parameters);
    ElementsDecide(responseCt, acceptValues);
    hide Matches, Flatten;
    var i :| 0 <= i < |Flatten(acceptValues)| && Flatten(acceptValues)[i] == e;
  }

  /** A type with a subtype, as a response or an element names it. */
  function Full(main: string, sub: string): string {
    main + "/" + sub
  }

  lemma FullIsBare(main: string, sub: string)
    requires Clean(main) && Clean(sub)
    ensures Bare(Full(main, sub)) && Before(Full(main, sub), '/') == main
  {
    CleanType(main, sub);
    var s := Full(main, sub);
    assert s[0] == main[0] && s[|s| - 1] == sub[|sub| - 1];
  }

  lemma OneSlash(main: string, sub: string, k: nat)
    requires Clean(main) && Clean(sub) && k < |Full(main, sub)|
    ensures Full(main, sub)[k] == '/' <==> k == |main|
  {
    var s := Full(main, sub);
    assert forall i :: 0 <= i < |main| ==> s[i] == main[i];
    assert forall i :: |main| < i < |s| ==> s[i] == sub[i - |main| - 1];
  }

  lemma FullEndsInStar(main: string, sub: string)
    requires Clean(main) && Clean(sub)
    ensures EndsWith(Full(main, sub), "/*") <==> sub == "*"
    ensures sub == "*" ==> Full(main, sub)[..|Full(main, sub)| - 2] == main
    ensures Full(main, sub) == "*/*" <==> main == "*" && sub == "*"
  {
    var s := Full(main, sub);
    var n := |s|;
    assert |main| >= 1 && |sub| >= 1;
    OneSlash(main, sub, n - 2);
    assert s[n - 2..] == [s[n - 2], s[n - 1]];
    assert s[n - 1] == sub[|sub| - 1];
    assert |sub| == 1 ==> sub == [sub[0]];
    if s == "*/*" {
      OneSlash(main, sub, 1);
      assert main == s[..1] && sub == s[2..];
    }
  }

  lemma EqSlices(a: string, b: string, k: nat)
    requires k <= |a| == |b|
    ensures EqIgnoreAsciiCase(a, b) <==> EqIgnoreAsciiCase(a[..k], b[..k]) && EqIgnoreAsciiCase(a[k..], b[k..])
  {
    hide LowerAscii;
    if EqIgnoreAsciiCase(a[..k], b[..k]) && EqIgnoreAsciiCase(a[k..], b[k..]) {
      forall i | 0 <= i < |a| ensures LowerAscii(a[i]) == LowerAscii(b[i]) {
        if i < k { assert a[..k][i] == a[i] && b[..k][i] == b[i]; }
        else { assert a[k..][i - k] == a[i] && b[k..][i - k] == b[i]; }
      }
    }
  }

  lemma FullsEqual(m: string, s: string, main: string, sub: string)
    requires Clean(m) && Clean(s) && Clean(main) && Clean(sub)
    ensures EqIgnoreAsciiCase(Full(m, s), Full(main, sub)) <==> EqIgnoreAsciiCase(m, main) && EqIgnoreAsciiCase(s, sub)
  {
    var a, b := Full(m, s), Full(main, sub);
    if EqIgnoreAsciiCase(a, b) { SlashesAlign(m, s, main, sub); }
    if |m| == |main| && |a| == |b| {
      assert a[..|m|] == m && b[..|m|] == main && a[|m|..] == "/" + s && b[|m|..] == "/" + sub;
      EqSlices(a, b, |m|);
      assert ("/" + s)[..1] == "/" && ("/" + s)[1..] == s && ("/" + sub)[..1] == "/" && ("/" + sub)[1..] == sub;
      EqSlices("/" + s, "/" + sub, 1);
      assert EqIgnoreAsciiCase("/", "/");
    }
    hide Clean, EqIgnoreAsciiCase;
    assert |a| == |m| + 1 + |s| && |b| == |main| + 1 + |sub|;
    EqLengths(m, main);
    EqLengths(s, sub);
    EqLengths(a, b);
  }

  lemma EqLengths(a: string, b: string)
    ensures EqIgnoreAsciiCase(a, b) ==> |a| == |b|
  {
  }

  lemma SlashesAlign(m: string, s: string, main: string, sub: string)
    requires Clean(m) && Clean(s) && Clean(main) && Clean(sub) && EqIgnoreAsciiCase(Full(m, s), Full(main, sub))
    ensures |m| == |main| && |s| == |sub|
  {
    var a, b := Full(m, s), Full(main, sub);
    OneSlash(m, s, |m|);
    OneSlash(main, sub, |m|);
    assert LowerAscii(a[|m|]) == LowerAscii(b[|m|]);
    hide Clean;
  }

  /** A range over one main type, alone, padded and with parameters or not: it takes the responses of exactly that main
      type, spelled the same; `*` for the main type takes everything; and a response whose own subtype is a star is
      compared as a whole, up to the case of its letters. */
  lemma WildcardTakes(m: string, s: string, responseParameters: string, main: string,
      before: string, after: string, parameters: string)
    requires Clean(m) && Clean(s) && Clean(main) && Padding(before, after, parameters) && Parameters(responseParameters)
    ensures Matches(Full(m, s) + responseParameters, [before + (main + "/" + "*") + after + parameters]) <==>
            main == "*" || m == main || (s == "*" && EqIgnoreAsciiCase(m, main))
  {
    var text := Full(main, "*");
    FullIsBare(m, s);
    FullIsBare(main, "*");
    ElementIsText("", Full(m, s), "", responseParameters);
    assert "" + Full(m, s) + "" + responseParameters == Full(m, s) + responseParameters;
    FullEndsInStar(main, "*");
    FullsEqual(m, s, main, "*");
    StarFoldsToStar(s);
    hide Matches, MediaType, EqIgnoreAsciiCase, Before, Bare, Clean, EndsWith;
    OneElementDecides(Full(m, s) + responseParameters, before, text, after, parameters);
  }

  lemma StarFoldsToStar(s: string)
    ensures EqIgnoreAsciiCase(s, "*") <==> s == "*"
  {
    if |s| == 1 { assert s == [s[0]]; }
  }

  /** A full type, alone, padded and with parameters or not, takes exactly the responses equal to it up to the case of
      their letters. */
  lemma FullTypeTakes(response: string, responseParameters: string, main: string, sub: string,
      before: string, after: string, parameters: string)
    requires Bare(response) && Clean(main) && Clean(sub) && sub != "*"
    requires Padding(before, after, parameters) && Parameters(responseParameters)
    ensures Matches(response + responseParameters, [before + (main + "/" + sub) + after + parameters]) <==>
            EqIgnoreAsciiCase(response, main + "/" + sub)
  {
    FullIsBare(main, sub);
    ElementIsText("", response, "", responseParameters);
    assert "" + response + "" + responseParameters == response + responseParameters;
    FullEndsInStar(main, sub);
    hide Matches, MediaType, EqIgnoreAsciiCase, Before, Bare, Clean, EndsWith;
    OneElementDecides(response + responseParameters, before, Full(main, sub), after, parameters);
  }

  /** An element of nothing but white space and parameters. */
  predicate Empty(element: string) {
    exists k: nat :: k <= |element| && Blanks(element[..k]) && Parameters(element[k..])
  }

  lemma EmptyElementTakesNothing(responseCt: string, element: string)
    requires Empty(element)
    ensures !Matches(responseCt, [element])
  {
    var k: nat :| k <= |element| && Blanks(element[..k]) && Parameters(element[k..]);
    assert element[..k] + "" + "" + element[k..] == element;
    hide Matches, Blanks, Parameters;
    OneElementDecides(responseCt, element[..k], "", "", element[k..]);
  }

  /** Empty elements take nothing: a list of them takes nothing. */
  lemma EmptyTakesNothing(responseCt: string, acceptValues: seq<string>)
    requires forall i :: 0 <= i < |Flatten(acceptValues)| ==> Empty(Flatten(acceptValues)[i])
    ensures !Matches(responseCt, acceptValues)
  {
    var elements := Flatten(acceptValues);
    ElementsDecide(responseCt, acceptValues);
    hide Matches, Flatten, Empty;
    forall i | 0 <= i < |elements| ensures !Matches(responseCt, [elements[i]]) {
      EmptyElementTakesNothing(responseCt, elements[i]);
    }
  }

  /** What it means for two letters to agree up to case. */
  lemma CaseFolds(c: char, d: char)
    ensures EqIgnoreAsciiCase([c], [d]) <==>
            || c == d
            || ('A' <= c <= 'Z' && d as int == c as int + 32)
            || ('A' <= d <= 'Z' && c as int == d as int + 32)
  {
    assert EqIgnoreAsciiCase([c], [d]) <==> LowerAscii(c) == LowerAscii(d) by {
      assert [c][0] == c && [d][0] == d;
    }
  }
}
