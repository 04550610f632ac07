/** The result loop of the parallel lookup: which of the projects' answers is returned, and with
    which text it fails. */
module FanOut {
  import opened Text
  import Accept

  datatype Response = Response(project: string, status: nat, contentType: string)

  type Outcome = Result<Response>

  const FALLBACK_GRACE_MS := 200
  const NOT_FOUND_PHRASE := "not found in any proxy-cache project"
  const FAILED_PREFIX := "all projects failed, last error: "
  const NO_PROJECTS := "no proxy-cache " + "projects discovered"
  const NONE_AVAILABLE := "no available proxy-cache " + "projects (all circuits open)"

  function NotFoundText(image: string, reference: string): string {
    "image " + image + ":" + reference + " " + NOT_FOUND_PHRASE
  }

  /** `is_all_projects_non_200`: the classification by text that decides on negative caching. */
  predicate IsAllProjectsNon200(text: string) {
    Contains(text, NOT_FOUND_PHRASE)
  }

  predicate Is200(o: Outcome) {
    o.Ok? && o.value.status == 200
  }

  /** Which content types satisfy the client: any, when it sent no Accept header. */
  function Accepting(accept: seq<string>): string -> bool {
    contentType => accept == [] || Accept.Matches(contentType, accept)
  }

  predicate IsMatch(o: Outcome, ok: string -> bool) {
    Is200(o) && ok(o.value.contentType)
  }

  predicate Any200(seen: seq<Outcome>) {
    exists i :: 0 <= i < |seen| && Is200(seen[i])
  }

  predicate AnyErr(seen: seq<Outcome>) {
    exists i :: 0 <= i < |seen| && seen[i].Err?
  }

  predicate AllNon200(seen: seq<Outcome>) {
    forall i :: 0 <= i < |seen| ==> seen[i].Ok? && seen[i].value.status != 200
  }

  /** The first 200 in arrival order. */
  function First200(seen: seq<Outcome>): (i: nat)
    requires Any200(seen)
    ensures i < |seen| && Is200(seen[i]) && !Any200(seen[..i])
  {
    var n := |seen| - 1;
    if Any200(seen[..n]) then
      var i := First200(seen[..n]);
      assert seen[..n][..i] == seen[..i];
      i
    else
      n
  }

  function LastErr(seen: seq<Outcome>): (text: string)
    requires AnyErr(seen)
    ensures Err(text) in seen
  {
    var n := |seen| - 1;
    if seen[n].Err? then seen[n].error else
      assert AnyErr(seen[..n]) by {
        var k :| 0 <= k < |seen| && seen[k].Err?;
        assert seen[..n][k] == seen[k];
      }
      LastErr(seen[..n])
  }

  /** What the loop answers after it has consumed `seen`: a matching last answer, else the first 200,
      else the last error, else "not found". */
  function Verdict(seen: seq<Outcome>, ok: string -> bool, image: string, reference: string): Outcome {
    if seen != [] && IsMatch(seen[|seen| - 1], ok) then seen[|seen| - 1]
    else if Any200(seen) then seen[First200(seen)]
    else if AnyErr(seen) then Err(FAILED_PREFIX + LastErr(seen))
    else Err(NotFoundText(image, reference))
  }

  /** The loop stops after `consumed` answers: it went on past every earlier one, and it stops there because
      of a match, because everything has arrived, or because the grace timer won the wait. `wins[j]` says
      that the timer, if armed, fires before answer `j`. */
  ghost predicate StopsAt(outcomes: seq<Outcome>, wins: seq<bool>, ok: string -> bool, consumed: nat)
    requires |wins| == |outcomes|
  {
    && consumed <= |outcomes|
    && (forall j :: 0 <= j < consumed - 1 ==> !IsMatch(outcomes[j], ok))
    && (forall j :: 0 <= j < consumed && wins[j] ==> !Any200(outcomes[..j]))
    && (consumed < |outcomes| ==>
        (consumed > 0 && IsMatch(outcomes[consumed - 1], ok)) || (wins[consumed] && Any200(outcomes[..consumed])))
  }

  /** What the loop knows after `n` answers: none of them ended it, `fallback` is the first 200 among them and
      `lastErr` the last error. */
  ghost predicate Heard(outcomes: seq<Outcome>, wins: seq<bool>, ok: string -> bool, n: nat,
                        fallback: Option<Response>, lastErr: Option<string>)
    requires |wins| == |outcomes|
  {
    && n <= |outcomes|
    && (forall j :: 0 <= j < n ==> !IsMatch(outcomes[j], ok))
    && (forall j :: 0 <= j < n && wins[j] ==> !Any200(outcomes[..j]))
    && fallback.Some? == Any200(outcomes[..n])
    && (fallback.Some? ==> outcomes[First200(outcomes[..n])] == Ok(fallback.value))
    && lastErr.Some? == AnyErr(outcomes[..n])
    && (lastErr.Some? ==> lastErr.value == LastErr(outcomes[..n]))
  }

  lemma HeardNothing(outcomes: seq<Outcome>, wins: seq<bool>, ok: string -> bool)
    requires |wins| == |outcomes|
    ensures Heard(outcomes, wins, ok, 0, None, None)
  {
  }

  lemma HeardMore(outcomes: seq<Outcome>, wins: seq<bool>, ok: string -> bool, n: nat,
                  fallback: Option<Response>, lastErr: Option<string>)
    requires |wins| == |outcomes| && n < |outcomes| && Heard(outcomes, wins, ok, n, fallback, lastErr)
    requires !IsMatch(outcomes[n], ok) && !(fallback.Some? && wins[n])
    ensures
      var next := outcomes[n];
      Heard(outcomes, wins, ok, n + 1,
            if Is200(next) && fallback.None? then Some(next.value) else fallback,
            if next.Err? then Some(next.error) else lastErr)
  {
    Consume(outcomes, n);
    hide Any200, AnyErr, First200, LastErr, IsMatch;
  }

  lemma HeardMatch(outcomes: seq<Outcome>, wins: seq<bool>, ok: string -> bool, n: nat,
                   fallback: Option<Response>, lastErr: Option<string>, image: string, reference: string)
    requires |wins| == |outcomes| && n < |outcomes| && Heard(outcomes, wins, ok, n, fallback, lastErr)
    requires IsMatch(outcomes[n], ok) && !(fallback.Some? && wins[n])
    ensures StopsAt(outcomes, wins, ok, n + 1)
    ensures Verdict(outcomes[..n + 1], ok, image, reference) == outcomes[n]
  {
    hide Any200, AnyErr, First200, LastErr, IsMatch;
  }

  lemma HeardAll(outcomes: seq<Outcome>, wins: seq<bool>, ok: string -> bool, n: nat,
                 fallback: Option<Response>, lastErr: Option<string>, image: string, reference: string)
    requires |wins| == |outcomes| && Heard(outcomes, wins, ok, n, fallback, lastErr)
    requires n == |outcomes| || (fallback.Some? && wins[n])
    ensures StopsAt(outcomes, wins, ok, n)
    ensures Verdict(outcomes[..n], ok, image, reference) ==
            match fallback
            case Some(r) => Ok(r)
            case None => Err(if lastErr.Some? then FAILED_PREFIX + lastErr.value else NotFoundText(image, reference))
  {
    hide Any200, AnyErr, First200, LastErr, IsMatch, NotFoundText;
  }

  /** The `loop` over `results.next()`, for any arrival order, any timing and any mix of outcomes. */
  method CollectResults(outcomes: seq<Outcome>, wins: seq<bool>, accept: seq<string>, image: string, reference: string)
    returns (r: Outcome, consumed: nat)
    requires |wins| == |outcomes|
    ensures StopsAt(outcomes, wins, Accepting(accept), consumed)
    ensures r == Verdict(outcomes[..consumed], Accepting(accept), image, reference)
  {
    hide Accept.Matches, Heard, StopsAt, Verdict, NotFoundText;
    var lastErr: Option<string> := None;
    var fallback: Option<Response> := None;
    var graceArmed := false;
    consumed := 0;
    ghost var ok := Accepting(accept);
    HeardNothing(outcomes, wins, ok);
    while true
      invariant consumed <= |outcomes| && graceArmed == fallback.Some?
      invariant Heard(outcomes, wins, ok, consumed, fallback, lastErr)
      decreases |outcomes| - consumed
    {
      if consumed == |outcomes| || (graceArmed && wins[consumed]) {
        break;
      }
      var next := outcomes[consumed];
      if next.Ok? && next.value.status == 200 {
        var matches := accept == [];
        if !matches {
          matches := Accept.ContentTypeMatches(next.value.contentType, accept);
        }
        if matches {
          HeardMatch(outcomes, wins, ok, consumed, fallback, lastErr, image, reference);
          return next, consumed + 1;
        }
        HeardMore(outcomes, wins, ok, consumed, fallback, lastErr);
        if fallback.None? {
          fallback := Some(next.value);
          graceArmed := true;
        }
      } else {
        HeardMore(outcomes, wins, ok, consumed, fallback, lastErr);
        if next.Err? {
          lastErr := Some(next.error);
        }
      }
      consumed := consumed + 1;
    }
    HeardAll(outcomes, wins, ok, consumed, fallback, lastErr, image, reference);
    if fallback.Some? {
      return Ok(fallback.value), consumed;
    }
    if lastErr.Some? {
      return Err(FAILED_PREFIX + lastErr.value), consumed;
    }
    return Err(NotFoundText(image, reference)), consumed;
  }

  /** How one more answer changes what the loop remembers. */
  lemma Consume(outcomes: seq<Outcome>, n: nat)
    requires n < |outcomes|
    ensures Any200(outcomes[..n + 1]) <==> Any200(outcomes[..n]) || Is200(outcomes[n])
    ensures AnyErr(outcomes[..n + 1]) <==> AnyErr(outcomes[..n]) || outcomes[n].Err?
    ensures Any200(outcomes[..n + 1]) ==>
              First200(outcomes[..n + 1]) == if Any200(outcomes[..n]) then First200(outcomes[..n]) else n
    ensures AnyErr(outcomes[..n + 1]) ==>
              LastErr(outcomes[..n + 1]) == if outcomes[n].Err? then outcomes[n].error else LastErr(outcomes[..n])
  {
    var old_, new_ := outcomes[..n], outcomes[..n + 1];
    assert forall i :: 0 <= i < n ==> old_[i] == new_[i] == outcomes[i];
    assert new_[n] == outcomes[n] && new_[..n] == old_;
    if Any200(new_) {
      var i := First200(new_);
      assert !Any200(new_[..i]);
      if Any200(old_) {
        FirstIsUnique(new_, i, First200(old_));
      }
    }
  }

  lemma FirstIsUnique(seen: seq<Outcome>, i: nat, k: nat)
    requires i < |seen| && Is200(seen[i]) && !Any200(seen[..i])
    requires k < |seen| && Is200(seen[k]) && !Any200(seen[..k])
    ensures i == k
  {
    assert forall j :: 0 <= j < i ==> seen[..i][j] == seen[j];
    assert forall j :: 0 <= j < k ==> seen[..k][j] == seen[j];
  }

  /** For every arrival order and timing: a 200 is returned exactly when any project answered 200, and
      an error only after every answer was consumed. */
  lemma OkIffAny200(outcomes: seq<Outcome>, wins: seq<bool>, ok: string -> bool, image: string, reference: string,
      consumed: nat)
    requires |wins| == |outcomes| && StopsAt(outcomes, wins, ok, consumed)
    ensures
      var r := Verdict(outcomes[..consumed], ok, image, reference);
      (r.Ok? <==> Any200(outcomes)) && (r.Ok? ==> Is200(r) && r in outcomes) && (r.Err? ==> consumed == |outcomes|)
  {
    var seen := outcomes[..consumed];
    assert forall i :: 0 <= i < consumed ==> seen[i] == outcomes[i];
    if Any200(outcomes) {
      FirstIsConsumed(outcomes, wins, ok, consumed);
    }
  }

  /** The first matching 200 that the timer does not cut off is the answer. */
  lemma UncutMatchIsReturned(outcomes: seq<Outcome>, wins: seq<bool>, ok: string -> bool, image: string,
                             reference: string, consumed: nat, m: nat)
    requires |wins| == |outcomes| && StopsAt(outcomes, wins, ok, consumed)
    requires m < |outcomes| && FirstMatch(outcomes, ok, m) && NotCut(outcomes, wins, m)
    ensures consumed == m + 1 && Verdict(outcomes[..consumed], ok, image, reference) == outcomes[m]
  {
    assert outcomes[..consumed][consumed - 1] == outcomes[consumed - 1];
  }

  lemma LastMatchIsUncut(outcomes: seq<Outcome>, wins: seq<bool>, ok: string -> bool, consumed: nat)
    requires |wins| == |outcomes| && StopsAt(outcomes, wins, ok, consumed)
    requires consumed > 0 && IsMatch(outcomes[consumed - 1], ok)
    ensures FirstMatch(outcomes, ok, consumed - 1) && NotCut(outcomes, wins, consumed - 1)
  {
  }

  lemma UnmatchedIsFirst200(seen: seq<Outcome>, rest: seq<Outcome>, ok: string -> bool, image: string,
      reference: string)
    requires Any200(seen) && !IsMatch(seen[|seen| - 1], ok)
    ensures Any200(seen + rest) && Verdict(seen, ok, image, reference) == (seen + rest)[First200(seen + rest)]
  {
    var f, all := First200(seen), seen + rest;
    assert all[f] == seen[f] && all[..f] == seen[..f];
    FirstIsUnique(all, f, First200(all));
  }

  /** Without such a match the fallback is the first 200 in arrival order, if there is one. */
  lemma OtherwiseFirst200(outcomes: seq<Outcome>, wins: seq<bool>, ok: string -> bool, image: string, reference: string,
                          consumed: nat)
    requires |wins| == |outcomes| && StopsAt(outcomes, wins, ok, consumed)
    requires Any200(outcomes)
    requires forall m :: 0 <= m < |outcomes| && FirstMatch(outcomes, ok, m) ==> !NotCut(outcomes, wins, m)
    ensures Verdict(outcomes[..consumed], ok, image, reference) == outcomes[First200(outcomes)]
  {
    var seen := outcomes[..consumed];
    FirstIsConsumed(outcomes, wins, ok, consumed);
    if IsMatch(outcomes[consumed - 1], ok) {
      LastMatchIsUncut(outcomes, wins, ok, consumed);
      assert false;
    }
    hide FirstMatch, NotCut, StopsAt;
    assert seen + outcomes[consumed..] == outcomes;
    UnmatchedIsFirst200(seen, outcomes[consumed..], ok, image, reference);
  }

  predicate FirstMatch(outcomes: seq<Outcome>, ok: string -> bool, m: nat)
    requires m < |outcomes|
  {
    IsMatch(outcomes[m], ok) && forall j :: 0 <= j < m ==> !IsMatch(outcomes[j], ok)
  }

  /** The timer, armed by the first 200, does not fire up to and including the wait for answer `m`. */
  predicate NotCut(outcomes: seq<Outcome>, wins: seq<bool>, m: nat)
    requires |wins| == |outcomes| && m < |outcomes|
  {
    forall j :: 0 <= j <= m && wins[j] ==> !Any200(outcomes[..j])
  }

  lemma FirstIsConsumed(outcomes: seq<Outcome>, wins: seq<bool>, ok: string -> bool, consumed: nat)
    requires |wins| == |outcomes| && StopsAt(outcomes, wins, ok, consumed) && Any200(outcomes)
    ensures Any200(outcomes[..consumed])
  {
    if consumed == |outcomes| {
      assert outcomes[..consumed] == outcomes;
    } else if consumed > 0 && IsMatch(outcomes[consumed - 1], ok) {
      assert outcomes[..consumed][consumed - 1] == outcomes[consumed - 1];
    }
  }

  /** The first matching 200, received before the timer cuts the wait off. */
  predicate Timely(outcomes: seq<Outcome>, wins: seq<bool>, ok: string -> bool, m: nat)
    requires |wins| == |outcomes| && m < |outcomes|
  {
    FirstMatch(outcomes, ok, m) && NotCut(outcomes, wins, m)
  }

  /** What a hit is, spelled out. */
  lemma HitIs200(outcomes: seq<Outcome>)
    ensures Any200(outcomes) <==> exists i :: 0 <= i < |outcomes| && outcomes[i].Ok? && outcomes[i].value.status == 200
    ensures Any200(outcomes) ==>
              var f := First200(outcomes);
              && outcomes[f].Ok? && outcomes[f].value.status == 200
              && forall j :: 0 <= j < f ==> !(outcomes[j].Ok? && outcomes[j].value.status == 200)
  {
    assert forall i :: 0 <= i < |outcomes| ==>
        (Is200(outcomes[i]) <==> outcomes[i].Ok? && outcomes[i].value.status == 200);
    if Any200(outcomes) {
      var f := First200(outcomes);
      assert forall j :: 0 <= j < f ==> outcomes[..f][j] == outcomes[j];
    }
  }

  /** Which answer is returned, for every arrival order, timing and mix: the timely match if there is one, else
      the first 200 in arrival order if there is one, else an error, and that only when nothing is left to hear. */
  lemma Selected(outcomes: seq<Outcome>, wins: seq<bool>, ok: string -> bool, image: string, reference: string,
      consumed: nat)
    requires |wins| == |outcomes| && StopsAt(outcomes, wins, ok, consumed)
    ensures
      var r := Verdict(outcomes[..consumed], ok, image, reference);
      && (forall m :: 0 <= m < |outcomes| && Timely(outcomes, wins, ok, m) ==> consumed == m + 1 && r == outcomes[m])
      && ((forall m :: 0 <= m < |outcomes| ==> !Timely(outcomes, wins, ok, m)) && Any200(outcomes) ==>
            r == outcomes[First200(outcomes)])
      && (r.Ok? <==> Any200(outcomes))
      && (r.Err? ==> consumed == |outcomes|)
  {
    OkIffAny200(outcomes, wins, ok, image, reference, consumed);
    hide Verdict, StopsAt, FirstMatch, NotCut, Any200;
    if m: nat :| m < |outcomes| && Timely(outcomes, wins, ok, m) {
      forall m: nat | m < |outcomes| && Timely(outcomes, wins, ok, m)
        ensures consumed == m + 1 && Verdict(outcomes[..consumed], ok, image, reference) == outcomes[m]
      {
        UncutMatchIsReturned(outcomes, wins, ok, image, reference, consumed, m);
      }
    } else if Any200(outcomes) {
      assert forall m :: 0 <= m < |outcomes| && FirstMatch(outcomes, ok, m) && NotCut(outcomes, wins, m) ==>
          Timely(outcomes, wins, ok, m);
      OtherwiseFirst200(outcomes, wins, ok, image, reference, consumed);
    }
  }

  /** The first answer in arrival order with status 200. */
  predicate FirstOf200(outcomes: seq<Outcome>, f: int) {
    && 0 <= f < |outcomes| && outcomes[f].Ok? && outcomes[f].value.status == 200
    && forall j :: 0 <= j < f ==> !(outcomes[j].Ok? && outcomes[j].value.status == 200)
  }

  /** The first answer with status 200 whose content type the client takes. */
  predicate FirstTaken(outcomes: seq<Outcome>, ok: string -> bool, m: int) {
    && 0 <= m < |outcomes| && outcomes[m].Ok? && outcomes[m].value.status == 200 && ok(outcomes[m].value.contentType)
    && forall j :: 0 <= j < m ==>
         !(outcomes[j].Ok? && outcomes[j].value.status == 200 && ok(outcomes[j].value.contentType))
  }

  /** The timer does not fire in a wait, up to the one for answer `m`, that begins after a 200 was received. */
  predicate Unhurried(outcomes: seq<Outcome>, wins: seq<bool>, m: nat)
    requires |wins| == |outcomes| && m < |outcomes|
  {
    forall i, j :: 0 <= i < j <= m && outcomes[i].Ok? && outcomes[i].value.status == 200 ==> !wins[j]
  }

  lemma TimelyMeans(outcomes: seq<Outcome>, wins: seq<bool>, ok: string -> bool, m: nat)
    requires |wins| == |outcomes| && m < |outcomes|
    ensures Timely(outcomes, wins, ok, m) <==> FirstTaken(outcomes, ok, m) && Unhurried(outcomes, wins, m)
  {
    forall j | 0 <= j <= m
      ensures Any200(outcomes[..j]) <==> exists i :: 0 <= i < j && outcomes[i].Ok? && outcomes[i].value.status == 200
    {
      HitIs200(outcomes[..j]);
      assert forall i :: 0 <= i < j ==> outcomes[..j][i] == outcomes[i];
    }
    hide Any200;
  }

  /** The same, with every condition on the answers spelled out: a 200 is returned exactly when somebody answered 200;
      it is the first one that the client takes if the timer leaves it time, and else the first in arrival order; and an
      error is returned only when nothing is left to hear. */
  lemma Selection(outcomes: seq<Outcome>, wins: seq<bool>, ok: string -> bool, image: string, reference: string,
      consumed: nat)
    requires |wins| == |outcomes| && StopsAt(outcomes, wins, ok, consumed)
    ensures
      var r := Verdict(outcomes[..consumed], ok, image, reference);
      && (r.Ok? <==> exists i :: 0 <= i < |outcomes| && outcomes[i].Ok? && outcomes[i].value.status == 200)
      && (r.Ok? ==> r.value.status == 200 && r in outcomes)
      && (r.Err? ==> consumed == |outcomes|)
      && (forall m :: FirstTaken(outcomes, ok, m) && Unhurried(outcomes, wins, m) ==>
            consumed == m + 1 && r == outcomes[m])
      && ((forall m :: FirstTaken(outcomes, ok, m) ==> !Unhurried(outcomes, wins, m)) ==>
            forall f :: FirstOf200(outcomes, f) ==> r == outcomes[f])
  {
    OkIffAny200(outcomes, wins, ok, image, reference, consumed);
    HitIs200(outcomes);
    assert Is200(Verdict(outcomes[..consumed], ok, image, reference)) ==>
        Verdict(outcomes[..consumed], ok, image, reference).value.status == 200;
    hide Verdict, StopsAt, Any200, FirstTaken, FirstOf200, Unhurried, Is200;
    forall m | FirstTaken(outcomes, ok, m) && Unhurried(outcomes, wins, m)
      ensures consumed == m + 1 && Verdict(outcomes[..consumed], ok, image, reference) == outcomes[m]
    {
      TakenIsSelected(outcomes, wins, ok, image, reference, consumed, m);
    }
    if forall m :: FirstTaken(outcomes, ok, m) ==> !Unhurried(outcomes, wins, m) {
      forall f | FirstOf200(outcomes, f)
        ensures Verdict(outcomes[..consumed], ok, image, reference) == outcomes[f]
      {
        FallbackIsSelected(outcomes, wins, ok, image, reference, consumed, f);
      }
    }
  }

  lemma TakenIsSelected(outcomes: seq<Outcome>, wins: seq<bool>, ok: string -> bool, image: string,
      reference: string, consumed: nat, m: nat)
    requires |wins| == |outcomes| && StopsAt(outcomes, wins, ok, consumed)
    requires FirstTaken(outcomes, ok, m) && Unhurried(outcomes, wins, m)
    ensures consumed == m + 1 && Verdict(outcomes[..consumed], ok, image, reference) == outcomes[m]
  {
    TimelyMeans(outcomes, wins, ok, m);
    Selected(outcomes, wins, ok, image, reference, consumed);
    hide Verdict, StopsAt, Timely, Unhurried, Any200, First200;
  }

  lemma FallbackIsSelected(outcomes: seq<Outcome>, wins: seq<bool>, ok: string -> bool, image: string,
      reference: string, consumed: nat, f: nat)
    requires |wins| == |outcomes| && StopsAt(outcomes, wins, ok, consumed)
    requires forall m :: FirstTaken(outcomes, ok, m) ==> !Unhurried(outcomes, wins, m)
    requires FirstOf200(outcomes, f)
    ensures Verdict(outcomes[..consumed], ok, image, reference) == outcomes[f]
  {
    Selected(outcomes, wins, ok, image, reference, consumed);
    HitIs200(outcomes);
    assert Any200(outcomes) && f == First200(outcomes);
    hide Verdict, StopsAt, Timely, Unhurried, Any200, First200, FirstTaken, FirstOf200;
    forall m | 0 <= m < |outcomes| ensures !Timely(outcomes, wins, ok, m) {
      TimelyMeans(outcomes, wins, ok, m);
    }
  }

  /** The first answer with status 200 whose content type is among those the client lists. */
  predicate FirstListed(outcomes: seq<Outcome>, accept: seq<string>, m: int) {
    && 0 <= m < |outcomes| && outcomes[m].Ok? && outcomes[m].value.status == 200
    && Accept.Matches(outcomes[m].value.contentType, accept)
    && forall j :: 0 <= j < m ==>
         !(outcomes[j].Ok? && outcomes[j].value.status == 200 && Accept.Matches(outcomes[j].value.contentType, accept))
  }

  /** What the client's Accept header decides: without one the first 200 ends the lookup at once; with one only a 200 of
      a listed type does, and the first 200 is what remains when none of these is in time. */
  lemma HeaderDecides(outcomes: seq<Outcome>, wins: seq<bool>, accept: seq<string>, image: string, reference: string,
      consumed: nat)
    requires |wins| == |outcomes| && StopsAt(outcomes, wins, Accepting(accept), consumed)
    ensures
      var r := Verdict(outcomes[..consumed], Accepting(accept), image, reference);
      && (accept == [] ==> forall f :: FirstOf200(outcomes, f) ==> consumed == f + 1 && r == outcomes[f])
      && (accept != [] ==>
            && (forall m :: FirstListed(outcomes, accept, m) && Unhurried(outcomes, wins, m) ==>
                  consumed == m + 1 && r == outcomes[m])
            && ((forall m :: FirstListed(outcomes, accept, m) ==> !Unhurried(outcomes, wins, m)) ==>
                  forall f :: FirstOf200(outcomes, f) ==> r == outcomes[f]))
  {
    var ok := Accepting(accept);
    assert accept == [] ==> forall f :: FirstOf200(outcomes, f) ==>
        FirstTaken(outcomes, ok, f) && Unhurried(outcomes, wins, f);
    assert accept != [] ==> forall m :: FirstListed(outcomes, accept, m) <==> FirstTaken(outcomes, ok, m);
    hide FirstOf200, FirstTaken, FirstListed, Unhurried, StopsAt, Verdict, Accept.Matches;
    Selection(outcomes, wins, ok, image, reference, consumed);
  }

  /** How a lookup fails: with the text of the last error among the answers, or, when no answer was an error, with the
      text that names the image and the reference. */
  lemma FailureNamesTheLastError(outcomes: seq<Outcome>, wins: seq<bool>, ok: string -> bool, image: string,
      reference: string, consumed: nat)
    requires |wins| == |outcomes| && StopsAt(outcomes, wins, ok, consumed)
    requires forall i :: 0 <= i < |outcomes| ==> !(outcomes[i].Ok? && outcomes[i].value.status == 200)
    ensures
      var r := Verdict(outcomes[..consumed], ok, image, reference);
      && ((forall i :: 0 <= i < |outcomes| ==> outcomes[i].Ok?) ==>
            r == Err("image " + image + ":" + reference + " not found in any proxy-cache project"))
      && forall k :: 0 <= k < |outcomes| && outcomes[k].Err? && (forall j :: k < j < |outcomes| ==> outcomes[j].Ok?) ==>
           r == Err("all projects failed, last error: " + outcomes[k].error)
  {
    HitIs200(outcomes);
    OkIffAny200(outcomes, wins, ok, image, reference, consumed);
    assert consumed == |outcomes| && outcomes[..consumed] == outcomes;
    WrittenOut(image, reference);
    hide StopsAt, Any200, IsMatch, NotFoundText;
    assert !(outcomes != [] && IsMatch(outcomes[|outcomes| - 1], ok)) by { UnhitIsUnmatched(outcomes, ok); }
    forall k: nat | k < |outcomes| && outcomes[k].Err? && (forall j :: k < j < |outcomes| ==> outcomes[j].Ok?)
      ensures AnyErr(outcomes) && LastErr(outcomes) == outcomes[k].error
    {
      LastErrAt(outcomes, k);
    }
    hide LastErr;
  }

  lemma UnhitIsUnmatched(outcomes: seq<Outcome>, ok: string -> bool)
    requires !Any200(outcomes)
    ensures !(outcomes != [] && IsMatch(outcomes[|outcomes| - 1], ok))
  {
  }

  lemma WrittenOut(image: string, reference: string)
    ensures NotFoundText(image, reference)
            == "image " + image + ":" + reference + " not found in any proxy-cache project"
  {
    var head := "image " + image + ":" + reference;
    assert " " + NOT_FOUND_PHRASE == " not found in any proxy-cache project";
    assert head + " " + NOT_FOUND_PHRASE == head + (" " + NOT_FOUND_PHRASE);
  }

  lemma {:induction false} LastErrAt(seen: seq<Outcome>, k: nat)
    requires k < |seen| && seen[k].Err? && forall j :: k < j < |seen| ==> seen[j].Ok?
    ensures AnyErr(seen) && LastErr(seen) == seen[k].error
  {
    var n := |seen| - 1;
    if k < n {
      assert seen[..n][k] == seen[k];
      LastErrAt(seen[..n], k);
    }
  }

  /** With arrival instants `at`: the timer cannot win before its deadline, so the first answer that the client takes is
      returned if it arrives within 200 ms of the first 200. */
  lemma MatchWithinGraceIsReturned(outcomes: seq<Outcome>, wins: seq<bool>, at: seq<nat>, ok: string -> bool,
      image: string, reference: string, consumed: nat, m: nat)
    requires |wins| == |outcomes| == |at| && StopsAt(outcomes, wins, ok, consumed)
    requires forall i, j :: 0 <= i < j < |at| ==> at[i] <= at[j]
    requires FirstTaken(outcomes, ok, m)
    requires forall f, j :: FirstOf200(outcomes, f) && f < j < |at| && wins[j] ==> at[j] >= at[f] + FALLBACK_GRACE_MS
    requires forall f :: FirstOf200(outcomes, f) && f < m ==> at[m] < at[f] + 200
    ensures Verdict(outcomes[..consumed], ok, image, reference) == outcomes[m]
  {
    Selection(outcomes, wins, ok, image, reference, consumed);
    HitIs200(outcomes);
    hide Verdict, StopsAt, FirstTaken;
    forall i, j | 0 <= i < j <= m && outcomes[i].Ok? && outcomes[i].value.status == 200
      ensures !wins[j]
    {
      var f := First200(outcomes);
      assert FirstOf200(outcomes, f) && f <= i;
      assert at[j] <= at[m];
    }
  }

  // ----- the texts -----

  lemma NotOccurring(s: string, p: string, k: nat)
    requires k < |p| && p[k] !in s
    ensures !Contains(s, p)
  {
    forall i: nat | i <= |s|
      ensures !OccursAt(s, p, i)
    {
      if i + |p| <= |s| {
        assert s[i..i + |p|][k] == s[i + k];
      }
    }
  }

  /** The prefix of a failed lookup never completes the phrase. */
  lemma PrefixAddsNothing(text: string)
    ensures IsAllProjectsNon200(FAILED_PREFIX + text) <==> IsAllProjectsNon200(text)
  {
    var s, p, n := FAILED_PREFIX + text, NOT_FOUND_PHRASE, |FAILED_PREFIX|;
    assert n == 33 && |p| == 36 && s[31] == ':' && s[32] == ' ' && p[0] == 'n' && ':' !in p;
    forall i: nat | i + 36 <= |s|
      ensures OccursAt(s, p, i) <==> i >= n && OccursAt(text, p, i - n)
    {
      assert s[i..i + 36][if i <= 31 then 31 - i else 0] == s[if i <= 31 then 31 else i];
      if i >= n {
        assert s[i..i + 36] == text[i - n..i - n + 36];
      }
    }
    forall i: nat | i <= |text| && OccursAt(text, p, i)
      ensures OccursAt(s, p, n + i)
    {
      assert OccursAt(s, p, n + i) <==> OccursAt(text, p, n + i - n);
    }
  }

  /** A failed lookup is classified "not found" exactly when no answer was an error, or the last error's
      own text holds the phrase. */
  lemma ClassifiesFailures(seen: seq<Outcome>, ok: string -> bool, image: string, reference: string)
    requires !Any200(seen)
    ensures
      var r := Verdict(seen, ok, image, reference);
      && r.Err?
      && (IsAllProjectsNon200(r.error) <==> AllNon200(seen) || (AnyErr(seen) && IsAllProjectsNon200(LastErr(seen))))
  {
    if AnyErr(seen) {
      PrefixAddsNothing(LastErr(seen));
    } else {
      var text := NotFoundText(image, reference);
      var k: nat := |text| - |NOT_FOUND_PHRASE|;
      assert OccursAt(text, NOT_FOUND_PHRASE, k);
    }
  }

  lemma OtherTextsAreNotClassified()
    ensures !IsAllProjectsNon200(NO_PROJECTS) && !IsAllProjectsNon200(NONE_AVAILABLE)
  {
    hide IsAllProjectsNon200;
    LacksF("no proxy-cache ", "projects discovered");
    LacksF("no available proxy-cache ", "projects (all circuits open)");
  }

  /** A text without the `f` of "found" does not hold the phrase. */
  lemma LacksF(a: string, b: string)
    requires 'f' !in a && 'f' !in b
    ensures !IsAllProjectsNon200(a + b)
  {
    assert NOT_FOUND_PHRASE[4] == 'f';
    NotOccurring(a + b, NOT_FOUND_PHRASE, 4);
  }
}
