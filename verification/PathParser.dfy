/** Registry paths: `<image>/manifests/<reference>`, `<image>/blobs/<reference>` and
    `<image>/tags/list`, as they follow `/v2/`. */
module PathParser {
  import opened Text

  datatype Kind = Manifests | Blobs | Tags

  datatype Request = Request(image: string, kind: Kind, reference: string)

  predicate NoControl(s: string) {
    forall i :: 0 <= i < |s| ==> !IsControl(s[i])
  }

  predicate SafeImage(name: string) {
    name != "" && !Contains(name, "..") && '\\' !in name && NoControl(name)
    && !StartsWith(name, "/") && !EndsWith(name, "/") && name == Trim(name)
  }

  predicate SafeReference(reference: string) {
    reference != "" && '/' !in reference && '\\' !in reference && !Contains(reference, "..")
    && NoControl(reference) && reference == Trim(reference)
  }

  function Segment(kind: Kind): (segment: string)
    ensures |segment| > 1 && segment[0] == '/'
  {
    match kind
    case Manifests => "/manifests/"
    case Blobs => "/blobs/"
    case Tags => "/tags/"
  }

  function Print(r: Request): string {
    r.image + Segment(r.kind) + r.reference
  }

  /** The last place at or before `n` where `p` occurs. */
  function LastUpTo(s: string, p: string, n: nat): (i: Option<nat>)
    requires n <= |s|
    ensures i.None? ==> forall j: nat :: j <= n ==> !OccursAt(s, p, j)
    ensures i.Some? ==> i.value <= n && OccursAt(s, p, i.value)
    ensures i.Some? ==> forall j: nat :: i.value < j <= n ==> !OccursAt(s, p, j)
  {
    if OccursAt(s, p, n) then Some(n) else if n == 0 then None else LastUpTo(s, p, n - 1)
  }

  /** `s.rfind(p)` */
  function RFind(s: string, p: string): Option<nat> {
    LastUpTo(s, p, |s|)
  }

  function Checked(image: string, kind: Kind, reference: string): Result<Request> {
    if image == "" || reference == "" then Err("invalid path: missing image or reference")
    else if !SafeImage(image) then Err("invalid image name: unsafe characters or path traversal")
    else if !SafeReference(reference) then Err("invalid reference: unsafe characters or path traversal")
    else Ok(Request(image, kind, reference))
  }

  /** `parse_path`: the suffix `/tags/list` is tried first, then the last `/manifests/`, then the last `/blobs/`. */
  function ParsePath(path: string): Result<Request> {
    if EndsWith(path, "/tags/list") then
      var image := path[..|path| - 10];
      if image == "" then Err("invalid path: missing image name")
      else if !SafeImage(image) then Err("invalid image name: unsafe characters or path traversal")
      else Ok(Request(image, Tags, "list"))
    else
      match RFind(path, "/manifests/")
      case Some(i) => Checked(path[..i], Manifests, path[i + 11..])
      case None =>
        match RFind(path, "/blobs/")
        case Some(i) => Checked(path[..i], Blobs, path[i + 7..])
        case None => Err("path must contain /manifests/, /blobs/, or /tags/list")
  }

  /** The requests that the grammar can express. Only blobs carry a condition on the image beyond safety. */
  predicate Expressible(r: Request) {
    SafeImage(r.image) && SafeReference(r.reference)
    && (r.kind.Tags? ==> r.reference == "list")
    && (r.kind.Blobs? ==> !Contains(r.image + "/", "/manifests/"))
  }

  lemma SafeReferenceHasNoSlash(reference: string)
    requires SafeReference(reference)
    ensures '/' !in reference && reference != ""
  {
  }

  lemma OccursChar(s: string, p: string, i: nat, k: nat)
    requires k < |p| && i + |p| <= |s|
    ensures OccursAt(s, p, i) ==> s[i + k] == p[k]
  {
    assert s[i..i + |p|][k] == s[i + k];
  }

  /** A slash in a printed path lies in its image or bounds its segment. */
  lemma SlashesOfPrinted(r: Request, k: nat)
    requires '/' !in r.reference && k < |Print(r)|
    ensures Print(r)[k] == '/' ==> k <= |r.image| || k == |r.image| + |Segment(r.kind)| - 1
  {
    var s, a, p := Print(r), |r.image|, Segment(r.kind);
    assert forall j :: a + |p| <= j < |s| ==> s[j] == r.reference[j - a - |p|];
    assert forall j :: a <= j < a + |p| ==> s[j] == p[j - a];
  }

  /** The segment of a printed path is its last occurrence of that segment. */
  lemma SegmentIsLast(r: Request)
    requires '/' !in r.reference
    ensures RFind(Print(r), Segment(r.kind)) == Some(|r.image|)
  {
    var s, p, a := Print(r), Segment(r.kind), |r.image|;
    assert OccursAt(s, p, a) by { assert s[a..a + |p|] == p; }
    forall j: nat | a < j <= |s| ensures !OccursAt(s, p, j) {
      if j + |p| <= |s| {
        SlashesOfPrinted(r, j + |p| - 1);
        OccursChar(s, p, j, |p| - 1);
        assert p[|p| - 1] == '/';
      }
    }
  }

  lemma NotTags(r: Request)
    requires !r.kind.Tags? && '/' !in r.reference
    ensures !EndsWith(Print(r), "/tags/list")
  {
    var s, p, a, t := Print(r), Segment(r.kind), |r.image|, "/tags/list";
    if |s| >= 10 {
      var i := |s| - 10;
      assert EndsWith(s, t) <==> OccursAt(s, t, i);
      OccursChar(s, t, i, 3);
      OccursChar(s, t, i, 5);
      SlashesOfPrinted(r, i + 5);
      if i + 5 == a + |p| - 1 {
        assert s[i + 3] == p[|p| - 3] != 'g';
      }
    }
  }

  /** In a printed blob path every `/manifests/` lies in the image and the slash that follows it. */
  lemma ManifestsInBlobPath(image: string, reference: string)
    requires '/' !in reference
    ensures Contains(Print(Request(image, Blobs, reference)), "/manifests/") <==> Contains(image + "/", "/manifests/")
  {
    var r := Request(image, Blobs, reference);
    var s, t, p := Print(r), image + "/", "/manifests/";
    forall i: nat ensures OccursAt(s, p, i) <==> OccursAt(t, p, i) {
      if i + 11 <= |t| {
        assert t[i..i + 11] == s[i..i + 11];
      } else if i + 11 <= |s| {
        OccursChar(s, p, i, 10);
        OccursChar(s, p, i, 8);
        SlashesOfPrinted(r, i + 10);
        assert s[|image| + 4] == "/blobs/"[4] == 'b';
      }
    }
    if Contains(s, p) {
      var i: nat :| i <= |s| && OccursAt(s, p, i);
      assert OccursAt(t, p, i);
    }
    if Contains(t, p) {
      var i: nat :| i <= |t| && OccursAt(t, p, i);
      assert OccursAt(s, p, i);
    }
  }

  lemma RFindMeans(s: string, p: string)
    ensures RFind(s, p).None? <==> !Contains(s, p)
    ensures RFind(s, p).Some? ==> OccursAt(s, p, RFind(s, p).value)
  {
  }

  lemma SplitAtSegment(path: string, p: string, i: nat)
    requires OccursAt(path, p, i)
    ensures path == path[..i] + p + path[i + |p|..]
  {
    assert path == path[..i] + path[i..i + |p|] + path[i + |p|..];
  }

  lemma ListIsSafe()
    ensures SafeReference("list")
  {
    var s := "list";
    forall i: nat ensures !OccursAt(s, "..", i) {
      if i + 2 <= |s| { OccursChar(s, "..", i, 0); }
    }
    assert TrimStart(s) == s;
  }

  /** An accepted path is exactly the image, the segment and the reference that it is split into, all expressible. */
  lemma AcceptedIsPrinted(path: string)
    ensures ParsePath(path).Ok? ==> Print(ParsePath(path).value) == path && Expressible(ParsePath(path).value)
  {
    hide SafeImage, SafeReference, RFind, Contains;
    RFindMeans(path, "/manifests/");
    RFindMeans(path, "/blobs/");
    ListIsSafe();
    if EndsWith(path, "/tags/list") {
      assert path == path[..|path| - 10] + "/tags/" + "list";
    } else if RFind(path, "/manifests/").Some? {
      SplitAtSegment(path, "/manifests/", RFind(path, "/manifests/").value);
    } else if ParsePath(path).Ok? {
      var r := ParsePath(path).value;
      SplitAtSegment(path, "/blobs/", RFind(path, "/blobs/").value);
      SafeReferenceHasNoSlash(r.reference);
      ManifestsInBlobPath(r.image, r.reference);
    }
  }

  lemma ExpressibleParses(r: Request)
    requires Expressible(r)
    ensures ParsePath(Print(r)) == Ok(r)
  {
    hide SafeReference, RFind, Contains, TrimStart, TrimEnd;
    var path := Print(r);
    SafeReferenceHasNoSlash(r.reference);
    assert path[..|r.image|] == r.image;
    assert path[|r.image| + |Segment(r.kind)|..] == r.reference;
    if r.kind.Tags? {
      assert path[|path| - 10..] == "/tags/list";
    } else {
      NotTags(r);
      SegmentIsLast(r);
      if r.kind.Blobs? {
        ManifestsInBlobPath(r.image, r.reference);
        RFindMeans(path, "/manifests/");
      }
    }
  }

  /** Parsing and printing are inverse: a path parses to `r` exactly when it is the print of the expressible `r`. */
  lemma ParsesExactlyPrints(path: string, r: Request)
    ensures ParsePath(path) == Ok(r) <==> path == Print(r) && Expressible(r)
  {
    hide ParsePath, Expressible, Print;
    AcceptedIsPrinted(path);
    if path == Print(r) && Expressible(r) { ExpressibleParses(r); }
  }

  /** Printing safe parts parses back for manifests and tags always, for blobs unless the image swallows a
      `/manifests/`; such a blob path is refused, never read as another request. */
  lemma PrintedParses(r: Request)
    requires SafeImage(r.image) && SafeReference(r.reference) && (r.kind.Tags? ==> r.reference == "list")
    ensures ParsePath(Print(r)) == Ok(r) <==> !(r.kind.Blobs? && Contains(r.image + "/", "/manifests/"))
    ensures ParsePath(Print(r)) != Ok(r) ==> ParsePath(Print(r)).Err?
  {
    ParsesExactlyPrints(Print(r), r);
    if r.kind.Blobs? && Contains(r.image + "/", "/manifests/") { SwallowedBlobPathIsRefused(r); }
  }

  lemma SwallowedBlobPathIsRefused(r: Request)
    requires r.kind.Blobs? && '/' !in r.reference && Contains(r.image + "/", "/manifests/")
    ensures ParsePath(Print(r)).Err?
  {
    hide SafeImage, Contains, TrimStart, TrimEnd;
    var s, p := Print(r), "/manifests/";
    NotTags(r);
    ManifestsInBlobPath(r.image, r.reference);
    RFindMeans(s, p);
    var i := RFind(s, p).value;
    OccursChar(s, p, i, 10);
    OccursChar(s, p, i, 8);
    SlashesOfPrinted(r, i + 10);
    assert s[|r.image| + 4] == "/blobs/"[4] == 'b';
    assert s[|r.image| + 6] == "/blobs/"[6] == '/';
    assert s[i + 11..][|r.image| + 6 - (i + 11)] == '/';
  }

  // ----- which parts are safe -----

  /** A reference is safe exactly if it is not empty, holds no slash, backslash, two dots in a row or control character,
      and has no white space at either end. */
  lemma SafeReferenceIff(reference: string)
    ensures SafeReference(reference) <==>
      && reference != "" && !HasTwoDots(reference)
      && (forall c <- reference :: c != '/' && c != '\\' && c >= ' ' && !('\U{7F}' <= c <= '\U{9F}'))
      && !IsWhitespace(reference[0]) && !IsWhitespace(reference[|reference| - 1])
  {
    TrimmedIff(reference);
    ContainsTwoDots(reference);
    hide Trim, HasTwoDots, Contains, IsWhitespace;
    assert forall i :: 0 <= i < |reference| ==> reference[i] in reference;
  }

  /** An image name likewise, except that slashes may stand inside it. */
  lemma SafeImageIff(name: string)
    ensures SafeImage(name) <==>
      && name != "" && !HasTwoDots(name) && name[0] != '/' && name[|name| - 1] != '/'
      && (forall c <- name :: c != '\\' && c >= ' ' && !('\U{7F}' <= c <= '\U{9F}'))
      && !IsWhitespace(name[0]) && !IsWhitespace(name[|name| - 1])
  {
    TrimmedIff(name);
    ContainsTwoDots(name);
    hide Trim, HasTwoDots, Contains, IsWhitespace;
    assert forall i :: 0 <= i < |name| ==> name[i] in name;
    if name != "" { assert name[|name| - 1..] == [name[|name| - 1]]; }
  }

  /** The characters of tags and digests, and those of image names. */
  predicate ReferenceChar(c: char) {
    'a' <= c <= 'z' || 'A' <= c <= 'Z' || '0' <= c <= '9' || c == '.' || c == '-' || c == '_' || c == ':' || c == '+'
  }

  predicate NameChar(c: char) {
    ReferenceChar(c) || c == '/'
  }

  lemma PlainCharsAreNotWhitespace(c: char)
    requires NameChar(c)
    ensures !IsWhitespace(c) && c != '\\' && c >= ' ' && !('\U{7F}' <= c <= '\U{9F}')
  {
  }

  lemma OrdinaryPartsAreSafe(image: string, reference: string)
    requires image != "" && reference != "" && !HasTwoDots(image) && !HasTwoDots(reference)
    requires (forall c <- image :: NameChar(c)) && forall c <- reference :: ReferenceChar(c)
    requires image[0] != '/' && image[|image| - 1] != '/'
    ensures SafeImage(image) && SafeReference(reference)
  {
    forall c | c in image || c in reference
      ensures !IsWhitespace(c) && c != '\\' && c >= ' ' && !('\U{7F}' <= c <= '\U{9F}')
    {
      PlainCharsAreNotWhitespace(c);
    }
    assert image[0] in image && image[|image| - 1] in image;
    assert reference[0] in reference && reference[|reference| - 1] in reference;
    SafeImageIff(image);
    SafeReferenceIff(reference);
    hide SafeImage, SafeReference, IsWhitespace, HasTwoDots;
  }

  /** Every path made of such characters, without two dots in a row and without slashes at the ends of the image, is
      parsed into its parts, as `library/nginx/manifests/1.25` is; a blob path exactly if its image swallows no
      `/manifests/`. */
  lemma OrdinaryPathsParse(image: string, reference: string)
    requires image != "" && reference != "" && !HasTwoDots(image) && !HasTwoDots(reference)
    requires (forall c <- image :: NameChar(c)) && forall c <- reference :: ReferenceChar(c)
    requires image[0] != '/' && image[|image| - 1] != '/'
    ensures ParsePath(image + "/manifests/" + reference) == Ok(Request(image, Manifests, reference))
    ensures ParsePath(image + "/tags/" + "list") == Ok(Request(image, Tags, "list"))
    ensures ParsePath(image + "/blobs/" + reference) == Ok(Request(image, Blobs, reference))
            <==> !Contains(image + "/", "/manifests/")
  {
    OrdinaryPartsAreSafe(image, reference);
    ListIsSafe();
    hide SafeImage, SafeReference, ParsePath, HasTwoDots, Contains;
    PrintedParses(Request(image, Manifests, reference));
    PrintedParses(Request(image, Tags, "list"));
    PrintedParses(Request(image, Blobs, reference));
  }
}
