/** The key families that share one cache, and the image names that keep them apart. */
module CacheKeys {
  import opened Text

  const DISCOVERY_KEY := "discovery:projects"
  const WARMUP_KEY := "warmup:mappings"

  function ManifestKey(image: string, reference: string): string {
    image + ":" + reference
  }

  function ImageKey(image: string): string {
    "img:" + image
  }

  /** Single-segment names live under `library/`. */
  function NormalizeImage(image: string): (r: string)
    ensures '/' in r
    ensures r == image || r == "library/" + image
  {
    if '/' in image then image else "library/" + image
  }

  /** A normalized image whose name cannot be confused with a reference. */
  predicate PlainImage(image: string) {
    '/' in image && ':' !in image
  }

  lemma NormalizeIdempotent(image: string)
    ensures NormalizeImage(NormalizeImage(image)) == NormalizeImage(image)
    ensures PlainImage(NormalizeImage(image)) <==> ':' !in image
  {
    if '/' !in image {
      assert forall i :: 0 <= i < |image| ==> ("library/" + image)[8 + i] == image[i];
      assert ':' !in "library/";
    }
  }

  /** `key.split(':').next()` recovers the image exactly when the image holds no `:`. */
  lemma SplitRecoversImage(image: string, reference: string)
    ensures Before(ManifestKey(image, reference), ':') == image <==> ':' !in image
  {
    if ':' !in image {
      FirstIndexAt(image, ':', reference);
      assert ManifestKey(image, reference) == image + [':'] + reference;
    } else {
      var k :| 0 <= k < |image| && image[k] == ':';
      assert ManifestKey(image, reference)[k] == ':';
    }
  }

  lemma ManifestKeyInjective(i1: string, r1: string, i2: string, r2: string)
    requires ':' !in i1 && ':' !in i2
    requires ManifestKey(i1, r1) == ManifestKey(i2, r2)
    ensures i1 == i2 && r1 == r2
  {
    SplitRecoversImage(i1, r1);
    SplitRecoversImage(i2, r2);
    assert ManifestKey(i1, r1)[|i1| + 1..] == r1;
    assert ManifestKey(i2, r2)[|i2| + 1..] == r2;
  }

  /** Exactly when two images can share a key: when one is the other up to a colon. A plain image shares none
      with another plain image, but does share keys with every image that extends it by a colon. */
  lemma ImagesCollideIff(i: string, j: string)
    requires i != j
    ensures (exists r, s :: ManifestKey(i, r) == ManifestKey(j, s)) <==> i + ":" <= j || j + ":" <= i
  {
    if r, s :| ManifestKey(i, r) == ManifestKey(j, s) {
      if |i| <= |j| { SharedPrefix(i, r, j, s); } else { SharedPrefix(j, s, i, r); }
    }
    if i + ":" <= j { ExtendedImageCollides(i, j); }
    if j + ":" <= i { ExtendedImageCollides(j, i); }
  }

  lemma SharedPrefix(i: string, r: string, j: string, s: string)
    requires i != j && |i| <= |j| && ManifestKey(i, r) == ManifestKey(j, s)
    ensures i + ":" <= j
  {
    var key := ManifestKey(i, r);
    assert key[..|i|] == i && key[..|j|] == j && key[|i|] == ':';
    assert j[..|i|] == i;
    assert |i| < |j|;
    assert j[|i|] == key[|i|];
    assert j[..|i| + 1] == i + ":";
  }

  /** The reference of the shorter image is the rest of the longer one with its reference, whatever that is. */
  lemma ExtendedImageCollides(i: string, j: string)
    requires i + ":" <= j
    ensures forall s :: ManifestKey(i, j[|i| + 1..] + ":" + s) == ManifestKey(j, s)
  {
    forall s ensures ManifestKey(i, j[|i| + 1..] + ":" + s) == ManifestKey(j, s) {
      assert j == i + ":" + j[|i| + 1..];
    }
  }

  /** The common case: a tag of one image is a digest of another. */
  lemma ColonImagesCollide(image: string, algorithm: string, hex: string)
    ensures ManifestKey(image + ":" + algorithm, hex) == ManifestKey(image, algorithm + ":" + hex)
    ensures image + ":" + algorithm != image
  {
    assert |image + ":" + algorithm| > |image|;
  }

  /** The other families, as a predicate on keys. */
  predicate OtherFamily(key: string) {
    "img:" <= key || "tags:" <= key || key == DISCOVERY_KEY || key == WARMUP_KEY
  }

  lemma FamiliesDisjoint(image: string, reference: string)
    requires PlainImage(image)
    ensures !OtherFamily(ManifestKey(image, reference))
  {
    hide Before;
    var key := ManifestKey(image, reference);
    SplitRecoversImage(image, reference);
    NotHead("img", key);
    NotHead("tags", key);
    NotHead("discovery", key);
    NotHead("warmup", key);
    assert "discovery" + ":" <= DISCOVERY_KEY && "warmup" + ":" <= WARMUP_KEY;
  }

  lemma NotHead(head: string, key: string)
    requires ':' !in head && '/' !in head && '/' in Before(key, ':')
    ensures !(head + ":" <= key)
  {
    if head + ":" <= key {
      assert key == head + [':'] + key[|head| + 1..];
      FirstIndexAt(head, ':', key[|head| + 1..]);
    }
  }
}
