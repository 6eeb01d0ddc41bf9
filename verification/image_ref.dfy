/** The image-reference split shared by the update handler
    (src/controllers/update.rs) and the `ServiceResume` conversion
    (src/services/docker/mod.rs): `image.split(':')`, whose first piece is the
    repository and whose second piece, cut at its first `@`, is the tag.

    It is not a full reference grammar: a registry port is taken for the tag
    separator, and a reference without any `:` has no second piece, which the
    source `unwrap`s (a panic, `None` here). */
module ImageRef {
  import opened Wrappers
  import opened Strings

  datatype ImageParts = ImageParts(repository: string, tag: string)

  /** Independent description of the split: the repository is everything
      before the first `:`, and the tag is what follows that `:` up to the
      next `:` or `@`, whichever comes first. */
  predicate IsParseOf(reference: string, parts: ImageParts) {
    && LongestPrefixAvoiding(reference, parts.repository, {':'})
    && |parts.repository| < |reference|
    && LongestPrefixAvoiding(reference[|parts.repository| + 1..], parts.tag, {':', '@'})
  }

  /** Cutting the `:`-piece at `@` is cutting the remainder at either character. */
  lemma CutTwice(rest: string, piece: string, tag: string)
    requires LongestPrefixAvoiding(rest, piece, {':'})
    requires LongestPrefixAvoiding(piece, tag, {'@'})
    ensures LongestPrefixAvoiding(rest, tag, {':', '@'})
  {
    if |tag| < |piece| {
      assert rest[|tag|] == piece[|tag|];
    }
    forall i | 0 <= i < |tag|
      ensures tag[i] !in {':', '@'}
    {
      assert tag[i] == piece[i];
    }
  }

  /** The repository and tag the source reads out of a container image,
      or `None` where its second `unwrap` panics. */
  function ParseImage(reference: string): (r: Option<ImageParts>)
    ensures r.None? <==> ':' !in reference
    ensures r.Some? ==> IsParseOf(reference, r.value)
  {
    var pieces := Split(reference, ':');
    SplitHasSecondPiece(reference, ':');
    if |pieces| < 2 then None
    else
      var tag := Split(pieces[1], '@')[0];
      SplitFirstPiece(reference, ':');
      SplitTail(reference, ':');
      SplitFirstPiece(reference[|pieces[0]| + 1..], ':');
      SplitFirstPiece(pieces[1], '@');
      CutTwice(reference[|pieces[0]| + 1..], pieces[1], tag);
      Some(ImageParts(pieces[0], tag))
  }

  /** The description determines the parse: `ParseImage` is its only solution. */
  lemma ParseImageUnique(reference: string, parts: ImageParts)
    requires IsParseOf(reference, parts)
    ensures ParseImage(reference) == Some(parts)
  {
    assert reference[|parts.repository|] == ':';
    var r := ParseImage(reference);
    LongestPrefixAvoidingUnique(reference, r.value.repository, parts.repository, {':'});
    LongestPrefixAvoidingUnique(reference[|parts.repository| + 1..], r.value.tag, parts.tag, {':', '@'});
  }

  /** `repository:tag`, the reference the update writes. */
  function FormatImage(repository: string, tag: string): string {
    repository + ":" + tag
  }

  /** Reading back a written reference gives its parts, as long as neither
      part contains a separator. */
  lemma ParseFormatImage(repository: string, tag: string)
    requires ':' !in repository
    requires ':' !in tag && '@' !in tag
    ensures ParseImage(FormatImage(repository, tag)) == Some(ImageParts(repository, tag))
  {
    var reference := FormatImage(repository, tag);
    assert reference[|repository| + 1..] == tag;
    ParseImageUnique(reference, ImageParts(repository, tag));
  }

  /** A digest after the tag is dropped, even though it holds a `:` of its own. */
  lemma ParseDropsDigest(repository: string, tag: string, digest: string)
    requires ':' !in repository
    requires ':' !in tag && '@' !in tag
    ensures ParseImage(repository + ":" + tag + "@" + digest) == Some(ImageParts(repository, tag))
  {
    var reference := repository + ":" + tag + "@" + digest;
    assert reference[|repository|] == ':';
    assert reference[|repository| + 1..] == tag + "@" + digest;
    ParseImageUnique(reference, ImageParts(repository, tag));
  }

  /** An image that starts with `requested:` always parses, and when the
      requested name holds no `:` the repository read back is that name. */
  lemma RequestedPrefixParses(image: string, requested: string)
    requires StartsWith(image, requested + ":")
    ensures ParseImage(image).Some?
    ensures ':' !in requested ==> ParseImage(image).value.repository == requested
  {
    assert image[|requested|] == ':';
    if ':' !in requested {
      var r := ParseImage(image).value;
      assert LongestPrefixAvoiding(image, requested, {':'});
      LongestPrefixAvoidingUnique(image, r.repository, requested, {':'});
    }
  }

  /** A registry port is read as the tag separator. */
  lemma RegistryPortIsMisread()
    ensures ParseImage("registry:5000/app:1") == Some(ImageParts("registry", "5000/app"))
  {
    var reference := "registry:5000/app:1";
    assert reference[8] == ':';
    assert reference[..8] == "registry";
    assert reference[9..] == "5000/app:1";
    assert reference[9..][..8] == "5000/app";
    ParseImageUnique(reference, ImageParts("registry", "5000/app"));
  }
}
