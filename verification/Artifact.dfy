/** Content-addressed artifact descriptors. */
module Artifact {
  import opened Basics
  import opened Sorting
  import opened Json

  datatype ArtifactDescriptor = ArtifactDescriptor(
    typeUri: string,
    mediaType: string,
    digest: string,
    sizeBytes: nat,
    references: seq<string>,
    annotations: seq<Member>)

  const SHA256_PREFIX := "sha256:"

  predicate IsLowerHex(c: char) {
    '0' <= c <= '9' || 'a' <= c <= 'f'
  }

  /** `validate_sha256`: the prefix and exactly 64 lowercase hexadecimal characters. */
  predicate IsSha256(digest: string) {
    && SHA256_PREFIX <= digest
    && |digest| == |SHA256_PREFIX| + 64
    && forall i :: |SHA256_PREFIX| <= i < |digest| ==> IsLowerHex(digest[i])
  }

  /** Well-typed, content-addressed, and referring to each other artifact once. */
  ghost predicate ValidDescriptor(d: ArtifactDescriptor) {
    && !Blank(d.typeUri)
    && !Blank(d.mediaType)
    && IsSha256(d.digest)
    && (forall i :: 0 <= i < |d.references| ==> IsSha256(d.references[i]) && d.references[i] != d.digest)
    && Distinct(d.references)
  }

  method ValidateDescriptor(d: ArtifactDescriptor) returns (ok: bool)
    ensures ok <==> ValidDescriptor(d)
  {
    if Blank(d.typeUri) || Blank(d.mediaType) || !IsSha256(d.digest) {
      return false;
    }
    var references: set<string> := {};
    for i := 0 to |d.references|
      invariant forall k :: 0 <= k < i ==> IsSha256(d.references[k]) && d.references[k] != d.digest
      invariant references == set k | 0 <= k < i :: d.references[k]
      invariant Distinct(d.references[..i])
    {
      var reference := d.references[i];
      if !IsSha256(reference) || reference in references || reference == d.digest {
        assert reference in references ==> exists k :: 0 <= k < i && d.references[k] == d.references[i];
        return false;
      }
      references := references + {reference};
    }
    assert d.references[..|d.references|] == d.references;
    ok := true;
  }
}
