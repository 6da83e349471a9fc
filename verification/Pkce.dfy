/**
 PKCE material (pkg/datastore/evessopg/PKCE.go): a random 32-byte verifier in base64url, and
 the base64url of the SHA-256 digest of the verifier's characters.  SHA-256 is a parameter.
 */
module Pkce {
  import opened Base64Url
  import opened Wrappers

  type Sha256 = seq<Byte> -> seq<Byte>

  const VERIFIER_BYTES := 32
  const DIGEST_BYTES := 32

  function Challenge(sha: Sha256, verifier: Text): Text
  {
    Encode(sha(verifier))
  }

  predicate WellFormed(text: Text)
  {
    |text| == 43 && forall c :: c in text ==> Unreserved(c)
  }

  /**
   Verifier and challenge have the 43 unreserved characters section 4.1 of RFC 7636 asks
   for, and the verifier decodes back to the random bytes it was made from.
   */
  lemma MadePkceIsWellFormed(sha: Sha256, bytes: seq<Byte>)
    requires |bytes| == VERIFIER_BYTES && |sha(Encode(bytes))| == DIGEST_BYTES
    ensures WellFormed(Encode(bytes)) && Decode(Encode(bytes)) == Some(bytes)
    ensures WellFormed(Challenge(sha, Encode(bytes)))
  {
    EncodingShape(bytes);
    RoundTrip(bytes);
    EncodingShape(sha(Encode(bytes)));
  }

  /** The challenge is the digest, encoded (section 4.2 of RFC 7636): decoding gives the digest back. */
  lemma ChallengeIsTheDigest(sha: Sha256, verifier: Text)
    ensures Decode(Challenge(sha, verifier)) == Some(sha(verifier))
  {
    RoundTrip(sha(verifier));
  }

  /** A challenge names its verifier, unless SHA-256 collides on the two. */
  lemma ChallengeNamesVerifier(sha: Sha256, v: Text, w: Text)
    requires sha(v) == sha(w) ==> v == w
    ensures Challenge(sha, v) == Challenge(sha, w) <==> v == w
  {
    EncodeInjective(sha(v), sha(w));
  }
}
