/**
  `IdswyftClient.verify_webhook_signature` (client.py).  HMAC-SHA256 (RFC 2104
  over FIPS 180-4) is not modelled: it is the parameter `hmac`, the digest of
  the UTF-8 encoded payload keyed by the UTF-8 encoded secret.
 */
module Webhook {
  import opened Bytes

  /** SHA-256 digests are 32 bytes long. */
  const DigestSize := 32

  /** HMAC-SHA256(key = secret, message = payload), as raw digest bytes. */
  type Hmac = f: (string, string) -> seq<byte> | forall key, message :: |f(key, message)| == DigestSize
    witness (key: string, message: string) => seq(DigestSize, _ => 0 as byte)

  const Prefix := "sha256="

  /** `s.replace(pat, "")`: every non-overlapping occurrence, scanning left to right, removed. */
  function RemoveAll(s: string, pat: string): (r: string)
    requires pat != []
    ensures |s| < |pat| ==> r == s
    ensures forall i :: 0 <= i < |r| ==> r[i] in s
    ensures |r| <= |s|
    decreases |s|
  {
    if |s| < |pat| then s
    else if s[..|pat|] == pat then
      assert s == s[..|pat|] + s[|pat|..];
      RemoveAll(s[|pat|..], pat)
    else
      assert s == [s[0]] + s[1..];
      [s[0]] + RemoveAll(s[1..], pat)
  }

  predicate IsAscii(s: string) {
    forall i :: 0 <= i < |s| ==> (s[i] as int) < 128
  }

  /**
    False for any empty input; otherwise every "sha256=" is removed from the
    signature and the rest compared with the expected hex digest.  A
    non-ASCII signature makes `hmac.compare_digest` raise TypeError, which the
    `except Exception` turns into False.
   */
  function VerifyWebhookSignature(hmac: Hmac, payload: string, signature: string, secret: string)
    : (ok: bool)
    ensures ok ==> payload != "" && signature != "" && secret != ""
  {
    if payload == "" || signature == "" || secret == "" then false
    else
      var presented := RemoveAll(signature, Prefix);
      var expected := HexDigest(hmac(secret, payload));
      if !IsAscii(presented) then false else presented == expected
  }

  /** A string lacking some character of the pattern contains no occurrence and stays as it is. */
  lemma {:induction false} RemoveAllAbsent(s: string, pat: string, k: nat)
    requires pat != [] && k < |pat|
    requires forall i :: 0 <= i < |s| ==> s[i] != pat[k]
    ensures RemoveAll(s, pat) == s
    decreases |s|
  {
    if |s| >= |pat| {
      assert s[..|pat|][k] == s[k];
      assert s[..|pat|] != pat;
      RemoveAll1(s, pat);
      RemoveAllAbsent(s[1..], pat, k);
      assert [s[0]] + s[1..] == s;
    }
  }

  lemma RemoveAll1(s: string, pat: string)
    requires pat != [] && |s| >= |pat| && s[..|pat|] != pat
    ensures RemoveAll(s, pat) == [s[0]] + RemoveAll(s[1..], pat)
  {
  }

  /** A leading "sha256=" is removed. */
  lemma RemovePrefix(rest: string)
    ensures RemoveAll(Prefix + rest, Prefix) == RemoveAll(rest, Prefix)
  {
    var s := Prefix + rest;
    assert s[..|Prefix|] == Prefix;
    assert s[|Prefix|..] == rest;
  }

  /** A hex digest has no 's', so "sha256=" removal leaves it as it is. */
  lemma DigestUnchanged(d: string)
    requires forall i :: 0 <= i < |d| ==> IsHexChar(d[i])
    ensures RemoveAll(d, Prefix) == d
  {
    RemoveAllAbsent(d, Prefix, 0);
  }

  /**
    The guard against compare_digest's TypeError never changes the answer:
    the check is exactly "all inputs non-empty and the stripped signature is
    the hex digest".
   */
  lemma MatchesReference(hmac: Hmac, payload: string, signature: string, secret: string)
    ensures VerifyWebhookSignature(hmac, payload, signature, secret) <==>
      payload != "" && signature != "" && secret != ""
      && RemoveAll(signature, Prefix) == HexDigest(hmac(secret, payload))
  {
  }

  /** The header the server sends, "sha256=" + hex digest, is accepted. */
  lemma SignedPayloadAccepted(hmac: Hmac, payload: string, secret: string)
    requires payload != "" && secret != ""
    ensures VerifyWebhookSignature(hmac, payload, Prefix + HexDigest(hmac(secret, payload)), secret)
  {
    var d := HexDigest(hmac(secret, payload));
    RemovePrefix(d);
    DigestUnchanged(d);
    MatchesReference(hmac, payload, Prefix + d, secret);
  }

  /** So is the bare digest, and one with the prefix repeated: every occurrence is removed. */
  lemma BareAndRepeatedPrefixAccepted(hmac: Hmac, payload: string, secret: string)
    requires payload != "" && secret != ""
    ensures var d := HexDigest(hmac(secret, payload));
      VerifyWebhookSignature(hmac, payload, d, secret)
      && VerifyWebhookSignature(hmac, payload, Prefix + Prefix + d, secret)
  {
    var d := HexDigest(hmac(secret, payload));
    DigestUnchanged(d);
    assert Prefix + Prefix + d == Prefix + (Prefix + d);
    RemovePrefix(Prefix + d);
    RemovePrefix(d);
    assert RemoveAll(Prefix + Prefix + d, Prefix) == d;
    MatchesReference(hmac, payload, d, secret);
    MatchesReference(hmac, payload, Prefix + Prefix + d, secret);
  }

  /** Changing any one character of the digest in a signed header makes the check fail. */
  lemma AlteredDigestRejected(hmac: Hmac, payload: string, secret: string, altered: string, k: nat)
    requires var d := HexDigest(hmac(secret, payload));
      |altered| == |d| && k < |d| && altered[k] != d[k]
      && forall i :: 0 <= i < |d| && i != k ==> altered[i] == d[i]
    ensures !VerifyWebhookSignature(hmac, payload, Prefix + altered, secret)
  {
    var d := HexDigest(hmac(secret, payload));
    RemovePrefix(altered);
    // Only position k may hold a non-hex character, so 's' or 'h' is missing.
    if altered[k] == 's' {
      assert Prefix[1] == 'h';
      RemoveAllAbsent(altered, Prefix, 1);
    } else {
      RemoveAllAbsent(altered, Prefix, 0);
    }
    assert RemoveAll(Prefix + altered, Prefix) == altered != d;
    MatchesReference(hmac, payload, Prefix + altered, secret);
  }

  /** Any empty input is rejected. */
  lemma EmptyInputsRejected(hmac: Hmac, payload: string, signature: string, secret: string)
    requires payload == "" || signature == "" || secret == ""
    ensures !VerifyWebhookSignature(hmac, payload, signature, secret)
  {
  }

  /** A signature holding a non-ASCII character after the removal is rejected, not raised. */
  lemma NonAsciiSignatureRejected(hmac: Hmac, payload: string, signature: string, secret: string)
    requires !IsAscii(RemoveAll(signature, Prefix))
    ensures !VerifyWebhookSignature(hmac, payload, signature, secret)
  {
  }
}
