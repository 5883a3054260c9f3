/**
 * Media identities: the `live-` identity of a direct or live stream
 * (`live_stream_id_from_url`) and the rewritten identity of a record from the
 * generic extractor. The SHA-1 digest is the caller's `sha1`, which returns the
 * 40-character lower-case hexadecimal digest of a URL's UTF-8 bytes.
 */
module Identity {

  predicate IsLowerHexDigit(c: char) {
    ('0' <= c <= '9') || ('a' <= c <= 'f')
  }

  /** The result of `hexdigest()` on a SHA-1 hash. */
  type HexDigest = s: string | |s| == 40 && forall i :: 0 <= i < |s| ==> IsLowerHexDigit(s[i])
    witness "0000000000000000000000000000000000000000"

  const LivePrefix: string := "live-"

  /** `live_stream_id_from_url`: `live-` and the first 16 hex digits of the URL's digest. */
  function LiveStreamId(url: string, sha1: string -> HexDigest): (r: string)
    ensures |r| == 21
    ensures r[..5] == LivePrefix
    ensures forall i :: 5 <= i < 21 ==> IsLowerHexDigit(r[i])
    ensures r[5..] == sha1(url)[..16]
  {
    LivePrefix + sha1(url)[..16]
  }

  /** Two URLs get the same live identity exactly when their digests agree on 16 digits. */
  lemma LiveStreamIdsEqualIff(u1: string, u2: string, sha1: string -> HexDigest)
    ensures LiveStreamId(u1, sha1) == LiveStreamId(u2, sha1) <==> sha1(u1)[..16] == sha1(u2)[..16]
  {
    var a, b := LiveStreamId(u1, sha1), LiveStreamId(u2, sha1);
    if a == b {
      assert a[5..] == b[5..];
    }
  }

  /** The identity of a generic-extractor record: `g`, the site domain, the native id. */
  function GenericId(domain: string, nativeId: string): (r: string)
    ensures |r| == 1 + |domain| + |nativeId|
    ensures r[0] == 'g' && r[1..1 + |domain|] == domain && r[1 + |domain|..] == nativeId
  {
    "g" + domain + nativeId
  }

  /** A live identity never coincides with a generic-extractor identity. */
  lemma LiveAndGenericIdsDiffer(url: string, sha1: string -> HexDigest, domain: string, nativeId: string)
    ensures LiveStreamId(url, sha1) != GenericId(domain, nativeId)
  {
    var l := LiveStreamId(url, sha1);
    assert l[0] == LivePrefix[0] == 'l';
  }
}
