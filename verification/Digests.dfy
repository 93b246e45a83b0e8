/** Hex digests and block-wise hashing (src/transfer/sha256.cpp; hex checks of src/transfer/quic_transfer.cpp). */
module Digests {
  import opened ByteStrings

  type u8 = n: int | 0 <= n < 256

  const DIGEST_BYTES := 32
  const READ_BLOCK := 65536

  /** isxdigit in the "C" locale. */
  predicate IsHexDigit(c: byte) { '0' <= c <= '9' || 'a' <= c <= 'f' || 'A' <= c <= 'F' }

  predicate IsSha256Hex(s: Bytes) { |s| == 64 && forall i :: 0 <= i < |s| ==> IsHexDigit(s[i]) }

  /** tolower in the "C" locale. */
  function LowerChar(c: byte): byte { if 'A' <= c <= 'Z' then (c as int + 32) as char else c }

  function Lower(s: Bytes): (r: Bytes)
    ensures |r| == |s| && forall i :: 0 <= i < |s| ==> r[i] == LowerChar(s[i])
  {
    seq(|s|, i requires 0 <= i < |s| => LowerChar(s[i]))
  }

  function HexChar(d: nat): byte
    requires d < 16
  {
    if d < 10 then ('0' as int + d) as char else ('a' as int + d - 10) as char
  }

  /** The number a hex digit of either case stands for. */
  function HexValue(c: byte): (d: nat)
    requires IsHexDigit(c)
    ensures d < 16
  {
    if c <= '9' then c as int - '0' as int
    else if c <= 'F' then c as int - 'A' as int + 10
    else c as int - 'a' as int + 10
  }

  function Hex(digest: seq<u8>): (text: Bytes)
    ensures |text| == 2 * |digest|
  {
    seq(2 * |digest|, k requires 0 <= k < 2 * |digest| =>
      HexChar(if k % 2 == 0 then digest[k / 2] / 16 else digest[k / 2] % 16))
  }

  /** `text` names `digest` in base 16 (RFC 4648, section 8), in either case. */
  predicate Denotes(text: Bytes, digest: seq<u8>)
    requires forall i :: 0 <= i < |text| ==> IsHexDigit(text[i])
  {
    && |text| == 2 * |digest|
    && forall k :: 0 <= k < |digest| ==> HexValue(text[2 * k]) * 16 + HexValue(text[2 * k + 1]) == digest[k]
  }

  method DigestToHex(digest: seq<u8>) returns (text: Bytes)
    ensures text == Hex(digest)
  {
    text := [];
    for i := 0 to |digest|
      invariant text == Hex(digest[..i])
    {
      var next := [HexChar(digest[i] / 16), HexChar(digest[i] % 16)];
      HexSnoc(digest[..i], digest[i]);
      assert digest[..i] + [digest[i]] == digest[..i + 1];
      text := text + next;
    }
    assert digest[..|digest|] == digest;
  }

  lemma HexSnoc(digest: seq<u8>, last: u8)
    ensures Hex(digest + [last]) == Hex(digest) + [HexChar(last / 16), HexChar(last % 16)]
  {
    var longer := digest + [last];
    forall k | 0 <= k < 2 * |longer|
      ensures Hex(longer)[k] == (Hex(digest) + [HexChar(last / 16), HexChar(last % 16)])[k]
    {
      if k < 2 * |digest| { assert longer[k / 2] == digest[k / 2]; } else { assert longer[k / 2] == last; }
    }
  }

  lemma HexCharFacts(d: nat, c: byte)
    requires d < 16
    ensures IsHexDigit(HexChar(d)) && HexValue(HexChar(d)) == d && HexChar(d) != '/'
    ensures IsHexDigit(c) ==> (HexChar(d) == LowerChar(c) <==> HexValue(c) == d)
    ensures IsHexDigit(c) ==> IsHexDigit(LowerChar(c)) && LowerChar(LowerChar(c)) == LowerChar(c)
  {
  }

  /** The rendering of a digest always passes the header's own hash check and reads back as that digest. */
  lemma {:induction false} HexIsValid(digest: seq<u8>)
    requires |digest| == DIGEST_BYTES
    ensures IsSha256Hex(Hex(digest)) && Denotes(Hex(digest), digest)
  {
    var text := Hex(digest);
    forall k | 0 <= k < |text| ensures IsHexDigit(text[k]) {
      HexCharFacts(if k % 2 == 0 then digest[k / 2] / 16 else digest[k / 2] % 16, 'a');
    }
    forall k | 0 <= k < |digest|
      ensures HexValue(text[2 * k]) * 16 + HexValue(text[2 * k + 1]) == digest[k]
    {
      HexCharFacts(digest[k] / 16, 'a');
      HexCharFacts(digest[k] % 16, 'a');
      assert (2 * k) / 2 == k && (2 * k + 1) / 2 == k && (2 * k) % 2 == 0 && (2 * k + 1) % 2 == 1;
    }
  }

  /** The string comparison made at verification holds exactly when the header text names the same 32 bytes. */
  lemma {:induction false} SameTextIffSameDigest(digest: seq<u8>, text: Bytes)
    requires |digest| == DIGEST_BYTES && IsSha256Hex(text)
    ensures Hex(digest) == Lower(text) <==> Denotes(text, digest)
  {
    forall k | 0 <= k < |digest|
      ensures (Hex(digest)[2 * k] == Lower(text)[2 * k] && Hex(digest)[2 * k + 1] == Lower(text)[2 * k + 1]) <==>
              HexValue(text[2 * k]) * 16 + HexValue(text[2 * k + 1]) == digest[k]
    {
      HexCharFacts(digest[k] / 16, text[2 * k]);
      HexCharFacts(digest[k] % 16, text[2 * k + 1]);
      assert (2 * k) / 2 == k && (2 * k + 1) / 2 == k && (2 * k) % 2 == 0 && (2 * k + 1) % 2 == 1;
    }
    if Denotes(text, digest) {
      forall n | 0 <= n < 64 ensures Hex(digest)[n] == Lower(text)[n] {
        assert n == 2 * (n / 2) || n == 2 * (n / 2) + 1;
        assert HexValue(text[2 * (n / 2)]) * 16 + HexValue(text[2 * (n / 2) + 1]) == digest[n / 2];
      }
    }
  }

  lemma LowerKeepsHex(text: Bytes)
    requires IsSha256Hex(text)
    ensures IsSha256Hex(Lower(text)) && Lower(Lower(text)) == Lower(text)
  {
    forall i | 0 <= i < |text| ensures IsHexDigit(Lower(text)[i]) && LowerChar(Lower(text)[i]) == Lower(text)[i] {
      HexCharFacts(0, text[i]);
    }
  }

  /** An incremental digest: the three EVP calls, of which only the algebra matters here. */
  datatype Sha<!C> = Sha(init: C, update: (C, Bytes) -> C, final: C -> seq<u8>)

  /** Hashing a then b is hashing a ++ b, and the digest has 32 bytes. */
  ghost predicate Lawful<C(!new)>(sha: Sha<C>) {
    && (forall c, a, b :: sha.update(sha.update(c, a), b) == sha.update(c, a + b))
    && (forall c :: sha.update(c, []) == c)
    && (forall c :: |sha.final(c)| == DIGEST_BYTES)
  }

  function HashText<C>(sha: Sha<C>, content: Bytes): Bytes {
    Hex(sha.final(sha.update(sha.init, content)))
  }

  /** One shot: lowercase hex that the header's own check accepts and that denotes the digest of the data. */
  method Sha256Bytes<C(!new)>(sha: Sha<C>, data: Bytes) returns (hex: Bytes)
    requires Lawful(sha)
    ensures IsSha256Hex(hex) && Lower(hex) == hex && Denotes(hex, sha.final(sha.update(sha.init, data)))
    ensures hex == HashText(sha, data)
  {
    var digest := sha.final(sha.update(sha.init, data));
    hex := DigestToHex(digest);
    HexIsValid(digest);
    SameTextIffSameDigest(digest, hex);
  }

  /** Reading in 64 KiB blocks; the stream goes bad at the first read that comes up short. */
  method Sha256File<C(!new)>(sha: Sha<C>, content: Bytes) returns (hex: Bytes)
    requires Lawful(sha)
    ensures hex == HashText(sha, content)
  {
    var ctx := sha.init;
    var pos, good := 0, true;
    while good
      invariant pos <= |content| && (!good ==> pos == |content|)
      invariant ctx == sha.update(sha.init, content[..pos])
      decreases |content| - pos, good
    {
      var n := Min(READ_BLOCK, |content| - pos);
      if n > 0 {
        assert content[..pos] + content[pos..pos + n] == content[..pos + n];
        ctx := sha.update(ctx, content[pos..pos + n]);
      }
      pos, good := pos + n, n == READ_BLOCK;
    }
    assert content[..pos] == content;
    hex := DigestToHex(sha.final(ctx));
  }
}
