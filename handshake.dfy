/**
 * The handshake passphrase: `sha256(ts + sha256(password).hexdigest()).hexdigest()`.
 * SHA-256 itself is a parameter (any function to 32-byte digests); the
 * lower-case hex rendering of `hexdigest()` is defined here.
 */
module Handshake {
  newtype byte = b: int | 0 <= b < 256

  /** A SHA-256 digest: 32 bytes. */
  type Digest = s: seq<byte> | |s| == 32 witness seq(32, i => 0)

  /** The characters `hexdigest()` produces. */
  predicate IsHexChar(c: char)
  {
    '0' <= c <= '9' || 'a' <= c <= 'f'
  }

  function HexChar(d: nat): (c: char)
    requires d < 16
    ensures IsHexChar(c)
  {
    "0123456789abcdef"[d]
  }

  function HexValue(c: char): (d: nat)
    ensures d < 16
  {
    if '0' <= c <= '9' then (c - '0') as nat
    else if 'a' <= c <= 'f' then (c - 'a') as nat + 10
    else 0
  }

  /** `hexdigest()`: two lower-case hex digits per byte, high nibble first. */
  function HexDigest(bs: seq<byte>): (h: string)
    ensures |h| == 2 * |bs|
    ensures forall i :: 0 <= i < |h| ==> IsHexChar(h[i])
  {
    if bs == [] then []
    else [HexChar(bs[0] as nat / 16), HexChar(bs[0] as nat % 16)] + HexDigest(bs[1..])
  }

  /** Reading a hex string back, two digits to a byte. */
  function UnHex(h: string): seq<byte>
    decreases |h|
  {
    if |h| < 2 then []
    else [(HexValue(h[0]) * 16 + HexValue(h[1])) as byte] + UnHex(h[2..])
  }

  /** `hexdigest()` loses nothing: reading its output back gives the bytes. */
  lemma {:induction false} UnHexDigest(bs: seq<byte>)
    ensures UnHex(HexDigest(bs)) == bs
  {
    if bs != [] {
      var h := HexDigest(bs);
      var b := bs[0] as nat;
      assert HexValue(HexChar(b / 16)) == b / 16;
      assert HexValue(HexChar(b % 16)) == b % 16;
      assert h[2..] == HexDigest(bs[1..]);
      UnHexDigest(bs[1..]);
    }
  }

  /** Distinct digests have distinct renderings. */
  lemma HexDigestInjective(a: seq<byte>, b: seq<byte>)
    ensures HexDigest(a) == HexDigest(b) <==> a == b
  {
    if HexDigest(a) == HexDigest(b) {
      UnHexDigest(a);
      UnHexDigest(b);
    }
  }

  /**
   * The token `handshake` sends as `auth`: the hex digest of the timestamp
   * followed by the hex digest of the password. It is 64 lower-case hex
   * digits, whatever the password and the timestamp.
   */
  function Passphrase(sha: string -> Digest, ts: string, password: string): (p: string)
    ensures |p| == 64
    ensures forall i :: 0 <= i < |p| ==> IsHexChar(p[i])
  {
    HexDigest(sha(ts + HexDigest(sha(password))))
  }
}
