/** SHA-1 as FIPS 180-4 defines it, and the buffer-and-loop program that computes it. */
module Sha1 {
  import opened Bytes

  type word = bv32

  // ---------- padding (section 5.1.1) ----------

  /** The least multiple of 64 that leaves room for the marker and the length. */
  function PaddedLength(n: nat): nat { (n + 72) / 64 * 64 }

  function Zeros(n: nat): (r: seq<byte>)
    ensures |r| == n
  {
    seq(n, _ => 0)
  }

  /** The message, a one bit, zeros, and the length in bits as a 64-bit number. */
  function Pad(msg: seq<byte>): (r: seq<byte>)
    ensures |r| == PaddedLength(|msg|)
  {
    msg + [0x80] + Zeros(PaddedLength(|msg|) - |msg| - 9) + BigEndian(8 * |msg|, 8)
  }

  lemma {:induction false} PaddedLengthIsLeast(n: nat, m: nat)
    ensures PaddedLength(n) % 64 == 0 && PaddedLength(n) >= n + 9
    ensures m % 64 == 0 && m >= n + 9 ==> PaddedLength(n) <= m
  {
  }

  lemma {:induction false} LowByte(m: nat, n: nat, k: nat)
    requires k > 0 && BigEndian(m, k) == BigEndian(n, k)
    ensures m % 256 == n % 256 && BigEndian(m / 256, k - 1) == BigEndian(n / 256, k - 1)
  {
    var x, y := BigEndian(m, k), BigEndian(n, k);
    assert x[..k - 1] == BigEndian(m / 256, k - 1) && y[..k - 1] == BigEndian(n / 256, k - 1);
    assert x[k - 1] == (m % 256) as byte && y[k - 1] == (n % 256) as byte;
    ByteBack(m % 256);
    ByteBack(n % 256);
  }

  lemma {:induction false} SameLength(x: nat, y: nat)
    requires PaddedLength(x) == PaddedLength(y)
    requires 8 * x % 256 == 8 * y % 256 && 8 * x / 256 % 256 == 8 * y / 256 % 256
    ensures x == y
  {
    assert -64 < x - y < 64;
    assert 8 * x % 65536 == 8 * y % 65536;
  }

  lemma {:induction false} SamePadding(a: seq<byte>, b: seq<byte>)
    requires Pad(a) == Pad(b)
    ensures |a| == |b|
  {
    hide BigEndian, PaddedLength;
    var n := PaddedLength(|a|);
    PaddedLengthIsLeast(|a|, n);
    PaddedLengthIsLeast(|b|, n);
    assert Pad(a)[n - 8..] == BigEndian(8 * |a|, 8) && Pad(b)[n - 8..] == BigEndian(8 * |b|, 8);
    LowByte(8 * |a|, 8 * |b|, 8);
    LowByte(8 * |a| / 256, 8 * |b| / 256, 7);
    SameLength(|a|, |b|);
  }

  /** Different messages are padded differently, whatever their lengths. */
  lemma {:induction false} PaddingIsInjective(a: seq<byte>, b: seq<byte>)
    requires Pad(a) == Pad(b)
    ensures a == b
  {
    SamePadding(a, b);
    assert Pad(a)[..|a|] == a && Pad(b)[..|b|] == b;
  }

  // ---------- the hash (sections 4.1.1, 4.2.1, 5.3.1 and 6.1.2) ----------

  /** Five words: the chaining value, or the working variables. */
  datatype Words = Words(a: word, b: word, c: word, d: word, e: word)

  const INITIAL := Words(0x67452301, 0xEFCDAB89, 0x98BADCFE, 0x10325476, 0xC3D2E1F0)

  function Ch(x: word, y: word, z: word): word { (x & y) ^ (!x & z) }
  function Parity(x: word, y: word, z: word): word { (x ^ y) ^ z }
  function Maj(x: word, y: word, z: word): word { ((x & y) ^ (x & z)) ^ (y & z) }

  function F(t: nat, x: word, y: word, z: word): word {
    if t < 20 then Ch(x, y, z) else if 40 <= t < 60 then Maj(x, y, z) else Parity(x, y, z)
  }

  function K(t: nat): word {
    if t < 20 then 0x5A827999 else if t < 40 then 0x6ED9EBA1 else if t < 60 then 0x8F1BBCDC else 0xCA62C1D6
  }

  /** The big-endian word at `p`. */
  function WordAt(m: seq<byte>, p: nat): word
    requires p + 4 <= |m|
  {
    (((m[p] as word << 24) | (m[p + 1] as word << 16)) | (m[p + 2] as word << 8)) | m[p + 3] as word
  }

  /** The first `t` words of the message schedule of a block. */
  function Schedule(m: seq<byte>, p: nat, t: nat): (w: seq<word>)
    requires p + 64 <= |m|
    ensures |w| == t
  {
    if t == 0 then []
    else
      var w := Schedule(m, p, t - 1);
      var i := t - 1;
      w + [if i < 16 then WordAt(m, p + 4 * i)
           else (((w[i - 3] ^ w[i - 8]) ^ w[i - 14]) ^ w[i - 16]).RotateLeft(1)]
  }

  function Sum(a: word, f: word, e: word, k: word, w: word): word { (((a + f) + e) + k) + w }

  function Temp(a: word, f: word, e: word, k: word, w: word): word { Sum(a.RotateLeft(5), f, e, k, w) }

  function Turned(b: word): word { b.RotateLeft(30) }

  function Round(v: Words, t: nat, w: word): Words {
    Words(Temp(v.a, F(t, v.b, v.c, v.d), v.e, K(t), w), v.a, Turned(v.b), v.c, v.d)
  }

  function Rounds(v: Words, w: seq<word>, t: nat): Words
    requires t <= |w|
  {
    if t == 0 then v else Round(Rounds(v, w, t - 1), t - 1, w[t - 1])
  }

  function Add(x: Words, y: Words): Words {
    Words(x.a + y.a, x.b + y.b, x.c + y.c, x.d + y.d, x.e + y.e)
  }

  function Compress(h: Words, m: seq<byte>, p: nat): Words
    requires p + 64 <= |m|
  {
    Add(h, Rounds(h, Schedule(m, p, 80), 80))
  }

  /** The chaining value behind the first `n` blocks. */
  function Chain(m: seq<byte>, n: nat): Words
    requires 64 * n <= |m|
  {
    if n == 0 then INITIAL else Compress(Chain(m, n - 1), m, 64 * (n - 1))
  }

  function BytesOf(x: word): (r: seq<byte>)
    ensures |r| == 4
  {
    [((x >> 24) & 0xFF) as byte, ((x >> 16) & 0xFF) as byte, ((x >> 8) & 0xFF) as byte, (x & 0xFF) as byte]
  }

  function Digest(msg: seq<byte>): (r: seq<byte>)
    ensures |r| == 20
  {
    var m := Pad(msg);
    var h := Chain(m, |m| / 64);
    BytesOf(h.a) + BytesOf(h.b) + BytesOf(h.c) + BytesOf(h.d) + BytesOf(h.e)
  }
}
