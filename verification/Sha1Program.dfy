/** The hash as the relay computes it: one padded buffer, chunk by chunk, with words updated in place. */
module Sha1Program {
  import opened Bytes
  import opened Sha1

  function Rotl(x: word, n: nat): word
    requires 0 < n < 32
  {
    (x << n) | (x >> (32 - n))
  }

  /** Two of the logical functions, written with `or`. */
  function ChOr(x: word, y: word, z: word): word { (x & y) | (!x & z) }
  function MajOr(x: word, y: word, z: word): word { ((x & y) | (x & z)) | (y & z) }

  function Mix(a: word, f: word, e: word, k: word, w: word): word { Sum(Rotl(a, 5), f, e, k, w) }

  lemma {:induction false} RotlOneFive(x: word)
    ensures Rotl(x, 1) == x.RotateLeft(1) && Rotl(x, 5) == x.RotateLeft(5)
  {
  }

  lemma {:induction false} RotlThirty(x: word)
    ensures Rotl(x, 30) == Turned(x)
  {
    assert Rotl(x, 30) == (x << 30) | (x >> 2);
  }

  lemma {:induction false} MixIsTemp(a: word, f: word, e: word, k: word, w: word)
    ensures Mix(a, f, e, k, w) == Temp(a, f, e, k, w)
  {
    hide Sum, Rotl;
    RotlOneFive(a);
  }

  lemma {:induction false} OrIsXor(x: word, y: word, z: word)
    ensures (x & y) | (!x & z) == (x & y) ^ (!x & z)
    ensures ((x & y) | (x & z)) | (y & z) == ((x & y) ^ (x & z)) ^ (y & z)
  {
  }

  lemma {:induction false} LogicalForms(x: word, y: word, z: word)
    ensures ChOr(x, y, z) == Ch(x, y, z) && MajOr(x, y, z) == Maj(x, y, z)
  {
    OrIsXor(x, y, z);
  }

  // ---------- the buffer ----------

  method PadBuffer(msg: seq<byte>) returns (buf: array<byte>)
    ensures fresh(buf) && buf[..] == Pad(msg)
  {
    hide BigEndian;
    var len := |msg|;
    var newlen := len + 1 + 8;
    while newlen % 64 != 0
      invariant len + 9 <= newlen <= PaddedLength(len)
      decreases PaddedLength(len) - newlen
    {
      newlen := newlen + 1;
    }
    buf := new byte[newlen](_ => 0);
    forall i | 0 <= i < len {
      buf[i] := msg[i];
    }
    buf[len] := 0x80;
    assert buf[..newlen - 8] == msg + [0x80] + Zeros(newlen - len - 9);
    WriteLength(buf, 8 * len);
    assert buf[..] == buf[..newlen - 8] + buf[newlen - 8..];
  }

  lemma {:induction false} BigEndianStep(n: nat, k: nat)
    requires k > 0
    ensures BigEndian(n, k) == BigEndian(n / 256, k - 1) + [(n % 256) as byte]
  {
  }

  /** The length in bits, byte by byte from the end of the buffer. */
  method WriteLength(buf: array<byte>, bitlen: nat)
    requires buf.Length >= 8
    modifies buf
    ensures buf[..buf.Length - 8] == old(buf[..buf.Length - 8])
    ensures buf[buf.Length - 8..] == BigEndian(bitlen, 8)
  {
    hide BigEndian;
    var rest := bitlen;
    var n := buf.Length;
    for i := 0 to 8
      invariant buf[..n - 8] == old(buf[..n - 8])
      invariant BigEndian(bitlen, 8) == BigEndian(rest, 8 - i) + buf[n - i..]
    {
      BigEndianStep(rest, 8 - i);
      buf[n - 1 - i] := (rest % 256) as byte;
      assert buf[n - 1 - i..] == [buf[n - 1 - i]] + buf[n - i..];
      rest := rest / 256;
    }
  }

  // ---------- one chunk ----------

  method FillSchedule(buf: array<byte>, chunk: nat, w: array<word>)
    requires chunk + 64 <= buf.Length && w.Length == 80
    modifies w
    ensures w[..] == Schedule(buf[..], chunk, 80)
  {
    ghost var m := buf[..];
    for i := 0 to 16
      invariant buf[..] == m && w[..i] == Schedule(m, chunk, i)
    {
      w[i] := (((buf[chunk + i * 4] as word << 24) | (buf[chunk + i * 4 + 1] as word << 16))
               | (buf[chunk + i * 4 + 2] as word << 8)) | buf[chunk + i * 4 + 3] as word;
      assert w[..i + 1] == w[..i] + [w[i]];
    }
    for i := 16 to 80
      invariant buf[..] == m && w[..i] == Schedule(m, chunk, i)
    {
      var x := ((w[i - 3] ^ w[i - 8]) ^ w[i - 14]) ^ w[i - 16];
      RotlOneFive(x);
      w[i] := Rotl(x, 1);
      assert w[..i + 1] == w[..i] + [w[i]];
    }
    assert w[..80] == w[..];
  }

  /** The function and the constant of one round. */
  method Select(i: nat, b: word, c: word, d: word) returns (f: word, k: word)
    ensures f == F(i, b, c, d) && k == K(i)
  {
    hide ChOr, MajOr, Ch, Maj, Parity;
    LogicalForms(b, c, d);
    if i < 20 {
      f, k := ChOr(b, c, d), 0x5A827999;
    } else if i < 40 {
      f, k := Parity(b, c, d), 0x6ED9EBA1;
    } else if i < 60 {
      f, k := MajOr(b, c, d), 0x8F1BBCDC;
    } else {
      f, k := Parity(b, c, d), 0xCA62C1D6;
    }
  }

  method RunRounds(h: Words, w: array<word>) returns (v: Words)
    requires w.Length == 80
    ensures v == Rounds(h, w[..], 80)
  {
    hide F, K, Rotl, Mix, Temp, Turned;
    var (a, b, c, d, e) := (h.a, h.b, h.c, h.d, h.e);
    for i := 0 to 80
      invariant Words(a, b, c, d, e) == Rounds(h, w[..], i)
    {
      var f, k := Select(i, b, c, d);
      var temp := Mix(a, f, e, k, w[i]);
      MixIsTemp(a, f, e, k, w[i]);
      RotlThirty(b);
      a, b, c, d, e := temp, a, Rotl(b, 30), c, d;
    }
    v := Words(a, b, c, d, e);
  }

  // ---------- the hash ----------

  /** The program computes the standard digest of every message. */
  method Hash(msg: seq<byte>, out: array<byte>)
    requires out.Length == 20
    modifies out
    ensures out[..] == Digest(msg)
  {
    hide Rounds, Schedule, BytesOf, Add, Pad;
    var buf := PadBuffer(msg);
    var w := new word[80];
    var h := INITIAL;
    var chunk := 0;
    while chunk < buf.Length
      invariant 0 <= chunk <= buf.Length && chunk % 64 == 0 && buf.Length % 64 == 0
      invariant buf[..] == Pad(msg) && h == Chain(buf[..], chunk / 64)
      decreases buf.Length - chunk
    {
      FillSchedule(buf, chunk, w);
      var v := RunRounds(h, w);
      h := Add(h, v);
      chunk := chunk + 64;
    }
    WriteDigest(out, h);
  }

  method WriteDigest(out: array<byte>, h: Words)
    requires out.Length == 20
    modifies out
    ensures out[..] == BytesOf(h.a) + BytesOf(h.b) + BytesOf(h.c) + BytesOf(h.d) + BytesOf(h.e)
  {
    hide BytesOf;
    WriteWord(out, 0, h.a);
    WriteWord(out, 4, h.b);
    WriteWord(out, 8, h.c);
    WriteWord(out, 12, h.d);
    WriteWord(out, 16, h.e);
    assert out[..20] == out[..];
  }

  method WriteWord(out: array<byte>, p: nat, x: word)
    requires p + 4 <= out.Length
    modifies out
    ensures out[..p + 4] == old(out[..p]) + BytesOf(x)
  {
    out[p] := ((x >> 24) & 0xFF) as byte;
    out[p + 1] := ((x >> 16) & 0xFF) as byte;
    out[p + 2] := ((x >> 8) & 0xFF) as byte;
    out[p + 3] := (x & 0xFF) as byte;
  }
}
