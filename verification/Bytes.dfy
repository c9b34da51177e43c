/** Bytes and their values. */
module Bytes {
  type byte = bv8

  lemma {:induction false} ByteBack(x: nat)
    requires x < 256
    ensures (x as byte) as int == x
  {
  }

  lemma {:induction false} ValueBack(b: byte)
    ensures b as int < 256 && (b as int) as byte == b
  {
  }

  /** The last `k` bytes of a number, most significant first. */
  function BigEndian(n: nat, k: nat): (r: seq<byte>)
    ensures |r| == k
  {
    if k == 0 then [] else BigEndian(n / 256, k - 1) + [(n % 256) as byte]
  }

  /** The number the bytes stand for, most significant first. */
  function NumberOf(s: seq<byte>): nat {
    if s == [] then 0 else 256 * NumberOf(s[..|s| - 1]) + s[|s| - 1] as int
  }

  function Power256(k: nat): nat {
    if k == 0 then 1 else 256 * Power256(k - 1)
  }

  lemma {:induction false} BigEndianReads(n: nat, k: nat)
    requires n < Power256(k)
    ensures NumberOf(BigEndian(n, k)) == n
  {
    if k > 0 {
      BigEndianReads(n / 256, k - 1);
      var s := BigEndian(n, k);
      assert s[..k - 1] == BigEndian(n / 256, k - 1);
      ByteBack(n % 256);
    }
  }
}
