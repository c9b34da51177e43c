/**
 * Two base64 encoders, one working on groups of three bytes, one on a bit accumulator that overflows, and
 * the encoding of section 4 of RFC 4648 both of them compute.
 */
module Base64 {
  import opened Options
  import opened Bytes

  const UPPER := "ABCDEFGHIJKLMNOPQRSTUVWXYZ"
  const LOWER := "abcdefghijklmnopqrstuvwxyz"
  const DIGITS := "0123456789"
  const ALPHABET := UPPER + LOWER + DIGITS + "+/"

  // ---------- the encoding ----------

  /** The character of a six-bit value. */
  function Letter(x: byte): char
    requires x < 64
  {
    ALPHABET[x as int]
  }

  /** The four six-bit values of three bytes. */
  function First(a: byte): (x: byte) ensures x < 64 { a >> 2 }
  function Second(a: byte, b: byte): (x: byte) ensures x < 64 { ((a & 3) << 4) | (b >> 4) }
  function Third(b: byte, c: byte): (x: byte) ensures x < 64 { ((b & 15) << 2) | (c >> 6) }
  function Fourth(c: byte): (x: byte) ensures x < 64 { c & 63 }

  /** Groups of three bytes as four characters; a last group of one or two bytes is padded. */
  function Encode(s: seq<byte>): string {
    if |s| == 0 then ""
    else if |s| == 1 then [Letter(First(s[0])), Letter(Second(s[0], 0)), '=', '=']
    else if |s| == 2 then [Letter(First(s[0])), Letter(Second(s[0], s[1])), Letter(Third(s[1], 0)), '=']
    else Quartet(s[0], s[1], s[2]) + Encode(s[3..])
  }

  function Quartet(a: byte, b: byte, c: byte): string {
    [Letter(First(a)), Letter(Second(a, b)), Letter(Third(b, c)), Letter(Fourth(c))]
  }

  // ---------- decoding ----------

  /** The value of a character of the alphabet. */
  function ValueOf(c: char): Option<byte> {
    if 'A' <= c <= 'Z' then Some((c as int - 'A' as int) as byte)
    else if 'a' <= c <= 'z' then Some((c as int - 'a' as int + 26) as byte)
    else if '0' <= c <= '9' then Some((c as int - '0' as int + 52) as byte)
    else if c == '+' then Some(62)
    else if c == '/' then Some(63)
    else None
  }

  /** Groups of four characters; `=` only at the end of the last group. */
  function Decode(t: string): Option<seq<byte>> {
    if |t| == 0 then Some([])
    else if |t| < 4 || ValueOf(t[0]).None? || ValueOf(t[1]).None? then None
    else
      var v, w := ValueOf(t[0]).value, ValueOf(t[1]).value;
      var a := (v << 2) | (w >> 4);
      if t[2] == '=' then if t[3] == '=' && |t| == 4 then Some([a]) else None
      else if ValueOf(t[2]).None? then None
      else
        var x := ValueOf(t[2]).value;
        var b := ((w & 15) << 4) | (x >> 2);
        if t[3] == '=' then if |t| == 4 then Some([a, b]) else None
        else if ValueOf(t[3]).None? || Decode(t[4..]).None? then None
        else Some([a, b, ((x & 3) << 6) | ValueOf(t[3]).value] + Decode(t[4..]).value)
  }

  lemma {:induction false} UpperAt(n: nat)
    requires n < 26
    ensures UPPER[n] as int == 'A' as int + n && LOWER[n] as int == 'a' as int + n
  {
  }

  lemma {:induction false} DigitAt(n: nat)
    requires n < 10
    ensures DIGITS[n] as int == '0' as int + n
  {
  }

  lemma {:induction false} AlphabetAt(n: nat)
    requires n < 64
    ensures |ALPHABET| == 64
    ensures n < 26 ==> ALPHABET[n] as int == 'A' as int + n
    ensures 26 <= n < 52 ==> ALPHABET[n] as int == 'a' as int + n - 26
    ensures 52 <= n < 62 ==> ALPHABET[n] as int == '0' as int + n - 52
    ensures n == 62 ==> ALPHABET[n] == '+'
    ensures n == 63 ==> ALPHABET[n] == '/'
  {
    assert |UPPER| == 26 && |LOWER| == 26 && |DIGITS| == 10;
    hide UPPER, LOWER, DIGITS;
    if n < 26 {
      UpperAt(n);
    } else if n < 52 {
      UpperAt(n - 26);
    } else if n < 62 {
      DigitAt(n - 52);
    }
  }

  lemma {:induction false} CodeHasValue(n: nat)
    requires n < 64
    ensures |ALPHABET| == 64 && ValueOf(ALPHABET[n]) == Some(n as byte) && ALPHABET[n] != '='
  {
    hide UPPER, LOWER, DIGITS, ALPHABET;
    AlphabetAt(n);
  }

  lemma {:induction false} LetterHasValue(x: byte)
    requires x < 64
    ensures ValueOf(Letter(x)) == Some(x) && Letter(x) != '='
  {
    hide ALPHABET, ValueOf;
    ValueBack(x);
    CodeHasValue(x as int);
  }

  lemma {:induction false} BitsReturn(a: byte, b: byte, c: byte)
    ensures (First(a) << 2) | (Second(a, b) >> 4) == a
    ensures ((Second(a, b) & 15) << 4) | (Third(b, c) >> 2) == b
    ensures ((Third(b, c) & 3) << 6) | Fourth(c) == c
  {
  }

  lemma {:induction false} QuartetDecodes(a: byte, b: byte, c: byte, rest: string)
    requires Decode(rest).Some?
    ensures Decode(Quartet(a, b, c) + rest) == Some([a, b, c] + Decode(rest).value)
  {
    var t := Quartet(a, b, c) + rest;
    hide Letter, ValueOf, ALPHABET, First, Second, Third, Fourth;
    LetterHasValue(First(a));
    LetterHasValue(Second(a, b));
    LetterHasValue(Third(b, c));
    LetterHasValue(Fourth(c));
    BitsReturn(a, b, c);
    assert t[4..] == rest;
  }

  lemma {:induction false} OneDecodes(a: byte)
    ensures Decode(Encode([a])) == Some([a])
  {
    hide Letter, ValueOf, ALPHABET, First, Second;
    LetterHasValue(First(a));
    LetterHasValue(Second(a, 0));
    BitsReturn(a, 0, 0);
  }

  lemma {:induction false} TwoDecode(a: byte, b: byte)
    ensures Decode(Encode([a, b])) == Some([a, b])
  {
    hide Letter, ValueOf, ALPHABET, First, Second, Third;
    LetterHasValue(First(a));
    LetterHasValue(Second(a, b));
    LetterHasValue(Third(b, 0));
    BitsReturn(a, b, 0);
  }

  /** Decoding undoes encoding, on every byte string. */
  lemma {:induction false} RoundTrip(s: seq<byte>)
    ensures Decode(Encode(s)) == Some(s)
  {
    hide Quartet;
    if s == [] {
    } else if |s| == 1 {
      assert s == [s[0]];
      OneDecodes(s[0]);
    } else if |s| == 2 {
      assert s == [s[0], s[1]];
      TwoDecode(s[0], s[1]);
    } else {
      RoundTrip(s[3..]);
      QuartetDecodes(s[0], s[1], s[2], Encode(s[3..]));
      assert s == [s[0], s[1], s[2]] + s[3..];
    }
  }

  /** Four characters for every group of three bytes, the last one included. */
  lemma {:induction false} EncodedLength(s: seq<byte>)
    ensures |Encode(s)| == (|s| + 2) / 3 * 4
  {
    if |s| > 2 {
      EncodedLength(s[3..]);
    }
  }

  // ---------- groups of three bytes ----------

  /** The character picked by the low six bits of a word. */
  function Pick(n: bv32): char {
    SixBits(n);
    ALPHABET[(n & 0x3F) as int]
  }

  lemma {:induction false} SixBits(n: bv32)
    ensures |ALPHABET| == 64 && (n & 0x3F) as int < 64
  {
    assert n & 0x3F < 64;
  }

  /** The low six bits of the word are the value. */
  predicate Shows(n: bv32, x: byte) { n & 0x3F == x as bv32 }

  lemma {:induction false} PickIs(n: bv32, x: byte)
    requires x < 64 && Shows(n, x)
    ensures Pick(n) == Letter(x)
  {
    hide ALPHABET;
    assert (x as bv32) as int == x as int;
  }

  function Word(a: byte, b: byte, c: byte): bv32 {
    ((a as bv32 << 16) | (b as bv32 << 8)) | c as bv32
  }

  lemma {:induction false} GroupBits(a: byte, b: byte, c: byte)
    ensures Shows(Word(a, b, c) >> 18, First(a))
    ensures Shows(Word(a, b, c) >> 12, Second(a, b))
    ensures Shows(Word(a, b, c) >> 6, Third(b, c))
    ensures Shows(Word(a, b, c), Fourth(c))
  {
  }

  /** The characters at the four places of a word. */
  function FirstChar(n: bv32): char { Pick(n >> 18) }
  function SecondChar(n: bv32): char { Pick(n >> 12) }
  function ThirdChar(n: bv32): char { Pick(n >> 6) }

  lemma {:induction false} GroupChars(a: byte, b: byte, c: byte)
    ensures var n := Word(a, b, c);
      && FirstChar(n) == Letter(First(a)) && SecondChar(n) == Letter(Second(a, b))
      && ThirdChar(n) == Letter(Third(b, c)) && Pick(n) == Letter(Fourth(c))
  {
    hide Pick, Word, First, Second, Third, Fourth, Letter, Shows;
    GroupBits(a, b, c);
    PickIs(Word(a, b, c) >> 18, First(a));
    PickIs(Word(a, b, c) >> 12, Second(a, b));
    PickIs(Word(a, b, c) >> 6, Third(b, c));
    PickIs(Word(a, b, c), Fourth(c));
  }

  /** What is left behind the first `i` bytes. */
  function From(s: seq<byte>, i: nat): seq<byte> {
    if i < |s| then s[i..] else []
  }

  lemma {:induction false} EncodeFrom(s: seq<byte>, i: nat)
    requires i < |s|
    ensures var b, c := ByteAt(s, i + 1), ByteAt(s, i + 2);
            Encode(From(s, i)) ==
              [Letter(First(s[i])), Letter(Second(s[i], b)), if i + 1 < |s| then Letter(Third(b, c)) else '=',
               if i + 2 < |s| then Letter(Fourth(c)) else '='] + Encode(From(s, i + 3))
  {
    hide Letter, First, Second, Third, Fourth;
    var t := s[i..];
    assert |t| >= 3 ==> t[3..] == From(s, i + 3);
  }

  /** The encoder of the relay: a 24-bit number for each group. */
  method EncodeGroups(s: seq<byte>) returns (out: string)
    ensures out == Encode(s)
  {
    hide Encode, From;
    out := "";
    var i := 0;
    EncodeStart(s);
    while i < |s|
      invariant 0 <= i && out + Encode(From(s, i)) == Encode(s)
      decreases |s| - i
    {
      var group := EncodeGroupAt(s, i);
      Regroup(out, group, Encode(From(s, i + 3)));
      out := out + group;
      i := i + 3;
    }
    EncodeEnd(s, i, out);
  }

  /** The byte at `i`, 0 behind the end. */
  function ByteAt(s: seq<byte>, i: nat): byte { if i < |s| then s[i] else 0 }

  /** The bytes of a group as one number. */
  method GroupWord(s: seq<byte>, i: nat) returns (n: bv32)
    requires i < |s|
    ensures n == Word(s[i], ByteAt(s, i + 1), ByteAt(s, i + 2))
  {
    n := s[i] as bv32 << 16;
    if i + 1 < |s| {
      n := n | (s[i + 1] as bv32 << 8);
    }
    if i + 2 < |s| {
      n := n | s[i + 2] as bv32;
    }
  }

  /** The four characters of one group. */
  method EncodeGroupAt(s: seq<byte>, i: nat) returns (group: string)
    requires i < |s|
    ensures Encode(From(s, i)) == group + Encode(From(s, i + 3))
  {
    hide Encode, From, Pick, FirstChar, SecondChar, ThirdChar, Letter, First, Second, Third, Fourth, Word;
    var n := GroupWord(s, i);
    GroupChars(s[i], ByteAt(s, i + 1), ByteAt(s, i + 2));
    EncodeFrom(s, i);
    group := [FirstChar(n), SecondChar(n), if i + 1 < |s| then ThirdChar(n) else '=', if i + 2 < |s| then Pick(n) else '='];
  }

  lemma {:induction false} EncodeStart(s: seq<byte>)
    ensures "" + Encode(From(s, 0)) == Encode(s)
  {
    hide Encode;
    assert s[0..] == s;
    assert From(s, 0) == s;
  }

  lemma {:induction false} EncodeEnd(s: seq<byte>, i: nat, out: string)
    requires i >= |s|
    ensures out + Encode(From(s, i)) == out
  {
  }

  // ---------- a bit accumulator ----------

  /** The characters that become complete with byte `i`. */
  function Emitted(s: seq<byte>, i: nat): string
    requires i < |s|
  {
    if i % 3 == 0 then [Letter(First(s[i]))]
    else if i % 3 == 1 then [Letter(Second(s[i - 1], s[i]))]
    else [Letter(Third(s[i - 1], s[i])), Letter(Fourth(s[i]))]
  }

  function EmittedUpTo(s: seq<byte>, i: nat): (out: string)
    requires i <= |s|
    ensures |out| == i + i / 3
  {
    if i == 0 then "" else EmittedUpTo(s, i - 1) + Emitted(s, i - 1)
  }

  lemma {:induction false} OneEmitted(s: seq<byte>, i: nat)
    requires i < |s|
    ensures EmittedUpTo(s, i + 1) == EmittedUpTo(s, i) + Emitted(s, i)
  {
  }

  lemma {:induction false} ThreeMore(s: seq<byte>, i: nat)
    requires i + 3 <= |s| && i % 3 == 0
    ensures EmittedUpTo(s, i + 3) == EmittedUpTo(s, i) + Quartet(s[i], s[i + 1], s[i + 2])
  {
    hide Letter, First, Second, Third, Fourth, EmittedUpTo;
    OneEmitted(s, i);
    OneEmitted(s, i + 1);
    OneEmitted(s, i + 2);
  }

  lemma {:induction false} EncodeGroup(s: seq<byte>, i: nat)
    requires i + 3 <= |s|
    ensures Encode(s[i..]) == Quartet(s[i], s[i + 1], s[i + 2]) + Encode(s[i + 3..])
  {
    hide Quartet;
    assert s[i..][3..] == s[i + 3..];
  }

  lemma {:induction false} Regroup(a: string, b: string, c: string)
    ensures a + b + c == a + (b + c)
  {
  }

  lemma {:induction false} WholeGroups(s: seq<byte>, i: nat)
    requires i <= |s| && i % 3 == 0
    ensures EmittedUpTo(s, i) + Encode(s[i..]) == Encode(s)
    decreases i
  {
    hide Encode, Quartet;
    if i == 0 {
      assert s[0..] == s;
    } else {
      hide EmittedUpTo;
      var j := i - 3;
      ThreeMore(s, j);
      WholeGroups(s, j);
      EncodeGroup(s, j);
      Regroup(EmittedUpTo(s, j), Quartet(s[j], s[j + 1], s[j + 2]), Encode(s[j + 3..]));
    }
  }

  /** Shift of a signed 32-bit number: the sign moves in from the left. */
  function ShiftRight(v: bv32, k: nat): bv32
    requires k < 32
  {
    if v & 0x8000_0000 != 0 then (v >> k) | !(0xFFFF_FFFF >> k) else v >> k
  }

  /** The accumulator still holds the masked bits of `b`. */
  predicate Keeps(val: bv32, b: byte, mask: byte) { val & mask as bv32 == (b & mask) as bv32 }

  /** What the accumulator must hold behind byte `i`: the bits not written yet. */
  ghost predicate Holds(val: bv32, s: seq<byte>, i: nat)
    requires i <= |s|
  {
    (i % 3 == 1 ==> Keeps(val, s[i - 1], 3)) && (i % 3 == 2 ==> Keeps(val, s[i - 1], 15))
  }

  /** The accumulator with one more byte; the bits on the left are lost. */
  function Append(val: bv32, c: byte): bv32 { (val << 8) + c as bv32 }

  /** Only low bits are read, so it does not matter that the accumulator overflows. */
  lemma {:induction false} AccumulatorBits(val: bv32, b: byte, c: byte)
    ensures var v := Append(val, c);
      && Shows(ShiftRight(v, 2), First(c))
      && (Keeps(val, b, 3) ==> Shows(ShiftRight(v, 4), Second(b, c)))
      && (Keeps(val, b, 15) ==> Shows(ShiftRight(v, 6), Third(b, c)))
      && Shows(ShiftRight(v, 0), Fourth(c))
      && Keeps(v, c, 3) && Keeps(v, c, 15)
  {
  }

  lemma {:induction false} LastBits(val: bv32, b: byte)
    ensures Keeps(val, b, 3) ==> Shows(ShiftRight(val << 8, 4), Second(b, 0))
    ensures Keeps(val, b, 15) ==> Shows(ShiftRight(val << 8, 6), Third(b, 0))
  {
  }

  /** The character an accumulator shows at a shift. */
  function PickAt(val: bv32, k: nat): char
    requires k < 32
  {
    Pick(ShiftRight(val, k))
  }

  lemma {:induction false} AccumulatorChars(val: bv32, s: seq<byte>, i: nat)
    requires i < |s| && Holds(val, s, i)
    ensures var v := Append(val, s[i]);
      && Holds(v, s, i + 1)
      && (i % 3 == 0 ==> Emitted(s, i) == [PickAt(v, 2)])
      && (i % 3 == 1 ==> Emitted(s, i) == [PickAt(v, 4)])
      && (i % 3 == 2 ==> Emitted(s, i) == [PickAt(v, 6), PickAt(v, 0)])
  {
    hide Pick, ShiftRight, First, Second, Third, Fourth, Letter, Shows, Keeps, Append;
    var b, c := if i > 0 then s[i - 1] else 0, s[i];
    var v := Append(val, c);
    AccumulatorBits(val, b, c);
    if i % 3 == 0 {
      PickIs(ShiftRight(v, 2), First(c));
    } else if i % 3 == 1 {
      PickIs(ShiftRight(v, 4), Second(b, c));
    } else {
      PickIs(ShiftRight(v, 6), Third(b, c));
      PickIs(ShiftRight(v, 0), Fourth(c));
    }
  }

  lemma {:induction false} LastByte(val: bv32, s: seq<byte>)
    requires |s| % 3 == 1 && Holds(val, s, |s|)
    ensures EmittedUpTo(s, |s|) + [PickAt(val << 8, 4)] + "==" == Encode(s)
  {
    hide Pick, ShiftRight, First, Second, Letter, Shows, Keeps, EmittedUpTo;
    var n := |s| - 1;
    WholeGroups(s, n);
    OneEmitted(s, n);
    LastBits(val, s[n]);
    PickIs(ShiftRight(val << 8, 4), Second(s[n], 0));
    assert s[n..] == [s[n]];
  }

  lemma {:induction false} LastTwoBytes(val: bv32, s: seq<byte>)
    requires |s| % 3 == 2 && Holds(val, s, |s|)
    ensures EmittedUpTo(s, |s|) + [PickAt(val << 8, 6)] + "=" == Encode(s)
  {
    hide Pick, ShiftRight, First, Second, Third, Letter, Shows, Keeps, EmittedUpTo;
    var n := |s| - 2;
    WholeGroups(s, n);
    OneEmitted(s, n);
    OneEmitted(s, n + 1);
    LastBits(val, s[n + 1]);
    PickIs(ShiftRight(val << 8, 6), Third(s[n + 1], 0));
    assert s[n..] == [s[n], s[n + 1]];
  }

  lemma {:induction false} NoBytesLeft(s: seq<byte>)
    requires |s| % 3 == 0
    ensures EmittedUpTo(s, |s|) == Encode(s)
  {
    WholeGroups(s, |s|);
    assert s[|s|..] == [];
  }

  /** The encoder of the compiler: `valb` counts the bits of `val` not written yet, less six. */
  method EncodeBits(s: seq<byte>) returns (result: string)
    ensures result == Encode(s)
  {
    hide Encode, PickAt, Emitted, EmittedUpTo, Holds, Append;
    result := "";
    var val: bv32, valb: int := 0, -6;
    HoldsNothing(val, s);
    for i := 0 to |s|
      invariant result == EmittedUpTo(s, i) && valb == 2 * (i % 3) - 6 && Holds(val, s, i)
    {
      AccumulatorChars(val, s, i);
      OneEmitted(s, i);
      val := Append(val, s[i]);
      valb := valb + 8;
      ghost var before := result;
      while valb >= 0
        invariant valb == 2 * (i % 3) + 2 ==> result == before
        invariant valb == 0 && i % 3 == 2 ==> result == before + [PickAt(val, 6)]
        invariant valb == 2 * (i % 3) + 2 || (valb == 0 && i % 3 == 2)
                  || (valb == 2 * ((i + 1) % 3) - 6 && result == before + Emitted(s, i))
        decreases valb
      {
        result := result + [PickAt(val, valb)];
        valb := valb - 6;
      }
    }
    if |s| % 3 == 1 {
      LastByte(val, s);
    } else if |s| % 3 == 2 {
      LastTwoBytes(val, s);
    } else {
      NoBytesLeft(s);
    }
    if valb > -6 {
      result := result + [PickAt(val << 8, valb + 8)];
    }
    while |result| % 4 != 0
      invariant |result| % 4 != 0 ==> |result| % 4 >= 2
      invariant |result| % 4 == 2 ==> result + "==" == Encode(s)
      invariant |result| % 4 == 3 ==> result + "=" == Encode(s)
      invariant |result| % 4 == 0 ==> result == Encode(s)
      decreases (4 - |result| % 4) % 4
    {
      result := result + "=";
    }
  }

  lemma {:induction false} HoldsNothing(val: bv32, s: seq<byte>)
    ensures Holds(val, s, 0) && EmittedUpTo(s, 0) == ""
  {
  }
}
