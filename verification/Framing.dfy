/** WebSocket frames, sections 5.2 and 5.3 of RFC 6455, as the relay writes and reads them. */
module Framing {
  import opened Options
  import opened Bytes

  // ---------- frames ----------

  /** How the length is written: in seven bits, or in two or eight more bytes. */
  datatype Form = Short | Medium | Long

  predicate Fits(n: nat, form: Form) {
    match form
    case Short => n < 126
    case Medium => n < 0x1_0000
    case Long => n < 0x1_0000_0000_0000_0000
  }

  /** The shortest form, which the relay uses. */
  function FormOf(n: nat): Form {
    if n < 126 then Short else if n < 0x1_0000 then Medium else Long
  }

  /** The seven length bits. */
  function LengthBits(n: nat, form: Form): (r: nat)
    requires Fits(n, form)
    ensures r < 128
  {
    match form
    case Short => n
    case Medium => 126
    case Long => 127
  }

  function Extension(n: nat, form: Form): seq<byte> {
    match form
    case Short => []
    case Medium => BigEndian(n, 2)
    case Long => BigEndian(n, 8)
  }

  /** Each byte combined with one of the four bytes of the key in turn. */
  function Masked(s: seq<byte>, key: seq<byte>): (r: seq<byte>)
    requires |key| == 4
    ensures |r| == |s|
  {
    seq(|s|, i requires 0 <= i < |s| => s[i] ^ key[i % 4])
  }

  /** A frame: the first byte holds the opcode, a client adds a key and masks the payload. */
  function FrameOf(first: byte, payload: seq<byte>, form: Form, key: Option<seq<byte>>): seq<byte>
    requires Fits(|payload|, form) && (key.Some? ==> |key.value| == 4)
  {
    var second := SecondByte(LengthBits(|payload|, form), key.Some?);
    if key.Some? then [first, second] + (Extension(|payload|, form) + (key.value + Masked(payload, key.value)))
    else [first, second] + (Extension(|payload|, form) + ([] + payload))
  }

  /** The mask bit and the seven length bits. */
  function SecondByte(bits: nat, masked: bool): byte
    requires bits < 128
  {
    if masked then bits as byte | 0x80 else bits as byte
  }

  /** The text frame the relay sends. */
  function Frame(msg: seq<byte>): seq<byte>
    requires |msg| < 0x1_0000_0000_0000_0000
  {
    FrameOf(0x81, msg, FormOf(|msg|), None)
  }

  // ---------- reading ----------

  /** `Closed` stands for a failed read. */
  datatype Received = Closed | Got(opcode: byte, payload: seq<byte>, rest: seq<byte>)

  predicate IsMasked(b: byte) { b & 0x80 != 0 }

  function LowBits(b: byte): nat { (b & 0x7F) as nat }

  function Header(bits: nat): Form {
    if bits == 126 then Medium else if bits == 127 then Long else Short
  }

  function ExtraBytes(form: Form): nat {
    match form
    case Short => 0
    case Medium => 2
    case Long => 8
  }

  function Min(a: nat, b: nat): nat { if a < b then a else b }

  /** What comes in front of a payload: the opcode, the length, the key if there is one, and the bytes taken. */
  datatype Head = Head(opcode: byte, len: nat, key: seq<byte>, size: nat)

  function ReadHead(stream: seq<byte>): (r: Option<Head>)
    ensures r.Some? ==> r.value.size <= |stream| && (|r.value.key| == 0 || |r.value.key| == 4)
  {
    if |stream| < 2 then None
    else
      var form := Header(LowBits(stream[1]));
      var p := 2 + ExtraBytes(form);
      var q := if IsMasked(stream[1]) then p + 4 else p;
      if |stream| < q then None
      else Some(Head(stream[0] & 0x0F, if form.Short? then LowBits(stream[1]) else NumberOf(stream[2..p]), stream[p..q], q))
  }

  /** The payload as far as it fits the buffer; a part that is cut off stays in the stream. */
  function ReadBody(stream: seq<byte>, head: Head, max: nat): Received
    requires head.size <= |stream| && (|head.key| == 0 || |head.key| == 4)
  {
    var got := Min(Min(head.len, max), |stream| - head.size);
    var body := stream[head.size..head.size + got];
    if got == 0 then Closed
    else Got(head.opcode, if |head.key| == 4 then Masked(body, head.key) else body, stream[head.size + got..])
  }

  /** One frame from the bytes that are left. */
  function Receive(stream: seq<byte>, max: nat): Received {
    match ReadHead(stream)
    case None => Closed
    case Some(head) => ReadBody(stream, head, max)
  }

  // ---------- a frame is read as it was written ----------

  lemma {:induction false} MaskTwice(s: seq<byte>, key: seq<byte>)
    requires |key| == 4
    ensures Masked(Masked(s, key), key) == s
  {
    forall i | 0 <= i < |s| ensures Masked(Masked(s, key), key)[i] == s[i] { XorTwice(s[i], key[i % 4]); }
  }

  lemma {:induction false} XorTwice(x: byte, m: byte)
    ensures (x ^ m) ^ m == x
  {
  }

  lemma {:induction false} MaskPrefix(s: seq<byte>, key: seq<byte>, n: nat)
    requires |key| == 4 && n <= |s|
    ensures Masked(s, key)[..n] == Masked(s[..n], key)
  {
  }

  lemma {:induction false} HeaderBits(b: byte)
    requires b < 128
    ensures b & 0x7F == b && b & 0x80 == 0 && (b | 0x80) & 0x7F == b && (b | 0x80) & 0x80 != 0
  {
  }

  lemma {:induction false} SecondByteReads(bits: nat, masked: bool)
    requires bits < 128
    ensures LowBits(SecondByte(bits, masked)) == bits && IsMasked(SecondByte(bits, masked)) == masked
  {
    ByteBack(bits);
    HeaderBits(bits as byte);
  }

  lemma {:induction false} LengthReads(n: nat, form: Form)
    requires Fits(n, form)
    ensures Header(LengthBits(n, form)) == form && |Extension(n, form)| == ExtraBytes(form)
    ensures n == if form.Short? then LengthBits(n, form) else NumberOf(Extension(n, form))
  {
    match form
    case Short =>
    case Medium => Powers(); BigEndianReads(n, 2);
    case Long => Powers(); BigEndianReads(n, 8);
  }

  lemma {:induction false} Powers()
    ensures Power256(2) == 0x1_0000 && Power256(8) == 0x1_0000_0000_0000_0000
  {
    assert Power256(4) == 0x1_0000_0000;
    assert Power256(6) == 0x1_0000_0000_0000;
  }

  lemma {:induction false} Parts(first: byte, second: byte, ext: seq<byte>, key: seq<byte>, tail: seq<byte>)
    ensures var stream := [first, second] + (ext + (key + tail));
      var p, q := 2 + |ext|, 2 + |ext| + |key|;
      && |stream| == q + |tail| && stream[0] == first && stream[1] == second
      && stream[2..p] == ext && stream[p..q] == key && stream[q..] == tail
  {
    var stream := [first, second] + (ext + (key + tail));
    var p := 2 + |ext|;
    assert stream[2..] == ext + (key + tail);
    assert stream[p..] == key + tail;
    assert stream[2..p] == stream[2..][..|ext|] == ext;
    assert stream[p..p + |key|] == stream[p..][..|key|] == key;
  }

  lemma {:induction false} HeadReads(stream: seq<byte>, ext: seq<byte>, key: seq<byte>, n: nat)
    requires var p, q := 2 + |ext|, 2 + |ext| + |key|; |stream| >= q && stream[2..p] == ext && stream[p..q] == key
    requires var form := Header(LowBits(stream[1]));
      && |ext| == ExtraBytes(form) && n == if form.Short? then LowBits(stream[1]) else NumberOf(ext)
    requires |key| == if IsMasked(stream[1]) then 4 else 0
    ensures ReadHead(stream) == Some(Head(stream[0] & 0x0F, n, key, 2 + |ext| + |key|))
  {
    hide NumberOf, LowBits, IsMasked, Header;
  }

  lemma {:induction false} BodyReads(stream: seq<byte>, head: Head, tail: seq<byte>, max: nat)
    requires head.size <= |stream| && (|head.key| == 0 || |head.key| == 4) && stream[head.size..] == tail
    ensures var got := Min(Min(head.len, max), |tail|);
      ReadBody(stream, head, max) ==
        if got == 0 then Closed
        else Got(head.opcode, if |head.key| == 4 then Masked(tail[..got], head.key) else tail[..got], tail[got..])
  {
    hide Masked;
    var got := Min(Min(head.len, max), |tail|);
    assert stream[head.size..head.size + got] == stream[head.size..][..got];
    assert stream[head.size + got..] == stream[head.size..][got..];
  }

  /** A frame taken apart: header, length extension, key, and everything behind. */
  lemma {:induction false} PartsRead(stream: seq<byte>, ext: seq<byte>, key: seq<byte>, tail: seq<byte>, n: nat, max: nat)
    requires var p, q := 2 + |ext|, 2 + |ext| + |key|;
      |stream| == q + |tail| && stream[2..p] == ext && stream[p..q] == key && stream[q..] == tail
    requires var form := Header(LowBits(stream[1]));
      && |ext| == ExtraBytes(form) && n == if form.Short? then LowBits(stream[1]) else NumberOf(ext)
    requires |key| == if IsMasked(stream[1]) then 4 else 0
    ensures var got := Min(Min(n, max), |tail|);
      Receive(stream, max) ==
        if got == 0 then Closed
        else Got(stream[0] & 0x0F, if |key| == 4 then Masked(tail[..got], key) else tail[..got], tail[got..])
  {
    hide Masked, NumberOf, LowBits, IsMasked, Header, ReadHead, ReadBody;
    HeadReads(stream, ext, key, n);
    BodyReads(stream, Head(stream[0] & 0x0F, n, key, 2 + |ext| + |key|), tail, max);
  }

  lemma {:induction false} CutTail(body: seq<byte>, rest: seq<byte>, got: nat)
    requires got <= |body|
    ensures (body + rest)[..got] == body[..got] && (body + rest)[got..] == body[got..] + rest
  {
  }

  /**
   * A frame in any length form, masked or not, in front of anything: what is read is the payload as far as it
   * fits the buffer, and nothing at all if it is empty.
   */
  lemma {:induction false} FrameReads(first: byte, payload: seq<byte>, form: Form, key: Option<seq<byte>>, rest: seq<byte>, max: nat)
    requires Fits(|payload|, form) && (key.Some? ==> |key.value| == 4)
    ensures var got := Min(|payload|, max);
      Receive(FrameOf(first, payload, form, key) + rest, max) ==
        if got == 0 then Closed
        else Got(first & 0x0F, payload[..got],
                 (if key.Some? then Masked(payload, key.value)[got..] else payload[got..]) + rest)
  {
    hide Receive, Masked, NumberOf, Extension, LengthBits, Header, Fits, LowBits, IsMasked, SecondByte;
    var second := SecondByte(LengthBits(|payload|, form), key.Some?);
    var ext := Extension(|payload|, form);
    LengthReads(|payload|, form);
    SecondByteReads(LengthBits(|payload|, form), key.Some?);
    var mask := if key.Some? then key.value else [];
    var body := if key.Some? then Masked(payload, key.value) else payload;
    Regroup(first, second, ext, mask, body, rest);
    Parts(first, second, ext, mask, body + rest);
    PartsRead([first, second] + (ext + (mask + (body + rest))), ext, mask, body + rest, |payload|, max);
    var got := Min(|payload|, max);
    CutTail(body, rest, got);
    if key.Some? {
      MaskPrefix(payload, key.value, got);
      MaskTwice(payload[..got], key.value);
    }
  }

  lemma {:induction false} Regroup(first: byte, second: byte, ext: seq<byte>, key: seq<byte>, body: seq<byte>, rest: seq<byte>)
    ensures [first, second] + (ext + (key + body)) + rest == [first, second] + (ext + (key + (body + rest)))
  {
  }

  /** A frame is received exactly as it was sent, and nothing else is taken, if and only if its payload is not empty and fits. */
  lemma {:induction false} ReceivedExactly(first: byte, payload: seq<byte>, form: Form, key: Option<seq<byte>>, rest: seq<byte>, max: nat)
    requires Fits(|payload|, form) && (key.Some? ==> |key.value| == 4)
    ensures Receive(FrameOf(first, payload, form, key) + rest, max) == Got(first & 0x0F, payload, rest)
            <==> 1 <= |payload| <= max
  {
    hide FrameOf, Receive, Masked;
    FrameReads(first, payload, form, key, rest, max);
    if 1 <= |payload| <= max {
      assert payload[..|payload|] == payload && payload[|payload|..] == [];
      assert [] + rest == rest;
    }
  }

  // ---------- streams of frames ----------

  /** A payload with all the choices its sender has. */
  datatype Sent = Sent(first: byte, payload: seq<byte>, form: Form, key: Option<seq<byte>>)

  ghost predicate Sendable(f: Sent, max: nat) {
    && Fits(|f.payload|, f.form) && (f.key.Some? ==> |f.key.value| == 4)
    && 1 <= |f.payload| <= max
  }

  ghost predicate AllSendable(fs: seq<Sent>, max: nat) {
    forall k :: 0 <= k < |fs| ==> Sendable(fs[k], max)
  }

  ghost function Stream(fs: seq<Sent>, max: nat): seq<byte>
    requires AllSendable(fs, max)
  {
    if fs == [] then []
    else
      assert Sendable(fs[0], max);
      FrameOf(fs[0].first, fs[0].payload, fs[0].form, fs[0].key) + Stream(fs[1..], max)
  }

  /** What repeated reading delivers, until a read fails; and what is left then. */
  function ReceiveAll(stream: seq<byte>, max: nat): (seq<(byte, seq<byte>)>, seq<byte>)
    decreases |stream|
  {
    match Receive(stream, max)
    case Closed => ([], stream)
    case Got(opcode, payload, rest) =>
      if |rest| < |stream| then
        var more := ReceiveAll(rest, max); ([(opcode, payload)] + more.0, more.1)
      else ([], stream)
  }

  function Delivered(fs: seq<Sent>): seq<(byte, seq<byte>)> {
    seq(|fs|, k requires 0 <= k < |fs| => (fs[k].first & 0x0F, fs[k].payload))
  }

  /** Reading a stream of frames delivers the payloads in order, each with its opcode, and nothing is left over. */
  lemma {:induction false} StreamReads(fs: seq<Sent>, max: nat)
    requires AllSendable(fs, max)
    ensures ReceiveAll(Stream(fs, max), max) == (Delivered(fs), [])
  {
    hide Receive, FrameOf;
    if fs == [] {
      assert Receive([], max) == Closed by { NothingToRead(max); }
    } else {
      var f, rest := fs[0], Stream(fs[1..], max);
      assert Sendable(f, max);
      ReceivedExactly(f.first, f.payload, f.form, f.key, rest, max);
      StreamReads(fs[1..], max);
      FrameIsLonger(f, max);
      assert Delivered(fs) == [(f.first & 0x0F, f.payload)] + Delivered(fs[1..]);
    }
  }

  lemma {:induction false} NothingToRead(max: nat)
    ensures Receive([], max) == Closed
  {
  }

  lemma {:induction false} OneByteIsClosed(stream: seq<byte>, max: nat)
    requires |stream| == 1
    ensures Receive(stream, max) == Closed
  {
  }

  lemma {:induction false} FrameIsLonger(f: Sent, max: nat)
    requires Sendable(f, max)
    ensures |FrameOf(f.first, f.payload, f.form, f.key)| > |f.payload|
  {
  }

  /** The text frames of those messages one after the other. */
  function Frames(msgs: seq<seq<byte>>): seq<byte>
    requires forall k :: 0 <= k < |msgs| ==> |msgs[k]| < 0x1_0000_0000_0000_0000
  {
    if msgs == [] then [] else Frame(msgs[0]) + Frames(msgs[1..])
  }

  function TextsOf(msgs: seq<seq<byte>>): seq<(byte, seq<byte>)> {
    seq(|msgs|, k requires 0 <= k < |msgs| => (1, msgs[k]))
  }

  /** What the relay sends it reads back: the same messages as text, nothing left over. */
  lemma {:induction false} RelayReadsItsFrames(msgs: seq<seq<byte>>, max: nat)
    requires forall k :: 0 <= k < |msgs| ==> 1 <= |msgs[k]| <= max && |msgs[k]| < 0x1_0000_0000_0000_0000
    ensures ReceiveAll(Frames(msgs), max) == (TextsOf(msgs), [])
  {
    hide Receive, FrameOf, ReceiveAll;
    var fs := seq(|msgs|, k requires 0 <= k < |msgs| => Sent(0x81, msgs[k], FormOf(|msgs[k]|), None));
    FramesAreStream(msgs, max, fs);
    StreamReads(fs, max);
    assert Delivered(fs) == TextsOf(msgs);
  }

  lemma {:induction false} FramesAreStream(msgs: seq<seq<byte>>, max: nat, fs: seq<Sent>)
    requires forall k :: 0 <= k < |msgs| ==> 1 <= |msgs[k]| <= max && |msgs[k]| < 0x1_0000_0000_0000_0000
    requires |fs| == |msgs| && forall k :: 0 <= k < |fs| ==> fs[k] == Sent(0x81, msgs[k], FormOf(|msgs[k]|), None)
    ensures AllSendable(fs, max) && Stream(fs, max) == Frames(msgs)
    decreases |msgs|
  {
    hide FrameOf;
    if msgs != [] {
      FramesAreStream(msgs[1..], max, fs[1..]);
    }
  }
}
