/** Sending and receiving frames through byte buffers. */
module WebSocket {
  import opened Options
  import opened Bytes
  import opened Framing

  const WS_BUF_SIZE := 65536

  /** Messages whose frame does not overrun the buffer. */
  predicate CanSend(n: nat) { n <= WS_BUF_SIZE - 4 }

  lemma {:induction false} FrameFits(msg: seq<byte>)
    requires |msg| < 0x1_0000_0000_0000_0000
    ensures |Frame(msg)| <= WS_BUF_SIZE <==> CanSend(|msg|)
  {
    LengthReads(|msg|, FormOf(|msg|));
    hide BigEndian;
  }

  /** One end of a connection: the bytes still to be read, and the bytes written. */
  class Connection {
    var inbox: seq<byte>
    var outbox: seq<byte>

    constructor (inbox: seq<byte>)
      ensures this.inbox == inbox && outbox == []
    {
      this.inbox := inbox;
      outbox := [];
    }

    /** As many bytes as asked for, or all there are. */
    method Recv(k: nat) returns (got: seq<byte>)
      modifies this`inbox
      ensures var n := Min(k, |old(inbox)|); got == old(inbox)[..n] && inbox == old(inbox)[n..]
    {
      var n := Min(k, |inbox|);
      got := inbox[..n];
      inbox := inbox[n..];
    }

    /**
     * The frame is put together in a buffer of fixed size. `fits` is false where the copy of the message would
     * run over the end of that buffer; what the program does from there on is undefined.
     */
    method WsSend(msg: seq<byte>) returns (fits: bool)
      requires |msg| < 0x1_0000_0000_0000_0000
      modifies this`outbox
      ensures fits <==> CanSend(|msg|)
      ensures outbox == if fits then old(outbox) + Frame(msg) else old(outbox)
    {
      hide Extension, LengthBits, SecondByte;
      if !CanSend(|msg|) {
        return false;
      }
      var buf := new byte[WS_BUF_SIZE];
      var pos := WriteHeader(buf, |msg|);
      forall i | 0 <= i < |msg| {
        buf[pos + i] := msg[i];
      }
      ghost var form := FormOf(|msg|);
      assert buf[..pos + |msg|] == buf[..pos] + msg;
      assert buf[..pos] + msg == [buf[0], buf[1]] + (Extension(|msg|, form) + ([] + msg));
      outbox := outbox + buf[..pos + |msg|];
      fits := true;
    }

    /**
     * Header, length extension and key; nothing if the stream ends before. If it ends behind the first byte the
     * second one is whatever the buffer held.
     */
    method RecvHead() returns (head: Option<Head>)
      modifies this`inbox
      ensures |old(inbox)| != 1 ==> head == ReadHead(old(inbox)) && (head.Some? ==> inbox == old(inbox)[head.value.size..])
      ensures |old(inbox)| == 1 ==> inbox == []
      ensures head.Some? ==> |head.value.key| == 0 || |head.value.key| == 4
    {
      hide NumberOf, LowBits, IsMasked;
      ghost var stream := inbox;
      var hdr := new byte[2];
      var got := Recv(2);
      if |got| == 0 {
        return None;
      }
      forall i | 0 <= i < |got| {
        hdr[i] := got[i];
      }
      assert |stream| != 1 ==> inbox == stream[2..];
      var len := LowBits(hdr[1]);
      var extra := ExtraBytes(Header(len));
      ghost var p := 2 + extra;
      if extra > 0 {
        var ext := Recv(extra);
        if |ext| != extra {
          return None;
        }
        assert ext == stream[2..p];
        assert inbox == stream[2..][extra..] == stream[p..];
        len := ReadLength(ext);
      }
      var key := [];
      assert |stream| != 1 ==> inbox == stream[p..];
      if IsMasked(hdr[1]) {
        key := Recv(4);
        if |key| != 4 {
          return None;
        }
        assert key == stream[p..p + 4];
      }
      head := Some(Head(hdr[0] & 0x0F, len, key, 2 + extra + |key|));
    }

    /** The payload of the next frame, written into a buffer and unmasked there. */
    method WsRecv(payload: array<byte>, max: nat) returns (n: int, opcode: byte)
      requires max < payload.Length
      modifies this`inbox, payload
      ensures n == -1 || 0 < n <= max
      ensures n == -1 <==> Receive(old(inbox), max).Closed?
      ensures n > 0 ==> Receive(old(inbox), max) == Got(opcode, payload[..n], inbox) && payload[n] == 0
    {
      hide Masked, ReadHead;
      ghost var stream := inbox;
      if |stream| == 1 {
        OneByteIsClosed(stream, max);
      }
      n, opcode := -1, 0;
      var h := RecvHead();
      if h.None? {
        return;
      }
      var head := h.value;
      opcode := head.opcode;
      var body := Recv(Min(head.len, max));
      assert |stream| != 1 ==> body == stream[head.size..head.size + |body|] && inbox == stream[head.size + |body|..];
      if |body| == 0 {
        return;
      }
      n := |body|;
      forall i | 0 <= i < n {
        payload[i] := body[i];
      }
      assert payload[..n] == body;
      if |head.key| == 4 {
        Unmask(payload, n, head.key);
      }
      payload[n] := 0;
    }
  }

  method WriteHeader(buf: array<byte>, len: nat) returns (pos: nat)
    requires len <= WS_BUF_SIZE - 4 && buf.Length == WS_BUF_SIZE
    modifies buf
    ensures 2 <= pos <= 4
    ensures buf[0] == 0x81 && buf[1] == SecondByte(LengthBits(len, FormOf(len)), false)
    ensures buf[2..pos] == Extension(len, FormOf(len))
  {
    hide BigEndian;
    pos := 2;
    buf[0] := 0x81;
    if len < 126 {
      buf[1] := len as byte;
    } else {
      TwoBytes(len);
      buf[1] := 126;
      buf[2] := (len / 256) as byte;
      buf[3] := (len % 256) as byte;
      pos := 4;
    }
  }

  lemma {:induction false} TwoBytes(len: nat)
    requires len < 0x1_0000
    ensures BigEndian(len, 2) == [(len / 256) as byte, (len % 256) as byte]
  {
    assert BigEndian(len / 256, 1) == [(len / 256 % 256) as byte] by { assert BigEndian(len / 256 / 256, 0) == []; }
  }

  /** The number in a length extension, byte by byte. */
  method ReadLength(ext: seq<byte>) returns (len: nat)
    ensures len == NumberOf(ext)
  {
    len := 0;
    for i := 0 to |ext|
      invariant len == NumberOf(ext[..i])
    {
      assert ext[..i + 1][..i] == ext[..i];
      len := 256 * len + ext[i] as int;
    }
    assert ext[..|ext|] == ext;
  }

  /** Combines the first `n` bytes with the key in place. */
  method Unmask(payload: array<byte>, n: nat, key: seq<byte>)
    requires n <= payload.Length && |key| == 4
    modifies payload
    ensures payload[..n] == Masked(old(payload[..n]), key)
    ensures payload[n..] == old(payload[n..])
  {
    for i := 0 to n
      invariant forall k :: 0 <= k < i ==> payload[k] == old(payload[k]) ^ key[k % 4]
      invariant forall k :: i <= k < payload.Length ==> payload[k] == old(payload[k])
    {
      payload[i] := payload[i] ^ key[i % 4];
    }
  }
}
