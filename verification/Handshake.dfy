/** The answer to an opening handshake, section 4.2.2 of RFC 6455. */
module Handshake {
  import opened Bytes
  import Base64
  import Sha1
  import Sha1Program

  const MAGIC := "258EAFA5-E914-47DA-95CA-C5AB0DC85B11"

  function AsBytes(s: string): seq<byte> {
    seq(|s|, i requires 0 <= i < |s| => (s[i] as int % 256) as byte)
  }

  /** The base64 form of the SHA-1 digest of the key with the fixed identifier behind it. */
  function Accept(key: seq<byte>): string {
    Base64.Encode(Sha1.Digest(key + AsBytes(MAGIC)))
  }

  method ComputeAccept(key: seq<byte>) returns (out: string)
    ensures out == Accept(key) && |out| == 28
  {
    hide Sha1.Digest, Base64.Encode;
    var digest := new byte[20];
    Sha1Program.Hash(key + AsBytes(MAGIC), digest);
    out := Base64.EncodeGroups(digest[..]);
    Base64.EncodedLength(digest[..]);
  }
}
