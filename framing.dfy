/**
 * The length-prefixed wire format of the byte-stream connection: a 4-byte
 * big-endian unsigned length followed by that many payload bytes. The encoder
 * is the one the TCP example client uses; the decoder is the read loop of
 * impl/conn/tcp_conn.go, specified in module TcpConnection.
 */
module Framing {

  type byte = x: int | 0 <= x < 256

  /** def.TcpHeadSize */
  const TcpHeadSize: nat := 4

  /** 2^32: one more than the largest uint32 */
  const Uint32Limit: int := 0x1_0000_0000

  /** binary.BigEndian.Uint32 */
  function BigEndianUint32(b: seq<byte>): (n: nat)
    requires |b| == TcpHeadSize
    ensures n < Uint32Limit
  {
    ((b[0] as int * 256 + b[1]) * 256 + b[2]) * 256 + b[3]
  }

  /** binary.BigEndian.PutUint32 */
  function PutUint32(n: nat): (b: seq<byte>)
    requires n < Uint32Limit
    ensures |b| == TcpHeadSize
  {
    [n / 0x100_0000, (n / 0x1_0000) % 256, (n / 256) % 256, n % 256]
  }

  lemma {:induction false} PutUint32Decodes(n: nat)
    requires n < Uint32Limit
    ensures BigEndianUint32(PutUint32(n)) == n
  {
    var b := PutUint32(n);
    assert n / 0x1_0000 == (n / 0x100_0000) * 256 + (n / 0x1_0000) % 256;
    assert n / 256 == (n / 0x1_0000) * 256 + (n / 256) % 256;
    assert n == (n / 256) * 256 + n % 256;
  }

  lemma {:induction false} BigEndianUint32Encodes(b: seq<byte>)
    requires |b| == TcpHeadSize
    ensures PutUint32(BigEndianUint32(b)) == b
  {
    DigitsEncode(b[0], b[1], b[2], b[3]);
    assert b == [b[0], b[1], b[2], b[3]];
  }

  /** Four base-256 digits, combined and split again, are the same digits. */
  lemma DigitsEncode(b0: byte, b1: byte, b2: byte, b3: byte)
    ensures PutUint32(((b0 * 256 + b1) * 256 + b2) * 256 + b3) == [b0, b1, b2, b3]
  {
    var n := ((b0 * 256 + b1) * 256 + b2) * 256 + b3;
    assert n / 256 == (b0 * 256 + b1) * 256 + b2;
    assert n / 0x1_0000 == b0 * 256 + b1;
    assert n / 0x100_0000 == b0;
  }

  /**
   * The example client's encoder: the header is the payload length cast to
   * uint32, which wraps for payloads of 2^32 bytes or more.
   */
  function EncodeFrame(output: seq<byte>): (frame: seq<byte>)
    ensures |frame| == TcpHeadSize + |output|
    ensures frame[TcpHeadSize..] == output
  {
    PutUint32(|output| % Uint32Limit) + output
  }

  /** The header of a frame announces the payload length, modulo 2^32. */
  lemma EncodeFrameHeader(output: seq<byte>)
    ensures BigEndianUint32(EncodeFrame(output)[..TcpHeadSize]) == |output| % Uint32Limit
  {
    var head := PutUint32(|output| % Uint32Limit);
    PutUint32Decodes(|output| % Uint32Limit);
    assert EncodeFrame(output)[..TcpHeadSize] == head;
  }

  /** Payloads short enough for their length to survive the uint32 cast. */
  predicate Framable(msgs: seq<seq<byte>>)
  {
    forall i :: 0 <= i < |msgs| ==> |msgs[i]| < Uint32Limit
  }

  /** A stream carrying the given payloads one frame after another. */
  function EncodeAll(msgs: seq<seq<byte>>): seq<byte>
  {
    if msgs == [] then [] else EncodeFrame(msgs[0]) + EncodeAll(msgs[1..])
  }

  lemma EncodeAllCons(m: seq<byte>, msgs: seq<seq<byte>>)
    ensures EncodeAll([m] + msgs) == EncodeFrame(m) + EncodeAll(msgs)
    ensures Framable(msgs) && |m| < Uint32Limit ==> Framable([m] + msgs)
  {
    assert ([m] + msgs)[1..] == msgs;
    if Framable(msgs) && |m| < Uint32Limit {
      forall i | 0 <= i < |[m] + msgs|
        ensures |([m] + msgs)[i]| < Uint32Limit
      {
        if i > 0 {
          assert ([m] + msgs)[i] == msgs[i - 1];
        }
      }
    }
  }

  lemma AppendAssoc<T>(a: seq<T>, b: seq<T>, c: seq<T>)
    ensures (a + b) + c == a + (b + c)
  {
  }

  lemma PrependKeepsPrefix<T>(a: seq<T>, b: seq<T>, c: seq<T>)
    requires b <= c
    ensures a + b <= a + c
  {
    assert (a + c)[..|a + b|] == a + b;
  }

  /** The concatenation of the given payloads, as one unframed byte sequence. */
  function Flatten(msgs: seq<seq<byte>>): seq<byte>
  {
    if msgs == [] then [] else msgs[0] + Flatten(msgs[1..])
  }
}
