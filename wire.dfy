/**
 * The datagram layouts shared by the client and the server. Both sides use Python's
 * `struct` module with the network byte order prefix `!`:
 *   - a request, and the client's acknowledgement, is `!Qd`: a big-endian unsigned
 *     64-bit sequence number followed by an 8-byte IEEE 754 binary64 timestamp (16 bytes);
 *   - a response is `!Qdd`: the sequence number, the echoed client timestamp and the
 *     server's own timestamp (24 bytes).
 * The binary64 fields are kept as opaque 8-byte images: the peers copy them and never
 * compute with the bits, so no floating-point reasoning is needed.
 */
module Wire {

  import opened Options

  newtype byte = x: int | 0 <= x < 256

  type Bytes = seq<byte>

  const U64_BOUND: nat := 0x1_0000_0000_0000_0000

  /** The range of the `Q` format; packing a value outside it raises `struct.error`. */
  type u64 = x: int | 0 <= x < U64_BOUND

  /** The 8-byte big-endian image of an IEEE 754 binary64 value (`d` under `!`). */
  type Double = b: Bytes | |b| == 8 witness [0, 0, 0, 0, 0, 0, 0, 0]

  /**
   * One reading of the wall clock: its value in whole microseconds, used where the
   * source compares or subtracts times, and the image of the same reading as a packed
   * binary64, used where the source puts it on the wire.
   */
  datatype Instant = Instant(micros: int, image: Double)

  const HEADER_SIZE: nat := 16
  const RESPONSE_SIZE: nat := 24

  function Pow256(k: nat): (p: nat)
    ensures p >= 1
  {
    if k == 0 then 1 else 256 * Pow256(k - 1)
  }

  lemma Pow256Eight()
    ensures Pow256(8) == U64_BOUND
  {
  }

  /** The `k` bytes of `n`, most significant first. */
  function BigEndian(n: nat, k: nat): (b: Bytes)
    requires n < Pow256(k)
    ensures |b| == k
  {
    if k == 0 then []
    else
      assert n / 256 < Pow256(k - 1);
      BigEndian(n / 256, k - 1) + [(n % 256) as byte]
  }

  /** The number whose big-endian bytes are `b`. */
  function FromBigEndian(b: Bytes): (n: nat)
    ensures n < Pow256(|b|)
  {
    if b == [] then 0
    else
      var high := FromBigEndian(b[..|b| - 1]);
      assert high * 256 + 255 < Pow256(|b| - 1) * 256 + 256;
      high * 256 + b[|b| - 1] as int
  }

  lemma {:induction false} FromBigEndianOf(n: nat, k: nat)
    requires n < Pow256(k)
    ensures FromBigEndian(BigEndian(n, k)) == n
  {
    if k > 0 {
      var b := BigEndian(n, k);
      assert b[..k - 1] == BigEndian(n / 256, k - 1);
      FromBigEndianOf(n / 256, k - 1);
    }
  }

  lemma {:induction false} BigEndianOf(b: Bytes)
    ensures BigEndian(FromBigEndian(b), |b|) == b
  {
    if b != [] {
      var k := |b|;
      var high := FromBigEndian(b[..k - 1]);
      var n := FromBigEndian(b);
      assert n / 256 == high && n % 256 == b[k - 1] as int;
      BigEndianOf(b[..k - 1]);
      assert b == b[..k - 1] + [b[k - 1]];
    }
  }

  function EncodeU64(n: u64): (b: Bytes)
    ensures |b| == 8
    ensures DecodeU64(b) == n
  {
    Pow256Eight();
    FromBigEndianOf(n, 8);
    BigEndian(n, 8)
  }

  function DecodeU64(b: Bytes): (n: u64)
    requires |b| == 8
  {
    Pow256Eight();
    FromBigEndian(b)
  }

  /** Decoding is injective: the 8 bytes are exactly the encoding of what they decode to. */
  lemma EncodeDecodeU64(b: Bytes)
    requires |b| == 8
    ensures EncodeU64(DecodeU64(b)) == b
  {
    Pow256Eight();
    BigEndianOf(b);
  }

  /** `!Qd`: a request, and equally the client's acknowledgement. */
  datatype Header = Header(sequenceNumber: u64, timestamp: Double)

  /** `!Qdd`: a response. */
  datatype Response = Response(sequenceNumber: u64, requestTime: Double, serverSendTime: Double)

  function PackHeader(h: Header): (b: Bytes)
    ensures |b| == HEADER_SIZE
  {
    EncodeU64(h.sequenceNumber) + h.timestamp
  }

  /**
   * `struct.unpack('!Qd', data[:16])`: any 16 leading bytes unpack, and the slice of a
   * shorter datagram is too short, which raises.
   */
  function UnpackHeader(data: Bytes): (h: Option<Header>)
    ensures h.None? <==> |data| < HEADER_SIZE
    ensures h.Some? ==> PackHeader(h.value) == data[..HEADER_SIZE]
  {
    if |data| < HEADER_SIZE then None
    else
      EncodeDecodeU64(data[..8]);
      Some(Header(DecodeU64(data[..8]), data[8..16]))
  }

  function PackResponse(r: Response): (b: Bytes)
    ensures |b| == RESPONSE_SIZE
  {
    EncodeU64(r.sequenceNumber) + r.requestTime + r.serverSendTime
  }

  /** `struct.unpack('!Qdd', data[:24])`, raising on fewer than 24 bytes. */
  function UnpackResponse(data: Bytes): (r: Option<Response>)
    ensures r.None? <==> |data| < RESPONSE_SIZE
    ensures r.Some? ==> PackResponse(r.value) == data[..RESPONSE_SIZE]
  {
    if |data| < RESPONSE_SIZE then None
    else
      EncodeDecodeU64(data[..8]);
      Some(Response(DecodeU64(data[..8]), data[8..16], data[16..24]))
  }

  /** A packed header, followed by any bytes at all, unpacks to itself. */
  lemma UnpackPackHeader(h: Header, rest: Bytes)
    ensures UnpackHeader(PackHeader(h) + rest) == Some(h)
  {
    var d := PackHeader(h) + rest;
    assert d[..8] == EncodeU64(h.sequenceNumber);
    assert d[8..16] == h.timestamp;
  }

  /** A packed response, followed by any bytes at all, unpacks to itself. */
  lemma UnpackPackResponse(r: Response, rest: Bytes)
    ensures UnpackResponse(PackResponse(r) + rest) == Some(r)
  {
    var d := PackResponse(r) + rest;
    assert d[..8] == EncodeU64(r.sequenceNumber);
    assert d[8..16] == r.requestTime;
    assert d[16..24] == r.serverSendTime;
  }
}
