/** The broker-facing uplink packet and its binary frame.

    Frame layout used by this model (all integers big-endian):
      tag (1) | device address (4) | frame counter (4) | payload length (2) | payload
      | metadata length (2) | metadata | MIC (4)                                      */
module Codec {
  import opened Errors
  import opened Core

  /** An uplink packet as a router hands it to the broker. */
  datatype BPacket = BPacket(devAddr: DevAddr, fcnt: uint32, payload: seq<byte>, metadata: seq<byte>, mic: Mic)

  /** The type tag that opens every broker packet frame. */
  const Tag: byte := 0x02

  /** The size of a frame with empty payload and empty metadata. */
  const MinFrameSize: nat := 1 + 4 + 4 + 2 + 2 + 4

  /** A packet whose variable-length fields fit their 16-bit length prefixes. */
  predicate WellFormed(p: BPacket) {
    |p.payload| < 0x1_0000 && |p.metadata| < 0x1_0000
  }

  function U16(n: nat): (b: seq<byte>)
    requires n < 0x1_0000
  {
    [(n / 0x100) as byte, (n % 0x100) as byte]
  }

  function ReadU16(b: seq<byte>): (n: nat)
    requires |b| == 2
    ensures n < 0x1_0000
  {
    b[0] as nat * 0x100 + b[1] as nat
  }

  function U32(x: uint32): (b: seq<byte>) {
    var n2 := x as int / 0x100;
    var n1 := n2 / 0x100;
    [(n1 / 0x100) as byte, (n1 % 0x100) as byte, (n2 % 0x100) as byte, (x as int % 0x100) as byte]
  }

  function ReadU32(b: seq<byte>): uint32
    requires |b| == 4
  {
    (((b[0] as int * 0x100 + b[1] as int) * 0x100 + b[2] as int) * 0x100 + b[3] as int) as uint32
  }

  lemma U16RoundTrip(n: nat)
    requires n < 0x1_0000
    ensures ReadU16(U16(n)) == n
  {
  }

  lemma ReadU16RoundTrip(b: seq<byte>)
    requires |b| == 2
    ensures U16(ReadU16(b)) == b
  {
  }

  lemma U32RoundTrip(x: uint32)
    ensures ReadU32(U32(x)) == x
  {
  }

  /** Appending one byte in base 256 can be undone by division and remainder. */
  lemma ShiftByte(a: nat, c: nat)
    requires c < 0x100
    ensures (a * 0x100 + c) / 0x100 == a && (a * 0x100 + c) % 0x100 == c
  {
  }

  lemma ReadU32RoundTrip(b: seq<byte>)
    requires |b| == 4
    ensures U32(ReadU32(b)) == b
  {
    var hi := b[0] as nat * 0x100 + b[1] as nat;
    var mid := hi * 0x100 + b[2] as nat;
    ShiftByte(mid, b[3] as nat);
    ShiftByte(hi, b[2] as nat);
    ShiftByte(b[0] as nat, b[1] as nat);
  }

  /** The frame of a well-formed packet. */
  function Encode(p: BPacket): (b: seq<byte>)
    requires WellFormed(p)
    ensures |b| == MinFrameSize + |p.payload| + |p.metadata|
  {
    [Tag] + p.devAddr + U32(p.fcnt) + U16(|p.payload|) + p.payload + U16(|p.metadata|) + p.metadata + p.mic
  }

  /** Parses a frame. Fails with Structural when the input is shorter than the minimum
      frame, carries another tag, or has length prefixes that disagree with its size. */
  function Decode(b: seq<byte>): (r: Result<BPacket>)
    ensures |b| < MinFrameSize ==> r == Failure(Structural)
    ensures r.Failure? ==> r.error == Structural
    ensures r.Success? ==> WellFormed(r.value) && |b| == MinFrameSize + |r.value.payload| + |r.value.metadata|
  {
    if |b| < MinFrameSize || b[0] != Tag then Failure(Structural)
    else
      var plen := ReadU16(b[9..11]);
      if |b| < MinFrameSize + plen then Failure(Structural)
      else
        var mlen := ReadU16(b[11 + plen..13 + plen]);
        if |b| != MinFrameSize + plen + mlen then Failure(Structural)
        else
          Success(BPacket(b[1..5], ReadU32(b[5..9]), b[11..11 + plen],
                          b[13 + plen..13 + plen + mlen], b[13 + plen + mlen..]))
  }

  /** Decoding undoes encoding. */
  lemma DecodeEncode(p: BPacket)
    requires WellFormed(p)
    ensures Decode(Encode(p)) == Success(p)
  {
    var b := Encode(p);
    var plen, mlen := |p.payload|, |p.metadata|;
    assert b[9..11] == U16(plen);
    U16RoundTrip(plen);
    assert b[11 + plen..13 + plen] == U16(mlen);
    U16RoundTrip(mlen);
    assert b[5..9] == U32(p.fcnt);
    U32RoundTrip(p.fcnt);
    assert b[1..5] == p.devAddr;
    assert b[11..11 + plen] == p.payload;
    assert b[13 + plen..13 + plen + mlen] == p.metadata;
    assert b[13 + plen + mlen..] == p.mic;
  }

  /** Every frame that decodes is the encoding of what it decodes to: a frame has one reading. */
  lemma EncodeDecode(b: seq<byte>)
    requires Decode(b).Success?
    ensures Encode(Decode(b).value) == b
  {
    var p := Decode(b).value;
    var plen, mlen := |p.payload|, |p.metadata|;
    ReadU16RoundTrip(b[9..11]);
    ReadU16RoundTrip(b[11 + plen..13 + plen]);
    ReadU32RoundTrip(b[5..9]);
    // Dafny finds this proof unaided only on some solver seeds; these steps keep it within
    // the resource limit on every seed. The frame is its fields laid end to end, each equal
    // to the field's encoding.
    var head := [Tag] + p.devAddr + U32(p.fcnt) + U16(plen);
    assert head == b[..11];
    var middle := p.payload + U16(mlen) + p.metadata;
    assert middle == b[11..13 + plen + mlen];
    assert Encode(p) == head + middle + p.mic;
    assert b == b[..11] + b[11..13 + plen + mlen] + b[13 + plen + mlen..];
  }
}
