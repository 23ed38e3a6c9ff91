/** The gNB id, a BIT STRING of 22 to 32 bits, most significant bit first (conversions.c). */
module GnbIds {

  /** Bytes of a bit string and how many bits of the last one carry nothing. */
  datatype BitString = BitString(buf: seq<bv8>, unused: bv32)

  /** A gNB id of 32 - unused bits. */
  datatype GnbId = GnbId(id: bv32, unused: bv32)

  predicate ValidId(g: GnbId) {
    g.unused <= 10 && (g.id as bv64) >> (32 - g.unused) == 0
  }

  /** Three or four bytes, 22 to 32 bits. */
  predicate ValidString(b: BitString) {
    (|b.buf| == 3 && b.unused < 3) || (|b.buf| == 4 && b.unused < 8)
  }

  predicate Padded(b: BitString)
    requires ValidString(b)
  {
    var last := b.buf[|b.buf| - 1];
    (last >> b.unused) << b.unused == last
  }

  function Byte(v: bv32): bv8 {
    (v & 0xFF) as bv8
  }

  function ThreeBytes(id: bv32, u: bv32): (r: seq<bv8>)
    requires u < 3
    ensures |r| == 3
  {
    [Byte(id >> (16 - u)), Byte(id >> (8 - u)), Byte((id & (0xFF >> u)) << u)]
  }

  function FourBytes(id: bv32, u: bv32): (r: seq<bv8>)
    requires u < 8
    ensures |r| == 4
  {
    [Byte(id >> (24 - u)), Byte(id >> (16 - u)), Byte(id >> (8 - u)), Byte((id & (0xFF >> u)) << u)]
  }

  /** The string of an id, as the encoder computes it. */
  function Encode(g: GnbId): (b: BitString)
    requires ValidId(g)
    ensures ValidString(b) && |b.buf| == (if g.unused > 7 then 3 else 4)
  {
    if g.unused > 7 then BitString(ThreeBytes(g.id, g.unused - 8), g.unused - 8)
    else BitString(FourBytes(g.id, g.unused), g.unused)
  }

  /** cp_bit_string_to_gnb_id. */
  function Decode(b: BitString): GnbId
    requires ValidString(b)
  {
    var u := b.unused;
    if |b.buf| == 3 then
      GnbId(((b.buf[0] as bv32) << (16 - u)) | ((b.buf[1] as bv32) << (8 - u)) | ((b.buf[2] as bv32) >> u), u + 8)
    else
      GnbId(((b.buf[0] as bv32) << (24 - u)) | ((b.buf[1] as bv32) << (16 - u)) | ((b.buf[2] as bv32) << (8 - u)) | ((b.buf[3] as bv32) >> u), u)
  }

  lemma UnusedInLastByte(unused: bv32)
    requires unused <= 10
    ensures unused % 8 == if unused > 7 then unused - 8 else unused
  {
  }

  /** cp_gnb_id_to_bit_string. */
  method GnbIdToBitString(g: GnbId) returns (buf: array<bv8>, bitsUnused: bv32)
    requires ValidId(g)
    ensures fresh(buf) && BitString(buf[..], bitsUnused) == Encode(g)
  {
    bitsUnused := g.unused % 8;
    UnusedInLastByte(g.unused);
    hide ThreeBytes, FourBytes;
    if g.unused > 7 {
      buf := ThreeByteBuffer(g.id, bitsUnused);
    } else {
      buf := FourByteBuffer(g.id, bitsUnused);
    }
  }

  method ThreeByteBuffer(id: bv32, u: bv32) returns (buf: array<bv8>)
    requires u < 3
    ensures fresh(buf) && buf[..] == ThreeBytes(id, u)
  {
    hide Byte;
    buf := new bv8[3];
    buf[0] := Byte(id >> (16 - u));
    buf[1] := Byte(id >> (8 - u));
    var m: bv32 := 0xFF >> u;
    buf[2] := Byte((id & m) << u);
    assert buf[..] == [buf[0], buf[1], buf[2]];
  }

  method FourByteBuffer(id: bv32, u: bv32) returns (buf: array<bv8>)
    requires u < 8
    ensures fresh(buf) && buf[..] == FourBytes(id, u)
  {
    hide Byte;
    buf := new bv8[4];
    buf[0] := Byte(id >> (24 - u));
    buf[1] := Byte(id >> (16 - u));
    buf[2] := Byte(id >> (8 - u));
    var m: bv32 := 0xFF >> u;
    buf[3] := Byte((id & m) << u);
    assert buf[..] == [buf[0], buf[1], buf[2], buf[3]];
  }

  lemma ThreeByteRoundTrip(id: bv32, u: bv32)
    requires u < 3 && (id as bv64) >> (24 - u) == 0
    ensures Decode(BitString(ThreeBytes(id, u), u)) == GnbId(id, u + 8) && Padded(BitString(ThreeBytes(id, u), u))
  {
  }

  lemma FourByteRoundTrip(id: bv32, u: bv32)
    requires u < 8 && (id as bv64) >> (32 - u) == 0
    ensures Decode(BitString(FourBytes(id, u), u)) == GnbId(id, u) && Padded(BitString(FourBytes(id, u), u))
  {
  }

  /** Decoding undoes encoding, for every id of 22 to 32 bits. */
  lemma DecodeEncode(g: GnbId)
    requires ValidId(g)
    ensures ValidString(Encode(g)) && Padded(Encode(g)) && Decode(Encode(g)) == g
  {
    hide Decode, Padded, ThreeBytes, FourBytes;
    if g.unused > 7 {
      ThreeByteRoundTrip(g.id, g.unused - 8);
    } else {
      FourByteRoundTrip(g.id, g.unused);
    }
  }

  lemma ThreeBytesBack(b: BitString)
    requires ValidString(b) && |b.buf| == 3
    ensures ValidId(Decode(b)) && Decode(b).unused == b.unused + 8
    ensures ThreeBytes(Decode(b).id, b.unused) == b.buf <==> Padded(b)
  {
  }

  lemma FourBytesBack(b: BitString)
    requires ValidString(b) && |b.buf| == 4
    ensures ValidId(Decode(b)) && Decode(b).unused == b.unused
    ensures FourBytes(Decode(b).id, b.unused) == b.buf <==> Padded(b)
  {
  }

  /** A decoded id is valid, and encoding it yields the string again exactly when the string was
      zero-padded. */
  lemma EncodeDecodeIff(b: BitString)
    requires ValidString(b)
    ensures ValidId(Decode(b))
    ensures Encode(Decode(b)) == b <==> Padded(b)
  {
    hide Decode, Padded, ThreeBytes, FourBytes;
    if |b.buf| == 3 {
      ThreeBytesBack(b);
    } else {
      FourBytesBack(b);
    }
  }

  /** Bit i of a string, counted from its first, most significant bit. */
  function Bit(buf: seq<bv8>, i: bv32): bool
    requires (|buf| == 3 && i < 24) || (|buf| == 4 && i < 32)
  {
    var byte := if i < 8 then buf[0] else if i < 16 then buf[1] else if i < 24 then buf[2] else buf[3];
    (byte >> (7 - (i & 7))) & 1 == 1
  }

  lemma ThreeByteBits(id: bv32, u: bv32, i: bv32)
    requires u < 3 && i < 24 - u
    ensures Bit(ThreeBytes(id, u), i) <==> (id >> (23 - u - i)) & 1 == 1
  {
  }

  lemma FrontBits(id: bv32, u: bv32, i: bv32)
    requires u < 8 && i < 16
    ensures Bit(FourBytes(id, u), i) <==> (id >> (31 - u - i)) & 1 == 1
  {
  }

  lemma BackBits(id: bv32, u: bv32, i: bv32)
    requires u < 8 && 16 <= i < 32 - u
    ensures Bit(FourBytes(id, u), i) <==> (id >> (31 - u - i)) & 1 == 1
  {
  }

  lemma FourByteBits(id: bv32, u: bv32, i: bv32)
    requires u < 8 && i < 32 - u
    ensures Bit(FourBytes(id, u), i) <==> (id >> (31 - u - i)) & 1 == 1
  {
    hide *;
    if i < 16 {
      FrontBits(id, u, i);
    } else {
      BackBits(id, u, i);
    }
  }

  lemma SameIndex(u: bv32, i: bv32)
    requires 7 < u <= 10 && i < 32 - u
    ensures i < 24 - (u - 8) && 31 - u - i == 23 - (u - 8) - i
  {
  }

  /** The string is the id, most significant bit first. */
  lemma MostSignificantFirst(g: GnbId, i: bv32)
    requires ValidId(g) && i < 32 - g.unused
    ensures Bit(Encode(g).buf, i) <==> (g.id >> (31 - g.unused - i)) & 1 == 1
  {
    hide ThreeBytes, FourBytes, Bit;
    if g.unused > 7 {
      LongUnused(g, i);
    } else {
      FourByteBits(g.id, g.unused, i);
    }
  }

  lemma LongUnused(g: GnbId, i: bv32)
    requires ValidId(g) && g.unused > 7 && i < 32 - g.unused
    ensures Bit(Encode(g).buf, i) <==> (g.id >> (31 - g.unused - i)) & 1 == 1
  {
    SameIndex(g.unused, i);
    ThreeByteBits(g.id, g.unused - 8, i);
    hide ThreeBytes, FourBytes, Bit;
  }
}
