/** 3GPP identifiers as BIT STRINGs (conversions.c). Bytes, shifts and masks are those of the program:
    8-bit buffers, 32- and 64-bit words. */
module Conversions {

  /** Bits at the end of the last byte that carry nothing. */
  type Unused = u: bv8 | u < 8

  /** What a store into a byte of the buffer keeps. */
  function Byte(v: bv64): bv8 {
    (v & 0xFF) as bv8
  }

  /** The bits above the lowest byte. */
  function Drop(v: bv64): bv64 {
    v >> 8
  }

  /** A byte below the bits read so far. */
  function Join(rest: bv64, x: bv8): bv64 {
    (rest << 8) | (x as bv64)
  }

  // ----- little-endian identifiers -----

  /** Least significant byte first; the last byte holds the remaining bits, shifted to its top. */
  function Encode(v: bv64, size: nat, unused: Unused): (b: seq<bv8>)
    requires size > 0
    ensures |b| == size
  {
    if size == 1 then [Byte(v) << unused]
    else [Byte(v)] + Encode(Drop(v), size - 1, unused)
  }

  function Decode(b: seq<bv8>, unused: Unused): bv64
    requires b != []
  {
    if |b| == 1 then (b[0] >> unused) as bv64
    else Join(Decode(b[1..], unused), b[0])
  }

  /** v has no more bits than size bytes with so many unused bits can hold. */
  predicate Fits(v: bv64, size: nat, unused: Unused)
    requires size > 0
  {
    if size == 1 then v <= 0xFF && ((v as bv8) << unused) >> unused == v as bv8
    else Fits(v >> 8, size - 1, unused)
  }

  /** The unused bits are zero. */
  predicate Padded(b: seq<bv8>, unused: Unused)
    requires b != []
  {
    (b[|b| - 1] >> unused) << unused == b[|b| - 1]
  }

  /** Decoding undoes encoding, for every width. */
  lemma {:induction false} DecodeEncode(v: bv64, size: nat, unused: Unused)
    requires size > 0 && Fits(v, size, unused)
    ensures Decode(Encode(v, size, unused), unused) == v
  {
    if size == 1 {
      SmallByte(v, unused);
    } else {
      DecodeEncode(v >> 8, size - 1, unused);
      JoinByte(v);
      hide Join, Byte, Fits;
      assert Encode(v, size, unused)[1..] == Encode(v >> 8, size - 1, unused);
    }
  }

  /** The bits of v from bit 8 * i on. */
  function From(v: bv64, i: nat): bv64 {
    match i
    case 0 => v
    case 1 => v >> 8
    case 2 => v >> 16
    case 3 => v >> 24
    case 4 => v >> 32
    case 5 => v >> 40
    case 6 => v >> 48
    case 7 => v >> 56
    case _ => 0
  }

  /** Byte i of an encoded identifier holds its bits 8 * i to 8 * i + 7; the last byte holds the bits that
      remain, above the unused ones. */
  lemma {:induction false} EncodedByte(v: bv64, size: nat, unused: Unused, i: nat)
    requires i < size <= 8
    ensures Encode(v, size, unused)[i] == if i < size - 1 then Byte(From(v, i)) else Byte(From(v, i)) << unused
    decreases i
  {
    hide *;
    if i == 0 {
      FirstByte(v, size, unused);
    } else {
      EncodedByte(Drop(v), size - 1, unused, i - 1);
      LaterByte(v, size, unused, i);
      FromDrop(v, i);
    }
  }

  lemma FirstByte(v: bv64, size: nat, unused: Unused)
    requires size > 0
    ensures Encode(v, size, unused)[0] == if size > 1 then Byte(From(v, 0)) else Byte(From(v, 0)) << unused
  {
  }

  lemma LaterByte(v: bv64, size: nat, unused: Unused, i: nat)
    requires 0 < i < size
    ensures Encode(v, size, unused)[i] == Encode(Drop(v), size - 1, unused)[i - 1]
  {
  }

  lemma FromDrop(v: bv64, i: nat)
    requires 0 < i < 8
    ensures From(Drop(v), i - 1) == From(v, i)
  {
    ShiftTwice(v);
    if i < 4 {
      assert i == 1 || i == 2 || i == 3;
    } else {
      assert i == 4 || i == 5 || i == 6 || i == 7;
    }
  }

  lemma ShiftTwice(v: bv64)
    ensures Drop(v) == v >> 8 && (v >> 8) >> 8 == v >> 16 && (v >> 8) >> 16 == v >> 24 && (v >> 8) >> 24 == v >> 32
    ensures (v >> 8) >> 32 == v >> 40 && (v >> 8) >> 40 == v >> 48 && (v >> 8) >> 48 == v >> 56
  {
  }

  lemma JoinByte(v: bv64)
    ensures Join(v >> 8, Byte(v)) == v
  {
  }

  lemma SmallByte(v: bv64, unused: Unused)
    requires v <= 0xFF && ((v as bv8) << unused) >> unused == v as bv8
    ensures ((Byte(v) << unused) >> unused) as bv64 == v
  {
  }

  /** Encoding undoes decoding exactly on strings whose unused bits are zero. */
  lemma {:induction false} EncodeDecodeIff(b: seq<bv8>, unused: Unused)
    requires 0 < |b| <= 8
    ensures Encode(Decode(b, unused), |b|, unused) == b <==> Padded(b, unused)
    ensures AtMost(Decode(b, unused), |b|)
  {
    hide *;
    if |b| == 1 {
      SingleByte(b, unused);
    } else {
      EncodeDecodeIff(b[1..], unused);
      MoreBytes(b, unused);
    }
  }

  lemma SingleByte(b: seq<bv8>, unused: Unused)
    requires |b| == 1
    ensures Encode(Decode(b, unused), 1, unused) == b <==> Padded(b, unused)
    ensures AtMost(Decode(b, unused), 1)
  {
    OneByte(b[0], unused);
    assert b == [b[0]];
  }

  lemma EncodeMore(v: bv64, size: nat, unused: Unused)
    requires size > 1
    ensures Encode(v, size, unused) == [Byte(v)] + Encode(Drop(v), size - 1, unused)
  {
  }

  lemma DecodeMore(b: seq<bv8>, unused: Unused)
    requires |b| > 1
    ensures Decode(b, unused) == Join(Decode(b[1..], unused), b[0]) && Padded(b, unused) == Padded(b[1..], unused)
  {
  }

  lemma SameRest(b: seq<bv8>, e: seq<bv8>)
    requires b != []
    ensures [b[0]] + e == b <==> e == b[1..]
  {
    assert ([b[0]] + e)[1..] == e;
    assert b == [b[0]] + b[1..];
  }

  lemma MoreBytes(b: seq<bv8>, unused: Unused)
    requires 1 < |b| <= 8 && AtMost(Decode(b[1..], unused), |b| - 1)
    ensures Encode(Decode(b, unused), |b|, unused) == b <==> Encode(Decode(b[1..], unused), |b| - 1, unused) == b[1..]
    ensures AtMost(Decode(b, unused), |b|) && Padded(b, unused) == Padded(b[1..], unused)
  {
    hide *;
    var rest := Decode(b[1..], unused);
    JoinMax(rest, b[0], |b| - 1);
    SplitByte(rest, b[0]);
    DecodeMore(b, unused);
    EncodeMore(Join(rest, b[0]), |b|, unused);
    SameRest(b, Encode(rest, |b| - 1, unused));
  }

  lemma OneByte(x: bv8, unused: Unused)
    ensures Encode((x >> unused) as bv64, 1, unused) == [(x >> unused) << unused]
    ensures AtMost((x >> unused) as bv64, 1)
  {
    assert Byte((x >> unused) as bv64) == x >> unused;
  }

  /** v is a value of so many bytes. */
  predicate AtMost(v: bv64, size: nat) {
    match size
    case 0 => v == 0
    case 1 => v <= 0xFF
    case 2 => v <= 0xFFFF
    case 3 => v <= 0xFF_FFFF
    case 4 => v <= 0xFFFF_FFFF
    case 5 => v <= 0xFF_FFFF_FFFF
    case 6 => v <= 0xFFFF_FFFF_FFFF
    case 7 => v <= 0xFF_FFFF_FFFF_FFFF
    case _ => true
  }

  lemma JoinMax(rest: bv64, x: bv8, size: nat)
    requires size < 8 && AtMost(rest, size)
    ensures AtMost(Join(rest, x), size + 1) && AtMost(rest, 7)
  {
    match size
    case 0 =>
    case 1 =>
    case 2 =>
    case 3 =>
    case 4 =>
    case 5 =>
    case 6 =>
    case 7 =>
  }

  lemma SplitByte(rest: bv64, x: bv8)
    requires AtMost(rest, 7)
    ensures Byte(Join(rest, x)) == x && Drop(Join(rest, x)) == rest
  {
  }

  // ----- E-UTRAN identifiers -----

  /** Macro, short and long (ng-)eNB ids: three bytes; 20, 18 and 21 bits. */
  predicate ThreeByteWidth(val: bv64, unused: Unused) {
    (unused == 4 && val < 1048576) || (unused == 6 && val < 262144) || (unused == 3 && val < 2097152)
  }

  method ThreeByteId(val: bv64, unused: Unused) returns (buf: array<bv8>)
    requires ThreeByteWidth(val, unused)
    ensures fresh(buf) && buf[..] == Encode(val, 3, unused) && Decode(buf[..], unused) == val
  {
    buf := new bv8[3];
    buf[0] := Byte(val);
    buf[1] := Byte(val >> 8);
    buf[2] := Byte((val >> 16) << unused);
    ThreeBytes(val, unused);
    assert buf[..] == [buf[0], buf[1], buf[2]];
  }

  lemma ThreeBytes(v: bv64, unused: Unused)
    requires ThreeByteWidth(v, unused)
    ensures Encode(v, 3, unused) == [Byte(v), Byte(v >> 8), Byte((v >> 16) << unused)]
    ensures Decode(Encode(v, 3, unused), unused) == v
  {
    EncodeMore(v, 3, unused);
    EncodeMore(v >> 8, 2, unused);
    TopByte(v, unused);
    TopFits(v >> 8 >> 8, unused);
    assert Fits(v >> 8, 2, unused);
    DecodeEncode(v, 3, unused);
  }

  lemma TopByte(v: bv64, unused: Unused)
    requires ThreeByteWidth(v, unused)
    ensures Byte((v >> 16) << unused) == Byte(v >> 8 >> 8) << unused
    ensures unused == 4 ==> v >> 8 >> 8 < 16
    ensures unused == 6 ==> v >> 8 >> 8 < 4
    ensures unused == 3 ==> v >> 8 >> 8 < 32
  {
  }

  lemma TopFits(w: bv64, unused: Unused)
    requires (unused == 4 && w < 16) || (unused == 6 && w < 4) || (unused == 3 && w < 32)
    ensures Fits(w, 1, unused)
  {
  }

  /** The decoders of three bytes read back. */
  function ThreeByteValue(b: seq<bv8>, unused: Unused): (v: bv64)
    requires |b| == 3
    ensures v == Decode(b, unused)
  {
    assert Decode(b[1..][1..], unused) == (b[2] >> unused) as bv64;
    assert Decode(b[1..], unused) == Join((b[2] >> unused) as bv64, b[1]);
    (((b[2] >> unused) as bv64) << 16) | ((b[1] as bv64) << 8) | (b[0] as bv64)
  }

  /** E-UTRAN cell ids and home eNB ids: four bytes, 28 bits. */
  method FourByteId(val: bv64) returns (buf: array<bv8>)
    requires val < 268435456
    ensures fresh(buf) && buf[..] == Encode(val, 4, 4) && Decode(buf[..], 4) == val
  {
    buf := new bv8[4];
    buf[0] := Byte(val);
    buf[1] := Byte(val >> 8);
    buf[2] := Byte(val >> 16);
    buf[3] := Byte((val >> 24) << 4);
    FourBytes(val);
    assert buf[..] == [buf[0], buf[1], buf[2], buf[3]];
  }

  lemma FourBytes(v: bv64)
    requires v < 268435456
    ensures Encode(v, 4, 4) == [Byte(v), Byte(v >> 8), Byte(v >> 16), Byte((v >> 24) << 4)]
    ensures Fits(v, 4, 4) && Decode(Encode(v, 4, 4), 4) == v
  {
    EncodeMore(v, 4, 4);
    EncodeMore(v >> 8, 3, 4);
    EncodeMore(v >> 8 >> 8, 2, 4);
    TopNibble(v >> 8 >> 8 >> 8);
    FitsMore(v >> 8 >> 8, 2, 4);
    FitsMore(v >> 8, 3, 4);
    FitsMore(v, 4, 4);
    DecodeEncode(v, 4, 4);
    hide Encode, Decode, Fits;
    assert v >> 8 >> 8 >> 8 == v >> 24;
  }

  lemma FitsMore(v: bv64, size: nat, unused: Unused)
    requires size > 1
    ensures Fits(v, size, unused) == Fits(v >> 8, size - 1, unused)
  {
  }

  lemma TopNibble(w: bv64)
    requires w < 16
    ensures Fits(w, 1, 4) && Encode(w, 1, 4) == [Byte(w << 4)]
  {
  }

  /** The decoders of four bytes read back. */
  function FourByteValue(b: seq<bv8>): (v: bv64)
    requires |b| == 4
    ensures v == Decode(b, 4)
  {
    assert Decode(b[1..][1..][1..], 4) == (b[3] >> 4) as bv64;
    assert Decode(b[1..][1..], 4) == Join((b[3] >> 4) as bv64, b[2]);
    assert Decode(b[1..], 4) == Join(Join((b[3] >> 4) as bv64, b[2]), b[1]);
    (((b[3] >> 4) as bv64) << 24) | ((b[2] as bv64) << 16) | ((b[1] as bv64) << 8) | (b[0] as bv64)
  }

  // ----- the NR cell id -----

  /** A byte shifted by 24 as a 32-bit signed integer and widened to 64 bits. */
  function SignedShift24(b: bv8): bv64 {
    var w := (b as bv32) << 24;
    if w >> 31 == 1 then 0xFFFF_FFFF_0000_0000 | (w as bv64) else w as bv64
  }

  function NrValue(b0: bv8, b1: bv8, b2: bv8, b3: bv8, b4: bv8): bv64 {
    (((b4 >> 4) as bv64) << 32) | SignedShift24(b3) | ((b2 as bv64) << 16) | ((b1 as bv64) << 8) | (b0 as bv64)
  }

  /** cp_nr_cell_id_to_u64. */
  function NrCellIdToU64(b: seq<bv8>): bv64
    requires |b| == 5
  {
    NrValue(b[0], b[1], b[2], b[3], b[4])
  }

  /** cp_nr_cell_id_to_bit_string. */
  method NrCellIdToBitString(val: bv64) returns (buf: array<bv8>)
    requires val < 68719476736
    ensures fresh(buf) && buf[..] == Encode(val, 5, 4) && Decode(buf[..], 4) == val
  {
    buf := new bv8[5];
    buf[0] := Byte(val);
    buf[1] := Byte(val >> 8);
    buf[2] := Byte(val >> 16);
    buf[3] := Byte(val >> 24);
    buf[4] := Byte((val >> 32) << 4);
    FiveBytes(val);
    assert buf[..] == [buf[0], buf[1], buf[2], buf[3], buf[4]];
  }

  lemma FiveBytes(v: bv64)
    requires v < 68719476736
    ensures Encode(v, 5, 4) == [Byte(v), Byte(v >> 8), Byte(v >> 16), Byte(v >> 24), Byte((v >> 32) << 4)]
    ensures Decode(Encode(v, 5, 4), 4) == v
  {
    var w := v >> 8;
    assert w < 268435456;
    FourBytes(w);
    FitsMore(v, 5, 4);
    DecodeEncode(v, 5, 4);
    ShiftedBytes(v);
    FiveEncoded(v, Byte(v >> 8), Byte(v >> 16), Byte(v >> 24), Byte((v >> 32) << 4));
  }

  lemma FiveEncoded(v: bv64, b1: bv8, b2: bv8, b3: bv8, b4: bv8)
    requires Encode(Drop(v), 4, 4) == [b1, b2, b3, b4]
    ensures Encode(v, 5, 4) == [Byte(v), b1, b2, b3, b4]
  {
    EncodeMore(v, 5, 4);
    Prepended(Byte(v), Encode(Drop(v), 4, 4));
  }

  lemma Prepended<T>(x: T, tail: seq<T>)
    requires |tail| == 4
    ensures [x] + tail == [x, tail[0], tail[1], tail[2], tail[3]]
  {
  }

  lemma ShiftedBytes(v: bv64)
    ensures Drop(v) == v >> 8
    ensures Byte((v >> 8) >> 8) == Byte(v >> 16) && Byte((v >> 8) >> 16) == Byte(v >> 24)
    ensures Byte(((v >> 8) >> 24) << 4) == Byte((v >> 32) << 4)
  {
  }

  /** The NR cell id survives the round trip exactly when its bit 31 is clear; otherwise the sign of the
      fourth byte floods the upper half. */
  lemma NrRoundTripIff(v: bv64)
    requires v < 68719476736
    ensures NrCellIdToU64(Encode(v, 5, 4)) == v <==> (v >> 31) & 1 == 0
    ensures (v >> 31) & 1 == 1 ==> NrCellIdToU64(Encode(v, 5, 4)) == v | 0xFFFF_FFFF_0000_0000
  {
    FiveBytes(v);
    NrValueIff(v);
    hide Encode, Decode, Byte, NrValue;
  }

  lemma NrValueIff(v: bv64)
    requires v < 68719476736
    ensures var w := NrValue(Byte(v), Byte(v >> 8), Byte(v >> 16), Byte(v >> 24), Byte((v >> 32) << 4));
            (w == v <==> (v >> 31) & 1 == 0) && ((v >> 31) & 1 == 1 ==> w == v | 0xFFFF_FFFF_0000_0000)
  {
  }
}
