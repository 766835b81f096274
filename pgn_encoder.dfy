/** pkg/nmea2000/pgn/encoder.go: packing of five PGN payloads into 8-byte
    little-endian buffers. The Go encoders first scale a float64 and convert it
    to a fixed-width integer; here each encoder takes that integer, so the
    records below hold the scaled values (heading in 1e-4 rad, depth in cm,
    latitude in 1e-7 degree, ...). The layouts are this repository's own. */
module PgnEncoder {
  import opened Bytes
  import opened PgnTypes

  /** `uint16(x)` of an int16: the two's-complement bit pattern. */
  function U16Bits(x: int16): (u: uint16)
    ensures S16(u) == x
  {
    if x < 0 then x + 0x1_0000 else x
  }

  /** The int16 that a 16-bit pattern denotes in two's complement. */
  function S16(u: uint16): int16
  {
    if u >= 0x8000 then u - 0x1_0000 else u
  }

  /** `uint32(x)` of an int32: the two's-complement bit pattern. */
  function U32Bits(x: int32): (u: uint32)
    ensures S32(u) == x
  {
    if x < 0 then x + 0x1_0000_0000 else x
  }

  /** The int32 that a 32-bit pattern denotes in two's complement. */
  function S32(u: uint32): int32
  {
    if u >= 0x8000_0000 then u - 0x1_0000_0000 else u
  }

  /** Every 16-bit and 32-bit pattern is the image of exactly one signed value. */
  lemma BitsOnto(u: uint16, w: uint32)
    ensures U16Bits(S16(u)) == u && U32Bits(S32(w)) == w
  {
  }

  /** Little-endian reads, as `binary.LittleEndian.Uint16/Uint32` do. */
  function ReadU16(b: seq<byte>, off: nat): uint16
    requires off + 2 <= |b|
  {
    b[off] as int + 0x100 * (b[off + 1] as int)
  }

  function ReadU32(b: seq<byte>, off: nat): uint32
    requires off + 4 <= |b|
  {
    b[off] as int + 0x100 * (b[off + 1] as int + 0x100 * (b[off + 2] as int + 0x100 * (b[off + 3] as int)))
  }

  /** The bytes `PutUint16` writes: least significant first, read back as v. */
  function Le16(v: uint16): (r: seq<byte>)
    ensures |r| == 2 && ReadU16(r, 0) == v
  {
    [v % 0x100, v / 0x100]
  }

  /** The bytes `PutUint32` writes: least significant first, read back as v. */
  function Le32(v: uint32): (r: seq<byte>)
    ensures |r| == 4 && ReadU32(r, 0) == v
  {
    [v % 0x100, v / 0x100 % 0x100, v / 0x100 / 0x100 % 0x100, v / 0x100 / 0x100 / 0x100]
  }

  /** Two bytes are the little-endian encoding of what they read as. */
  lemma Le16OfRead(b: seq<byte>, off: nat)
    requires off + 2 <= |b|
    ensures Le16(ReadU16(b, off)) == b[off..off + 2]
  {
  }

  /** Four bytes are the little-endian encoding of what they read as. */
  lemma Le32OfRead(b: seq<byte>, off: nat)
    requires off + 4 <= |b|
    ensures Le32(ReadU32(b, off)) == b[off..off + 4]
  {
    var hi2 := b[off + 2] as int + 0x100 * (b[off + 3] as int);
    var hi1 := b[off + 1] as int + 0x100 * hi2;
    DigitSplit(b[off], hi1);
    DigitSplit(b[off + 1], hi2);
    DigitSplit(b[off + 2], b[off + 3]);
  }

  /** Dividing by 256 separates the low byte from the rest. */
  lemma DigitSplit(lo: byte, hi: nat)
    ensures (lo + 0x100 * hi) % 0x100 == lo && (lo + 0x100 * hi) / 0x100 == hi
  {
  }

  /** `binary.LittleEndian.PutUint16(data[off:off+2], v)`. */
  method PutUint16(data: array<byte>, off: nat, v: uint16)
    requires off + 2 <= data.Length
    modifies data
    ensures data[off] == Le16(v)[0] && data[off + 1] == Le16(v)[1]
    ensures forall j :: 0 <= j < data.Length && j != off && j != off + 1 ==> data[j] == old(data[j])
  {
    data[off] := v % 0x100;
    data[off + 1] := v / 0x100;
  }

  /** `binary.LittleEndian.PutUint32(data[off:off+4], v)`. */
  method PutUint32(data: array<byte>, off: nat, v: uint32)
    requires off + 4 <= data.Length
    modifies data
    ensures forall k :: 0 <= k < 4 ==> data[off + k] == Le32(v)[k]
    ensures forall j :: 0 <= j < data.Length && !(off <= j < off + 4) ==> data[j] == old(data[j])
  {
    data[off] := v % 0x100;
    data[off + 1] := v / 0x100 % 0x100;
    data[off + 2] := v / 0x100 / 0x100 % 0x100;
    data[off + 3] := v / 0x100 / 0x100 / 0x100;
  }

  // PGN 127250 ------------------------------------------------------------

  /** Heading (1e-4 rad), deviation and variation (signed, 1e-4 rad). */
  datatype VesselHeading = VesselHeading(
    heading: uint16, deviation: int16, variation: int16, reference: byte, reserved: byte)

  /** Bytes 0-1 heading, 2-3 deviation, 4-5 variation (two's complement),
      6 reference, 7 reserved. */
  function HeadingLayout(h: VesselHeading): (r: seq<byte>)
    ensures |r| == 8
    ensures ReadU16(r, 0) == h.heading && S16(ReadU16(r, 2)) == h.deviation
    ensures S16(ReadU16(r, 4)) == h.variation && r[6] == h.reference && r[7] == h.reserved
  {
    var r := Le16(h.heading) + Le16(U16Bits(h.deviation)) + Le16(U16Bits(h.variation)) +
      [h.reference, h.reserved];
    assert r[2..4] == Le16(U16Bits(h.deviation)) && r[4..6] == Le16(U16Bits(h.variation));
    r
  }

  function DecodeHeading(b: seq<byte>): VesselHeading
    requires |b| == 8
  {
    VesselHeading(ReadU16(b, 0), S16(ReadU16(b, 2)), S16(ReadU16(b, 4)), b[6], b[7])
  }

  /** Decoding an encoded heading gives it back. */
  lemma HeadingRoundTrip(h: VesselHeading)
    ensures DecodeHeading(HeadingLayout(h)) == h
  {
  }

  /** All eight bytes come from fields: every 8-byte payload encodes exactly
      one heading record. */
  lemma HeadingLayoutOnto(b: seq<byte>)
    requires |b| == 8
    ensures HeadingLayout(DecodeHeading(b)) == b
  {
    Le16OfRead(b, 0);
    Le16OfRead(b, 2);
    Le16OfRead(b, 4);
    BitsOnto(ReadU16(b, 2), 0);
    BitsOnto(ReadU16(b, 4), 0);
    assert b == b[0..2] + b[2..4] + b[4..6] + [b[6], b[7]];
  }

  /** EncodeVesselHeading. */
  method EncodeVesselHeading(h: VesselHeading) returns (r: seq<byte>)
    ensures r == HeadingLayout(h)
  {
    var data := new byte[8](_ => 0);
    PutUint16(data, 0, h.heading);
    PutUint16(data, 2, U16Bits(h.deviation));
    PutUint16(data, 4, U16Bits(h.variation));
    data[6] := h.reference;
    data[7] := h.reserved;
    r := data[..];
    assert r == HeadingLayout(h) by {
      var e := HeadingLayout(h);
      assert forall j :: 0 <= j < 8 ==> r[j] == e[j];
    }
  }

  // PGN 128267 ------------------------------------------------------------

  /** Depth (cm), transducer offset (signed, cm), maximum range (cm). */
  datatype WaterDepth = WaterDepth(depth: uint32, offset: int16, maxRange: uint16)

  /** Bytes 0-3 depth, 4-5 offset (two's complement), 6-7 maximum range. */
  function DepthLayout(d: WaterDepth): (r: seq<byte>)
    ensures |r| == 8
    ensures ReadU32(r, 0) == d.depth && S16(ReadU16(r, 4)) == d.offset && ReadU16(r, 6) == d.maxRange
  {
    var r := Le32(d.depth) + Le16(U16Bits(d.offset)) + Le16(d.maxRange);
    assert r[4..6] == Le16(U16Bits(d.offset)) && r[6..8] == Le16(d.maxRange);
    r
  }

  function DecodeDepth(b: seq<byte>): WaterDepth
    requires |b| == 8
  {
    WaterDepth(ReadU32(b, 0), S16(ReadU16(b, 4)), ReadU16(b, 6))
  }

  lemma DepthRoundTrip(d: WaterDepth)
    ensures DecodeDepth(DepthLayout(d)) == d
  {
  }

  /** Every 8-byte payload encodes exactly one depth record. */
  lemma DepthLayoutOnto(b: seq<byte>)
    requires |b| == 8
    ensures DepthLayout(DecodeDepth(b)) == b
  {
    Le32OfRead(b, 0);
    Le16OfRead(b, 4);
    Le16OfRead(b, 6);
    BitsOnto(ReadU16(b, 4), 0);
    assert b == b[0..4] + b[4..6] + b[6..8];
  }

  /** EncodeWaterDepth. */
  method EncodeWaterDepth(d: WaterDepth) returns (r: seq<byte>)
    ensures r == DepthLayout(d)
  {
    var data := new byte[8](_ => 0);
    PutUint32(data, 0, d.depth);
    PutUint16(data, 4, U16Bits(d.offset));
    PutUint16(data, 6, d.maxRange);
    r := data[..];
    assert r == DepthLayout(d) by {
      var e := DepthLayout(d);
      assert forall j :: 0 <= j < 8 ==> r[j] == e[j];
    }
  }

  /** encoder_test.go, "typical depth with offset": 10.5 m, -1.5 m, 100 m. */
  lemma DepthVector()
    ensures DepthLayout(WaterDepth(1050, -150, 10000)) == [0x1A, 0x04, 0x00, 0x00, 0x6A, 0xFF, 0x10, 0x27]
  {
  }

  // PGN 130306 ------------------------------------------------------------

  /** Wind speed (cm/s) and angle (1e-4 rad). */
  datatype WindData = WindData(windSpeed: uint16, windAngle: uint16, reference: byte)

  const PAD: seq<byte> := [0xFF, 0xFF, 0xFF]

  /** Bytes 0-1 speed, 2-3 angle, 4 reference, 5-7 0xFF. */
  function WindLayout(w: WindData): (r: seq<byte>)
    ensures |r| == 8 && r[5..] == PAD
    ensures ReadU16(r, 0) == w.windSpeed && ReadU16(r, 2) == w.windAngle && r[4] == w.reference
  {
    var r := Le16(w.windSpeed) + Le16(w.windAngle) + [w.reference] + PAD;
    assert r[2..4] == Le16(w.windAngle) && r[5..] == PAD;
    r
  }

  function DecodeWind(b: seq<byte>): WindData
    requires |b| == 8
  {
    WindData(ReadU16(b, 0), ReadU16(b, 2), b[4])
  }

  lemma WindRoundTrip(w: WindData)
    ensures DecodeWind(WindLayout(w)) == w
  {
  }

  /** A payload is a wind encoding exactly when its last three bytes are 0xFF. */
  lemma WindLayoutOnto(b: seq<byte>)
    requires |b| == 8
    ensures WindLayout(DecodeWind(b)) == b <==> b[5..] == PAD
  {
    if b[5..] == PAD {
      Le16OfRead(b, 0);
      Le16OfRead(b, 2);
      assert b == b[0..2] + b[2..4] + [b[4]] + b[5..];
    }
  }

  /** EncodeWindData. */
  method EncodeWindData(w: WindData) returns (r: seq<byte>)
    ensures r == WindLayout(w)
  {
    var data := new byte[8](_ => 0);
    PutUint16(data, 0, w.windSpeed);
    PutUint16(data, 2, w.windAngle);
    data[4] := w.reference;
    data[5] := 0xFF;
    data[6] := 0xFF;
    data[7] := 0xFF;
    r := data[..];
    assert r == WindLayout(w) by {
      var e := WindLayout(w);
      assert forall j :: 0 <= j < 8 ==> r[j] == e[j];
    }
  }

  /** encoder_test.go, "apparent wind": 5.5 m/s, 2.0 rad, apparent. */
  lemma WindVector()
    ensures WindLayout(WindData(550, 20000, 1)) == [0x26, 0x02, 0x20, 0x4E, 0x01, 0xFF, 0xFF, 0xFF]
  {
  }

  // PGN 129025 ------------------------------------------------------------

  /** Latitude and longitude in 1e-7 degree, signed. */
  datatype Position = Position(latitude: int32, longitude: int32)

  /** Bytes 0-3 latitude, 4-7 longitude, both two's complement. */
  function PositionLayout(p: Position): (r: seq<byte>)
    ensures |r| == 8
    ensures S32(ReadU32(r, 0)) == p.latitude && S32(ReadU32(r, 4)) == p.longitude
  {
    var r := Le32(U32Bits(p.latitude)) + Le32(U32Bits(p.longitude));
    assert r[4..8] == Le32(U32Bits(p.longitude));
    r
  }

  function DecodePosition(b: seq<byte>): Position
    requires |b| == 8
  {
    Position(S32(ReadU32(b, 0)), S32(ReadU32(b, 4)))
  }

  lemma PositionRoundTrip(p: Position)
    ensures DecodePosition(PositionLayout(p)) == p
  {
  }

  /** Every 8-byte payload encodes exactly one position. */
  lemma PositionLayoutOnto(b: seq<byte>)
    requires |b| == 8
    ensures PositionLayout(DecodePosition(b)) == b
  {
    Le32OfRead(b, 0);
    Le32OfRead(b, 4);
    BitsOnto(0, ReadU32(b, 0));
    BitsOnto(0, ReadU32(b, 4));
    assert b == b[0..4] + b[4..8];
  }

  /** EncodePosition. */
  method EncodePosition(p: Position) returns (r: seq<byte>)
    ensures r == PositionLayout(p)
  {
    var data := new byte[8](_ => 0);
    PutUint32(data, 0, U32Bits(p.latitude));
    PutUint32(data, 4, U32Bits(p.longitude));
    r := data[..];
    assert r == PositionLayout(p) by {
      var e := PositionLayout(p);
      assert forall j :: 0 <= j < 8 ==> r[j] == e[j];
    }
  }

  // PGN 128259 ------------------------------------------------------------

  /** Speed through water and over ground (cm/s). */
  datatype SpeedData = SpeedData(speedWater: uint16, speedGround: uint16, reference: byte)

  /** Bytes 0-1 water speed, 2-3 ground speed, 4 reference, 5-7 0xFF. */
  function SpeedLayout(s: SpeedData): (r: seq<byte>)
    ensures |r| == 8 && r[5..] == PAD
    ensures ReadU16(r, 0) == s.speedWater && ReadU16(r, 2) == s.speedGround && r[4] == s.reference
  {
    var r := Le16(s.speedWater) + Le16(s.speedGround) + [s.reference] + PAD;
    assert r[2..4] == Le16(s.speedGround) && r[5..] == PAD;
    r
  }

  function DecodeSpeed(b: seq<byte>): SpeedData
    requires |b| == 8
  {
    SpeedData(ReadU16(b, 0), ReadU16(b, 2), b[4])
  }

  lemma SpeedRoundTrip(s: SpeedData)
    ensures DecodeSpeed(SpeedLayout(s)) == s
  {
  }

  /** A payload is a speed encoding exactly when its last three bytes are 0xFF. */
  lemma SpeedLayoutOnto(b: seq<byte>)
    requires |b| == 8
    ensures SpeedLayout(DecodeSpeed(b)) == b <==> b[5..] == PAD
  {
    if b[5..] == PAD {
      Le16OfRead(b, 0);
      Le16OfRead(b, 2);
      assert b == b[0..2] + b[2..4] + [b[4]] + b[5..];
    }
  }

  /** EncodeSpeedData. */
  method EncodeSpeedData(s: SpeedData) returns (r: seq<byte>)
    ensures r == SpeedLayout(s)
  {
    var data := new byte[8](_ => 0);
    PutUint16(data, 0, s.speedWater);
    PutUint16(data, 2, s.speedGround);
    data[4] := s.reference;
    data[5] := 0xFF;
    data[6] := 0xFF;
    data[7] := 0xFF;
    r := data[..];
    assert r == SpeedLayout(s) by {
      var e := SpeedLayout(s);
      assert forall j :: 0 <= j < 8 ==> r[j] == e[j];
    }
  }
}
