/**
 * The telemetry record (firmware/include/telemetry.h) and the aggregator that
 * fills it (firmware/src/telemetry.cpp): a header, one section per sensor,
 * the controller's status with its flag word unpacked into booleans, the
 * fused snapshot, and an optional CRC-32 over every byte before the CRC.
 *
 * The reserved padding bytes of the packed layout are not fields here; the
 * byte image `EncodeBody` writes them as the zeros the memset leaves. Float
 * fields are serialised through their IEEE bit pattern, a parameter `fb`.
 */
module Telemetry {
  import opened Common
  import opened Readings
  import FcCore
  import Fusion
  import Crc32

  // ---------------------------------------------------------------------
  // The record (packed, little-endian)
  // ---------------------------------------------------------------------

  /** TP_* section bits. */
  const TP_BMP390: u32 := 0x01
  const TP_IMU1: u32 := 0x02
  const TP_SYSTEM: u32 := 0x04
  const TP_CONTROL: u32 := 0x08
  const TP_IMU2: u32 := 0x10

  const MAGIC0: u8 := 0xAB
  const MAGIC1: u8 := 0xCD

  datatype Header = Header(magic0: u8, magic1: u8, packetType: u8, seqNo: u32, timestampMs: u32, presentFlags: u32)

  datatype Bmp1Section = Bmp1Section(temperatureC: Flt, pressurePa: Flt, altitudeM: Flt, status: u8, ok: u8)

  datatype Imu1Section = Imu1Section(
    status: u8, ok: u8, calStatus: u8,
    quat: Quat, eulerDeg: V3, accelG: V3, gyroDps: V3, magUT: V3,
    baroAltM: Flt, dhiRsq: Flt)

  datatype Imu2Section = Imu2Section(accelG: V3, gyroDps: V3, tempC: Flt, status: u8, ok: u8)

  datatype SystemSection = SystemSection(
    vbatMv: u16, i2cErrs: u16, spiErrs: u16, fcState: u8, fcFlags: u32,
    sensImu1Ok: u8, sensBmp1Ok: u8, sensImu2Ok: u8, baroAgree: u8, machOk: u8,
    tiltOk: u8, tiltLatch: u8, liftoffDet: u8, burnoutDet: u8,
    fcTSinceLaunchS: Flt, fcTToApogeeS: Flt)

  datatype ControlSection = ControlSection(airbrakeCmdDeg: Flt, airbrakeActualDeg: Flt)

  datatype FusedSection = FusedSection(
    stampMs: u32, aglReady: u8,
    aglFusedM: Flt, aglBmp1M: Flt, aglImu1M: Flt, tApogeeS: Flt, apogeeAglM: Flt,
    vzMps: Flt, vzAccMps: Flt, vzFusedMps: Flt, azImu1Mps2: Flt,
    tiltDeg: Flt, tiltAzDeg360: Flt, machCons: Flt, tempC: Flt)

  datatype Record = Record(
    hdr: Header, bmp390: Bmp1Section, imu1: Imu1Section, imu2: Imu2Section,
    sys: SystemSection, ctl: ControlSection, fused: FusedSection, crc32: u32)

  const Z: Flt := Num(0.0)
  const Z3: V3 := V3(Z, Z, Z)

  /** `memset(&rec, 0, sizeof(rec))`. */
  const ZERO_RECORD: Record := Record(
    Header(0, 0, 0, 0, 0, 0),
    Bmp1Section(Z, Z, Z, 0, 0),
    Imu1Section(0, 0, 0, Quat(Z, Z, Z, Z), Z3, Z3, Z3, Z3, Z, Z),
    Imu2Section(Z3, Z3, Z, 0, 0),
    SystemSection(0, 0, 0, 0, 0, 0, 0, 0, 0, 0, 0, 0, 0, 0, Z, Z),
    ControlSection(Z, Z),
    FusedSection(0, 0, Z, Z, Z, Z, Z, Z, Z, Z, Z, Z, Z, Z, Z),
    0)

  // ---------------------------------------------------------------------
  // Byte image
  // ---------------------------------------------------------------------

  function Byte(x: int): u8
  {
    x % 256
  }

  /** The same bytes as bit vectors, as the CRC reads them. */
  function AsBits(s: seq<u8>): (r: seq<bv8>)
    ensures |r| == |s|
  {
    seq(|s|, i requires 0 <= i < |s| => s[i] as bv8)
  }

  function Zeros(n: nat): (r: seq<u8>)
    ensures |r| == n
  {
    seq(n, _ => 0)
  }

  function LE16(x: u16): (r: seq<u8>)
    ensures |r| == 2
  {
    [Byte(x), Byte(x / 0x100)]
  }

  function LE32(x: u32): (r: seq<u8>)
    ensures |r| == 4
  {
    [Byte(x), Byte(x / 0x100), Byte(x / 0x1_0000), Byte(x / 0x100_0000)]
  }

  /** The little-endian word of four bytes, b0 + b1<<8 + b2<<16 + b3<<24: the reader of `LE32`, and the word
      `uint32_reg_to_float` of the USFSMAX library assembles before its bit-cast. */
  function U32Of(b0: u8, b1: u8, b2: u8, b3: u8): (r: u32)
    ensures r % 0x100 == b0 && r / 0x100 % 0x100 == b1
    ensures r / 0x1_0000 % 0x100 == b2 && r / 0x100_0000 == b3
  {
    var h2 := b2 + 0x100 * b3;
    var h1 := b1 + 0x100 * h2;
    var r := b0 + 0x100 * h1;
    Digit(b0, h1);
    Digit(b1, h2);
    Digit(b2, b3);
    ShiftTwice(r);
    ShiftTwice(r / 0x100);
    r
  }

  /** Assembling the four bytes `LE32` emits for a word gives the word back. */
  lemma U32RoundTrip(x: u32)
    ensures var b := LE32(x); U32Of(b[0], b[1], b[2], b[3]) == x
  {
    var q1 := x / 0x100;
    var q2 := q1 / 0x100;
    var q3 := q2 / 0x100;
    ShiftTwice(x);
    var b := LE32(x);
    assert b == [x % 0x100, q1 % 0x100, q2 % 0x100, q3];
    var h2 := q2 % 0x100 + 0x100 * q3;
    var h1 := q1 % 0x100 + 0x100 * h2;
    assert h2 == q2;
    assert h1 == q1;
    assert U32Of(b[0], b[1], b[2], b[3]) == x % 0x100 + 0x100 * h1;
  }

  lemma U32BytesRoundTrip(b0: u8, b1: u8, b2: u8, b3: u8)
    ensures LE32(U32Of(b0, b1, b2, b3)) == [b0, b1, b2, b3]
  {
  }

  function F32(fb: Flt -> u32, x: Flt): (r: seq<u8>)
    ensures |r| == 4
  {
    LE32(fb(x))
  }

  function V3Bytes(fb: Flt -> u32, v: V3): (r: seq<u8>)
    ensures |r| == 12
  {
    F32(fb, v.x) + F32(fb, v.y) + F32(fb, v.z)
  }

  function HeaderBytes(h: Header): (r: seq<u8>)
    ensures |r| == 16
  {
    [Byte(h.magic0), Byte(h.magic1), Byte(h.packetType), 0] + LE32(h.seqNo) + LE32(h.timestampMs) + LE32(h.presentFlags)
  }

  function Bmp1Bytes(fb: Flt -> u32, s: Bmp1Section): (r: seq<u8>)
    ensures |r| == 16
  {
    F32(fb, s.temperatureC) + F32(fb, s.pressurePa) + F32(fb, s.altitudeM) + [Byte(s.status), Byte(s.ok)] + Zeros(2)
  }

  function Imu1Bytes(fb: Flt -> u32, s: Imu1Section): (r: seq<u8>)
    ensures |r| == 76
  {
    [Byte(s.status), Byte(s.ok), Byte(s.calStatus), 0]
    + F32(fb, s.quat.w) + F32(fb, s.quat.x) + F32(fb, s.quat.y) + F32(fb, s.quat.z)
    + V3Bytes(fb, s.eulerDeg) + V3Bytes(fb, s.accelG) + V3Bytes(fb, s.gyroDps) + V3Bytes(fb, s.magUT)
    + F32(fb, s.baroAltM) + F32(fb, s.dhiRsq)
  }

  function Imu2Bytes(fb: Flt -> u32, s: Imu2Section): (r: seq<u8>)
    ensures |r| == 32
  {
    V3Bytes(fb, s.accelG) + V3Bytes(fb, s.gyroDps) + F32(fb, s.tempC) + [Byte(s.status), Byte(s.ok)] + Zeros(2)
  }

  function SystemBytes(fb: Flt -> u32, s: SystemSection): (r: seq<u8>)
    ensures |r| == 32
  {
    LE16(s.vbatMv) + LE16(s.i2cErrs) + LE16(s.spiErrs) + [Byte(s.fcState), 0] + LE32(s.fcFlags)
    + [Byte(s.sensImu1Ok), Byte(s.sensBmp1Ok), Byte(s.sensImu2Ok), Byte(s.baroAgree), Byte(s.machOk),
       Byte(s.tiltOk), Byte(s.tiltLatch), Byte(s.liftoffDet), Byte(s.burnoutDet)] + Zeros(3)
    + F32(fb, s.fcTSinceLaunchS) + F32(fb, s.fcTToApogeeS)
  }

  function ControlBytes(fb: Flt -> u32, s: ControlSection): (r: seq<u8>)
    ensures |r| == 8
  {
    F32(fb, s.airbrakeCmdDeg) + F32(fb, s.airbrakeActualDeg)
  }

  function FusedBytes(fb: Flt -> u32, s: FusedSection): (r: seq<u8>)
    ensures |r| == 60
  {
    LE32(s.stampMs) + [Byte(s.aglReady)] + Zeros(3)
    + F32(fb, s.aglFusedM) + F32(fb, s.aglBmp1M) + F32(fb, s.aglImu1M) + F32(fb, s.tApogeeS) + F32(fb, s.apogeeAglM)
    + F32(fb, s.vzMps) + F32(fb, s.vzAccMps) + F32(fb, s.vzFusedMps) + F32(fb, s.azImu1Mps2)
    + F32(fb, s.tiltDeg) + F32(fb, s.tiltAzDeg360) + F32(fb, s.machCons) + F32(fb, s.tempC)
  }

  /** The packed record up to, not including, the CRC field: `sizeof(rec) - sizeof(rec.crc32)` bytes. */
  function EncodeBody(fb: Flt -> u32, r: Record): (b: seq<u8>)
    ensures |b| == 240
  {
    HeaderBytes(r.hdr) + Bmp1Bytes(fb, r.bmp390) + Imu1Bytes(fb, r.imu1) + Imu2Bytes(fb, r.imu2)
    + SystemBytes(fb, r.sys) + ControlBytes(fb, r.ctl) + FusedBytes(fb, r.fused)
  }

  /** The whole packed record, CRC last. */
  function Encode(fb: Flt -> u32, r: Record): (b: seq<u8>)
    ensures |b| == 244
    ensures b[..240] == EncodeBody(fb, r) && b[240..] == LE32(r.crc32)
  {
    EncodeBody(fb, r) + LE32(r.crc32)
  }

  /** The CRC field never takes part in its own computation: the body is the same whatever the CRC. */
  lemma BodyIgnoresCrc(fb: Flt -> u32, r: Record, crc: u32)
    ensures EncodeBody(fb, r.(crc32 := crc)) == EncodeBody(fb, r)
    ensures Encode(fb, r.(crc32 := crc))[..240] == Encode(fb, r)[..240]
  {
  }

  /** The header read back from the first 16 bytes of a packed record. */
  function DecodeHeader(b: seq<u8>): (h: Header)
    requires |b| >= 16
  {
    Header(b[0], b[1], b[2], U32Of(b[4], b[5], b[6], b[7]), U32Of(b[8], b[9], b[10], b[11]),
           U32Of(b[12], b[13], b[14], b[15]))
  }

  /** Reading the header back from its own 16 bytes gives it back. */
  lemma HeaderReadsBack(h: Header)
    ensures DecodeHeader(HeaderBytes(h)) == h
  {
    var hb := HeaderBytes(h);
    assert hb[0] == h.magic0 && hb[1] == h.magic1 && hb[2] == h.packetType;
    assert U32Of(hb[4], hb[5], hb[6], hb[7]) == h.seqNo by {
      assert hb[4..8] == LE32(h.seqNo);
      U32RoundTrip(h.seqNo);
    }
    assert U32Of(hb[8], hb[9], hb[10], hb[11]) == h.timestampMs by {
      assert hb[8..12] == LE32(h.timestampMs);
      U32RoundTrip(h.timestampMs);
    }
    assert U32Of(hb[12], hb[13], hb[14], hb[15]) == h.presentFlags by {
      assert hb[12..16] == LE32(h.presentFlags);
      U32RoundTrip(h.presentFlags);
    }
  }

  /** A receiver of the packed record gets the header and the CRC field back exactly. */
  lemma EncodeReadsBack(fb: Flt -> u32, r: Record)
    ensures DecodeHeader(Encode(fb, r)) == r.hdr
    ensures var b := Encode(fb, r); U32Of(b[240], b[241], b[242], b[243]) == r.crc32
  {
    var b := Encode(fb, r);
    var body := EncodeBody(fb, r);
    var hb := HeaderBytes(r.hdr);
    assert forall i :: 0 <= i < 16 ==> b[i] == body[i] by {
      assert b[..240] == body;
    }
    assert forall i :: 0 <= i < 16 ==> body[i] == hb[i];
    HeaderReadsBack(r.hdr);
    assert DecodeHeader(b) == DecodeHeader(hb);
    U32RoundTrip(r.crc32);
    assert b[240..] == LE32(r.crc32);
  }

  // ---------------------------------------------------------------------
  // telemetry_build
  // ---------------------------------------------------------------------

  /** The IMU1 library's latest raw gyro and magnetometer counts (gyroADC[0], magADC[0]) and its µT scale. */
  datatype RawImu1 = RawImu1(gyro: seq<i16>, mag: seq<i16>, utPerCount: Flt)

  predicate RawOk(raw: RawImu1) { |raw.gyro| == 3 && |raw.mag| == 3 }

  /** GYRO_DPS_PER_COUNT for the default ±2000 dps range. */
  const GYRO_DPS_PER_COUNT: real := 0.07

  /** The sources the build reads, one snapshot each. */
  datatype BuildInputs = BuildInputs(
    nowMs: u32,
    bmp: Option<BmpReading>,
    u1: Option<Imu1Reading>,
    u2: Option<Imu2Reading>,
    raw: RawImu1,
    batteryV: real,
    status: FcCore.FcStatus,
    fused: Fusion.FusedAlt)

  /** C truncation of a float toward zero. */
  function Trunc(x: real): int
  {
    if x >= 0.0 then x.Floor else -((-x).Floor)
  }

  /** `(uint16_t)(v * 1000.0f)`: millivolts, truncated and reduced modulo 2^16. */
  function Millivolts(v: real): (r: u16)
    ensures 0.0 <= v * 1000.0 < 65536.0 ==> r as real <= v * 1000.0 < r as real + 1.0
  {
    ToU16(Trunc(v * 1000.0))
  }

  /** `(flags & mask) ? 1 : 0`. */
  function FlagByte(w: u32, bit: nat): (r: u8)
    ensures r == 1 <==> FcCore.Bit(w, bit)
    ensures r <= 1
  {
    if FcCore.Bit(w, bit) then 1 else 0
  }

  function BoolByte(b: bool): (r: u8)
    ensures r == 1 <==> b
    ensures r <= 1
  {
    if b then 1 else 0
  }

  const PRESENT_ALL: u32 := TP_BMP390 + TP_IMU1 + TP_SYSTEM + TP_CONTROL + TP_IMU2

  /** The BMP390 section: the reading with status 0 and ok 1 when valid, otherwise status 1 and ok 0 over zeros. */
  function BmpSection(bmp: Option<BmpReading>): (s: Bmp1Section)
    ensures (s.ok == 1 && s.status == 0) <==> BmpValid(bmp)
    ensures (s.ok == 0 && s.status == 1) <==> !BmpValid(bmp)
    ensures !BmpValid(bmp) ==> s == ZERO_RECORD.bmp390.(status := 1)
    ensures BmpValid(bmp) ==>
      s.temperatureC == bmp.value.temperatureC && s.pressurePa == bmp.value.pressurePa && s.altitudeM == bmp.value.altitudeM
  {
    if BmpValid(bmp) then
      var b := bmp.value;
      Bmp1Section(b.temperatureC, b.pressurePa, b.altitudeM, 0, 1)
    else ZERO_RECORD.bmp390.(status := 1, ok := 0)
  }

  /**
   * The IMU1 section: quaternion, Euler angles derived from it, acceleration,
   * the library's raw gyro and magnetometer counts scaled to dps and µT, and
   * the internal baro altitude; calibration fields are always 0.
   */
  function Imu1SectionOf(g: Fusion.Geometry, u1: Option<Imu1Reading>, raw: RawImu1): (s: Imu1Section)
    requires RawOk(raw)
    ensures (s.ok == 1 && s.status == 0) <==> Imu1Valid(u1)
    ensures (s.ok == 0 && s.status == 1) <==> !Imu1Valid(u1)
    ensures !Imu1Valid(u1) ==> s == ZERO_RECORD.imu1.(status := 1)
    ensures s.calStatus == 0 && s.dhiRsq == Z
    ensures Imu1Valid(u1) ==>
      var u := u1.value;
      s.quat == u.quat && s.eulerDeg == g.euler(u.quat) && s.accelG == u.accelG && s.baroAltM == u.altitudeM
      && s.gyroDps == V3(Num(raw.gyro[0] as real * GYRO_DPS_PER_COUNT),
           Num(raw.gyro[1] as real * GYRO_DPS_PER_COUNT), Num(raw.gyro[2] as real * GYRO_DPS_PER_COUNT))
      && s.magUT == V3(FMul(Num(raw.mag[0] as real), raw.utPerCount),
           FMul(Num(raw.mag[1] as real), raw.utPerCount), FMul(Num(raw.mag[2] as real), raw.utPerCount))
  {
    if Imu1Valid(u1) then
      var u := u1.value;
      Imu1Section(0, 1, 0, u.quat, g.euler(u.quat), u.accelG,
        V3(Num(raw.gyro[0] as real * GYRO_DPS_PER_COUNT), Num(raw.gyro[1] as real * GYRO_DPS_PER_COUNT),
           Num(raw.gyro[2] as real * GYRO_DPS_PER_COUNT)),
        V3(FMul(Num(raw.mag[0] as real), raw.utPerCount), FMul(Num(raw.mag[1] as real), raw.utPerCount),
           FMul(Num(raw.mag[2] as real), raw.utPerCount)),
        u.altitudeM, Z)
    else ZERO_RECORD.imu1.(status := 1, ok := 0)
  }

  /** The IMU2 section, like the BMP390 one. */
  function Imu2SectionOf(u2: Option<Imu2Reading>): (s: Imu2Section)
    ensures (s.ok == 1 && s.status == 0) <==> Imu2Valid(u2)
    ensures (s.ok == 0 && s.status == 1) <==> !Imu2Valid(u2)
    ensures !Imu2Valid(u2) ==> s == ZERO_RECORD.imu2.(status := 1)
    ensures Imu2Valid(u2) ==> s.accelG == u2.value.accelG && s.gyroDps == u2.value.gyroDps && s.tempC == u2.value.tempC
  {
    if Imu2Valid(u2) then
      var u := u2.value;
      Imu2Section(u.accelG, u.gyroDps, u.tempC, 0, 1)
    else ZERO_RECORD.imu2.(status := 1, ok := 0)
  }

  /** The system section: battery millivolts, zero error counters, and the controller status with its flag bits unpacked. */
  function SystemSectionOf(batteryV: real, st: FcCore.FcStatus): (s: SystemSection)
    ensures s.vbatMv == Millivolts(batteryV) && s.i2cErrs == 0 && s.spiErrs == 0
    ensures s.fcState == st.state && s.fcFlags == st.flags
    ensures (s.sensImu1Ok == 1 <==> FcCore.Bit(st.flags, FcCore.FCF_SENS_IMU1_OK))
      && (s.sensBmp1Ok == 1 <==> FcCore.Bit(st.flags, FcCore.FCF_SENS_BMP1_OK))
      && (s.sensImu2Ok == 1 <==> FcCore.Bit(st.flags, FcCore.FCF_SENS_IMU2_OK))
      && (s.baroAgree == 1 <==> FcCore.Bit(st.flags, FcCore.FCF_BARO_AGREE))
      && (s.machOk == 1 <==> FcCore.Bit(st.flags, FcCore.FCF_MACH_OK))
      && (s.tiltOk == 1 <==> FcCore.Bit(st.flags, FcCore.FCF_TILT_OK))
      && (s.tiltLatch == 1 <==> FcCore.Bit(st.flags, FcCore.FCF_TILT_LATCH))
      && (s.liftoffDet == 1 <==> FcCore.Bit(st.flags, FcCore.FCF_LIFTOFF_DET))
      && (s.burnoutDet == 1 <==> FcCore.Bit(st.flags, FcCore.FCF_BURNOUT_DET))
    ensures s.sensImu1Ok <= 1 && s.sensBmp1Ok <= 1 && s.sensImu2Ok <= 1 && s.baroAgree <= 1 && s.machOk <= 1
      && s.tiltOk <= 1 && s.tiltLatch <= 1 && s.liftoffDet <= 1 && s.burnoutDet <= 1
    ensures s.fcTSinceLaunchS == st.tSinceLaunchS && s.fcTToApogeeS == st.tToApogeeS
  {
    var ff := st.flags;
    SystemSection(Millivolts(batteryV), 0, 0, st.state, st.flags,
      FlagByte(ff, FcCore.FCF_SENS_IMU1_OK), FlagByte(ff, FcCore.FCF_SENS_BMP1_OK),
      FlagByte(ff, FcCore.FCF_SENS_IMU2_OK), FlagByte(ff, FcCore.FCF_BARO_AGREE),
      FlagByte(ff, FcCore.FCF_MACH_OK), FlagByte(ff, FcCore.FCF_TILT_OK),
      FlagByte(ff, FcCore.FCF_TILT_LATCH), FlagByte(ff, FcCore.FCF_LIFTOFF_DET),
      FlagByte(ff, FcCore.FCF_BURNOUT_DET), st.tSinceLaunchS, st.tToApogeeS)
  }

  /** The fused section: a subset of the fusion snapshot, stamped with the header time rather than the snapshot's own. */
  function FusedSectionOf(stampMs: u32, f: Fusion.FusedAlt): (s: FusedSection)
    ensures s.stampMs == stampMs && (s.aglReady == 1 <==> f.aglReady) && s.aglReady <= 1
    ensures s.aglFusedM == f.aglFusedM && s.aglBmp1M == f.aglBmp1M && s.aglImu1M == f.aglImu1M
    ensures s.tApogeeS == f.tApogeeS && s.apogeeAglM == f.apogeeAglM
    ensures s.vzMps == f.vzMps && s.vzAccMps == f.vzAccMps && s.vzFusedMps == f.vzFusedMps
    ensures s.azImu1Mps2 == f.azImu1Mps2 && s.tiltDeg == f.tiltDeg && s.tiltAzDeg360 == f.tiltAzDeg360
    ensures s.machCons == f.machCons && s.tempC == f.tempC
  {
    FusedSection(stampMs, BoolByte(f.aglReady), f.aglFusedM, f.aglBmp1M, f.aglImu1M, f.tApogeeS,
      f.apogeeAglM, f.vzMps, f.vzAccMps, f.vzFusedMps, f.azImu1Mps2, f.tiltDeg, f.tiltAzDeg360,
      f.machCons, f.tempC)
  }

  /**
   * What telemetry_build leaves in a record built with sequence number
   * `seqNo`: the header, every section taken from its source, the measured
   * airbrake angle 0, and the CRC of the encoded body exactly when
   * `includeCrc`.
   */
  predicate BuiltFrom(rec: Record, g: Fusion.Geometry, fb: Flt -> u32, includeCrc: bool, seqNo: u32, inp: BuildInputs)
    requires RawOk(inp.raw)
  {
    && rec.hdr == Header(MAGIC0, MAGIC1, 0, seqNo, inp.nowMs, PRESENT_ALL)
    && rec.bmp390 == BmpSection(inp.bmp)
    && rec.imu1 == Imu1SectionOf(g, inp.u1, inp.raw)
    && rec.imu2 == Imu2SectionOf(inp.u2)
    && rec.sys == SystemSectionOf(inp.batteryV, inp.status)
    && rec.ctl == ControlSection(inp.status.airbrakeCmdDeg, Z)
    && rec.fused == FusedSectionOf(inp.nowMs, inp.fused)
    && (includeCrc ==> rec.crc32 == Crc32.Crc32Update(0, AsBits(EncodeBody(fb, rec))) as u32)
    && (!includeCrc ==> rec.crc32 == 0)
  }

  /**
   * telemetry_build: memset, header, each section, the measured airbrake
   * angle left at 0, and the CRC over the bytes before it when `includeCrc`
   * (LOG_INCLUDE_CRC; off in the default configuration, where it is 0).
   * `fcGetStatus` and `fusionGetAlt` always succeed, so their sections are
   * always filled.
   */
  method TelemetryBuild(g: Fusion.Geometry, fb: Flt -> u32, includeCrc: bool, seqNo: u32, inp: BuildInputs)
    returns (rec: Record)
    requires RawOk(inp.raw)
    ensures BuiltFrom(rec, g, fb, includeCrc, seqNo, inp)
  {
    rec := ZERO_RECORD;
    rec := rec.(hdr := Header(MAGIC0, MAGIC1, 0, seqNo, inp.nowMs, PRESENT_ALL));
    rec := rec.(bmp390 := BmpSection(inp.bmp));
    rec := rec.(imu1 := Imu1SectionOf(g, inp.u1, inp.raw));
    rec := rec.(imu2 := Imu2SectionOf(inp.u2));
    rec := rec.(sys := SystemSectionOf(inp.batteryV, inp.status));
    rec := rec.(ctl := rec.ctl.(airbrakeCmdDeg := inp.status.airbrakeCmdDeg));
    rec := rec.(ctl := rec.ctl.(airbrakeActualDeg := Z));
    rec := rec.(fused := FusedSectionOf(rec.hdr.timestampMs, inp.fused));
    if includeCrc {
      var crc := Crc32.Crc32UpdateLoop(0, AsBits(EncodeBody(fb, rec)));
      BodyIgnoresCrc(fb, rec, crc as u32);
      rec := rec.(crc32 := crc as u32);
    } else {
      rec := rec.(crc32 := 0);
    }
  }

  /**
   * When the status carries a controller flag word, the unpacked boolean at
   * bit k is exactly the k-th controller flag (IMU1_OK first, BURNOUT_DET
   * last), so each `sys` boolean mirrors its flag.
   */
  lemma UnpackedFlagsMatch(f: FcCore.FcFlags, k: nat)
    requires k < 9
    ensures FlagByte(FcCore.FlagWord(f), k) == BoolByte(FcCore.FlagList(f)[k])
  {
    FcCore.FlagWordBits(f, k);
  }

  // ---------------------------------------------------------------------
  // task_telem_agg
  // ---------------------------------------------------------------------

  /** The aggregator's sequence counter and the latest record (s_latest). */
  class Aggregator {
    var seqNo: u32
    var latest: Record

    constructor ()
      ensures seqNo == 0 && latest == ZERO_RECORD
    {
      seqNo, latest := 0, ZERO_RECORD;
    }

    /** One loop iteration: build with `seq++` and publish. */
    method Iterate(g: Fusion.Geometry, fb: Flt -> u32, includeCrc: bool, inp: BuildInputs)
      requires RawOk(inp.raw)
      modifies this
      ensures seqNo == Add32(old(seqNo), 1)
      ensures BuiltFrom(latest, g, fb, includeCrc, old(seqNo), inp)
    {
      var rec := TelemetryBuild(g, fb, includeCrc, seqNo, inp);
      seqNo, latest := Add32(seqNo, 1), rec;
    }

    /** telemetryGetLatest: a copy of the latest record; it always succeeds. */
    method GetLatest() returns (ok: bool, out: Record)
      ensures ok && out == latest
    {
      ok, out := true, latest;
    }
  }

  /** The sequence numbers of `n` consecutive records from a counter at `s0`. */
  function SeqRun(s0: u32, n: nat): (r: seq<u32>)
    ensures |r| == n
    ensures n > 0 ==> r[0] == s0
    decreases n
  {
    if n == 0 then [] else [s0] + SeqRun(Add32(s0, 1), n - 1)
  }

  /** Consecutive records carry consecutive sequence numbers (modulo 2^32). */
  lemma {:induction false} SeqConsecutive(s0: u32, n: nat)
    ensures forall i :: 0 <= i < n - 1 ==> SeqRun(s0, n)[i + 1] == Add32(SeqRun(s0, n)[i], 1)
    ensures forall i :: 0 <= i < n && s0 as int + i < U32_MOD ==> SeqRun(s0, n)[i] == s0 as int + i
    decreases n
  {
    if n > 0 {
      SeqConsecutive(Add32(s0, 1), n - 1);
    }
  }
}
