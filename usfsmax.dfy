/**
 * The USFSMAX coprocessor driver (firmware/lib/usfsmax/USFSMAX.cpp): register
 * bytes read over I2C are decoded into the driver's global sample arrays
 * (firmware/lib/usfsmax/Globals.h), each getter writing the row of its own
 * sensor number. The I2C transfer is a parameter: a getter receives the bytes
 * its read returned.
 */
module Usfsmax {
  import opened Common
  import Telemetry

  /** G_PER_COUNT for the ±16 g accelerometer range (def.h, ACC_SCALE_16). */
  const G_PER_COUNT: real := 0.000488

  /** OUTPUT_EULER_ANGLES and SCALED_SENSOR_DATA of config.h. */
  const EULER_QUAT_FLAG: bv8 := 1
  const SCALED_SENSOR_DATA_FLAG: bv8 := 1

  // ---------------------------------------------------------------------
  // Register decoding
  // ---------------------------------------------------------------------

  /**
   * `((int16_t)hi << 8) | lo` stored into an `int16_t`: the little-endian
   * 16-bit word read as two's complement.
   */
  function I16Of(lo: u8, hi: u8): (r: i16)
    ensures r % U16_MOD == lo + 0x100 * hi
    ensures r < 0 <==> hi >= 0x80
  {
    var w := lo + 0x100 * hi;
    if w < 0x8000 then w else w - U16_MOD
  }

  /** Decoding undoes the little-endian writer of the telemetry record. */
  lemma I16RoundTrip(v: i16)
    ensures var b := Telemetry.LE16(ToU16(v)); I16Of(b[0], b[1]) == v
  {
  }

  /** Every pair of register bytes is the little-endian image of its decoded value. */
  lemma I16BytesRoundTrip(lo: u8, hi: u8)
    ensures Telemetry.LE16(ToU16(I16Of(lo, hi))) == [lo, hi]
  {
  }

  /** `(int32_t)b2 << 16 | (int32_t)b1 << 8 | b0`: the 24-bit pressure count. */
  function Baro24(b0: u8, b1: u8, b2: u8): (r: int)
    ensures 0 <= r < 0x100_0000
    ensures r % 0x100 == b0 && r / 0x100 % 0x100 == b1 && r / 0x1_0000 == b2
  {
    b0 + 0x100 * b1 + 0x1_0000 * b2
  }

  /** Distinct register bytes give distinct pressure counts. */
  lemma Baro24Injective(a0: u8, a1: u8, a2: u8, b0: u8, b1: u8, b2: u8)
    requires Baro24(a0, a1, a2) == Baro24(b0, b1, b2)
    ensures a0 == b0 && a1 == b1 && a2 == b2
  {
  }

  /** Three int16 axes starting at byte `off`. */
  function Axes(b: seq<u8>, off: nat): (r: seq<int>)
    requires off + 6 <= |b|
    ensures |r| == 3
    ensures forall k :: 0 <= k < 3 ==> r[k] == I16Of(b[off + 2 * k], b[off + 2 * k + 1])
  {
    [I16Of(b[off], b[off + 1]), I16Of(b[off + 2], b[off + 3]), I16Of(b[off + 4], b[off + 5])]
  }

  /** The float in the 4-byte group starting at `off`. */
  function FloatAt(m: Libm, b: seq<u8>, off: nat): Flt
    requires off + 4 <= |b|
  {
    m.bitsToFloat(Telemetry.U32Of(b[off], b[off + 1], b[off + 2], b[off + 3]))
  }

  /** `n` consecutive floats starting at byte 0. */
  function Floats(m: Libm, b: seq<u8>, n: nat): (r: seq<Flt>)
    requires 4 * n <= |b|
    ensures |r| == n
    ensures forall k :: 0 <= k < n ==> r[k] == FloatAt(m, b, 4 * k)
  {
    seq(n, k requires 0 <= k < n => FloatAt(m, b, 4 * k))
  }

  /**
   * The fusion start command `0x01 | EulerQuatFlag << 1 | ScaledSensorDataFlag << 2`
   * after its conversion to `uint8_t`.
   */
  function ConfigByte(eulerQuat: bv8, scaled: bv8): (r: bv8)
    ensures r & 1 == 1
    ensures (r >> 1) & 1 == eulerQuat & 1
    ensures (r >> 2) & 1 == ((eulerQuat >> 1) | scaled) & 1
    ensures eulerQuat <= 1 && scaled <= 1 ==> r == 1 + 2 * eulerQuat + 4 * scaled
  {
    0x01 | (eulerQuat << 1) | (scaled << 2)
  }

  /** With both flags set in config.h the start command is 0x07: fusion, Euler output, scaled data. */
  lemma ConfiguredStartCommand()
    ensures ConfigByte(EULER_QUAT_FLAG, SCALED_SENSOR_DATA_FLAG) == 0x07
  {
  }

  // ---------------------------------------------------------------------
  // Global sample arrays
  // ---------------------------------------------------------------------

  /** Row `i` of a `[2][3]` sample array. */
  function Row(a: array2<int>, i: nat): (r: seq<int>)
    reads a
    requires i < a.Length0 && a.Length1 == 3
    ensures |r| == 3
  {
    [a[i, 0], a[i, 1], a[i, 2]]
  }

  /** Both rows of a `[2][3]` sample array. */
  function Rows(a: array2<int>): (r: seq<seq<int>>)
    reads a
    requires a.Length0 == 2 && a.Length1 == 3
    ensures |r| == 2
  {
    [Row(a, 0), Row(a, 1)]
  }

  function FRow(a: array2<Flt>, i: nat): (r: seq<Flt>)
    reads a
    requires i < a.Length0
    ensures |r| == a.Length1
  {
    seq(a.Length1, j requires 0 <= j < a.Length1 reads a => a[i, j])
  }

  function FRows(a: array2<Flt>): (r: seq<seq<Flt>>)
    reads a
    requires a.Length0 == 2
    ensures |r| == 2
  {
    [FRow(a, 0), FRow(a, 1)]
  }

  /** The globals of Globals.h that the getters write. */
  class Samples {
    const gyroADC: array2<int>
    const accADC: array2<int>
    const magADC: array2<int>
    const baroADC: array<int>
    const accLIN: array2<int>
    const grav: array2<int>
    const qt: array2<Flt>
    const heading: array<Flt>
    const angle: array2<Flt>

    ghost predicate Valid()
    {
      && gyroADC.Length0 == 2 && gyroADC.Length1 == 3
      && accADC.Length0 == 2 && accADC.Length1 == 3
      && magADC.Length0 == 2 && magADC.Length1 == 3
      && accLIN.Length0 == 2 && accLIN.Length1 == 3
      && grav.Length0 == 2 && grav.Length1 == 3
      && baroADC.Length == 2
      && qt.Length0 == 2 && qt.Length1 == 4
      && heading.Length == 2
      && angle.Length0 == 2 && angle.Length1 == 2
      && gyroADC != accADC && gyroADC != magADC && gyroADC != accLIN && gyroADC != grav
      && accADC != magADC && accADC != accLIN && accADC != grav
      && magADC != accLIN && magADC != grav
      && accLIN != grav
      && qt != angle
    }

    /** Static storage: integer samples zero, the quaternions the identity {1, 0, 0, 0}. */
    constructor()
      ensures Valid()
      ensures Rows(gyroADC) == Rows(accADC) == Rows(magADC) == [[0, 0, 0], [0, 0, 0]]
      ensures baroADC[..] == [0, 0]
      ensures FRows(qt) == [[Num(1.0), Num(0.0), Num(0.0), Num(0.0)], [Num(1.0), Num(0.0), Num(0.0), Num(0.0)]]
      ensures fresh(gyroADC) && fresh(accADC) && fresh(magADC) && fresh(baroADC) && fresh(accLIN)
      ensures fresh(grav) && fresh(qt) && fresh(heading) && fresh(angle)
    {
      var g := ZeroAxes();
      var acc := ZeroAxes();
      var mag := ZeroAxes();
      var lin := ZeroAxes();
      var gr := ZeroAxes();
      var q := IdentityQuats();
      var baro := ZeroPair();
      gyroADC, accADC, magADC, accLIN, grav, qt, baroADC := g, acc, mag, lin, gr, q, baro;
      heading := new Flt[2](_ => Num(0.0));
      angle := new Flt[2, 2]((_, _) => Num(0.0));
    }
  }

  /** A fresh `[2][3]` sample array of zeros. */
  method ZeroAxes() returns (a: array2<int>)
    ensures fresh(a) && a.Length0 == 2 && a.Length1 == 3
    ensures Rows(a) == [[0, 0, 0], [0, 0, 0]]
  {
    a := new int[2, 3]((_, _) => 0);
    assert Row(a, 0) == Row(a, 1) == [0, 0, 0];
  }

  /** A fresh two-entry array of zeros. */
  method ZeroPair() returns (a: array<int>)
    ensures fresh(a) && a[..] == [0, 0]
  {
    a := new int[2](_ => 0);
    assert a[..] == [a[0], a[1]];
  }

  /** A fresh `[2][4]` quaternion array holding the identity twice. */
  method IdentityQuats() returns (a: array2<Flt>)
    ensures fresh(a) && a.Length0 == 2 && a.Length1 == 4
    ensures FRows(a) == [[Num(1.0), Num(0.0), Num(0.0), Num(0.0)], [Num(1.0), Num(0.0), Num(0.0), Num(0.0)]]
  {
    a := new Flt[2, 4]((_, j) => if j == 0 then Num(1.0) else Num(0.0));
    assert FRow(a, 0) == [Num(1.0), Num(0.0), Num(0.0), Num(0.0)];
    assert FRow(a, 1) == [Num(1.0), Num(0.0), Num(0.0), Num(0.0)];
  }

  /** Writes three decoded axes into row `sn` of `a`. */
  method StoreAxes(a: array2<int>, sn: nat, b: seq<u8>, off: nat)
    requires a.Length0 == 2 && a.Length1 == 3 && sn < 2
    requires off + 6 <= |b|
    modifies a
    ensures Rows(a) == old(Rows(a))[sn := Axes(b, off)]
  {
    a[sn, 0] := I16Of(b[off], b[off + 1]);
    a[sn, 1] := I16Of(b[off + 2], b[off + 3]);
    a[sn, 2] := I16Of(b[off + 4], b[off + 5]);
  }

  /** Writes `n` decoded floats into row `sn` of `a`. */
  method StoreFloats(m: Libm, a: array2<Flt>, sn: nat, b: seq<u8>, n: nat)
    requires a.Length0 == 2 && sn < 2 && n <= a.Length1 && 4 * n <= |b|
    modifies a
    ensures FRow(a, sn)[..n] == Floats(m, b, n)
    ensures FRow(a, sn)[n..] == old(FRow(a, sn))[n..]
    ensures FRow(a, 1 - sn) == old(FRow(a, 1 - sn))
  {
    var j := 0;
    ghost var other := 1 - sn;
    while j < n
      invariant 0 <= j <= n
      invariant forall k :: 0 <= k < j ==> a[sn, k] == FloatAt(m, b, 4 * k)
      invariant forall k :: j <= k < a.Length1 ==> a[sn, k] == old(a[sn, k])
      invariant forall k :: 0 <= k < a.Length1 ==> a[other, k] == old(a[other, k])
    {
      a[sn, j] := FloatAt(m, b, 4 * j);
      j := j + 1;
    }
  }

  /** A `USFSMAX` object: the I2C device and the sensor number whose rows it writes. */
  class Device {
    const sensornum: nat
    const g: Samples

    ghost predicate Valid()
    {
      g.Valid() && sensornum < 2
    }

    constructor(g: Samples, sensornum: nat)
      requires g.Valid() && sensornum < 2
      ensures Valid() && this.g == g && this.sensornum == sensornum
    {
      this.g := g;
      this.sensornum := sensornum;
    }

    /** Gyro bytes 0-5, accel 6-11, mag 12-17, pressure 18-20. */
    method GyroAccelMagBaro(bytes: seq<u8>)
      requires Valid() && |bytes| == 21
      modifies g.gyroADC, g.accADC, g.magADC, g.baroADC
      ensures Rows(g.gyroADC) == old(Rows(g.gyroADC))[sensornum := Axes(bytes, 0)]
      ensures Rows(g.accADC) == old(Rows(g.accADC))[sensornum := Axes(bytes, 6)]
      ensures Rows(g.magADC) == old(Rows(g.magADC))[sensornum := Axes(bytes, 12)]
      ensures g.baroADC[..] == old(g.baroADC[..])[sensornum := Baro24(bytes[18], bytes[19], bytes[20])]
    {
      StoreAxes(g.gyroADC, sensornum, bytes, 0);
      StoreAxes(g.accADC, sensornum, bytes, 6);
      StoreAxes(g.magADC, sensornum, bytes, 12);
      g.baroADC[sensornum] := Baro24(bytes[18], bytes[19], bytes[20]);
    }

    /** Gyro bytes 0-5, accel 6-11; mag and pressure are left as they were. */
    method GyroAccel(bytes: seq<u8>)
      requires Valid() && |bytes| == 12
      modifies g.gyroADC, g.accADC
      ensures Rows(g.gyroADC) == old(Rows(g.gyroADC))[sensornum := Axes(bytes, 0)]
      ensures Rows(g.accADC) == old(Rows(g.accADC))[sensornum := Axes(bytes, 6)]
    {
      StoreAxes(g.gyroADC, sensornum, bytes, 0);
      StoreAxes(g.accADC, sensornum, bytes, 6);
    }

    /** Mag bytes 0-5, pressure 6-8. */
    method MagBaro(bytes: seq<u8>)
      requires Valid() && |bytes| == 9
      modifies g.magADC, g.baroADC
      ensures Rows(g.magADC) == old(Rows(g.magADC))[sensornum := Axes(bytes, 0)]
      ensures g.baroADC[..] == old(g.baroADC[..])[sensornum := Baro24(bytes[6], bytes[7], bytes[8])]
    {
      StoreAxes(g.magADC, sensornum, bytes, 0);
      g.baroADC[sensornum] := Baro24(bytes[6], bytes[7], bytes[8]);
    }

    method Gyro(bytes: seq<u8>)
      requires Valid() && |bytes| == 6
      modifies g.gyroADC
      ensures Rows(g.gyroADC) == old(Rows(g.gyroADC))[sensornum := Axes(bytes, 0)]
    {
      StoreAxes(g.gyroADC, sensornum, bytes, 0);
    }

    method Acc(bytes: seq<u8>)
      requires Valid() && |bytes| == 6
      modifies g.accADC
      ensures Rows(g.accADC) == old(Rows(g.accADC))[sensornum := Axes(bytes, 0)]
    {
      StoreAxes(g.accADC, sensornum, bytes, 0);
    }

    method Mag(bytes: seq<u8>)
      requires Valid() && |bytes| == 6
      modifies g.magADC
      ensures Rows(g.magADC) == old(Rows(g.magADC))[sensornum := Axes(bytes, 0)]
    {
      StoreAxes(g.magADC, sensornum, bytes, 0);
    }

    method Baro(bytes: seq<u8>)
      requires Valid() && |bytes| == 3
      modifies g.baroADC
      ensures g.baroADC[..] == old(g.baroADC[..])[sensornum := Baro24(bytes[0], bytes[1], bytes[2])]
    {
      g.baroADC[sensornum] := Baro24(bytes[0], bytes[1], bytes[2]);
    }

    /** Linear acceleration bytes 0-5, gravity 6-11. */
    method LinAcc(bytes: seq<u8>)
      requires Valid() && |bytes| == 12
      modifies g.accLIN, g.grav
      ensures Rows(g.accLIN) == old(Rows(g.accLIN))[sensornum := Axes(bytes, 0)]
      ensures Rows(g.grav) == old(Rows(g.grav))[sensornum := Axes(bytes, 6)]
    {
      StoreAxes(g.accLIN, sensornum, bytes, 0);
      StoreAxes(g.grav, sensornum, bytes, 6);
    }

    /** Quaternion components w, x, y, z from the 4-byte groups 0-3, 4-7, 8-11, 12-15. */
    method GetQuat(m: Libm, bytes: seq<u8>)
      requires Valid() && |bytes| == 16
      modifies g.qt
      ensures FRows(g.qt) == old(FRows(g.qt))[sensornum := Floats(m, bytes, 4)]
    {
      StoreFloats(m, g.qt, sensornum, bytes, 4);
      assert FRow(g.qt, sensornum) == FRow(g.qt, sensornum)[..4];
    }

    /** Heading from bytes 0-3, then the two tilt angles from 4-7 and 8-11. */
    method GetEuler(m: Libm, bytes: seq<u8>)
      requires Valid() && |bytes| == 12
      modifies g.heading, g.angle
      ensures g.heading[..] == old(g.heading[..])[sensornum := FloatAt(m, bytes, 0)]
      ensures FRows(g.angle) == old(FRows(g.angle))[sensornum := [FloatAt(m, bytes, 4), FloatAt(m, bytes, 8)]]
    {
      g.heading[sensornum] := FloatAt(m, bytes, 0);
      StoreFloats(m, g.angle, sensornum, bytes[4..], 2);
      assert FRow(g.angle, sensornum) == FRow(g.angle, sensornum)[..2];
      assert FloatAt(m, bytes[4..], 0) == FloatAt(m, bytes, 4);
      assert FloatAt(m, bytes[4..], 4) == FloatAt(m, bytes, 8);
      assert Floats(m, bytes[4..], 2) == [FloatAt(m, bytes, 4), FloatAt(m, bytes, 8)];
    }

    /** The quaternion from bytes 0-15, then linear acceleration from 16-21. */
    method GetQuatLin(m: Libm, bytes: seq<u8>)
      requires Valid() && |bytes| == 24
      modifies g.qt, g.accLIN
      ensures FRows(g.qt) == old(FRows(g.qt))[sensornum := Floats(m, bytes, 4)]
      ensures Rows(g.accLIN) == old(Rows(g.accLIN))[sensornum := Axes(bytes, 16)]
    {
      StoreFloats(m, g.qt, sensornum, bytes, 4);
      assert FRow(g.qt, sensornum) == FRow(g.qt, sensornum)[..4];
      StoreAxes(g.accLIN, sensornum, bytes, 16);
    }
  }
}
