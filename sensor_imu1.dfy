/**
 * The IMU1 polling task (firmware/src/sensor_imu1.cpp): the presence probe,
 * the dispatch of the coprocessor's data-ready bits to one combined register
 * read, the held barometric sample, and the snapshot `imu1Get` hands out.
 * Bus transfers are parameters (the bytes each read returned); the
 * barometric formula's `pow` is an uninterpreted parameter.
 */
module SensorImu1 {
  import opened Common
  import opened Readings
  import Usfsmax

  // ---------------------------------------------------------------------
  // Presence probe
  // ---------------------------------------------------------------------

  const PROBE_TRIES: nat := 3

  /** A firmware-ID byte that proves a device answered: a NACK reads back as 0xFF, and 0x00 is no valid ID. */
  predicate Answers(fw: u8)
  {
    fw != 0xFF && fw != 0x00
  }

  /**
   * The probe loop: `ids[k]` is what the k-th read of FIRMWARE_ID would
   * return; `tries` is the number of reads made.
   */
  method Probe(ids: seq<u8>) returns (present: bool, tries: nat)
    requires |ids| == PROBE_TRIES
    ensures present <==> exists k :: 0 <= k < PROBE_TRIES && Answers(ids[k])
    ensures 1 <= tries <= PROBE_TRIES
    ensures forall k :: 0 <= k < tries - 1 ==> !Answers(ids[k])
    ensures present ==> Answers(ids[tries - 1])
    ensures !present ==> tries == PROBE_TRIES
  {
    present := false;
    tries := 0;
    while tries < PROBE_TRIES && !present
      invariant 0 <= tries <= PROBE_TRIES
      invariant forall k :: 0 <= k < tries - 1 ==> !Answers(ids[k])
      invariant present ==> tries >= 1 && Answers(ids[tries - 1])
      invariant !present ==> forall k :: 0 <= k < tries ==> !Answers(ids[k])
    {
      var fw := ids[tries];
      if Answers(fw) {
        present := true;
      }
      tries := tries + 1;
    }
  }

  // ---------------------------------------------------------------------
  // Data-ready dispatch
  // ---------------------------------------------------------------------

  /** The sensors of the combined reads; bits 0..3 of the data-ready byte. */
  datatype Kind = Acc | Gyro | Mag | Baro

  /** The register read the task issues for one data-ready byte. */
  datatype Getter = GyroAccelRead | GyroAccelMagBaroRead | MagBaroRead | MagRead | BaroRead | AccRead

  /** The `switch (evt & 0x0F)`. */
  function Dispatch(evt: bv8): Getter
  {
    var n := evt & 0x0F;
    if n == 0x01 || n == 0x02 || n == 0x03 then GyroAccelRead
    else if n == 0x07 || n == 0x0B || n == 0x0F then GyroAccelMagBaroRead
    else if n == 0x0C then MagBaroRead
    else if n == 0x04 then MagRead
    else if n == 0x08 then BaroRead
    else AccRead
  }

  /** The sensors a read refreshes. */
  function Kinds(g: Getter): set<Kind>
  {
    match g
    case GyroAccelRead => {Gyro, Acc}
    case GyroAccelMagBaroRead => {Gyro, Acc, Mag, Baro}
    case MagBaroRead => {Mag, Baro}
    case MagRead => {Mag}
    case BaroRead => {Baro}
    case AccRead => {Acc}
  }

  /** The number of bytes each read transfers. */
  function ReadLength(g: Getter): nat
  {
    match g
    case GyroAccelRead => 12
    case GyroAccelMagBaroRead => 21
    case MagBaroRead => 9
    case MagRead => 6
    case BaroRead => 3
    case AccRead => 6
  }

  /** Where a refreshed sensor's bytes start in the read. */
  function Offset(g: Getter, k: Kind): nat
  {
    match k
    case Gyro => 0
    case Acc => if g == AccRead then 0 else 6
    case Mag => if g == GyroAccelMagBaroRead then 12 else 0
    case Baro => if g == GyroAccelMagBaroRead then 18 else if g == MagBaroRead then 6 else 0
  }

  /** Each sensor a read refreshes lies inside the bytes it transfers: 6 per axis triple, 3 for pressure. */
  lemma OffsetsFit(g: Getter, k: Kind)
    requires k in Kinds(g)
    ensures Offset(g, k) + (if k == Baro then 3 else 6) <= ReadLength(g)
  {
  }

  /** The sensors the data-ready bits 0..3 announce. */
  function Requested(evt: bv8): (r: set<Kind>)
    ensures Acc in r <==> evt & 0x01 != 0
    ensures Gyro in r <==> evt & 0x02 != 0
    ensures Mag in r <==> evt & 0x04 != 0
    ensures Baro in r <==> evt & 0x08 != 0
  {
    (if evt & 0x01 != 0 then {Acc} else {}) + (if evt & 0x02 != 0 then {Gyro} else {})
    + (if evt & 0x04 != 0 then {Mag} else {}) + (if evt & 0x08 != 0 then {Baro} else {})
  }

  /**
   * The dispatch refreshes every announced sensor except for six low nibbles:
   * 0x5, 0x6, 0x9, 0xA, 0xD and 0xE fall to the default accelerometer read.
   */
  lemma DispatchServesRequest(evt: bv8)
    ensures Requested(evt) <= Kinds(Dispatch(evt)) <==> evt & 0x0F !in {0x5, 0x6, 0x9, 0xA, 0xD, 0xE}
  {
    var n := evt & 0x0F;
    assert Requested(evt) == Requested(n);
    if n in {0x5, 0x6, 0x9, 0xA, 0xD, 0xE} {
      assert Dispatch(evt) == AccRead;
      assert Gyro in Requested(evt) || Mag in Requested(evt) || Baro in Requested(evt);
    }
  }

  /** The accelerometer is refreshed on every pass except a mag-only, baro-only or mag+baro one. */
  lemma AccelAlmostAlwaysRead(evt: bv8)
    ensures Acc in Kinds(Dispatch(evt)) <==> evt & 0x0F !in {0x4, 0x8, 0xC}
  {
  }

  /**
   * The pressure register is read for five low nibbles. Bit 3 (which decides
   * whether the pressure is recomputed) and the read disagree in both
   * directions: 0x7 reads the register without announcing it, and 0x9, 0xA,
   * 0xD and 0xE announce it without reading it.
   */
  lemma BaroReadVersusAnnounced(evt: bv8)
    ensures Baro in Kinds(Dispatch(evt)) <==> evt & 0x0F in {0x7, 0x8, 0xB, 0xC, 0xF}
    ensures Baro in Kinds(Dispatch(evt)) && evt & 0x08 == 0 <==> evt & 0x0F == 0x7
    ensures evt & 0x08 != 0 && Baro !in Kinds(Dispatch(evt)) <==> evt & 0x0F in {0x9, 0xA, 0xD, 0xE}
  {
  }

  // ---------------------------------------------------------------------
  // Snapshot
  // ---------------------------------------------------------------------

  /** SEALEVELPRESSURE_HPA of sensors_config.h. */
  const SEALEVEL_HPA: real := 1012.0

  /** LPS22HB pressure: 4096 counts per hPa. */
  function PressurePa(count: int): (p: real)
    ensures p * 4096.0 == count as real * 100.0
  {
    count as real * (100.0 / 4096.0)
  }

  /** The international barometric formula, `pow` left uninterpreted. */
  function AltitudeM(pow: (real, real) -> real, p: real): real
  {
    44330.0 * (1.0 - pow((p / 100.0) / SEALEVEL_HPA, 0.1903))
  }

  /** `s_latest = {0}`: no snapshot yet. */
  const NO_READING: Imu1Reading := Imu1Reading(QUAT_ZERO, V3_ZERO, Num(0.0), Num(0.0), false)

  /** Quaternion components w, x, y, z of a row of `qt`. */
  function QuatOf(row: seq<Flt>): Quat
    requires |row| == 4
  {
    Quat(row[0], row[1], row[2], row[3])
  }

  /** An accelerometer row scaled by `g_per_count`. */
  function AccelOf(row: seq<int>): (a: V3)
    requires |row| == 3
    ensures a.x.Num? && a.y.Num? && a.z.Num?
    ensures a.x.v == row[0] as real * Usfsmax.G_PER_COUNT
    ensures a.y.v == row[1] as real * Usfsmax.G_PER_COUNT
    ensures a.z.v == row[2] as real * Usfsmax.G_PER_COUNT
  {
    V3Scale(Usfsmax.G_PER_COUNT, V3(Num(row[0] as real), Num(row[1] as real), Num(row[2] as real)))
  }

  /** The task's state: its USFSMAX object on sensor 0, the held barometer sample and the published snapshot. */
  class Imu1Task {
    const dev: Usfsmax.Device
    var lastPressurePa: Flt
    var lastAltitudeM: Flt
    var latest: Imu1Reading
    /** Snapshots published so far. */
    ghost var snapshots: nat

    ghost predicate Valid()
      reads this
    {
      dev.Valid() && dev.sensornum == 0 && (latest.valid <==> snapshots > 0)
    }

    constructor(g: Usfsmax.Samples)
      requires g.Valid()
      ensures Valid() && dev.g == g
      ensures latest == NO_READING && lastPressurePa == NaN && lastAltitudeM == NaN && snapshots == 0
    {
      dev := new Usfsmax.Device(g, 0);
      lastPressurePa := NaN;
      lastAltitudeM := NaN;
      latest := NO_READING;
      snapshots := 0;
    }

    /** The combined read chosen by `evt`, given the bytes it returned. */
    method ReadSensors(evt: bv8, adc: seq<u8>)
      requires Valid() && |adc| == ReadLength(Dispatch(evt))
      modifies dev.g.gyroADC, dev.g.accADC, dev.g.magADC, dev.g.baroADC
      ensures var gt := Dispatch(evt);
        && Usfsmax.Rows(dev.g.gyroADC) == (if Gyro in Kinds(gt)
             then old(Usfsmax.Rows(dev.g.gyroADC))[0 := Usfsmax.Axes(adc, Offset(gt, Gyro))]
             else old(Usfsmax.Rows(dev.g.gyroADC)))
        && Usfsmax.Rows(dev.g.accADC) == (if Acc in Kinds(gt)
             then old(Usfsmax.Rows(dev.g.accADC))[0 := Usfsmax.Axes(adc, Offset(gt, Acc))]
             else old(Usfsmax.Rows(dev.g.accADC)))
        && Usfsmax.Rows(dev.g.magADC) == (if Mag in Kinds(gt)
             then old(Usfsmax.Rows(dev.g.magADC))[0 := Usfsmax.Axes(adc, Offset(gt, Mag))]
             else old(Usfsmax.Rows(dev.g.magADC)))
        && dev.g.baroADC[..] == (if Baro in Kinds(gt)
             then var o := Offset(gt, Baro); old(dev.g.baroADC[..])[0 := Usfsmax.Baro24(adc[o], adc[o + 1], adc[o + 2])]
             else old(dev.g.baroADC[..]))
    {
      ghost var gyro0, acc0, mag0 := Usfsmax.Rows(dev.g.gyroADC), Usfsmax.Rows(dev.g.accADC), Usfsmax.Rows(dev.g.magADC);
      ghost var baro0 := dev.g.baroADC[..];
      match Dispatch(evt)
      case GyroAccelRead =>
        dev.GyroAccel(adc);
        assert Usfsmax.Rows(dev.g.magADC) == mag0 && dev.g.baroADC[..] == baro0;
      case GyroAccelMagBaroRead =>
        dev.GyroAccelMagBaro(adc);
      case MagBaroRead =>
        dev.MagBaro(adc);
        assert Usfsmax.Rows(dev.g.gyroADC) == gyro0 && Usfsmax.Rows(dev.g.accADC) == acc0;
      case MagRead =>
        dev.Mag(adc);
        assert Usfsmax.Rows(dev.g.gyroADC) == gyro0 && Usfsmax.Rows(dev.g.accADC) == acc0 && dev.g.baroADC[..] == baro0;
      case BaroRead =>
        dev.Baro(adc);
        assert Usfsmax.Rows(dev.g.gyroADC) == gyro0 && Usfsmax.Rows(dev.g.accADC) == acc0 && Usfsmax.Rows(dev.g.magADC) == mag0;
      case AccRead =>
        dev.Acc(adc);
        assert Usfsmax.Rows(dev.g.gyroADC) == gyro0 && Usfsmax.Rows(dev.g.magADC) == mag0 && dev.g.baroADC[..] == baro0;
    }

    /**
     * One pass of the task loop: the dispatched read, the quaternion and
     * Euler reads when bit 4 is set, the barometer sample recomputed when
     * bit 3 is set, and the snapshot published.
     */
    method Iterate(m: Libm, pow: (real, real) -> real, evt: bv8, adc: seq<u8>, quat: seq<u8>, euler: seq<u8>)
      requires Valid() && |adc| == ReadLength(Dispatch(evt)) && |quat| == 16 && |euler| == 12
      modifies this, dev.g.gyroADC, dev.g.accADC, dev.g.magADC, dev.g.baroADC, dev.g.qt, dev.g.heading, dev.g.angle
      ensures Valid() && snapshots == old(snapshots) + 1
      ensures var gt := Dispatch(evt);
        && Usfsmax.Row(dev.g.accADC, 0) == (if Acc in Kinds(gt)
             then Usfsmax.Axes(adc, Offset(gt, Acc)) else old(Usfsmax.Row(dev.g.accADC, 0)))
        && dev.g.baroADC[0] == (if Baro in Kinds(gt)
             then var o := Offset(gt, Baro); Usfsmax.Baro24(adc[o], adc[o + 1], adc[o + 2]) else old(dev.g.baroADC[0]))
      ensures Usfsmax.FRow(dev.g.qt, 0) == if evt & 0x10 != 0 then Usfsmax.Floats(m, quat, 4) else old(Usfsmax.FRow(dev.g.qt, 0))
      ensures var gt := Dispatch(evt);
        && Usfsmax.Rows(dev.g.gyroADC) == (if Gyro in Kinds(gt)
             then old(Usfsmax.Rows(dev.g.gyroADC))[0 := Usfsmax.Axes(adc, Offset(gt, Gyro))]
             else old(Usfsmax.Rows(dev.g.gyroADC)))
        && Usfsmax.Rows(dev.g.accADC) == (if Acc in Kinds(gt)
             then old(Usfsmax.Rows(dev.g.accADC))[0 := Usfsmax.Axes(adc, Offset(gt, Acc))]
             else old(Usfsmax.Rows(dev.g.accADC)))
        && Usfsmax.Rows(dev.g.magADC) == (if Mag in Kinds(gt)
             then old(Usfsmax.Rows(dev.g.magADC))[0 := Usfsmax.Axes(adc, Offset(gt, Mag))]
             else old(Usfsmax.Rows(dev.g.magADC)))
        && dev.g.baroADC[1] == old(dev.g.baroADC[1])
      ensures Usfsmax.FRows(dev.g.qt) ==
        if evt & 0x10 != 0 then old(Usfsmax.FRows(dev.g.qt))[0 := Usfsmax.Floats(m, quat, 4)] else old(Usfsmax.FRows(dev.g.qt))
      ensures dev.g.heading[..] ==
        if evt & 0x10 != 0 then old(dev.g.heading[..])[0 := Usfsmax.FloatAt(m, euler, 0)] else old(dev.g.heading[..])
      ensures Usfsmax.FRows(dev.g.angle) ==
        if evt & 0x10 != 0 then old(Usfsmax.FRows(dev.g.angle))[0 := [Usfsmax.FloatAt(m, euler, 4), Usfsmax.FloatAt(m, euler, 8)]]
        else old(Usfsmax.FRows(dev.g.angle))
      ensures evt & 0x08 != 0 ==>
        lastPressurePa == Num(PressurePa(dev.g.baroADC[0])) && lastAltitudeM == Num(AltitudeM(pow, lastPressurePa.v))
      ensures evt & 0x08 == 0 ==> lastPressurePa == old(lastPressurePa) && lastAltitudeM == old(lastAltitudeM)
      ensures latest == Imu1Reading(QuatOf(Usfsmax.FRow(dev.g.qt, 0)), AccelOf(Usfsmax.Row(dev.g.accADC, 0)),
        lastPressurePa, lastAltitudeM, true)
    {
      ReadAll(m, evt, adc, quat, euler);
      Publish(pow, evt);
    }

    /** The end of a pass: the barometer sample recomputed when bit 3 is set, and the snapshot published. */
    method Publish(pow: (real, real) -> real, evt: bv8)
      requires Valid()
      modifies this
      ensures Valid() && snapshots == old(snapshots) + 1
      ensures evt & 0x08 != 0 ==>
        lastPressurePa == Num(PressurePa(dev.g.baroADC[0])) && lastAltitudeM == Num(AltitudeM(pow, lastPressurePa.v))
      ensures evt & 0x08 == 0 ==> lastPressurePa == old(lastPressurePa) && lastAltitudeM == old(lastAltitudeM)
      ensures latest == Imu1Reading(QuatOf(Usfsmax.FRow(dev.g.qt, 0)), AccelOf(Usfsmax.Row(dev.g.accADC, 0)),
        lastPressurePa, lastAltitudeM, true)
    {
      if evt & 0x08 != 0 {
        var p := PressurePa(dev.g.baroADC[0]);
        lastPressurePa := Num(p);
        lastAltitudeM := Num(AltitudeM(pow, p));
      }
      latest := Imu1Reading(QuatOf(Usfsmax.FRow(dev.g.qt, 0)), AccelOf(Usfsmax.Row(dev.g.accADC, 0)),
        lastPressurePa, lastAltitudeM, true);
      snapshots := snapshots + 1;
    }

    /** The reads of a pass: the dispatched read, then the quaternion and Euler reads when bit 4 is set. */
    method ReadAll(m: Libm, evt: bv8, adc: seq<u8>, quat: seq<u8>, euler: seq<u8>)
      requires Valid() && |adc| == ReadLength(Dispatch(evt)) && |quat| == 16 && |euler| == 12
      modifies dev.g.gyroADC, dev.g.accADC, dev.g.magADC, dev.g.baroADC, dev.g.qt, dev.g.heading, dev.g.angle
      ensures var gt := Dispatch(evt);
        && Usfsmax.Row(dev.g.accADC, 0) == (if Acc in Kinds(gt)
             then Usfsmax.Axes(adc, Offset(gt, Acc)) else old(Usfsmax.Row(dev.g.accADC, 0)))
        && dev.g.baroADC[0] == (if Baro in Kinds(gt)
             then var o := Offset(gt, Baro); Usfsmax.Baro24(adc[o], adc[o + 1], adc[o + 2]) else old(dev.g.baroADC[0]))
      ensures Usfsmax.FRow(dev.g.qt, 0) == if evt & 0x10 != 0 then Usfsmax.Floats(m, quat, 4) else old(Usfsmax.FRow(dev.g.qt, 0))
      ensures var gt := Dispatch(evt);
        && Usfsmax.Rows(dev.g.gyroADC) == (if Gyro in Kinds(gt)
             then old(Usfsmax.Rows(dev.g.gyroADC))[0 := Usfsmax.Axes(adc, Offset(gt, Gyro))]
             else old(Usfsmax.Rows(dev.g.gyroADC)))
        && Usfsmax.Rows(dev.g.accADC) == (if Acc in Kinds(gt)
             then old(Usfsmax.Rows(dev.g.accADC))[0 := Usfsmax.Axes(adc, Offset(gt, Acc))]
             else old(Usfsmax.Rows(dev.g.accADC)))
        && Usfsmax.Rows(dev.g.magADC) == (if Mag in Kinds(gt)
             then old(Usfsmax.Rows(dev.g.magADC))[0 := Usfsmax.Axes(adc, Offset(gt, Mag))]
             else old(Usfsmax.Rows(dev.g.magADC)))
        && dev.g.baroADC[1] == old(dev.g.baroADC[1])
      ensures Usfsmax.FRows(dev.g.qt) ==
        if evt & 0x10 != 0 then old(Usfsmax.FRows(dev.g.qt))[0 := Usfsmax.Floats(m, quat, 4)] else old(Usfsmax.FRows(dev.g.qt))
      ensures dev.g.heading[..] ==
        if evt & 0x10 != 0 then old(dev.g.heading[..])[0 := Usfsmax.FloatAt(m, euler, 0)] else old(dev.g.heading[..])
      ensures Usfsmax.FRows(dev.g.angle) ==
        if evt & 0x10 != 0 then old(Usfsmax.FRows(dev.g.angle))[0 := [Usfsmax.FloatAt(m, euler, 4), Usfsmax.FloatAt(m, euler, 8)]]
        else old(Usfsmax.FRows(dev.g.angle))
    {
      ghost var acc0 := Usfsmax.Rows(dev.g.accADC);
      ghost var baro0 := dev.g.baroADC[..];
      ReadSensors(evt, adc);
      assert Usfsmax.Row(dev.g.accADC, 0) == Usfsmax.Rows(dev.g.accADC)[0];
      assert old(Usfsmax.Row(dev.g.accADC, 0)) == acc0[0];
      assert dev.g.baroADC[0] == dev.g.baroADC[..][0];
      assert dev.g.baroADC[1] == dev.g.baroADC[..][1];
      ghost var gyro1, acc1, mag1 := Usfsmax.Rows(dev.g.gyroADC), Usfsmax.Rows(dev.g.accADC), Usfsmax.Rows(dev.g.magADC);
      if evt & 0x10 != 0 {
        dev.GetQuat(m, quat);
        dev.GetEuler(m, euler);
      }
      assert Usfsmax.Rows(dev.g.gyroADC) == gyro1 && Usfsmax.Rows(dev.g.accADC) == acc1 && Usfsmax.Rows(dev.g.magADC) == mag1;
      assert Usfsmax.FRow(dev.g.qt, 0) == Usfsmax.FRows(dev.g.qt)[0];
    }

    /** `imu1Get`: the latest snapshot and its flag, false exactly until the first snapshot. */
    method Get() returns (out: Imu1Reading, v: bool)
      requires Valid()
      ensures out == latest && v == out.valid
      ensures v <==> snapshots > 0
    {
      out := latest;
      v := latest.valid;
    }
  }
}
