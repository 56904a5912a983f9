/**
 * The fusion task (firmware/src/services/fusion.cpp): one iteration of its
 * loop turns the latest BMP390 and IMU1 snapshots into fused AGL, vertical
 * speeds, atmospherics, attitude and apogee predictions, and publishes them.
 *
 * Each block of the loop body is a function over the statics it touches;
 * `FusionTask` holds those statics as fields and its methods follow the
 * functions block by block. The quaternion rotation and Euler extraction are
 * uninterpreted (`Geometry`), as are the libm calls (`Libm`).
 */
module Fusion {
  import opened Common
  import opened Readings

  // ---------------------------------------------------------------------
  // Tuning (app_config.h and fusion.cpp)
  // ---------------------------------------------------------------------

  const ZERO_AGL_AFTER_MS: u32 := 10000
  const W_BMP1: real := 0.70
  const W_IMU1: real := 1.0 - W_BMP1
  const VZ_ALPHA: real := 0.85
  const VZ_MAX_DT_MS: real := 200.0
  const SAFE_TAPX_FACTOR: real := 0.7
  const SAFE_ZAPX_FACTOR: real := 0.8
  const VZ_FUSE_BETA: real := 0.2
  const TILT_AZ_ALPHA: real := 0.9
  const TILT_AZ_MIN_TILT_DEG: real := 2.0
  const TILT_MAX_DEPLOY_DEG: real := 20.0
  const SOS_10KFT_DELTA_K: real := 19.8
  const SOS_MIN_FLOOR_MPS: real := 300.0
  const G0: real := 9.80665
  const LEAK: real := 0.02
  const RAD_TO_DEG: real := 57.2957795
  const GAMMA_R: real := 1.4 * 287.05

  /** `rotate_vec_by_quat` and `quat_to_euler`, left uninterpreted. */
  datatype Geometry = Geometry(rotate: (Quat, V3) -> V3, euler: Quat -> V3)

  // ---------------------------------------------------------------------
  // Arming and baselines
  // ---------------------------------------------------------------------

  /** s_agl_ready, s_agl_arm_ms, s_base_bmp1_m, s_base_imu1_m. */
  datatype Baseline = Baseline(ready: bool, armMs: u32, bmp1: Flt, imu1: Flt)

  const BOOT_BASELINE: Baseline := Baseline(false, 0, NaN, NaN)

  /**
   * The arming deadline is set when it is still 0; AGL becomes ready once
   * `now` reaches it; each baseline is the first non-NaN altitude seen while
   * ready and is never overwritten.
   */
  function ArmStep(b: Baseline, now: u32, bmpAlt: Flt, imuAlt: Flt): (r: Baseline)
    ensures b.armMs != 0 ==> r.armMs == b.armMs
    ensures b.armMs == 0 ==> r.armMs == Add32(now, ZERO_AGL_AFTER_MS)
    ensures r.ready <==> b.ready || now >= r.armMs
    ensures b.bmp1.Num? ==> r.bmp1 == b.bmp1
    ensures b.imu1.Num? ==> r.imu1 == b.imu1
    ensures b.bmp1.NaN? ==> r.bmp1 == (if r.ready then bmpAlt else NaN)
    ensures b.imu1.NaN? ==> r.imu1 == (if r.ready then imuAlt else NaN)
  {
    var arm := if b.armMs == 0 then Add32(now, ZERO_AGL_AFTER_MS) else b.armMs;
    var ready := b.ready || now >= arm;
    Baseline(ready, arm,
      if ready && b.bmp1.NaN? && bmpAlt.Num? then bmpAlt else b.bmp1,
      if ready && b.imu1.NaN? && imuAlt.Num? then imuAlt else b.imu1)
  }

  /** Baselines are only ever captured while AGL is ready. */
  predicate BaselineOk(b: Baseline)
  {
    (b.bmp1.Num? || b.imu1.Num?) ==> b.ready
  }

  lemma ArmStepKeepsBaselineOk(b: Baseline, now: u32, bmpAlt: Flt, imuAlt: Flt)
    requires BaselineOk(b)
    ensures BaselineOk(ArmStep(b, now, bmpAlt, imuAlt))
    ensures b.ready ==> ArmStep(b, now, bmpAlt, imuAlt).ready
  {
  }

  // ---------------------------------------------------------------------
  // Fused AGL
  // ---------------------------------------------------------------------

  datatype Agl = Agl(bmp1: Flt, imu1: Flt, fused: Flt)

  /** The weighted blend of the two AGLs. */
  function Blend(a: real, c: real): real
  {
    W_BMP1 * a + W_IMU1 * c
  }

  /** Per-sensor AGL against its baseline, and their weighted fusion with fallbacks. */
  function AglOf(b: Baseline, bmpAlt: Flt, imuAlt: Flt): (r: Agl)
    ensures !b.ready ==> r == Agl(NaN, NaN, NaN)
    ensures r.bmp1.Num? <==> b.ready && b.bmp1.Num? && bmpAlt.Num?
    ensures r.imu1.Num? <==> b.ready && b.imu1.Num? && imuAlt.Num?
    ensures r.bmp1.Num? ==> r.bmp1.v == bmpAlt.v - b.bmp1.v
    ensures r.imu1.Num? ==> r.imu1.v == imuAlt.v - b.imu1.v
    ensures r.bmp1.Num? && r.imu1.Num? ==> r.fused == Num(Blend(r.bmp1.v, r.imu1.v))
    ensures r.bmp1.Num? && r.imu1.NaN? ==> r.fused == r.bmp1
    ensures r.bmp1.NaN? ==> r.fused == r.imu1
  {
    if !b.ready then Agl(NaN, NaN, NaN)
    else
      var a := if b.bmp1.Num? && bmpAlt.Num? then Num(bmpAlt.v - b.bmp1.v) else NaN;
      var c := if b.imu1.Num? && imuAlt.Num? then Num(imuAlt.v - b.imu1.v) else NaN;
      var f := if a.Num? && c.Num? then Num(Blend(a.v, c.v))
               else if a.Num? then a
               else c;
      Agl(a, c, f)
  }

  /** The fused AGL is NaN exactly when AGL is not ready or neither sensor has an AGL. */
  lemma AglFusedAvailability(b: Baseline, bmpAlt: Flt, imuAlt: Flt)
    ensures var r := AglOf(b, bmpAlt, imuAlt);
      r.fused.Num? <==> r.bmp1.Num? || r.imu1.Num?
  {
  }

  /** With both sensors the fused AGL lies between them, and equals them when they agree. */
  lemma AglFusedBetween(b: Baseline, bmpAlt: Flt, imuAlt: Flt)
    requires AglOf(b, bmpAlt, imuAlt).bmp1.Num? && AglOf(b, bmpAlt, imuAlt).imu1.Num?
    ensures var r := AglOf(b, bmpAlt, imuAlt);
      Min(r.bmp1.v, r.imu1.v) <= r.fused.v <= Max(r.bmp1.v, r.imu1.v)
      && (r.bmp1 == r.imu1 ==> r.fused == r.bmp1)
  {
  }

  // ---------------------------------------------------------------------
  // Vertical speed from the AGL derivative, and from accel integration
  // ---------------------------------------------------------------------

  /** have_prev_alt, prev_alt, prev_ms, vz_filt and the leaky integrator vz_acc (never NaN). */
  datatype VzState = VzState(havePrev: bool, prevAlt: Flt, prevMs: u32, filt: Flt, acc: real)

  const BOOT_VZ: VzState := VzState(false, NaN, 0, NaN, 0.0)

  /** The derivative step, in ms: the unsigned elapsed time clamped to [1, FUSION_VZ_MAX_DT_MS]. */
  function ClampDtMs(now: u32, prevMs: u32): (r: real)
    ensures 1.0 <= r <= VZ_MAX_DT_MS
    ensures 1 <= Sub32(now, prevMs) <= 200 ==> r == Sub32(now, prevMs) as real
    ensures Sub32(now, prevMs) > 200 ==> r == VZ_MAX_DT_MS
  {
    var d := Sub32(now, prevMs) as real;
    var d1 := if d < 1.0 then 1.0 else d;
    if d1 > VZ_MAX_DT_MS then VZ_MAX_DT_MS else d1
  }

  /** The EMA of the derivative: seeded with the first instantaneous value. */
  function Ema(prev: Flt, inst: Flt): (r: Flt)
    ensures prev.NaN? ==> r == inst
    ensures prev.Num? && inst.Num? ==> r == Num(VZ_ALPHA * prev.v + (1.0 - VZ_ALPHA) * inst.v)
    ensures prev.Num? && inst.Num? ==> Min(prev.v, inst.v) <= r.v <= Max(prev.v, inst.v)
    ensures inst.NaN? ==> r.NaN?
  {
    var seeded := if prev.NaN? then inst else prev;
    if seeded.Num? && inst.Num? then Num(VZ_ALPHA * seeded.v + (1.0 - VZ_ALPHA) * inst.v) else NaN
  }

  datatype VzOut = VzOut(st: VzState, vz: Flt, dtS: Flt)

  /**
   * The derivative path. A usable fused AGL keeps (or acquires) the anchor;
   * the first tick after acquiring it gives no vz; losing it drops the filter.
   */
  function VzStep(s: VzState, ready: bool, agl: Flt, now: u32): (r: VzOut)
    ensures r.st.acc == s.acc
    ensures !(ready && agl.Num?) ==> !r.st.havePrev && r.st.filt.NaN? && r.vz.NaN? && r.dtS.NaN?
    ensures !(ready && agl.Num?) ==> r.st == s.(havePrev := false, filt := NaN)
    ensures ready && agl.Num? ==> r.st.havePrev && r.st.prevAlt == agl && r.st.prevMs == now
    ensures !s.havePrev ==> r.vz.NaN? && r.dtS.NaN? && (ready && agl.Num? ==> r.st.filt == s.filt)
    ensures r.dtS.Num? ==> 0.001 <= r.dtS.v <= 0.2 && r.dtS.v == ClampDtMs(now, s.prevMs) / 1000.0
    ensures r.vz.Num? ==> s.havePrev && ready && agl.Num? && r.vz == r.st.filt
    ensures s.havePrev && ready && agl.Num? && s.prevAlt.Num? ==>
      r.vz == Ema(s.filt, Num((agl.v - s.prevAlt.v) / (ClampDtMs(now, s.prevMs) / 1000.0)))
  {
    if ready && agl.Num? then
      if s.havePrev then
        var dtS := ClampDtMs(now, s.prevMs) / 1000.0;
        var inst := if s.prevAlt.Num? then Num((agl.v - s.prevAlt.v) / dtS) else NaN;
        var f := Ema(s.filt, inst);
        VzOut(VzState(true, agl, now, f, s.acc), f, Num(dtS))
      else
        VzOut(s.(havePrev := true, prevAlt := agl, prevMs := now), NaN, NaN)
    else
      VzOut(s.(havePrev := false, filt := NaN), NaN, NaN)
  }

  /** One step of the leaky integrator. */
  function Leak(acc: real, az: real, dt: real): real
  {
    (1.0 - LEAK) * acc + az * dt
  }

  /**
   * Earth-frame vertical acceleration from IMU1 and the leaky integrator.
   * `s` is the state after the derivative path, so `havePrev` is the anchor
   * of this tick.
   */
  function AccelStep(g: Geometry, s: VzState, u1: Option<Imu1Reading>, dtS: Flt): (r: (VzState, Flt))
    ensures r.0 == s.(acc := r.0.acc)
    ensures !Imu1Valid(u1) ==> r == (s, NaN)
    ensures Imu1Valid(u1) && !s.havePrev ==> r.0.acc == 0.0
    ensures Imu1Valid(u1) && s.havePrev && r.1.NaN? ==> r.0.acc == s.acc
    ensures r.1.Num? && s.havePrev ==>
      r.0.acc == Leak(s.acc, r.1.v, if dtS.Num? then dtS.v else VZ_MAX_DT_MS / 1000.0)
  {
    if Imu1Valid(u1) then
      var ve := g.rotate(u1.value.quat, V3Scale(G0, u1.value.accelG));
      var az := FSub(ve.z, Num(G0));
      if az.Num? && s.havePrev then
        var dt := if dtS.Num? then dtS.v else VZ_MAX_DT_MS / 1000.0;
        (s.(acc := Leak(s.acc, az.v, dt)), az)
      else if !s.havePrev then (s.(acc := 0.0), az)
      else (s, az)
    else (s, NaN)
  }

  lemma MulNonNeg(x: real, y: real)
    requires x >= 0.0 && y >= 0.0
    ensures x * y >= 0.0
  {
  }

  /** The arithmetic of the leak bound. */
  lemma LeakStepBounded(acc: real, az: real, dt: real, amax: real)
    requires Abs(acc) <= 10.0 * amax && Abs(az) <= amax && 0.0 <= dt <= 0.2
    ensures Abs(Leak(acc, az, dt)) <= 10.0 * amax
  {
    assert amax - az >= 0.0 && amax + az >= 0.0;
    MulNonNeg(amax - az, dt);
    MulNonNeg(amax + az, dt);
    MulNonNeg(amax, 0.2 - dt);
    var t := az * dt;
    var u := amax * dt;
    assert (amax - az) * dt == u - t;
    assert (amax + az) * dt == u + t;
    assert amax * (0.2 - dt) == 0.2 * amax - u;
    assert -0.2 * amax <= t <= 0.2 * amax;
    assert Leak(acc, az, dt) == 0.98 * acc + t;
  }

  /**
   * The leak bounds the integrator's drift: with |az| at most `amax` and a
   * step of at most 0.2 s, a value within 10·amax stays within it.
   */
  lemma LeakBounded(g: Geometry, s: VzState, u1: Option<Imu1Reading>, dtS: Flt, amax: real)
    requires Abs(s.acc) <= 10.0 * amax
    requires dtS.Num? ==> 0.0 <= dtS.v <= 0.2
    requires var r := AccelStep(g, s, u1, dtS); r.1.Num? ==> Abs(r.1.v) <= amax
    ensures Abs(AccelStep(g, s, u1, dtS).0.acc) <= 10.0 * amax
  {
    var r := AccelStep(g, s, u1, dtS);
    if r.1.Num? && s.havePrev {
      LeakStepBounded(s.acc, r.1.v, if dtS.Num? then dtS.v else VZ_MAX_DT_MS / 1000.0, amax);
    }
  }

  /** The complementary vz: never NaN, since the integrator never is. */
  function VzFused(vz: Flt, acc: real): (r: Flt)
    ensures r.Num?
    ensures vz.Num? ==> r.v == VZ_FUSE_BETA * vz.v + (1.0 - VZ_FUSE_BETA) * acc
    ensures vz.NaN? ==> r.v == acc
    ensures vz.Num? ==> Min(vz.v, acc) <= r.v <= Max(vz.v, acc)
  {
    if vz.Num? then Num(VZ_FUSE_BETA * vz.v + (1.0 - VZ_FUSE_BETA) * acc) else Num(acc)
  }

  // ---------------------------------------------------------------------
  // Atmospherics and speed-of-sound references
  // ---------------------------------------------------------------------

  datatype Atmos = Atmos(tempC: Flt, pressHpa: Flt, sos: Flt, machVz: Flt)

  /** Temperature, pressure in hPa, speed of sound sqrt(γRT) and |vz|/sos. */
  function AtmosOf(m: Libm, bmp: Option<BmpReading>, vz: Flt): (r: Atmos)
    ensures !BmpValid(bmp) ==> r == Atmos(NaN, NaN, NaN, NaN)
    ensures BmpValid(bmp) ==> r.tempC == bmp.value.temperatureC
    ensures BmpValid(bmp) ==> r.pressHpa == FScale(1.0 / 100.0, bmp.value.pressurePa)
    ensures r.sos.Num? ==> r.tempC.Num? && r.sos == FSqrt(m, Num(GAMMA_R * (r.tempC.v + 273.15)))
    ensures r.machVz.Num? ==> vz.Num? && r.sos.Num? && r.machVz.v * r.sos.v == Abs(vz.v)
  {
    var t := if BmpValid(bmp) then bmp.value.temperatureC else NaN;
    var p := if BmpValid(bmp) then FScale(1.0 / 100.0, bmp.value.pressurePa) else NaN;
    if t.Num? then
      var sos := FSqrt(m, Num(GAMMA_R * (t.v + 273.15)));
      Atmos(t, p, sos, if vz.Num? then FDiv(Num(Abs(vz.v)), sos) else NaN)
    else Atmos(t, p, NaN, NaN)
  }

  /** have_sos_refs, sos_ground_mps, sos_10kft_mps, sos_min_mps. */
  datatype SosRefs = SosRefs(have: bool, ground: Flt, tenK: Flt, min: real)

  const BOOT_SOS: SosRefs := SosRefs(false, NaN, NaN, SOS_MIN_FLOOR_MPS)

  /** The temperature 10 kft up, floored at 150 K. */
  function T10k(t0: Flt): (r: Flt)
    ensures r.Num? <==> t0.Num?
    ensures r.Num? ==> r.v >= 150.0 && r.v >= t0.v - SOS_10KFT_DELTA_K
  {
    var t := FSub(t0, Num(SOS_10KFT_DELTA_K));
    if t.Num? && t.v < 150.0 then Num(150.0) else t
  }

  /** The references are computed on the first valid BMP sample and then never again. */
  function SosStep(m: Libm, s: SosRefs, bmp: Option<BmpReading>): (r: SosRefs)
    ensures s.have || !BmpValid(bmp) ==> r == s
    ensures !s.have && BmpValid(bmp) ==> r.have && r.min >= SOS_MIN_FLOOR_MPS
    ensures !s.have && BmpValid(bmp) ==>
      var t0 := FAdd(bmp.value.temperatureC, Num(273.15));
      r.ground == FSqrt(m, FScale(GAMMA_R, t0)) && r.tenK == FSqrt(m, FScale(GAMMA_R, T10k(t0)))
      && r.min == FMaxfC(SOS_MIN_FLOOR_MPS, FMinf(r.ground, r.tenK))
  {
    if !s.have && BmpValid(bmp) then
      var t0 := FAdd(bmp.value.temperatureC, Num(273.15));
      var ground := FSqrt(m, FScale(GAMMA_R, t0));
      var tenK := FSqrt(m, FScale(GAMMA_R, T10k(t0)));
      SosRefs(true, ground, tenK, FMaxfC(SOS_MIN_FLOOR_MPS, FMinf(ground, tenK)))
    else s
  }

  /** The conservative speed of sound never drops below the floor. */
  lemma SosMinFloor(m: Libm, s: SosRefs, bmp: Option<BmpReading>)
    requires s.min >= SOS_MIN_FLOOR_MPS
    ensures SosStep(m, s, bmp).min >= SOS_MIN_FLOOR_MPS
  {
  }

  /** Once taken, the references stay as they are whatever samples follow. */
  lemma SosTakenOnce(m: Libm, s: SosRefs, bmp: Option<BmpReading>, later: Option<BmpReading>)
    requires SosStep(m, s, bmp).have
    ensures SosStep(m, SosStep(m, s, bmp), later) == SosStep(m, s, bmp)
  {
  }

  /** The conservative Mach proxy: |vz_fused| projected at the worst deploy tilt, over sos_min. */
  function MachCons(m: Libm, vzFused: Flt, sos: SosRefs): (r: Flt)
    requires sos.min >= SOS_MIN_FLOOR_MPS
    ensures r.Num? <==> vzFused.Num? && sos.have
    ensures r.Num? ==> r.v >= 0.0
    ensures r.Num? ==>
      r.v * Max(m.cos(TILT_MAX_DEPLOY_DEG * 0.01745329252), 0.1) * sos.min == Abs(vzFused.v)
  {
    if vzFused.Num? && sos.have then
      var c0 := m.cos(TILT_MAX_DEPLOY_DEG * 0.01745329252);
      var c := if c0 < 0.1 then 0.1 else c0;
      Num(Abs(vzFused.v) / c / sos.min)
    else NaN
  }

  // ---------------------------------------------------------------------
  // Apogee prediction
  // ---------------------------------------------------------------------

  /** Biased-early time to apogee and biased-low apogee AGL from the derivative vz. */
  function Apogee(ready: bool, agl: Flt, vz: Flt): (r: (Flt, Flt))
    ensures !(ready && agl.Num? && vz.Num?) ==> r == (NaN, NaN)
    ensures ready && agl.Num? && vz.Num? && vz.v > 0.0 ==>
      r.0.Num? && r.0.v > 0.0 && r.0.v * G0 == SAFE_TAPX_FACTOR * vz.v
      && r.1.Num? && r.1.v >= agl.v && (r.1.v - agl.v) * (2.0 * G0) == SAFE_ZAPX_FACTOR * (vz.v * vz.v)
    ensures ready && agl.Num? && vz.Num? && vz.v <= 0.0 ==> r == (Num(0.0), agl)
  {
    if ready && agl.Num? && vz.Num? then
      if vz.v > 0.0 then
        assert vz.v * vz.v > 0.0;
        (Num(SAFE_TAPX_FACTOR * (vz.v / G0)), Num(agl.v + SAFE_ZAPX_FACTOR * (vz.v * vz.v) / (2.0 * G0)))
      else (Num(0.0), agl)
    else (NaN, NaN)
  }

  // ---------------------------------------------------------------------
  // Attitude: tilt, smoothed tilt azimuth and its unwrapping
  // ---------------------------------------------------------------------

  /** have_tilt_az, tiltAzX/Y, have_tilt_az_acc, tilt_az_prev_deg, tilt_az_unwrapped. */
  datatype AzState = AzState(have: bool, x: Flt, y: Flt, haveAcc: bool, prevDeg: real, unwrapped: real)

  const BOOT_AZ: AzState := AzState(false, NaN, NaN, false, 0.0, 0.0)

  /** Tilt from vertical: acos of the nose's Earth-Z component, clamped with fmaxf/fminf. */
  function TiltDeg(m: Libm, noseZ: Flt): real
  {
    var cz := FMaxfC(-1.0, Num(if noseZ.NaN? then 1.0 else Min(1.0, noseZ.v)));
    m.acos(cz) * RAD_TO_DEG
  }

  /** Whether the azimuth is updated: enough tilt and a non-degenerate horizontal component. */
  predicate AzGate(tilt: real, h: Flt)
  {
    tilt >= TILT_AZ_MIN_TILT_DEG && Gt(h, 0.0001)
  }

  /**
   * The smoothed azimuth direction. Updated only when `AzGate` holds; the
   * first update takes the horizontal direction as is, later ones are an EMA
   * renormalised when its norm is above 1e-6.
   */
  function AzDirStep(m: Libm, s: AzState, nose: V3, tilt: real): (r: (AzState, Flt))
    ensures r.0 == s.(have := r.0.have, x := r.0.x, y := r.0.y)
    ensures var h := FSqrt(m, FAdd(FMul(nose.x, nose.x), FMul(nose.y, nose.y)));
      !AzGate(tilt, h) ==> r.0 == s && r.1 == (if s.have then FScale(RAD_TO_DEG, FAtan2(m, s.y, s.x)) else NaN)
    ensures var h := FSqrt(m, FAdd(FMul(nose.x, nose.x), FMul(nose.y, nose.y)));
      AzGate(tilt, h) ==> r.0.have && r.1 == FScale(RAD_TO_DEG, FAtan2(m, r.0.y, r.0.x))
    ensures var h := FSqrt(m, FAdd(FMul(nose.x, nose.x), FMul(nose.y, nose.y)));
      AzGate(tilt, h) && (!s.have || s.x.NaN? || s.y.NaN?) ==> r.0.x == FDiv(nose.x, h) && r.0.y == FDiv(nose.y, h)
    ensures s.have ==> r.0.have
  {
    var h := FSqrt(m, FAdd(FMul(nose.x, nose.x), FMul(nose.y, nose.y)));
    if AzGate(tilt, h) then
      var hx := FDiv(nose.x, h);
      var hy := FDiv(nose.y, h);
      var s1 :=
        if !s.have || s.x.NaN? || s.y.NaN? then s.(x := hx, y := hy, have := true)
        else
          var ex := FAdd(FScale(TILT_AZ_ALPHA, s.x), FScale(1.0 - TILT_AZ_ALPHA, hx));
          var ey := FAdd(FScale(TILT_AZ_ALPHA, s.y), FScale(1.0 - TILT_AZ_ALPHA, hy));
          var n := FSqrt(m, FAdd(FMul(ex, ex), FMul(ey, ey)));
          if Gt(n, 0.000001) then s.(x := FDiv(ex, n), y := FDiv(ey, n)) else s.(x := ex, y := ey);
      (s1, FScale(RAD_TO_DEG, FAtan2(m, s1.y, s1.x)))
    else
      (s, if s.have then FScale(RAD_TO_DEG, FAtan2(m, s.y, s.x)) else NaN)
  }

  /** A turn count measure for the wrap loops. */
  function WrapMeasure(d: real): nat
  {
    if d > 180.0 then (d - 180.0).Floor as nat + 1
    else if d < -180.0 then (-180.0 - d).Floor as nat + 1
    else 0
  }

  /** The two `while` loops that wrap an azimuth delta into [-180, 180]. */
  function Wrap180(d: real): (r: real)
    ensures -180.0 <= r <= 180.0
    ensures -180.0 <= d <= 180.0 ==> r == d
    decreases WrapMeasure(d)
  {
    if d > 180.0 then Wrap180(d - 360.0)
    else if d < -180.0 then Wrap180(d + 360.0)
    else d
  }

  /** The number of whole turns the wrap adds. */
  ghost function WrapTurns(d: real): int
    decreases WrapMeasure(d)
  {
    if d > 180.0 then WrapTurns(d - 360.0) - 1
    else if d < -180.0 then WrapTurns(d + 360.0) + 1
    else 0
  }

  /** Wrapping only adds whole turns. */
  lemma {:induction false} WrapIsWholeTurns(d: real)
    ensures Wrap180(d) == d + Turns(WrapTurns(d))
    decreases WrapMeasure(d)
  {
    if d > 180.0 {
      WrapIsWholeTurns(d - 360.0);
    } else if d < -180.0 {
      WrapIsWholeTurns(d + 360.0);
    }
  }

  /** The [0, 360) mapping of an azimuth. */
  function Deg360(deg: real): (r: real)
    ensures deg < 0.0 ==> r == deg + 360.0
    ensures deg >= 0.0 ==> r == deg
    ensures -360.0 <= deg < 360.0 ==> 0.0 <= r < 360.0
  {
    if deg < 0.0 then deg + 360.0 else deg
  }

  datatype Unwrapped = Unwrapped(st: AzState, deg360: Flt, unwrappedDeg: Flt)

  /** Unwrapping: the first azimuth seeds the continuous angle, later ones add the wrapped delta. */
  function UnwrapStep(s: AzState, az: Flt): (r: Unwrapped)
    ensures az.NaN? ==> r == Unwrapped(s, NaN, NaN)
    ensures az.Num? ==> r.deg360 == Num(Deg360(az.v)) && r.st.haveAcc && r.st.prevDeg == az.v
    ensures az.Num? ==> r.unwrappedDeg == Num(r.st.unwrapped)
    ensures az.Num? && !s.haveAcc ==> r.st.unwrapped == az.v
    ensures az.Num? && s.haveAcc ==> r.st.unwrapped == s.unwrapped + Wrap180(az.v - s.prevDeg)
    ensures az.Num? && s.haveAcc ==> Abs(r.st.unwrapped - s.unwrapped) <= 180.0
    ensures r.st == s.(haveAcc := r.st.haveAcc, prevDeg := r.st.prevDeg, unwrapped := r.st.unwrapped)
  {
    if az.NaN? then Unwrapped(s, NaN, NaN)
    else
      var st :=
        if !s.haveAcc then s.(prevDeg := az.v, unwrapped := az.v, haveAcc := true)
        else s.(unwrapped := s.unwrapped + Wrap180(az.v - s.prevDeg), prevDeg := az.v);
      Unwrapped(st, Num(Deg360(az.v)), Num(st.unwrapped))
  }

  /** `k` whole turns, in degrees. */
  function Turns(k: int): real
  {
    360.0 * (k as real)
  }

  /** Whether two angles differ by whole turns only. */
  ghost predicate SameDirection(a: real, b: real)
  {
    exists k: int :: a - b == Turns(k)
  }

  /** The unwrapped azimuth keeps pointing where the last wrapped azimuth points. */
  lemma UnwrapTracksAzimuth(s: AzState, az: real)
    requires s.haveAcc && SameDirection(s.unwrapped, s.prevDeg)
    ensures var r := UnwrapStep(s, Num(az)).st;
      r.haveAcc && r.prevDeg == az && SameDirection(r.unwrapped, r.prevDeg)
  {
    var k: int :| s.unwrapped - s.prevDeg == Turns(k);
    var r := UnwrapStep(s, Num(az)).st;
    WrapIsWholeTurns(az - s.prevDeg);
    var k' := k + WrapTurns(az - s.prevDeg);
    assert r.unwrapped - r.prevDeg == Turns(k');
  }

  /** The first azimuth seeds the unwrapped angle in the same direction. */
  lemma UnwrapSeedsDirection(s: AzState, az: real)
    requires !s.haveAcc
    ensures var r := UnwrapStep(s, Num(az)).st;
      r.haveAcc && SameDirection(r.unwrapped, r.prevDeg)
  {
    assert UnwrapStep(s, Num(az)).st.unwrapped - az == Turns(0);
  }

  datatype Attitude = Attitude(yaw: Flt, pitch: Flt, roll: Flt, tilt: Flt, az: Flt, az360: Flt, unwrapped: Flt)

  const NO_ATTITUDE: Attitude := Attitude(NaN, NaN, NaN, NaN, NaN, NaN, NaN)

  /** The attitude block: all NaN without a valid IMU1 sample, and the azimuth state untouched. */
  function AttitudeStep(g: Geometry, m: Libm, s: AzState, u1: Option<Imu1Reading>): (r: (AzState, Attitude))
    ensures !Imu1Valid(u1) ==> r == (s, NO_ATTITUDE)
    ensures Imu1Valid(u1) ==> r.1.tilt.Num?
    ensures r.1.az.NaN? ==> r.1.az360.NaN? && r.1.unwrapped.NaN?
    ensures r.1.az.Num? ==> r.1.az360 == Num(Deg360(r.1.az.v)) && r.1.unwrapped == Num(r.0.unwrapped)
    ensures r.1.az.Num? && s.haveAcc ==> Abs(r.0.unwrapped - s.unwrapped) <= 180.0
  {
    if !Imu1Valid(u1) then (s, NO_ATTITUDE)
    else
      var q := u1.value.quat;
      var e := g.euler(q);
      var nose := g.rotate(q, V3(Num(1.0), Num(0.0), Num(0.0)));
      var tilt := TiltDeg(m, nose.z);
      var d := AzDirStep(m, s, nose, tilt);
      var u := UnwrapStep(d.0, d.1);
      (u.st, Attitude(e.x, e.y, e.z, Num(tilt), d.1, u.deg360, u.unwrappedDeg))
  }

  // ---------------------------------------------------------------------
  // The published snapshot and one loop iteration
  // ---------------------------------------------------------------------

  datatype FusedAlt = FusedAlt(
    stampMs: u32, ageMs: u32,
    bmp1AltM: Flt, imu1AltM: Flt, aglBmp1M: Flt, aglImu1M: Flt, aglFusedM: Flt, aglReady: bool,
    vzMps: Flt, vzAccMps: Flt, vzFusedMps: Flt, azImu1Mps2: Flt,
    tempC: Flt, pressHpa: Flt, sosMps: Flt, machVz: Flt,
    sosGroundMps: Flt, sos10kftMps: Flt, sosMinMps: Flt, machCons: Flt,
    yawDeg: Flt, pitchDeg: Flt, rollDeg: Flt, tiltDeg: Flt,
    tiltAzDeg: Flt, tiltAzDeg360: Flt, tiltAzUnwrappedDeg: Flt,
    tApogeeS: Flt, apogeeAglM: Flt)

  const Z: Flt := Num(0.0)

  /** The snapshot after memset: every float 0.0 and agl_ready false. */
  const ZERO_FUSED: FusedAlt := FusedAlt(0, 0, Z, Z, Z, Z, Z, false, Z, Z, Z, Z, Z, Z, Z, Z,
    Z, Z, Z, Z, Z, Z, Z, Z, Z, Z, Z, Z, Z)

  /** Every static of fusion.cpp, as a value. */
  datatype FusionView = FusionView(resetReq: bool, base: Baseline, vzs: VzState, az: AzState, sos: SosRefs, snap: FusedAlt)

  predicate FusionOk(v: FusionView)
  {
    BaselineOk(v.base) && v.sos.min >= SOS_MIN_FLOOR_MPS
  }

  const BOOT_FUSION: FusionView := FusionView(false, BOOT_BASELINE, BOOT_VZ, BOOT_AZ, BOOT_SOS, ZERO_FUSED)

  /** The reset branch: every filter, baseline and reference back to boot, the snapshot zeroed. */
  function ResetFusion(now: u32): (r: FusionView)
    ensures FusionOk(r) && !r.resetReq
    ensures r.base == BOOT_BASELINE && r.vzs == BOOT_VZ && r.az == BOOT_AZ && r.sos == BOOT_SOS
    ensures r.snap == ZERO_FUSED.(stampMs := now)
  {
    BOOT_FUSION.(snap := ZERO_FUSED.(stampMs := now))
  }

  /** The snapshot one iteration publishes, from the results of its blocks. */
  function Publish(m: Libm, now: u32, bmpAlt: Flt, imuAlt: Flt, agl: Agl, ready: bool, vz: Flt, acc: real,
                   azE: Flt, atm: Atmos, sos: SosRefs, att: Attitude, apo: (Flt, Flt)): FusedAlt
    requires sos.min >= SOS_MIN_FLOOR_MPS
  {
    var vf := VzFused(vz, acc);
    FusedAlt(now, 0, bmpAlt, imuAlt, agl.bmp1, agl.imu1, agl.fused, ready,
      vz, Num(acc), vf, azE, atm.tempC, atm.pressHpa, atm.sos, atm.machVz,
      sos.ground, sos.tenK, Num(sos.min), MachCons(m, vf, sos),
      att.yaw, att.pitch, att.roll, att.tilt, att.az, att.az360, att.unwrapped,
      apo.0, apo.1)
  }

  /** One iteration of the fusion loop after the reset branch. */
  function Iteration(g: Geometry, m: Libm, s0: FusionView, now: u32,
                     bmp: Option<BmpReading>, u1: Option<Imu1Reading>): (r: FusionView)
    requires FusionOk(s0)
  {
    var bmpAlt := if BmpValid(bmp) then bmp.value.altitudeM else NaN;
    var imuAlt := if Imu1Valid(u1) then u1.value.altitudeM else NaN;
    var base := ArmStep(s0.base, now, bmpAlt, imuAlt);
    var agl := AglOf(base, bmpAlt, imuAlt);
    var v := VzStep(s0.vzs, base.ready, agl.fused, now);
    var a := AccelStep(g, v.st, u1, v.dtS);
    var atm := AtmosOf(m, bmp, v.vz);
    var sos := SosStep(m, s0.sos, bmp);
    var apo := Apogee(base.ready, agl.fused, v.vz);
    var att := AttitudeStep(g, m, s0.az, u1);
    FusionView(false, base, a.0, att.0, sos,
      Publish(m, now, bmpAlt, imuAlt, agl, base.ready, v.vz, a.0.acc, a.1, atm, sos, att.1, apo))
  }

  /** One iteration of the fusion loop. */
  function FusionTick(g: Geometry, m: Libm, s: FusionView, now: u32,
                      bmp: Option<BmpReading>, u1: Option<Imu1Reading>): (r: FusionView)
    requires FusionOk(s)
    ensures FusionOk(r) && !r.resetReq
    ensures r.snap.stampMs == now && r.snap.ageMs == 0
    ensures r.snap.aglReady == r.base.ready
    ensures r.snap.vzFusedMps.Num? && r.snap.vzAccMps.Num?
    ensures r.snap.sosMinMps.Num? && r.snap.sosMinMps.v >= SOS_MIN_FLOOR_MPS
    ensures !r.snap.aglReady ==> r.snap.aglFusedM.NaN? && r.snap.vzMps.NaN? && r.snap.tApogeeS.NaN?
  {
    Iteration(g, m, if s.resetReq then ResetFusion(now) else s, now, bmp, u1)
  }

  /** A reset request takes effect on the next iteration: it starts from the boot state. */
  lemma ResetRestartsFusion(g: Geometry, m: Libm, s: FusionView, now: u32,
                            bmp: Option<BmpReading>, u1: Option<Imu1Reading>)
    requires FusionOk(s) && s.resetReq
    ensures FusionTick(g, m, s, now, bmp, u1) == FusionTick(g, m, BOOT_FUSION, now, bmp, u1)
  {
  }

  // ---------------------------------------------------------------------
  // The task's statics as mutable state
  // ---------------------------------------------------------------------

  class FusionTask {
    var resetReq: bool
    var base: Baseline
    var vzs: VzState
    var az: AzState
    var sos: SosRefs
    var snap: FusedAlt

    function View(): FusionView
      reads this
    {
      FusionView(resetReq, base, vzs, az, sos, snap)
    }

    /** The statics at boot. */
    constructor ()
      ensures View() == BOOT_FUSION
    {
      resetReq, base, vzs, az, sos, snap := false, BOOT_BASELINE, BOOT_VZ, BOOT_AZ, BOOT_SOS, ZERO_FUSED;
    }

    /** fusionSoftReset: only raises the request flag; the task acts on it next iteration. */
    method SoftReset()
      modifies this
      ensures View() == old(View()).(resetReq := true)
    {
      resetReq := true;
    }

    /** fusionGetAlt: a copy of the published snapshot; it always succeeds. */
    method GetAlt() returns (ok: bool, out: FusedAlt)
      ensures ok && out == snap
    {
      ok, out := true, snap;
    }

    /** One iteration of the `for(;;)` loop of fusion_task. */
    method Tick(g: Geometry, m: Libm, now: u32, bmp: Option<BmpReading>, u1: Option<Imu1Reading>)
      requires FusionOk(View())
      modifies this
      ensures View() == FusionTick(g, m, old(View()), now, bmp, u1)
    {
      Restart(now);
      Advance(g, m, now, bmp, u1);
    }

    /** The reset branch at the top of the loop. */
    method Restart(now: u32)
      modifies this
      ensures View() == if old(resetReq) then ResetFusion(now) else old(View())
    {
      if resetReq {
        resetReq := false;
        base, vzs, az, sos := BOOT_BASELINE, BOOT_VZ, BOOT_AZ, BOOT_SOS;
        snap := ZERO_FUSED.(stampMs := now);
      }
    }

    /** The rest of the loop body: every block in order, then the snapshot. */
    method Advance(g: Geometry, m: Libm, now: u32, bmp: Option<BmpReading>, u1: Option<Imu1Reading>)
      requires FusionOk(View()) && !resetReq
      modifies this
      ensures View() == Iteration(g, m, old(View()), now, bmp, u1)
    {
      ghost var s0 := View();
      var bmpAlt := if BmpValid(bmp) then bmp.value.altitudeM else NaN;
      var imuAlt := if Imu1Valid(u1) then u1.value.altitudeM else NaN;
      ArmBaseline(now, bmpAlt, imuAlt);
      var agl := AglOf(base, bmpAlt, imuAlt);
      ghost var v := VzStep(s0.vzs, base.ready, agl.fused, now);
      var vz, dtS := DeriveVz(agl.fused, now);
      assert vzs == v.st && vz == v.vz && dtS == v.dtS;
      ghost var a := AccelStep(g, v.st, u1, v.dtS);
      var azE := IntegrateAccel(g, u1, dtS);
      assert vzs == a.0 && azE == a.1;
      var atm := AtmosOf(m, bmp, vz);
      if !sos.have && BmpValid(bmp) { sos := SosStep(m, sos, bmp); }
      assert sos == SosStep(m, s0.sos, bmp);
      ghost var at := AttitudeStep(g, m, s0.az, u1);
      var att := UpdateAttitude(g, m, u1);
      assert az == at.0 && att == at.1;
      var apo := Apogee(base.ready, agl.fused, vz);
      snap := Publish(m, now, bmpAlt, imuAlt, agl, base.ready, vz, vzs.acc, azE, atm, sos, att, apo);
    }

    /** Arming deadline, readiness and lazy baselines. */
    method ArmBaseline(now: u32, bmpAlt: Flt, imuAlt: Flt)
      modifies this
      ensures base == ArmStep(old(base), now, bmpAlt, imuAlt)
      ensures View() == old(View()).(base := base)
    {
      var b := base;
      if b.armMs == 0 { b := b.(armMs := Add32(now, ZERO_AGL_AFTER_MS)); }
      if !b.ready && now >= b.armMs { b := b.(ready := true); }
      if b.ready {
        if b.bmp1.NaN? && bmpAlt.Num? { b := b.(bmp1 := bmpAlt); }
        if b.imu1.NaN? && imuAlt.Num? { b := b.(imu1 := imuAlt); }
      }
      base := b;
    }

    /** The derivative path: returns vz and the step in seconds (NaN when there was no step). */
    method DeriveVz(agl: Flt, now: u32) returns (vz: Flt, dtS: Flt)
      modifies this
      ensures VzOut(vzs, vz, dtS) == VzStep(old(vzs), base.ready, agl, now)
      ensures View() == old(View()).(vzs := vzs)
    {
      vz, dtS := NaN, NaN;
      if base.ready && agl.Num? {
        if vzs.havePrev {
          var dtMs := Sub32(now, vzs.prevMs) as real;
          if dtMs < 1.0 { dtMs := 1.0; }
          if dtMs > VZ_MAX_DT_MS { dtMs := VZ_MAX_DT_MS; }
          dtS := Num(dtMs / 1000.0);
          var inst := if vzs.prevAlt.Num? then Num((agl.v - vzs.prevAlt.v) / dtS.v) else NaN;
          var f := vzs.filt;
          if f.NaN? { f := inst; }
          f := if f.Num? && inst.Num? then Num(VZ_ALPHA * f.v + (1.0 - VZ_ALPHA) * inst.v) else NaN;
          vz := f;
          vzs := vzs.(filt := f);
        }
        vzs := vzs.(prevAlt := agl, prevMs := now, havePrev := true);
      } else {
        vzs := vzs.(havePrev := false, filt := NaN);
      }
    }

    /** Vertical acceleration from IMU1 and the leaky integrator. */
    method IntegrateAccel(g: Geometry, u1: Option<Imu1Reading>, dtS: Flt) returns (azE: Flt)
      modifies this
      ensures (vzs, azE) == AccelStep(g, old(vzs), u1, dtS)
      ensures View() == old(View()).(vzs := vzs)
    {
      azE := NaN;
      if Imu1Valid(u1) {
        var ve := g.rotate(u1.value.quat, V3Scale(G0, u1.value.accelG));
        azE := FSub(ve.z, Num(G0));
        if azE.Num? && vzs.havePrev {
          var dt := if dtS.NaN? then VZ_MAX_DT_MS / 1000.0 else dtS.v;
          vzs := vzs.(acc := Leak(vzs.acc, azE.v, dt));
        } else if !vzs.havePrev {
          vzs := vzs.(acc := 0.0);
        }
      }
    }

    /** Euler angles, tilt, smoothed azimuth and its unwrapping. */
    method UpdateAttitude(g: Geometry, m: Libm, u1: Option<Imu1Reading>) returns (att: Attitude)
      modifies this
      ensures (az, att) == AttitudeStep(g, m, old(az), u1)
      ensures View() == old(View()).(az := az)
    {
      att := NO_ATTITUDE;
      if Imu1Valid(u1) {
        var q := u1.value.quat;
        var e := g.euler(q);
        var nose := g.rotate(q, V3(Num(1.0), Num(0.0), Num(0.0)));
        var tilt := TiltDeg(m, nose.z);
        var d := AzDirStep(m, az, nose, tilt);
        az := d.0;
        var az360, unwrapped := NaN, NaN;
        if d.1.Num? {
          az360 := Num(if d.1.v < 0.0 then d.1.v + 360.0 else d.1.v);
          if !az.haveAcc {
            az := az.(prevDeg := d.1.v, unwrapped := d.1.v, haveAcc := true);
          } else {
            var delta := WrapDelta(d.1.v - az.prevDeg);
            az := az.(unwrapped := az.unwrapped + delta, prevDeg := d.1.v);
          }
          unwrapped := Num(az.unwrapped);
        }
        att := Attitude(e.x, e.y, e.z, Num(tilt), d.1, az360, unwrapped);
      }
    }
  }

  /** The two wrap loops on a delta. */
  method WrapDelta(d: real) returns (delta: real)
    ensures delta == Wrap180(d)
    ensures -180.0 <= delta <= 180.0
  {
    delta := d;
    while delta > 180.0
      invariant Wrap180(delta) == Wrap180(d)
      decreases WrapMeasure(delta)
    {
      delta := delta - 360.0;
    }
    while delta < -180.0
      invariant Wrap180(delta) == Wrap180(d)
      invariant delta <= 180.0
      decreases WrapMeasure(delta)
    {
      delta := delta + 360.0;
    }
  }
}
