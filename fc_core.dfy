/**
 * The platform-neutral flight-controller core (firmware/src/services/fc_core.cpp):
 * per-tick sensor debounce, tilt/Mach/baro gates folded into a flag word,
 * liftoff and burnout latches, and the flight-phase state machine.
 *
 * The value view (`Ctx`, `Statics`) and the functions over it say what one
 * tick does; the classes `FcCoreCtx` and `CoreStatics` hold the same state as
 * mutable fields and their methods are proved to follow those functions.
 */
module FcCore {
  import opened Common

  // ---------------------------------------------------------------------
  // Flight phases (FcState) and flag bits (FcFlags)
  // ---------------------------------------------------------------------

  const FC_SAFE: u8 := 0
  const FC_PREFLIGHT: u8 := 1
  const FC_ARMED_WAIT: u8 := 2
  const FC_BOOST: u8 := 3
  const FC_POST_BURN_HOLD: u8 := 4
  const FC_WINDOW: u8 := 5
  const FC_DEPLOYED: u8 := 6
  const FC_RETRACTING: u8 := 7
  const FC_LOCKED: u8 := 8
  const FC_ABORT_LOCKOUT: u8 := 9

  /**
   * The FcFlags word as its nine named bits (bit 0 IMU1_OK up to bit 8
   * BURNOUT_DET); no other bit is ever set. `FlagWord` gives the uint32 value.
   */
  datatype FcFlags = FcFlags(
    imu1Ok: bool,
    bmp1Ok: bool,
    imu2Ok: bool,
    baroAgree: bool,
    machOk: bool,
    tiltOk: bool,
    tiltLatch: bool,
    liftoffDet: bool,
    burnoutDet: bool)

  const NO_FLAGS: FcFlags := FcFlags(false, false, false, false, false, false, false, false, false)

  function B(b: bool): nat { if b then 1 else 0 }

  /** The flags in bit order, bit 0 first. */
  function FlagList(f: FcFlags): seq<bool>
  {
    [f.imu1Ok, f.bmp1Ok, f.imu2Ok, f.baroAgree, f.machOk, f.tiltOk, f.tiltLatch, f.liftoffDet, f.burnoutDet]
  }

  /** The number whose binary digits, least significant first, are `bits`. */
  function Word(bits: seq<bool>): nat
    decreases |bits|
  {
    if bits == [] then 0 else B(bits[0]) + 2 * Word(bits[1..])
  }

  function Pow2(k: nat): nat
  {
    if k == 0 then 1 else 2 * Pow2(k - 1)
  }

  lemma {:induction false} WordBound(bits: seq<bool>)
    ensures Word(bits) < Pow2(|bits|)
    decreases |bits|
  {
    if bits != [] {
      WordBound(bits[1..]);
    }
  }

  /** The uint32 value of the flag word: bit i is 2^i. */
  function FlagWord(f: FcFlags): (w: u32)
    ensures w < 0x200
  {
    WordBound(FlagList(f));
    assert Pow2(9) == 0x200;
    Word(FlagList(f))
  }

  /** Bit positions of the FCF_* masks (the mask is `1u << position`). */
  const FCF_SENS_IMU1_OK: nat := 0
  const FCF_SENS_BMP1_OK: nat := 1
  const FCF_SENS_IMU2_OK: nat := 2
  const FCF_BARO_AGREE: nat := 3
  const FCF_MACH_OK: nat := 4
  const FCF_TILT_OK: nat := 5
  const FCF_TILT_LATCH: nat := 6
  const FCF_LIFTOFF_DET: nat := 7
  const FCF_BURNOUT_DET: nat := 8

  /** `(w & (1u << k)) != 0`: bit `k` of `w`. */
  function Bit(w: nat, k: nat): bool
  {
    if k == 0 then w % 2 == 1 else Bit(w / 2, k - 1)
  }

  /** Bit `k` of a word built from `bits` is `bits[k]`, and bits past the end are clear. */
  lemma {:induction false} WordBit(bits: seq<bool>, k: nat)
    ensures Bit(Word(bits), k) == (k < |bits| && bits[k])
    decreases |bits|
  {
    if bits == [] {
      ZeroHasNoBits(k);
    } else {
      var rest := Word(bits[1..]);
      assert (B(bits[0]) + 2 * rest) / 2 == rest;
      if k > 0 {
        WordBit(bits[1..], k - 1);
      }
    }
  }

  lemma {:induction false} ZeroHasNoBits(k: nat)
    ensures !Bit(0, k)
  {
    if k > 0 {
      ZeroHasNoBits(k - 1);
    }
  }

  /**
   * Bit k of the flag word is the k-th flag in FCF_* order (IMU1_OK at bit 0
   * up to BURNOUT_DET at bit 8), and no bit above 8 is ever set.
   */
  lemma FlagWordBits(f: FcFlags, k: nat)
    ensures Bit(FlagWord(f), k) == (k < 9 && FlagList(f)[k])
  {
    WordBit(FlagList(f), k);
  }

  /** FcStatus: the published controller snapshot. */
  datatype FcStatus = FcStatus(
    stampMs: u32,
    state: u8,
    flags: u32,
    machCons: Flt,
    tiltDeg: Flt,
    tSinceLaunchS: Flt,
    tToApogeeS: Flt,
    airbrakeCmdDeg: Flt)

  /** The all-zero status (a memset FcStatus). */
  const ZERO_STATUS: FcStatus := FcStatus(0, 0, 0, Num(0.0), Num(0.0), Num(0.0), Num(0.0), Num(0.0))

  // ---------------------------------------------------------------------
  // Thresholds (fc_config.h, with the bench overrides of desk_mode.h)
  // ---------------------------------------------------------------------

  type PosReal = r: real | r > 0.0 witness 1.0
  type NonNegReal = r: real | r >= 0.0

  datatype FcConfig = FcConfig(
    sosFixedMps: PosReal,
    machMaxForDeploy: real,
    machHyst: NonNegReal,
    machDwellMs: u32,
    tiltAbortDeg: real,
    tiltAbortDwellMs: u32,
    vzLiftoffMps: real,
    azLiftoffMps2: real,
    liftoffMinAglM: real,
    liftoffDwellMs: u32,
    burnoutAzDoneMps2: real,
    burnoutDwellMs: u32,
    burnoutHoldMs: u32,
    minDeployAglM: real,
    targetApogeeAglM: real,
    apogeeHighMarginM: real,
    retractBeforeApogeeS: real,
    expectedTtaS: real,
    expectedTtaScaleTimeout: real,
    sensorInvalidMs: u32,
    sensorRecoveryMs: u32,
    baroAgreeM: real,
    baroAgreeMs: u32,
    deployCmdDeg: real)

  /** The flight build. */
  const FLIGHT_CONFIG: FcConfig := FcConfig(
    300.0, 0.50, 0.02, 300, 30.0, 200, 8.0, 15.0, 5.0, 150, 1.0, 200, 1500,
    200.0, 3048.0, 45.0, 5.0, 18.0, 1.2, 150, 1500, 15.0, 500, 30.0)

  /** The bench build (DESK_MODE=1). */
  const DESK_CONFIG: FcConfig := FLIGHT_CONFIG.(
    machDwellMs := 50, tiltAbortDeg := 75.0, vzLiftoffMps := 0.5,
    azLiftoffMps2 := 1.0, liftoffMinAglM := 0.2, liftoffDwellMs := 50,
    burnoutAzDoneMps2 := 0.3, burnoutDwellMs := 120, burnoutHoldMs := 400,
    minDeployAglM := 0.2, targetApogeeAglM := 0.25, apogeeHighMarginM := 0.05,
    retractBeforeApogeeS := 0.5, expectedTtaS := 3.0,
    expectedTtaScaleTimeout := 1.1, sensorInvalidMs := 80,
    sensorRecoveryMs := 200, deployCmdDeg := 10.0)

  const DEG_TO_RAD: real := 0.01745329252

  // ---------------------------------------------------------------------
  // Inputs, outputs and state
  // ---------------------------------------------------------------------

  datatype FcInputs = FcInputs(
    dtMs: u32,
    nowMs: u32,
    tiltDeg: Flt,
    aglFusedM: Flt,
    vzFusedMps: Flt,
    vzMps: Flt,
    azImu1Mps2: Flt,
    tApogeeS: Flt,
    apogeeAglM: Flt,
    aglReady: u8,
    bmp1AltitudeM: Flt,
    imu1AltitudeM: Flt,
    imu1Valid: u8,
    bmp1Valid: u8,
    imu2Valid: u8)

  datatype FcOutputs = FcOutputs(
    state: u8,
    flags: FcFlags,
    airbrakeCmdDeg: real,
    tSinceLaunchS: real,
    tToApogeeS: Flt,
    machCons: Flt,
    tiltDeg: Flt)

  /** One sensor's validity debounce: the `ok` byte and its two accumulators. */
  datatype Debounce = Debounce(ok: bool, goodAccMs: u32, badAccMs: u32)

  /** FcCoreCtx as a value. The one-byte booleans only ever hold 0 or 1. */
  datatype Ctx = Ctx(
    state: u8,
    flags: FcFlags,
    tStateMs: u32,
    tLaunchMs: u32,
    tBurnoutMs: u32,
    tDeployMs: u32,
    tiltLatched: bool,
    machOkAccMs: u32,
    tiltBadAccMs: u32,
    liftoffAccMs: u32,
    burnoutAccMs: u32,
    imu1: Debounce,
    bmp1: Debounce,
    imu2: Debounce)

  /**
   * The four function-local statics of fc_core.cpp. They are shared by every
   * context and neither `fc_init` nor a soft reset clears them.
   */
  datatype Statics = Statics(
    machOkState: bool,
    agreeAccMs: u32,
    liftoffLatched: bool,
    burnoutLatched: bool)

  /** The statics at boot (zero-initialised storage). */
  const BOOT_STATICS: Statics := Statics(false, 0, false, false)

  const ZERO_DEBOUNCE: Debounce := Debounce(false, 0, 0)

  /** A context whose storage is all zero bytes (static storage, or after memset). */
  const ZERO_CTX: Ctx := Ctx(FC_SAFE, NO_FLAGS, 0, 0, 0, 0, false, 0, 0, 0, 0,
    ZERO_DEBOUNCE, ZERO_DEBOUNCE, ZERO_DEBOUNCE)

  /** What `fc_init` leaves, whatever the context held before. */
  const INIT_CTX: Ctx := ZERO_CTX.(state := FC_PREFLIGHT)

  // ---------------------------------------------------------------------
  // update_flags, piece by piece
  // ---------------------------------------------------------------------

  /** The debounce lambda applied to one sensor. */
  function DebounceStep(cfg: FcConfig, d: Debounce, sampleOk: bool, dt: u32): (r: Debounce)
    ensures sampleOk ==> r.badAccMs == 0 && r.goodAccMs == Add32(d.goodAccMs, dt)
    ensures !sampleOk ==> r.goodAccMs == 0 && r.badAccMs == Add32(d.badAccMs, dt)
    ensures !d.ok ==> (r.ok <==> sampleOk && r.goodAccMs >= cfg.sensorRecoveryMs)
    ensures d.ok ==> (!r.ok <==> !sampleOk && r.badAccMs >= cfg.sensorInvalidMs)
  {
    if sampleOk then
      var good := Add32(d.goodAccMs, dt);
      Debounce(d.ok || good >= cfg.sensorRecoveryMs, good, 0)
    else
      var bad := Add32(d.badAccMs, dt);
      Debounce(d.ok && bad < cfg.sensorInvalidMs, 0, bad)
  }

  /** The tilt latch and its accumulator after one sample. */
  function TiltStep(cfg: FcConfig, latched: bool, accMs: u32, tilt: Flt, dt: u32): (r: (bool, u32))
    ensures latched ==> r.0
    ensures tilt.NaN? ==> r == (latched, accMs)
    ensures Lt(tilt, cfg.tiltAbortDeg) ==> r == (latched, 0)
    ensures Ge(tilt, cfg.tiltAbortDeg) ==> r.1 == Add32(accMs, dt)
    ensures !latched && r.0 ==> Ge(tilt, cfg.tiltAbortDeg) && r.1 >= cfg.tiltAbortDwellMs
    ensures Ge(tilt, cfg.tiltAbortDeg) && r.1 >= cfg.tiltAbortDwellMs ==> r.0
  {
    if tilt.NaN? then (latched, accMs)
    else if tilt.v >= cfg.tiltAbortDeg then
      var acc := Add32(accMs, dt);
      (latched || acc >= cfg.tiltAbortDwellMs, acc)
    else (latched, 0)
  }

  /** TILT_OK: not latched and a tilt reading no larger than the abort angle. */
  predicate TiltOk(cfg: FcConfig, latched: bool, tilt: Flt)
  {
    !latched && Le(tilt, cfg.tiltAbortDeg)
  }

  /** cos of the abort tilt, floored at 0.1. */
  function CosFloor(cfg: FcConfig, m: Libm): (r: real)
    ensures r >= 0.1
    ensures m.cos(cfg.tiltAbortDeg * DEG_TO_RAD) >= 0.1 ==> r == m.cos(cfg.tiltAbortDeg * DEG_TO_RAD)
  {
    var cth := m.cos(cfg.tiltAbortDeg * DEG_TO_RAD);
    if cth < 0.1 then 0.1 else cth
  }

  /**
   * The conservative Mach proxy: fused vz (or the derivative vz when the
   * fused one is NaN), projected along the body at the abort tilt, over the
   * fixed speed of sound.
   */
  function MachProxy(cfg: FcConfig, m: Libm, vzFused: Flt, vz: Flt): (r: Flt)
    ensures r.NaN? <==> vzFused.NaN? && vz.NaN?
    ensures r.Num? ==> r.v >= 0.0
    ensures r.Num? ==> r.v * CosFloor(cfg, m) * cfg.sosFixedMps == Abs(if vzFused.Num? then vzFused.v else vz.v)
  {
    var v := if vzFused.Num? then vzFused else vz;
    if v.NaN? then NaN
    else
      var cth := CosFloor(cfg, m);
      Num(Abs(v.v) / cth / cfg.sosFixedMps)
  }

  /** The hysteretic Mach gate: (mach_ok_state, mach_ok_acc_ms) after one non-NaN Mach value. */
  function MachGate(cfg: FcConfig, okState: bool, accMs: u32, mach: real, dt: u32): (r: (bool, u32))
    ensures mach < cfg.machMaxForDeploy ==> r.1 == Add32(accMs, dt)
    ensures !okState && r.0 ==> mach < cfg.machMaxForDeploy && r.1 >= cfg.machDwellMs
    ensures mach < cfg.machMaxForDeploy && r.1 >= cfg.machDwellMs ==> r.0
    ensures okState && !r.0 ==> mach > cfg.machMaxForDeploy + cfg.machHyst && r.1 == 0
    ensures cfg.machMaxForDeploy <= mach ==> r.1 <= accMs
    ensures mach > cfg.machMaxForDeploy + cfg.machHyst ==> r == (false, 0)
    ensures cfg.machMaxForDeploy <= mach <= cfg.machMaxForDeploy + cfg.machHyst ==> r == (okState, accMs)
  {
    if mach < cfg.machMaxForDeploy then
      var acc := Add32(accMs, dt);
      (okState || acc >= cfg.machDwellMs, acc)
    else if mach > cfg.machMaxForDeploy + cfg.machHyst then (false, 0)
    else (okState, accMs)
  }

  /** Both agreement altitudes are usable: both raw valid bytes set and neither altitude NaN. */
  predicate AgreeInputs(inp: FcInputs)
  {
    inp.bmp1Valid != 0 && inp.imu1Valid != 0 && inp.bmp1AltitudeM.Num? && inp.imu1AltitudeM.Num?
  }

  predicate Agreeing(cfg: FcConfig, inp: FcInputs)
    requires AgreeInputs(inp)
  {
    Abs(inp.bmp1AltitudeM.v - inp.imu1AltitudeM.v) <= cfg.baroAgreeM
  }

  /** What one tick does to a flag bit: leave it, set it or clear it. */
  datatype FlagOp = Keep | Set | Clear

  function ApplyOp(b: bool, op: FlagOp): bool
  {
    match op
    case Keep => b
    case Set => true
    case Clear => false
  }

  /**
   * The baro-agreement gate: the new `agree_acc` and what happens to the
   * BARO_AGREE bit. The bit is set only once the two altitudes have agreed
   * for the dwell time, cleared at the first disagreement, and left alone
   * while either reading is unusable.
   */
  function AgreeStep(cfg: FcConfig, accMs: u32, inp: FcInputs): (r: (u32, FlagOp))
    ensures !AgreeInputs(inp) ==> r == (accMs, Keep)
    ensures AgreeInputs(inp) && !Agreeing(cfg, inp) ==> r == (0, Clear)
    ensures AgreeInputs(inp) && Agreeing(cfg, inp) ==>
      r.0 == Add32(accMs, inp.dtMs) && (r.1 == Set <==> r.0 >= cfg.baroAgreeMs) && r.1 != Clear
    ensures r.1 == Set ==> AgreeInputs(inp) && Agreeing(cfg, inp) && r.0 >= cfg.baroAgreeMs
    ensures r.1 == Clear ==> AgreeInputs(inp) && !Agreeing(cfg, inp)
  {
    if AgreeInputs(inp) then
      if Agreeing(cfg, inp) then
        var acc := Add32(accMs, inp.dtMs);
        (acc, if acc >= cfg.baroAgreeMs then Set else Keep)
      else (0, Clear)
    else (accMs, Keep)
  }

  datatype FlagsResult = FlagsResult(ctx: Ctx, statics: Statics, mach: Flt)

  /** The sensor-validity block of update_flags: one debounce step per sensor. */
  function SensorsBlock(cfg: FcConfig, c: Ctx, inp: FcInputs): Ctx
  {
    c.(imu1 := DebounceStep(cfg, c.imu1, inp.imu1Valid != 0, inp.dtMs),
       bmp1 := DebounceStep(cfg, c.bmp1, inp.bmp1Valid != 0, inp.dtMs),
       imu2 := DebounceStep(cfg, c.imu2, inp.imu2Valid != 0, inp.dtMs))
  }

  /** The tilt-latch block of update_flags. */
  function TiltBlock(cfg: FcConfig, c: Ctx, inp: FcInputs): Ctx
  {
    var t := TiltStep(cfg, c.tiltLatched, c.tiltBadAccMs, inp.tiltDeg, inp.dtMs);
    c.(tiltLatched := t.0, tiltBadAccMs := t.1)
  }

  /** The Mach block of update_flags: nothing changes while both vz values are NaN. */
  function MachBlock(cfg: FcConfig, m: Libm, c: Ctx, s: Statics, inp: FcInputs): FlagsResult
  {
    var mach := MachProxy(cfg, m, inp.vzFusedMps, inp.vzMps);
    if mach.Num? then
      var g := MachGate(cfg, s.machOkState, c.machOkAccMs, mach.v, inp.dtMs);
      FlagsResult(c.(machOkAccMs := g.1, flags := c.flags.(machOk := g.0)), s.(machOkState := g.0), mach)
    else FlagsResult(c, s, mach)
  }

  /** The baro-agreement block of update_flags. */
  function AgreeBlock(cfg: FcConfig, c: Ctx, s: Statics, inp: FcInputs): (Ctx, Statics)
  {
    var a := AgreeStep(cfg, s.agreeAccMs, inp);
    (c.(flags := c.flags.(baroAgree := ApplyOp(c.flags.baroAgree, a.1))), s.(agreeAccMs := a.0))
  }

  /** The flags update_flags recomputes from scratch on every tick. */
  function InstantFlags(cfg: FcConfig, c: Ctx, tilt: Flt): Ctx
  {
    c.(flags := c.flags.(imu1Ok := c.imu1.ok, bmp1Ok := c.bmp1.ok, imu2Ok := c.imu2.ok,
                         tiltOk := TiltOk(cfg, c.tiltLatched, tilt), tiltLatch := c.tiltLatched))
  }

  /** update_flags: debounce, tilt, Mach and baro gates, then the instantaneous flags. */
  function FlagsUpdate(cfg: FcConfig, m: Libm, c: Ctx, s: Statics, inp: FcInputs): (r: FlagsResult)
    ensures r.ctx == c.(flags := r.ctx.flags, tiltLatched := r.ctx.tiltLatched,
      machOkAccMs := r.ctx.machOkAccMs, tiltBadAccMs := r.ctx.tiltBadAccMs,
      imu1 := r.ctx.imu1, bmp1 := r.ctx.bmp1, imu2 := r.ctx.imu2)
    ensures r.statics == s.(machOkState := r.statics.machOkState, agreeAccMs := r.statics.agreeAccMs)
    ensures r.mach == MachProxy(cfg, m, inp.vzFusedMps, inp.vzMps)
    ensures r.ctx.flags.imu1Ok == r.ctx.imu1.ok
    ensures r.ctx.flags.bmp1Ok == r.ctx.bmp1.ok
    ensures r.ctx.flags.imu2Ok == r.ctx.imu2.ok
    ensures r.ctx.flags.tiltOk == TiltOk(cfg, r.ctx.tiltLatched, inp.tiltDeg)
    ensures r.ctx.flags.tiltLatch == r.ctx.tiltLatched
    ensures c.tiltLatched ==> r.ctx.tiltLatched
    ensures r.mach.NaN? ==> r.ctx.flags.machOk == c.flags.machOk
    ensures r.mach.NaN? ==> r.statics.machOkState == s.machOkState && r.ctx.machOkAccMs == c.machOkAccMs
    ensures r.mach.Num? ==> r.ctx.flags.machOk == r.statics.machOkState
    ensures r.ctx.flags.liftoffDet == c.flags.liftoffDet
    ensures r.ctx.flags.burnoutDet == c.flags.burnoutDet
  {
    var c1 := TiltBlock(cfg, SensorsBlock(cfg, c, inp), inp);
    var mb := MachBlock(cfg, m, c1, s, inp);
    var ab := AgreeBlock(cfg, mb.ctx, mb.statics, inp);
    FlagsResult(InstantFlags(cfg, ab.0, inp.tiltDeg), ab.1, mb.mach)
  }

  // ---------------------------------------------------------------------
  // update_fsm, piece by piece
  // ---------------------------------------------------------------------

  /** The liftoff condition: vz, az or AGL above its threshold (NaN counts as not above). */
  predicate LiftoffCond(cfg: FcConfig, inp: FcInputs)
  {
    Gt(inp.vzFusedMps, cfg.vzLiftoffMps) || Gt(inp.azImu1Mps2, cfg.azLiftoffMps2)
    || Ge(inp.aglFusedM, cfg.liftoffMinAglM)
  }

  /** Liftoff detection: the context and `liftoff_latched` after one tick. */
  function LiftoffUpdate(cfg: FcConfig, c: Ctx, latched: bool, inp: FcInputs): (r: (Ctx, bool))
    ensures latched ==> r == (c, true)
    ensures r.0 == c.(liftoffAccMs := r.0.liftoffAccMs, tLaunchMs := r.0.tLaunchMs, flags := r.0.flags)
    ensures !latched && r.1 ==>
      LiftoffCond(cfg, inp) && r.0.liftoffAccMs >= cfg.liftoffDwellMs
      && r.0.tLaunchMs == inp.nowMs && r.0.flags == c.flags.(liftoffDet := true)
    ensures !latched && !r.1 ==> r.0.tLaunchMs == c.tLaunchMs && r.0.flags == c.flags
    ensures !latched && LiftoffCond(cfg, inp) ==> r.0.liftoffAccMs == Add32(c.liftoffAccMs, inp.dtMs)
    ensures !latched && !LiftoffCond(cfg, inp) ==> r.0.liftoffAccMs == 0 && !r.1
    ensures !latched && LiftoffCond(cfg, inp) && r.0.liftoffAccMs >= cfg.liftoffDwellMs ==> r.1
  {
    if latched then (c, true)
    else if LiftoffCond(cfg, inp) then
      var acc := Add32(c.liftoffAccMs, inp.dtMs);
      if acc >= cfg.liftoffDwellMs then
        (c.(liftoffAccMs := acc, tLaunchMs := inp.nowMs, flags := c.flags.(liftoffDet := true)), true)
      else (c.(liftoffAccMs := acc), false)
    else (c.(liftoffAccMs := 0), false)
  }

  /** Burnout condition: a non-NaN az at or below the burnout threshold. */
  predicate BurnoutCond(cfg: FcConfig, inp: FcInputs)
  {
    Le(inp.azImu1Mps2, cfg.burnoutAzDoneMps2)
  }

  /** Burnout detection, evaluated only once liftoff is latched. */
  function BurnoutUpdate(cfg: FcConfig, c: Ctx, liftoff: bool, latched: bool, inp: FcInputs): (r: (Ctx, bool))
    ensures !liftoff || latched ==> r == (c, latched)
    ensures r.0 == c.(burnoutAccMs := r.0.burnoutAccMs, tBurnoutMs := r.0.tBurnoutMs, flags := r.0.flags)
    ensures !latched && r.1 ==>
      liftoff && BurnoutCond(cfg, inp) && r.0.burnoutAccMs >= cfg.burnoutDwellMs
      && r.0.tBurnoutMs == inp.nowMs && r.0.flags == c.flags.(burnoutDet := true)
    ensures !r.1 ==> r.0.tBurnoutMs == c.tBurnoutMs && r.0.flags == c.flags
    ensures liftoff && !latched && !BurnoutCond(cfg, inp) ==> r.0.burnoutAccMs == 0 && !r.1
    ensures liftoff && !latched && BurnoutCond(cfg, inp) ==>
      r.0.burnoutAccMs == Add32(c.burnoutAccMs, inp.dtMs) && (r.1 <==> r.0.burnoutAccMs >= cfg.burnoutDwellMs)
  {
    if !liftoff || latched then (c, latched)
    else if BurnoutCond(cfg, inp) then
      var acc := Add32(c.burnoutAccMs, inp.dtMs);
      if acc >= cfg.burnoutDwellMs then
        (c.(burnoutAccMs := acc, tBurnoutMs := inp.nowMs, flags := c.flags.(burnoutDet := true)), true)
      else (c.(burnoutAccMs := acc), false)
    else (c.(burnoutAccMs := 0), false)
  }

  /** The deploy gates of the WINDOW phase: IMU1_OK, BMP1_OK, TILT_OK and MACH_OK. */
  predicate DeployGates(flags: FcFlags)
  {
    flags.imu1Ok && flags.bmp1Ok && flags.tiltOk && flags.machOk
  }

  /** WINDOW -> DEPLOYED: high enough, predicted to overshoot, and every gate open. */
  predicate DeployCond(cfg: FcConfig, c: Ctx, inp: FcInputs)
  {
    Ge(inp.aglFusedM, cfg.minDeployAglM)
    && Ge(inp.apogeeAglM, cfg.targetApogeeAglM + cfg.apogeeHighMarginM)
    && DeployGates(c.flags)
  }

  /** DEPLOYED -> RETRACTING: apogee is near, or the expected flight time has run out. */
  predicate RetractCond(cfg: FcConfig, c: Ctx, inp: FcInputs)
  {
    Le(inp.tApogeeS, cfg.retractBeforeApogeeS)
    || (c.tLaunchMs > 0
        && (Sub32(inp.nowMs, c.tLaunchMs) as real) * 0.001 > cfg.expectedTtaS * cfg.expectedTtaScaleTimeout)
  }

  /** The phases that own a case of the switch, with their place along the flight. */
  predicate InFlight(st: u8)
  {
    st == FC_PREFLIGHT || FC_BOOST <= st <= FC_ABORT_LOCKOUT
  }

  /** Order along the flight; ABORT_LOCKOUT ranks above every phase it can be entered from. */
  function Rank(st: u8): nat
    requires InFlight(st)
  {
    if st == FC_PREFLIGHT then 0 else st as nat - 2
  }

  /** The phases a tilt latch sends to ABORT_LOCKOUT. */
  predicate Abortable(st: u8)
  {
    st == FC_PREFLIGHT || FC_BOOST <= st <= FC_DEPLOYED
  }

  /** The phase a state may be in one tick later. */
  predicate Advance(from: u8, to: u8)
  {
    if Abortable(from) then
      to == from || to == FC_ABORT_LOCKOUT || (InFlight(to) && Rank(to) == Rank(from) + 1)
    else if from == FC_RETRACTING then to == FC_LOCKED
    else if from == FC_LOCKED || from == FC_ABORT_LOCKOUT then to == from
    else to == FC_SAFE
  }

  function Enter(c: Ctx, st: u8, now: u32): Ctx
  {
    c.(state := st, tStateMs := now)
  }

  /** The switch on `c.state` at the end of update_fsm. */
  function FsmTransition(cfg: FcConfig, c: Ctx, liftoff: bool, burnout: bool, inp: FcInputs): (r: Ctx)
    ensures r == c.(state := r.state, tStateMs := r.tStateMs, tDeployMs := r.tDeployMs)
    ensures Advance(c.state, r.state)
    ensures r.state != c.state ==> r.tStateMs == inp.nowMs
    ensures Abortable(c.state) && c.tiltLatched ==> r.state == FC_ABORT_LOCKOUT
    ensures c.state == FC_PREFLIGHT && r.state == FC_BOOST ==> liftoff
    ensures c.state == FC_BOOST && r.state == FC_POST_BURN_HOLD ==> burnout
    ensures c.state == FC_POST_BURN_HOLD && !c.tiltLatched ==>
      (r.state == FC_WINDOW <==> Sub32(inp.nowMs, c.tStateMs) >= cfg.burnoutHoldMs)
    ensures c.state == FC_WINDOW ==>
      (r.state == FC_DEPLOYED <==> !c.tiltLatched && DeployCond(cfg, c, inp))
    ensures r.state == FC_DEPLOYED && c.state != FC_DEPLOYED ==> r.tDeployMs == inp.nowMs
    ensures r.tDeployMs != c.tDeployMs ==> r.state == FC_DEPLOYED
    ensures c.state == FC_DEPLOYED && !c.tiltLatched ==>
      (r.state == FC_RETRACTING <==> RetractCond(cfg, c, inp))
  {
    var now := inp.nowMs;
    if c.state == FC_PREFLIGHT then
      if c.tiltLatched then Enter(c, FC_ABORT_LOCKOUT, now)
      else if liftoff then Enter(c, FC_BOOST, now)
      else c
    else if c.state == FC_BOOST then
      if c.tiltLatched then Enter(c, FC_ABORT_LOCKOUT, now)
      else if burnout then Enter(c, FC_POST_BURN_HOLD, now)
      else c
    else if c.state == FC_POST_BURN_HOLD then
      if c.tiltLatched then Enter(c, FC_ABORT_LOCKOUT, now)
      else if Sub32(now, c.tStateMs) >= cfg.burnoutHoldMs then Enter(c, FC_WINDOW, now)
      else c
    else if c.state == FC_WINDOW then
      if c.tiltLatched then Enter(c, FC_ABORT_LOCKOUT, now)
      else if DeployCond(cfg, c, inp) then Enter(c, FC_DEPLOYED, now).(tDeployMs := now)
      else c
    else if c.state == FC_DEPLOYED then
      if c.tiltLatched then Enter(c, FC_ABORT_LOCKOUT, now)
      else if RetractCond(cfg, c, inp) then Enter(c, FC_RETRACTING, now)
      else c
    else if c.state == FC_RETRACTING then Enter(c, FC_LOCKED, now)
    else if c.state == FC_LOCKED || c.state == FC_ABORT_LOCKOUT then c
    else Enter(c, FC_SAFE, now)
  }

  /** update_fsm: liftoff latch, burnout latch, then the phase switch. */
  function FsmUpdate(cfg: FcConfig, c: Ctx, s: Statics, inp: FcInputs): (r: (Ctx, Statics))
    ensures r.1 == s.(liftoffLatched := r.1.liftoffLatched, burnoutLatched := r.1.burnoutLatched)
    ensures s.liftoffLatched ==> r.1.liftoffLatched
    ensures s.burnoutLatched ==> r.1.burnoutLatched
    ensures r.1.burnoutLatched && !s.burnoutLatched ==> r.1.liftoffLatched
    ensures r.0.tiltLatched == c.tiltLatched
    ensures Advance(c.state, r.0.state)
    ensures r.0.flags == c.flags.(liftoffDet := r.0.flags.liftoffDet, burnoutDet := r.0.flags.burnoutDet)
    ensures c.flags.liftoffDet ==> r.0.flags.liftoffDet
    ensures c.flags.burnoutDet ==> r.0.flags.burnoutDet
    ensures r.1.liftoffLatched && !s.liftoffLatched ==>
      r.0.tLaunchMs == inp.nowMs && r.0.flags.liftoffDet
    ensures r.1.burnoutLatched && !s.burnoutLatched ==>
      r.0.tBurnoutMs == inp.nowMs && r.0.flags.burnoutDet
  {
    var lift := LiftoffUpdate(cfg, c, s.liftoffLatched, inp);
    var burn := BurnoutUpdate(cfg, lift.0, lift.1, s.burnoutLatched, inp);
    var c2 := FsmTransition(cfg, burn.0, lift.1, burn.1, inp);
    (c2, s.(liftoffLatched := lift.1, burnoutLatched := burn.1))
  }

  // ---------------------------------------------------------------------
  // fc_step
  // ---------------------------------------------------------------------

  /** The outputs fc_step copies out after both updates. */
  function Outputs(cfg: FcConfig, c: Ctx, inp: FcInputs, mach: Flt): (r: FcOutputs)
    ensures r.state == c.state && r.flags == c.flags
    ensures r.airbrakeCmdDeg == (if c.state == FC_DEPLOYED then cfg.deployCmdDeg else 0.0)
    ensures c.tLaunchMs == 0 ==> r.tSinceLaunchS == 0.0
    ensures c.tLaunchMs > 0 ==> r.tSinceLaunchS * 1000.0 == Sub32(inp.nowMs, c.tLaunchMs) as real
    ensures r.tSinceLaunchS >= 0.0
    ensures r.tToApogeeS == inp.tApogeeS && r.machCons == mach && r.tiltDeg == inp.tiltDeg
  {
    FcOutputs(
      c.state, c.flags,
      if c.state == FC_DEPLOYED then cfg.deployCmdDeg else 0.0,
      if c.tLaunchMs > 0 then (Sub32(inp.nowMs, c.tLaunchMs) as real) * 0.001 else 0.0,
      inp.tApogeeS, mach, inp.tiltDeg)
  }

  datatype StepResult = StepResult(ctx: Ctx, statics: Statics, out: FcOutputs)

  /** fc_step: one controller tick. */
  function CoreStep(cfg: FcConfig, m: Libm, c: Ctx, s: Statics, inp: FcInputs): (r: StepResult)
    ensures c.tiltLatched ==> r.ctx.tiltLatched
    ensures Advance(c.state, r.ctx.state)
    ensures s.liftoffLatched ==> r.statics.liftoffLatched
    ensures s.burnoutLatched ==> r.statics.burnoutLatched
    ensures (s.burnoutLatched ==> s.liftoffLatched) ==> (r.statics.burnoutLatched ==> r.statics.liftoffLatched)
    ensures c.flags.liftoffDet ==> r.ctx.flags.liftoffDet
    ensures c.flags.burnoutDet ==> r.ctx.flags.burnoutDet
    ensures r.out.state == r.ctx.state && r.out.flags == r.ctx.flags
    ensures r.out.airbrakeCmdDeg == (if r.ctx.state == FC_DEPLOYED then cfg.deployCmdDeg else 0.0)
    ensures r.out.machCons == MachProxy(cfg, m, inp.vzFusedMps, inp.vzMps)
  {
    var f := FlagsUpdate(cfg, m, c, s, inp);
    var g := FsmUpdate(cfg, f.ctx, f.statics, inp);
    StepResult(g.0, g.1, Outputs(cfg, g.0, inp, f.mach))
  }

  /** A sequence of ticks. */
  function Run(cfg: FcConfig, m: Libm, c: Ctx, s: Statics, ins: seq<FcInputs>): (Ctx, Statics)
    decreases |ins|
  {
    if ins == [] then (c, s)
    else
      var r := CoreStep(cfg, m, c, s, ins[0]);
      Run(cfg, m, r.ctx, r.statics, ins[1..])
  }

  // ---------------------------------------------------------------------
  // Properties over many ticks
  // ---------------------------------------------------------------------

  function Sum(dts: seq<u32>): int
  {
    if dts == [] then 0 else dts[0] as int + Sum(dts[1..])
  }

  lemma {:induction false} SumNonNeg(dts: seq<u32>)
    ensures Sum(dts) >= 0
    ensures |dts| > 0 ==> Sum(dts) >= dts[0]
  {
    if dts != [] { SumNonNeg(dts[1..]); }
  }

  /** The debounce fed the same validity on every tick. */
  function DebounceRun(cfg: FcConfig, d: Debounce, sampleOk: bool, dts: seq<u32>): Debounce
    decreases |dts|
  {
    if dts == [] then d else DebounceRun(cfg, DebounceStep(cfg, d, sampleOk, dts[0]), sampleOk, dts[1..])
  }

  /**
   * Consecutive valid samples accumulate their dt (while no wrap-around
   * happens) and the sensor is OK at the end exactly when it was OK before or
   * the accumulated time reached the recovery threshold.
   */
  lemma {:induction false} DebounceRecovers(cfg: FcConfig, d: Debounce, dts: seq<u32>)
    requires d.goodAccMs + Sum(dts) < U32_MOD
    ensures DebounceRun(cfg, d, true, dts).goodAccMs == (if dts == [] then d.goodAccMs else d.goodAccMs + Sum(dts))
    ensures DebounceRun(cfg, d, true, dts).ok <==>
      d.ok || (dts != [] && d.goodAccMs + Sum(dts) >= cfg.sensorRecoveryMs)
    decreases |dts|
  {
    if dts != [] {
      SumNonNeg(dts[1..]);
      var d1 := DebounceStep(cfg, d, true, dts[0]);
      assert d1.goodAccMs == d.goodAccMs + dts[0];
      DebounceRecovers(cfg, d1, dts[1..]);
    }
  }

  /** The mirror image: consecutive invalid samples drop the sensor once they add up to the invalid threshold. */
  lemma {:induction false} DebounceDrops(cfg: FcConfig, d: Debounce, dts: seq<u32>)
    requires d.badAccMs + Sum(dts) < U32_MOD
    ensures DebounceRun(cfg, d, false, dts).badAccMs == (if dts == [] then d.badAccMs else d.badAccMs + Sum(dts))
    ensures DebounceRun(cfg, d, false, dts).ok <==>
      d.ok && (dts == [] || d.badAccMs + Sum(dts) < cfg.sensorInvalidMs)
    decreases |dts|
  {
    if dts != [] {
      SumNonNeg(dts[1..]);
      var d1 := DebounceStep(cfg, d, false, dts[0]);
      assert d1.badAccMs == d.badAccMs + dts[0];
      DebounceDrops(cfg, d1, dts[1..]);
    }
  }

  /** The Mach gate fed a sequence of (mach, dt) samples with a non-NaN vz. */
  function MachRun(cfg: FcConfig, okState: bool, accMs: u32, samples: seq<(real, u32)>): (bool, u32)
    decreases |samples|
  {
    if samples == [] then (okState, accMs)
    else
      var g := MachGate(cfg, okState, accMs, samples[0].0, samples[0].1);
      MachRun(cfg, g.0, g.1, samples[1..])
  }

  /** Total dt of the samples below the on-threshold. */
  function BelowTime(cfg: FcConfig, samples: seq<(real, u32)>): int
  {
    if samples == [] then 0
    else (if samples[0].0 < cfg.machMaxForDeploy then samples[0].1 as int else 0)
         + BelowTime(cfg, samples[1..])
  }

  /**
   * No chattering: if MACH_OK is off before a run of samples and on after it,
   * the samples below the on-threshold add up (with the accumulator's
   * starting value) to at least the dwell time.
   */
  lemma {:induction false} MachGateDwell(cfg: FcConfig, okState: bool, accMs: u32, samples: seq<(real, u32)>)
    requires !okState && MachRun(cfg, okState, accMs, samples).0
    ensures accMs + BelowTime(cfg, samples) >= cfg.machDwellMs
    decreases |samples|
  {
    var g := MachGate(cfg, okState, accMs, samples[0].0, samples[0].1);
    assert g.1 <= accMs + (if samples[0].0 < cfg.machMaxForDeploy then samples[0].1 as int else 0);
    BelowTimeNonNeg(cfg, samples[1..]);
    if !g.0 {
      MachGateDwell(cfg, g.0, g.1, samples[1..]);
    }
  }

  lemma {:induction false} BelowTimeNonNeg(cfg: FcConfig, samples: seq<(real, u32)>)
    ensures BelowTime(cfg, samples) >= 0
  {
    if samples != [] { BelowTimeNonNeg(cfg, samples[1..]); }
  }

  /** The tilt latch is never cleared by any number of ticks. */
  lemma {:induction false} TiltLatchSticky(cfg: FcConfig, m: Libm, c: Ctx, s: Statics, ins: seq<FcInputs>)
    requires c.tiltLatched
    ensures Run(cfg, m, c, s, ins).0.tiltLatched
    decreases |ins|
  {
    if ins != [] {
      var r := CoreStep(cfg, m, c, s, ins[0]);
      TiltLatchSticky(cfg, m, r.ctx, r.statics, ins[1..]);
    }
  }

  /**
   * The phases only move forward: from any phase of the flight the state stays
   * a flight phase and its rank never decreases; ABORT_LOCKOUT outranks all.
   */
  lemma {:induction false} PhasesMoveForward(cfg: FcConfig, m: Libm, c: Ctx, s: Statics, ins: seq<FcInputs>)
    requires InFlight(c.state)
    ensures InFlight(Run(cfg, m, c, s, ins).0.state)
    ensures Rank(c.state) <= Rank(Run(cfg, m, c, s, ins).0.state)
    decreases |ins|
  {
    if ins != [] {
      var r := CoreStep(cfg, m, c, s, ins[0]);
      PhasesMoveForward(cfg, m, r.ctx, r.statics, ins[1..]);
    }
  }

  /** LOCKED and ABORT_LOCKOUT are final. */
  lemma {:induction false} TerminalPhasesStay(cfg: FcConfig, m: Libm, c: Ctx, s: Statics, ins: seq<FcInputs>)
    requires c.state == FC_LOCKED || c.state == FC_ABORT_LOCKOUT
    ensures Run(cfg, m, c, s, ins).0.state == c.state
    decreases |ins|
  {
    if ins != [] {
      var r := CoreStep(cfg, m, c, s, ins[0]);
      TerminalPhasesStay(cfg, m, r.ctx, r.statics, ins[1..]);
    }
  }

  /** A context in SAFE (a zeroed context) stays in SAFE forever. */
  lemma {:induction false} SafeStaysSafe(cfg: FcConfig, m: Libm, c: Ctx, s: Statics, ins: seq<FcInputs>)
    requires c.state == FC_SAFE
    ensures Run(cfg, m, c, s, ins).0.state == FC_SAFE
    decreases |ins|
  {
    if ins != [] {
      var r := CoreStep(cfg, m, c, s, ins[0]);
      SafeStaysSafe(cfg, m, r.ctx, r.statics, ins[1..]);
    }
  }

  /** The liftoff and burnout latches never clear, and burnout is never latched before liftoff. */
  lemma {:induction false} LatchesStick(cfg: FcConfig, m: Libm, c: Ctx, s: Statics, ins: seq<FcInputs>)
    requires s.burnoutLatched ==> s.liftoffLatched
    ensures var s' := Run(cfg, m, c, s, ins).1;
      (s.liftoffLatched ==> s'.liftoffLatched) && (s.burnoutLatched ==> s'.burnoutLatched)
      && (s'.burnoutLatched ==> s'.liftoffLatched)
    decreases |ins|
  {
    if ins != [] {
      var r := CoreStep(cfg, m, c, s, ins[0]);
      LatchesStick(cfg, m, r.ctx, r.statics, ins[1..]);
    }
  }

  /** In WINDOW, one tick deploys exactly when the tilt stays unlatched and the deploy condition holds on the freshly updated flags. */
  lemma DeployRule(cfg: FcConfig, m: Libm, c: Ctx, s: Statics, inp: FcInputs)
    requires c.state == FC_WINDOW
    ensures var f := FlagsUpdate(cfg, m, c, s, inp);
      CoreStep(cfg, m, c, s, inp).ctx.state == FC_DEPLOYED <==>
        !f.ctx.tiltLatched
        && Ge(inp.aglFusedM, cfg.minDeployAglM)
        && Ge(inp.apogeeAglM, cfg.targetApogeeAglM + cfg.apogeeHighMarginM)
        && f.ctx.imu1.ok && f.ctx.bmp1.ok
        && TiltOk(cfg, f.ctx.tiltLatched, inp.tiltDeg)
        && f.ctx.flags.machOk
  {
    var f := FlagsUpdate(cfg, m, c, s, inp);
    WindowDeploys(cfg, f.ctx, f.statics, inp);
  }

  /** update_fsm in WINDOW: the latch updates leave the state, the tilt latch and the deploy gates as they were. */
  lemma WindowDeploys(cfg: FcConfig, c: Ctx, s: Statics, inp: FcInputs)
    requires c.state == FC_WINDOW
    ensures FsmUpdate(cfg, c, s, inp).0.state == FC_DEPLOYED <==> !c.tiltLatched && DeployCond(cfg, c, inp)
  {
    var lift := LiftoffUpdate(cfg, c, s.liftoffLatched, inp);
    var burn := BurnoutUpdate(cfg, lift.0, lift.1, s.burnoutLatched, inp);
    assert burn.0.state == FC_WINDOW && burn.0.tiltLatched == c.tiltLatched;
    assert DeployGates(burn.0.flags) == DeployGates(c.flags);
  }

  // ---------------------------------------------------------------------
  // The context and the statics as mutable state
  // ---------------------------------------------------------------------

  /**
   * The debounce lambda, which updates one sensor's (ok, good_acc, bad_acc)
   * through references: here it returns their new values.
   */
  method DebounceUpdate(cfg: FcConfig, sampleOk: bool, d: Debounce, dt: u32) returns (r: Debounce)
    ensures r == DebounceStep(cfg, d, sampleOk, dt)
  {
    var okOut, goodOut, badOut := d.ok, d.goodAccMs, d.badAccMs;
    if sampleOk {
      goodOut := Add32(goodOut, dt);
      badOut := 0;
      if !okOut && goodOut >= cfg.sensorRecoveryMs { okOut := true; }
    } else {
      badOut := Add32(badOut, dt);
      goodOut := 0;
      if okOut && badOut >= cfg.sensorInvalidMs { okOut := false; }
    }
    r := Debounce(okOut, goodOut, badOut);
  }

  class CoreStatics {
    var machOkState: bool
    var agreeAccMs: u32
    var liftoffLatched: bool
    var burnoutLatched: bool

    function View(): Statics
      reads this
    {
      Statics(machOkState, agreeAccMs, liftoffLatched, burnoutLatched)
    }

    constructor ()
      ensures View() == BOOT_STATICS
    {
      machOkState, agreeAccMs, liftoffLatched, burnoutLatched := false, 0, false, false;
    }
  }

  class FcCoreCtx {
    var state: u8
    var flags: FcFlags
    var tStateMs: u32
    var tLaunchMs: u32
    var tBurnoutMs: u32
    var tDeployMs: u32
    var tiltLatched: bool
    var machOkAccMs: u32
    var tiltBadAccMs: u32
    var liftoffAccMs: u32
    var burnoutAccMs: u32
    var imu1: Debounce
    var bmp1: Debounce
    var imu2: Debounce

    function View(): Ctx
      reads this
    {
      Ctx(state, flags, tStateMs, tLaunchMs, tBurnoutMs, tDeployMs, tiltLatched,
          machOkAccMs, tiltBadAccMs, liftoffAccMs, burnoutAccMs, imu1, bmp1, imu2)
    }

    /** A context in zero-initialised static storage. */
    constructor ()
      ensures View() == ZERO_CTX
    {
      new;
      Load(ZERO_CTX);
    }

    /** Stores every field of the value `c` in this object: the model's way of
        assigning a whole `FcCtx` struct, not an operation of the firmware. */
    method Load(c: Ctx)
      modifies this
      ensures View() == c
    {
      LoadPhase(c);
      LoadGates(c);
    }

    /** The phase and timing half of `Load`: copies those fields of `c`. */
    method LoadPhase(c: Ctx)
      modifies this
      ensures View() == old(View()).(state := c.state, flags := c.flags, tStateMs := c.tStateMs,
        tLaunchMs := c.tLaunchMs, tBurnoutMs := c.tBurnoutMs, tDeployMs := c.tDeployMs, tiltLatched := c.tiltLatched)
    {
      state, flags, tStateMs, tLaunchMs, tBurnoutMs, tDeployMs := c.state, c.flags, c.tStateMs, c.tLaunchMs, c.tBurnoutMs, c.tDeployMs;
      tiltLatched := c.tiltLatched;
    }

    /** The gate-accumulator and sensor-health half of `Load`: copies those fields of `c`. */
    method LoadGates(c: Ctx)
      modifies this
      ensures View() == old(View()).(machOkAccMs := c.machOkAccMs, tiltBadAccMs := c.tiltBadAccMs,
        liftoffAccMs := c.liftoffAccMs, burnoutAccMs := c.burnoutAccMs, imu1 := c.imu1, bmp1 := c.bmp1, imu2 := c.imu2)
    {
      machOkAccMs, tiltBadAccMs, liftoffAccMs, burnoutAccMs := c.machOkAccMs, c.tiltBadAccMs, c.liftoffAccMs, c.burnoutAccMs;
      imu1, bmp1, imu2 := c.imu1, c.bmp1, c.imu2;
    }

    /** memset of the context to zero bytes. */
    method Zero()
      modifies this
      ensures View() == ZERO_CTX
    {
      Load(ZERO_CTX);
    }

    /** fc_init: PREFLIGHT with every flag, timestamp, accumulator and sensor-ok cleared. */
    method Init()
      modifies this
      ensures View() == INIT_CTX
      ensures state == FC_PREFLIGHT && flags == NO_FLAGS
      ensures tStateMs == 0 && tLaunchMs == 0 && tBurnoutMs == 0 && tDeployMs == 0
      ensures !tiltLatched && machOkAccMs == 0 && tiltBadAccMs == 0 && liftoffAccMs == 0 && burnoutAccMs == 0
      ensures imu1 == bmp1 == imu2 == Debounce(false, 0, 0)
    {
      Load(INIT_CTX);
    }

    /** fc_step. */
    method Step(cfg: FcConfig, m: Libm, st: CoreStatics, inp: FcInputs) returns (out: FcOutputs)
      modifies this, st
      ensures View() == CoreStep(cfg, m, old(View()), old(st.View()), inp).ctx
      ensures st.View() == CoreStep(cfg, m, old(View()), old(st.View()), inp).statics
      ensures out == CoreStep(cfg, m, old(View()), old(st.View()), inp).out
    {
      var mach := UpdateFlags(cfg, m, st, inp);
      UpdateFsm(cfg, st, inp);
      var cmdDeg := 0.0;
      if state == FC_DEPLOYED { cmdDeg := cfg.deployCmdDeg; }
      var sinceLaunch := if tLaunchMs > 0 then (Sub32(inp.nowMs, tLaunchMs) as real) * 0.001 else 0.0;
      out := FcOutputs(state, flags, cmdDeg, sinceLaunch, inp.tApogeeS, mach, inp.tiltDeg);
    }

    /** update_flags: the four gates in the order of the source, then the instantaneous flags. */
    method UpdateFlags(cfg: FcConfig, m: Libm, st: CoreStatics, inp: FcInputs) returns (mach: Flt)
      modifies this, st
      ensures FlagsResult(View(), st.View(), mach) == FlagsUpdate(cfg, m, old(View()), old(st.View()), inp)
    {
      DebounceSensors(cfg, inp);
      TiltUpdate(cfg, inp);
      mach := MachUpdate(cfg, m, st, inp);
      AgreeUpdate(cfg, st, inp);
      SetInstantFlags(cfg, inp);
    }

    /** Sensor validity debounce, one sensor at a time. */
    method DebounceSensors(cfg: FcConfig, inp: FcInputs)
      modifies this
      ensures View() == SensorsBlock(cfg, old(View()), inp)
    {
      imu1 := DebounceUpdate(cfg, inp.imu1Valid != 0, imu1, inp.dtMs);
      bmp1 := DebounceUpdate(cfg, inp.bmp1Valid != 0, bmp1, inp.dtMs);
      imu2 := DebounceUpdate(cfg, inp.imu2Valid != 0, imu2, inp.dtMs);
    }

    /** The tilt latch block of update_flags. */
    method TiltUpdate(cfg: FcConfig, inp: FcInputs)
      modifies this
      ensures View() == TiltBlock(cfg, old(View()), inp)
    {
      var tilt := inp.tiltDeg;
      if tilt.Num? {
        if tilt.v >= cfg.tiltAbortDeg {
          tiltBadAccMs := Add32(tiltBadAccMs, inp.dtMs);
          if tiltBadAccMs >= cfg.tiltAbortDwellMs { tiltLatched := true; }
        } else {
          tiltBadAccMs := 0;
        }
      }
    }

    /** The instantaneous flags at the end of update_flags. */
    method SetInstantFlags(cfg: FcConfig, inp: FcInputs)
      modifies this
      ensures View() == InstantFlags(cfg, old(View()), inp.tiltDeg)
    {
      var tilt := inp.tiltDeg;
      flags := flags.(imu1Ok := imu1.ok, bmp1Ok := bmp1.ok, imu2Ok := imu2.ok,
                      tiltOk := !tiltLatched && tilt.Num? && tilt.v <= cfg.tiltAbortDeg,
                      tiltLatch := tiltLatched);
    }

    /** The Mach proxy block of update_flags, with its hysteresis and dwell. */
    method MachUpdate(cfg: FcConfig, m: Libm, st: CoreStatics, inp: FcInputs) returns (mach: Flt)
      modifies this, st
      ensures FlagsResult(View(), st.View(), mach) == MachBlock(cfg, m, old(View()), old(st.View()), inp)
    {
      var vz := if inp.vzFusedMps.Num? then inp.vzFusedMps else inp.vzMps;
      mach := NaN;
      if vz.Num? {
        var cth := m.cos(cfg.tiltAbortDeg * DEG_TO_RAD);
        if cth < 0.1 { cth := 0.1; }
        var vBody := Abs(vz.v) / cth;
        mach := Num(vBody / cfg.sosFixedMps);
        var onTh := cfg.machMaxForDeploy;
        var offTh := cfg.machMaxForDeploy + cfg.machHyst;
        if mach.v < onTh {
          machOkAccMs := Add32(machOkAccMs, inp.dtMs);
          if !st.machOkState && machOkAccMs >= cfg.machDwellMs { st.machOkState := true; }
        } else if mach.v > offTh {
          machOkAccMs := 0;
          st.machOkState := false;
        }
        flags := flags.(machOk := st.machOkState);
      }
    }

    /** The baro agreement block of update_flags. */
    method AgreeUpdate(cfg: FcConfig, st: CoreStatics, inp: FcInputs)
      modifies this, st
      ensures (View(), st.View()) == AgreeBlock(cfg, old(View()), old(st.View()), inp)
    {
      if AgreeInputs(inp) {
        var diff := Abs(inp.bmp1AltitudeM.v - inp.imu1AltitudeM.v);
        if diff <= cfg.baroAgreeM {
          st.agreeAccMs := Add32(st.agreeAccMs, inp.dtMs);
          if st.agreeAccMs >= cfg.baroAgreeMs { flags := flags.(baroAgree := true); }
        } else {
          st.agreeAccMs := 0;
          flags := flags.(baroAgree := false);
        }
      }
    }

    /** update_fsm: liftoff latch, burnout latch, then the phase switch. */
    method UpdateFsm(cfg: FcConfig, st: CoreStatics, inp: FcInputs)
      modifies this, st
      ensures View() == FsmUpdate(cfg, old(View()), old(st.View()), inp).0
      ensures st.View() == FsmUpdate(cfg, old(View()), old(st.View()), inp).1
    {
      DetectLiftoff(cfg, st, inp);
      DetectBurnout(cfg, st, inp);
      Transition(cfg, st.liftoffLatched, st.burnoutLatched, inp);
    }

    /** Liftoff detection. */
    method DetectLiftoff(cfg: FcConfig, st: CoreStatics, inp: FcInputs)
      modifies this, st
      ensures (View(), st.liftoffLatched) == LiftoffUpdate(cfg, old(View()), old(st.liftoffLatched), inp)
      ensures st.View() == old(st.View()).(liftoffLatched := st.liftoffLatched)
    {
      var liftoffCond := false;
      if inp.vzFusedMps.Num? && inp.vzFusedMps.v > cfg.vzLiftoffMps { liftoffCond := true; }
      if inp.azImu1Mps2.Num? && inp.azImu1Mps2.v > cfg.azLiftoffMps2 { liftoffCond := true; }
      if inp.aglFusedM.Num? && inp.aglFusedM.v >= cfg.liftoffMinAglM { liftoffCond := true; }
      if !st.liftoffLatched {
        if liftoffCond {
          liftoffAccMs := Add32(liftoffAccMs, inp.dtMs);
          if liftoffAccMs >= cfg.liftoffDwellMs {
            st.liftoffLatched := true;
            tLaunchMs := inp.nowMs;
            flags := flags.(liftoffDet := true);
          }
        } else {
          liftoffAccMs := 0;
        }
      }
    }

    /** Burnout detection, once liftoff is latched. */
    method DetectBurnout(cfg: FcConfig, st: CoreStatics, inp: FcInputs)
      modifies this, st
      ensures (View(), st.burnoutLatched)
        == BurnoutUpdate(cfg, old(View()), old(st.liftoffLatched), old(st.burnoutLatched), inp)
      ensures st.View() == old(st.View()).(burnoutLatched := st.burnoutLatched)
    {
      if st.liftoffLatched && !st.burnoutLatched {
        if inp.azImu1Mps2.Num? && inp.azImu1Mps2.v <= cfg.burnoutAzDoneMps2 {
          burnoutAccMs := Add32(burnoutAccMs, inp.dtMs);
          if burnoutAccMs >= cfg.burnoutDwellMs {
            st.burnoutLatched := true;
            tBurnoutMs := inp.nowMs;
            flags := flags.(burnoutDet := true);
          }
        } else {
          burnoutAccMs := 0;
        }
      }
    }

    /** The phase switch at the end of update_fsm. */
    method Transition(cfg: FcConfig, liftoff: bool, burnout: bool, inp: FcInputs)
      modifies this
      ensures View() == FsmTransition(cfg, old(View()), liftoff, burnout, inp)
    {
      var now := inp.nowMs;
      if state == FC_PREFLIGHT {
        if tiltLatched { state, tStateMs := FC_ABORT_LOCKOUT, now; }
        else if liftoff { state, tStateMs := FC_BOOST, now; }
      } else if state == FC_BOOST {
        if tiltLatched { state, tStateMs := FC_ABORT_LOCKOUT, now; }
        else if burnout { state, tStateMs := FC_POST_BURN_HOLD, now; }
      } else if state == FC_POST_BURN_HOLD {
        if tiltLatched { state, tStateMs := FC_ABORT_LOCKOUT, now; }
        else if Sub32(now, tStateMs) >= cfg.burnoutHoldMs { state, tStateMs := FC_WINDOW, now; }
      } else if state == FC_WINDOW {
        if tiltLatched {
          state, tStateMs := FC_ABORT_LOCKOUT, now;
        } else {
          var gates := flags.imu1Ok && flags.bmp1Ok && flags.tiltOk && flags.machOk;
          if inp.aglFusedM.Num? && inp.aglFusedM.v >= cfg.minDeployAglM {
            if inp.apogeeAglM.Num? && inp.apogeeAglM.v >= cfg.targetApogeeAglM + cfg.apogeeHighMarginM {
              if gates { state, tDeployMs, tStateMs := FC_DEPLOYED, now, now; }
            }
          }
        }
      } else if state == FC_DEPLOYED {
        if tiltLatched {
          state, tStateMs := FC_ABORT_LOCKOUT, now;
        } else if inp.tApogeeS.Num? && inp.tApogeeS.v <= cfg.retractBeforeApogeeS {
          state, tStateMs := FC_RETRACTING, now;
        } else if tLaunchMs > 0 {
          var tSinceLaunch := (Sub32(now, tLaunchMs) as real) * 0.001;
          if tSinceLaunch > cfg.expectedTtaS * cfg.expectedTtaScaleTimeout { state, tStateMs := FC_RETRACTING, now; }
        }
      } else if state == FC_RETRACTING {
        state, tStateMs := FC_LOCKED, now;
      } else if state == FC_LOCKED || state == FC_ABORT_LOCKOUT {
      } else {
        state, tStateMs := FC_SAFE, now;
      }
    }
  }
}
