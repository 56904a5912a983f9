/**
 * The flight-controller task of firmware/src/services/fc.cpp: each period it
 * reads the latest telemetry record, turns it into controller inputs with a
 * clamped time step, runs one `fc_step`, and publishes the outputs as the
 * FcStatus snapshot. `fcSoftReset` zeroes the snapshot and the context.
 */
module FcService {
  import opened Common
  import FcCore
  import Telemetry
  import Fusion
  import opened Readings

  /** The longest step handed to the controller (ms). */
  const MAX_DT_MS: u32 := 1000

  /** `now - prev_ms` on uint32_t, clamped to [1, 1000]. */
  function ClampDt(prevMs: u32, now: u32): (dt: u32)
    ensures 1 <= dt <= MAX_DT_MS
    ensures 1 <= Sub32(now, prevMs) <= MAX_DT_MS ==> dt == Sub32(now, prevMs)
    ensures Sub32(now, prevMs) > MAX_DT_MS ==> dt == MAX_DT_MS
    ensures now == prevMs ==> dt == 1
  {
    var d := Sub32(now, prevMs);
    if d > MAX_DT_MS then MAX_DT_MS else if d < 1 then 1 else d
  }

  /** A clock that went backwards (`now < prev`) wraps to a huge difference and is held at the longest step. */
  lemma BackwardsClockGivesLongestStep(prevMs: u32, now: u32)
    requires now < prevMs && prevMs - now < U32_MOD - MAX_DT_MS
    ensures ClampDt(prevMs, now) == MAX_DT_MS
  {
  }

  /** The controller inputs built from a telemetry record. */
  function InputsOf(rec: Telemetry.Record, now: u32, dt: u32): (inp: FcCore.FcInputs)
    ensures inp.dtMs == dt && inp.nowMs == now
    ensures inp.tiltDeg == rec.fused.tiltDeg && inp.aglFusedM == rec.fused.aglFusedM
    ensures inp.vzFusedMps == rec.fused.vzFusedMps && inp.vzMps == rec.fused.vzMps
    ensures inp.azImu1Mps2 == rec.fused.azImu1Mps2
    ensures inp.tApogeeS == rec.fused.tApogeeS && inp.apogeeAglM == rec.fused.apogeeAglM
    ensures inp.aglReady <= 1 && (inp.aglReady == 1 <==> rec.fused.aglReady != 0)
    ensures inp.bmp1AltitudeM == rec.bmp390.altitudeM && inp.imu1AltitudeM == rec.imu1.baroAltM
    ensures inp.imu1Valid == rec.imu1.ok && inp.bmp1Valid == rec.bmp390.ok && inp.imu2Valid == rec.imu2.ok
  {
    var f := rec.fused;
    FcCore.FcInputs(dt, now, f.tiltDeg, f.aglFusedM, f.vzFusedMps, f.vzMps, f.azImu1Mps2,
      f.tApogeeS, f.apogeeAglM, if f.aglReady != 0 then 1 else 0,
      rec.bmp390.altitudeM, rec.imu1.baroAltM, rec.imu1.ok, rec.bmp390.ok, rec.imu2.ok)
  }

  /**
   * Read through a record the aggregator built, the controller sees a sensor
   * as valid exactly when its reading was valid, and sees the altitudes of
   * the valid sensors (0 for an invalid one).
   */
  lemma InputsReflectReadings(g: Fusion.Geometry, bi: Telemetry.BuildInputs,
                              rec: Telemetry.Record, now: u32, dt: u32)
    requires Telemetry.RawOk(bi.raw)
    requires rec.bmp390 == Telemetry.BmpSection(bi.bmp)
    requires rec.imu1 == Telemetry.Imu1SectionOf(g, bi.u1, bi.raw)
    requires rec.imu2 == Telemetry.Imu2SectionOf(bi.u2)
    requires rec.fused == Telemetry.FusedSectionOf(bi.nowMs, bi.fused)
    ensures var inp := InputsOf(rec, now, dt);
      (inp.imu1Valid != 0 <==> Imu1Valid(bi.u1))
      && (inp.bmp1Valid != 0 <==> BmpValid(bi.bmp))
      && (inp.imu2Valid != 0 <==> Imu2Valid(bi.u2))
      && (inp.aglReady == 1 <==> bi.fused.aglReady)
      && inp.bmp1AltitudeM == (if BmpValid(bi.bmp) then bi.bmp.value.altitudeM else Num(0.0))
      && inp.imu1AltitudeM == (if Imu1Valid(bi.u1) then bi.u1.value.altitudeM else Num(0.0))
      && inp.aglFusedM == bi.fused.aglFusedM && inp.vzFusedMps == bi.fused.vzFusedMps
  {
  }

  /** The published snapshot: the step's outputs, field for field, stamped with `now`. */
  function StatusOf(now: u32, out: FcCore.FcOutputs): (st: FcCore.FcStatus)
    ensures st.stampMs == now && st.state == out.state && st.flags == FcCore.FlagWord(out.flags)
    ensures st.tToApogeeS == out.tToApogeeS && st.tSinceLaunchS == Num(out.tSinceLaunchS)
    ensures st.airbrakeCmdDeg == Num(out.airbrakeCmdDeg)
    ensures st.machCons == out.machCons && st.tiltDeg == out.tiltDeg
  {
    FcCore.FcStatus(now, out.state, FcCore.FlagWord(out.flags), out.machCons, out.tiltDeg,
      Num(out.tSinceLaunchS), out.tToApogeeS, Num(out.airbrakeCmdDeg))
  }

  /**
   * The flag booleans the telemetry record unpacks from a published status
   * are the controller's own flags.
   */
  lemma StatusFlagsReachTelemetry(now: u32, out: FcCore.FcOutputs, batteryV: real)
    ensures var s := Telemetry.SystemSectionOf(batteryV, StatusOf(now, out));
      var f := out.flags;
      (s.sensImu1Ok == 1 <==> f.imu1Ok) && (s.sensBmp1Ok == 1 <==> f.bmp1Ok)
      && (s.sensImu2Ok == 1 <==> f.imu2Ok) && (s.baroAgree == 1 <==> f.baroAgree)
      && (s.machOk == 1 <==> f.machOk) && (s.tiltOk == 1 <==> f.tiltOk)
      && (s.tiltLatch == 1 <==> f.tiltLatch) && (s.liftoffDet == 1 <==> f.liftoffDet)
      && (s.burnoutDet == 1 <==> f.burnoutDet)
  {
    SensorFlagsReach(now, out, batteryV);
    GateFlagsReach(now, out, batteryV);
    LatchFlagsReach(now, out, batteryV);
  }

  /** The three sensor-health booleans of StatusFlagsReachTelemetry. */
  lemma SensorFlagsReach(now: u32, out: FcCore.FcOutputs, batteryV: real)
    ensures var s := Telemetry.SystemSectionOf(batteryV, StatusOf(now, out));
      var f := out.flags;
      (s.sensImu1Ok == 1 <==> f.imu1Ok) && (s.sensBmp1Ok == 1 <==> f.bmp1Ok)
      && (s.sensImu2Ok == 1 <==> f.imu2Ok)
  {
    FcCore.FlagWordBits(out.flags, 0);
    FcCore.FlagWordBits(out.flags, 1);
    FcCore.FlagWordBits(out.flags, 2);
  }

  /** The three gate booleans of StatusFlagsReachTelemetry. */
  lemma GateFlagsReach(now: u32, out: FcCore.FcOutputs, batteryV: real)
    ensures var s := Telemetry.SystemSectionOf(batteryV, StatusOf(now, out));
      var f := out.flags;
      (s.baroAgree == 1 <==> f.baroAgree) && (s.machOk == 1 <==> f.machOk)
      && (s.tiltOk == 1 <==> f.tiltOk)
  {
    FcCore.FlagWordBits(out.flags, 3);
    FcCore.FlagWordBits(out.flags, 4);
    FcCore.FlagWordBits(out.flags, 5);
  }

  /** The three latched-event booleans of StatusFlagsReachTelemetry. */
  lemma LatchFlagsReach(now: u32, out: FcCore.FcOutputs, batteryV: real)
    ensures var s := Telemetry.SystemSectionOf(batteryV, StatusOf(now, out));
      var f := out.flags;
      (s.tiltLatch == 1 <==> f.tiltLatch) && (s.liftoffDet == 1 <==> f.liftoffDet)
      && (s.burnoutDet == 1 <==> f.burnoutDet)
  {
    FcCore.FlagWordBits(out.flags, 6);
    FcCore.FlagWordBits(out.flags, 7);
    FcCore.FlagWordBits(out.flags, 8);
  }

  /** What `fcSoftReset` leaves in the snapshot: all zero, state SAFE. */
  const RESET_STATUS: FcCore.FcStatus := FcCore.ZERO_STATUS.(state := FcCore.FC_SAFE)

  /**
   * After a soft reset the context is all zero, whose state is SAFE; as the
   * task does not run `fc_init` again, no sequence of ticks ever leaves SAFE,
   * so the controller never reaches PREFLIGHT or any flight phase again.
   */
  lemma {:induction false} ResetControllerStaysSafe(cfg: FcCore.FcConfig, m: Libm, s: FcCore.Statics,
                                                    ins: seq<FcCore.FcInputs>)
    ensures FcCore.Run(cfg, m, FcCore.ZERO_CTX, s, ins).0.state == FcCore.FC_SAFE
  {
    FcCore.SafeStaysSafe(cfg, m, FcCore.ZERO_CTX, s, ins);
  }

  /**
   * Re-initialising before the first tick after a reset, as the comment of
   * `fcSoftReset` intends, brings the controller back to PREFLIGHT: that
   * tick ends in PREFLIGHT, BOOST or ABORT_LOCKOUT, never in SAFE.
   */
  lemma ReinitLeavesSafe(cfg: FcCore.FcConfig, m: Libm, s: FcCore.Statics, inp: FcCore.FcInputs)
    ensures var st := FcCore.CoreStep(cfg, m, FcCore.INIT_CTX, s, inp).ctx.state;
      st == FcCore.FC_PREFLIGHT || st == FcCore.FC_BOOST || st == FcCore.FC_ABORT_LOCKOUT
  {
    var r := FcCore.CoreStep(cfg, m, FcCore.INIT_CTX, s, inp);
    assert FcCore.Advance(FcCore.FC_PREFLIGHT, r.ctx.state);
  }

  /** The task's state: prev_ms, the published status, the core context and whether it was initialised. */
  class FcTask {
    var prevMs: u32
    var status: FcCore.FcStatus
    var coreInited: bool
    const ctx: FcCore.FcCoreCtx
    const statics: FcCore.CoreStatics

    /** Static storage at boot: everything zero. */
    constructor (statics: FcCore.CoreStatics)
      ensures prevMs == 0 && status == FcCore.ZERO_STATUS && !coreInited
      ensures ctx.View() == FcCore.ZERO_CTX && this.statics == statics && fresh(ctx)
    {
      prevMs, status, coreInited := 0, FcCore.ZERO_STATUS, false;
      ctx := new FcCore.FcCoreCtx();
      this.statics := statics;
    }

    /** The task prologue (fc.cpp:26-30): sample the clock, and run `fc_init` unless it already ran. */
    method Start(now: u32)
      modifies this, ctx
      ensures prevMs == now && coreInited && status == old(status)
      ensures old(coreInited) ==> ctx.View() == old(ctx.View())
      ensures !old(coreInited) ==> ctx.View() == FcCore.INIT_CTX
    {
      prevMs := now;
      if !coreInited {
        ctx.Init();
        coreInited := true;
      }
    }

    /** One pass of the task loop, as written: the context is stepped whether or not it was initialised. */
    method Iterate(cfg: FcCore.FcConfig, m: Libm, rec: Telemetry.Record, now: u32)
      modifies this, ctx, statics
      ensures var inp := InputsOf(rec, now, ClampDt(old(prevMs), now));
        var r := FcCore.CoreStep(cfg, m, old(ctx.View()), old(statics.View()), inp);
        ctx.View() == r.ctx && statics.View() == r.statics && status == StatusOf(now, r.out)
      ensures prevMs == now && coreInited == old(coreInited)
    {
      var dt := Sub32(now, prevMs);
      if dt > MAX_DT_MS { dt := MAX_DT_MS; }
      if dt < 1 { dt := 1; }
      prevMs := now;
      var inp := InputsOf(rec, now, dt);
      var out := ctx.Step(cfg, m, statics, inp);
      status := FcCore.FcStatus(now, out.state, FcCore.FlagWord(out.flags), out.machCons, out.tiltDeg,
        Num(out.tSinceLaunchS), out.tToApogeeS, Num(out.airbrakeCmdDeg));
    }

    /**
     * One pass of the loop with the initialisation moved inside it, so that
     * a reset context is initialised again before it is stepped.
     */
    method IterateReinit(cfg: FcCore.FcConfig, m: Libm, rec: Telemetry.Record, now: u32)
      modifies this, ctx, statics
      ensures var c0 := if old(coreInited) then old(ctx.View()) else FcCore.INIT_CTX;
        var inp := InputsOf(rec, now, ClampDt(old(prevMs), now));
        var r := FcCore.CoreStep(cfg, m, c0, old(statics.View()), inp);
        ctx.View() == r.ctx && statics.View() == r.statics && status == StatusOf(now, r.out)
      ensures prevMs == now && coreInited
    {
      if !coreInited {
        ctx.Init();
        coreInited := true;
      }
      Iterate(cfg, m, rec, now);
    }

    /** fcGetStatus: a copy of the snapshot; it always succeeds. */
    method GetStatus() returns (ok: bool, out: FcCore.FcStatus)
      ensures ok && out == status
    {
      ok, out := true, status;
    }

    /** fcSoftReset: zero the snapshot (then state SAFE) and the context, and mark the core uninitialised. */
    method SoftReset()
      modifies this, ctx
      ensures status == RESET_STATUS && ctx.View() == FcCore.ZERO_CTX && !coreInited
      ensures prevMs == old(prevMs)
    {
      status := FcCore.ZERO_STATUS;
      status := status.(state := FcCore.FC_SAFE);
      ctx.Zero();
      coreInited := false;
    }
  }
}
