/**
 * The airbrake servo of firmware/src/actuator_servo.cpp: pulse widths in
 * microseconds turned into LEDC duty counts, commands clamped to the
 * configured endpoints, the boot sweep, and the control task that opens the
 * brake in the deploy window and closes it on any bad condition or when the
 * telemetry stalls.
 */
module ActuatorServo {
  import opened Common
  import FcCore
  import Telemetry

  /** actuators_config.h defaults. */
  const SERVO_MIN_US: u16 := 1000
  const SERVO_MAX_US: u16 := 1400
  const SERVO_PWM_FREQ_HZ: nat := 50
  const SERVO_PWM_RES_BITS: nat := 16

  /** One PWM period in microseconds, 1000000 / 50. */
  const PERIOD_US: nat := 20000
  /** The largest duty count, 2^16 - 1. */
  const MAX_DUTY: u32 := 0xFFFF

  /**
   * us_to_duty: the fraction `us / period` of the full duty scale, rounded
   * down, and never more than the full scale.
   */
  function UsToDuty(us: u16): (d: u32)
    ensures d <= MAX_DUTY
    ensures d * PERIOD_US <= us * MAX_DUTY
    ensures d < MAX_DUTY ==> us * MAX_DUTY < (d + 1) * PERIOD_US
  {
    var raw := (us * MAX_DUTY) / PERIOD_US;
    if raw > MAX_DUTY then MAX_DUTY else raw
  }

  /** A wider pulse never gives a smaller duty; the default endpoints give 3276 and 4587 counts. */
  lemma DutyMonotone(a: u16, b: u16)
    requires a <= b
    ensures UsToDuty(a) <= UsToDuty(b)
    ensures UsToDuty(SERVO_MIN_US) == 3276 && UsToDuty(SERVO_MAX_US) == 4587
  {
    assert a * MAX_DUTY <= b * MAX_DUTY;
  }

  /** The two clamps of servoWriteUS, lower bound first. */
  function Clamp(lo: u16, hi: u16, us: u16): (r: u16)
    ensures lo <= hi ==> lo <= r <= hi
    ensures lo <= hi && lo <= us <= hi ==> r == us
    ensures lo <= hi && us < lo ==> r == lo
    ensures lo <= hi && us > hi ==> r == hi
    ensures lo > hi ==> r == hi
  {
    var v := if us < lo then lo else us;
    if v > hi then hi else v
  }

  /** The midpoint servoCenter commands lies between the endpoints. */
  function Midpoint(lo: u16, hi: u16): (r: u16)
    ensures lo <= hi ==> lo <= r <= hi
    ensures 2 * r <= lo + hi < 2 * r + 2
  {
    (lo + hi) / 2
  }

  /** The servo's file statics (s_min_us, s_max_us, s_cmd_us, s_open) and the duty last written to the PWM channel. */
  class Servo {
    var minUs: u16
    var maxUs: u16
    var cmdUs: u16
    var open: bool
    var duty: u32

    /** The statics before servoInit: default endpoints, the midpoint command, closed. */
    constructor ()
      ensures minUs == SERVO_MIN_US && maxUs == SERVO_MAX_US && cmdUs == 1200 && !open && duty == 0
    {
      minUs, maxUs, cmdUs, open, duty := SERVO_MIN_US, SERVO_MAX_US, (SERVO_MIN_US + SERVO_MAX_US) / 2, false, 0;
    }

    /** servoWriteUS: clamp into the endpoints, remember it, and write its duty. */
    method WriteUS(us: u16)
      modifies this
      ensures cmdUs == Clamp(minUs, maxUs, us) && duty == UsToDuty(cmdUs)
      ensures minUs == old(minUs) && maxUs == old(maxUs) && open == old(open)
    {
      var v := us;
      if v < minUs { v := minUs; }
      if v > maxUs { v := maxUs; }
      cmdUs := v;
      duty := UsToDuty(v);
    }

    /** servoOpen: fully extended, whatever the endpoints. */
    method Open()
      modifies this
      ensures open && cmdUs == maxUs && duty == UsToDuty(maxUs)
      ensures minUs == old(minUs) && maxUs == old(maxUs)
    {
      open := true;
      WriteUS(maxUs);
    }

    /** servoClose: retracted to the lower endpoint (to the upper one when the endpoints are crossed). */
    method Close()
      modifies this
      ensures !open && cmdUs == Clamp(minUs, maxUs, minUs) && duty == UsToDuty(cmdUs)
      ensures minUs <= maxUs ==> cmdUs == minUs
      ensures minUs == old(minUs) && maxUs == old(maxUs)
    {
      open := false;
      WriteUS(minUs);
    }

    /** servoCenter: the midpoint of the endpoints; `open` is left as it was. */
    method Center()
      modifies this
      ensures cmdUs == Clamp(minUs, maxUs, Midpoint(minUs, maxUs)) && duty == UsToDuty(cmdUs)
      ensures minUs <= maxUs ==> cmdUs == Midpoint(minUs, maxUs)
      ensures minUs == old(minUs) && maxUs == old(maxUs) && open == old(open)
    {
      WriteUS((minUs + maxUs) / 2);
    }

    /** The `range:` bench command: the two integers truncated to uint16_t, then close. */
    method SetRange(mn: int, mx: int)
      modifies this
      ensures minUs == ToU16(mn) && maxUs == ToU16(mx)
      ensures !open && cmdUs == Clamp(minUs, maxUs, minUs) && duty == UsToDuty(cmdUs)
    {
      minUs, maxUs := ToU16(mn), ToU16(mx);
      Close();
    }

    /**
     * One rising pass of the boot sweep, `for (us = min; us <= max; us += step)`:
     * it ends within one step below the upper endpoint; with crossed
     * endpoints nothing is written.
     */
    method SweepUp(step: nat)
      requires step > 0
      modifies this
      ensures minUs == old(minUs) && maxUs == old(maxUs) && open == old(open)
      ensures minUs <= maxUs ==>
        minUs <= cmdUs <= maxUs && maxUs < cmdUs + step
        && duty == UsToDuty(cmdUs)
      ensures minUs > maxUs ==> cmdUs == old(cmdUs) && duty == old(duty)
    {
      var us: int := minUs;
      while us <= maxUs
        invariant minUs <= us
        invariant minUs <= maxUs ==> us <= maxUs + step
        invariant minUs == old(minUs) && maxUs == old(maxUs) && open == old(open)
        invariant minUs > maxUs ==> us == minUs
        invariant us > minUs ==> minUs <= us - step <= maxUs && cmdUs == us - step && duty == UsToDuty(cmdUs)
        invariant us == minUs ==> cmdUs == old(cmdUs) && duty == old(duty)
        decreases maxUs - us
      {
        WriteUS(us as u16);
        us := us + step;
      }
    }

    /** One falling pass, `for (us = max; us >= min; us -= step)`: it ends within one step above the lower endpoint. */
    method SweepDown(step: nat)
      requires step > 0
      modifies this
      ensures minUs == old(minUs) && maxUs == old(maxUs) && open == old(open)
      ensures minUs <= maxUs ==>
        minUs <= cmdUs <= maxUs && cmdUs < minUs + step
        && duty == UsToDuty(cmdUs)
      ensures minUs > maxUs ==> cmdUs == old(cmdUs) && duty == old(duty)
    {
      var us: int := maxUs;
      while us >= minUs
        invariant us <= maxUs
        invariant minUs <= maxUs ==> minUs - step <= us
        invariant minUs == old(minUs) && maxUs == old(maxUs) && open == old(open)
        invariant minUs > maxUs ==> us == maxUs
        invariant us < maxUs ==> minUs <= us + step <= maxUs && cmdUs == us + step && duty == UsToDuty(cmdUs)
        invariant us == maxUs ==> cmdUs == old(cmdUs) && duty == old(duty)
        decreases us - minUs
      {
        WriteUS(us as u16);
        us := us - step;
      }
    }

    /** servo_boot_sweep: slow, fast and medium passes up and down, then retract. */
    method BootSweep()
      modifies this
      ensures !open && cmdUs == Clamp(minUs, maxUs, minUs) && duty == UsToDuty(cmdUs)
      ensures minUs == old(minUs) && maxUs == old(maxUs)
    {
      SweepUp(10);
      SweepDown(10);
      SweepUp(20);
      SweepDown(20);
      SweepUp(10);
      SweepDown(10);
      Close();
    }

    /** servoInit: center, then the boot sweep, which leaves the brake closed at the lower endpoint. */
    method Init()
      modifies this
      ensures !open && cmdUs == Clamp(minUs, maxUs, minUs) && duty == UsToDuty(cmdUs)
      ensures minUs == old(minUs) && maxUs == old(maxUs)
    {
      Center();
      BootSweep();
    }
  }

  /**
   * The decision of task_servo_ctrl, computed as the task does: a first
   * test that may set `should_open`, then a second that may clear it.
   */
  function ShouldOpen(rec: Telemetry.Record): (open: bool)
    ensures open <==>
      rec.sys.fcState == FcCore.FC_WINDOW
      && rec.sys.sensImu1Ok != 0 && rec.sys.sensBmp1Ok != 0 && rec.sys.sensImu2Ok != 0
      && rec.fused.aglReady != 0
      && rec.sys.tiltLatch == 0
      && Lt(rec.fused.machCons, 0.5)
      && !Le(rec.sys.fcTToApogeeS, 1.0)
  {
    var sys := rec.sys;
    var fu := rec.fused;
    var healthOk := sys.sensImu1Ok != 0 && sys.sensBmp1Ok != 0 && sys.sensImu2Ok != 0 && fu.aglReady != 0;
    var tiltOk := sys.tiltLatch == 0;
    var machOk := fu.machCons.Num? && fu.machCons.v < 0.5;
    var inWindow := sys.fcState == FcCore.FC_WINDOW;
    var postBurn := sys.fcState != FcCore.FC_BOOST;
    var abortOrLock := sys.fcState == FcCore.FC_ABORT_LOCKOUT || sys.fcState == FcCore.FC_LOCKED;
    var nearApogee := sys.fcTToApogeeS.Num? && sys.fcTToApogeeS.v <= 1.0;
    var first := !abortOrLock && healthOk && tiltOk && machOk && postBurn && inWindow;
    if abortOrLock || !healthOk || !tiltOk || nearApogee then false else first
  }

  /** The brake is commanded open only in WINDOW: never in DEPLOYED, and never after an abort or lock. */
  lemma OpensOnlyInWindow(rec: Telemetry.Record)
    requires rec.sys.fcState != FcCore.FC_WINDOW
    ensures !ShouldOpen(rec)
  {
  }

  /** Whether the control task's watchdog sees stalled telemetry: a zero or repeated header stamp. */
  predicate Stalled(lastStamp: u32, rec: Telemetry.Record)
    ensures rec.hdr.timestampMs == 0 ==> Stalled(lastStamp, rec)
    ensures !Stalled(lastStamp, rec) ==> rec.hdr.timestampMs !in {0, lastStamp}
  {
    rec.hdr.timestampMs == 0 || rec.hdr.timestampMs == lastStamp
  }

  /** A record the watchdog has accepted once is stalled when seen again:
      the task closes the brake until the stamp moves on. */
  lemma RepeatStalls(lastStamp: u32, rec: Telemetry.Record)
    requires !Stalled(lastStamp, rec)
    ensures Stalled(rec.hdr.timestampMs, rec)
    ensures forall s: u32 :: s != rec.hdr.timestampMs ==> !Stalled(s, rec)
  {
  }

  /** task_servo_ctrl: its remembered stamp, and the servo it drives. */
  class ServoCtrl {
    var lastStamp: u32
    const servo: Servo

    constructor (servo: Servo)
      ensures lastStamp == 0 && this.servo == servo
    {
      lastStamp := 0;
      this.servo := servo;
    }

    /**
     * One pass of the task loop: stalled telemetry closes the brake;
     * otherwise the brake ends in the decided position, and is written only
     * when that differs from where it was.
     */
    method Iterate(rec: Telemetry.Record)
      modifies this, servo
      ensures Stalled(old(lastStamp), rec) ==>
        lastStamp == old(lastStamp) && !servo.open
        && servo.cmdUs == Clamp(servo.minUs, servo.maxUs, servo.minUs) && servo.duty == UsToDuty(servo.cmdUs)
      ensures !Stalled(old(lastStamp), rec) ==> lastStamp == rec.hdr.timestampMs && servo.open == ShouldOpen(rec)
      ensures !Stalled(old(lastStamp), rec) && ShouldOpen(rec) == old(servo.open) ==>
        servo.cmdUs == old(servo.cmdUs) && servo.duty == old(servo.duty)
      ensures !Stalled(old(lastStamp), rec) && ShouldOpen(rec) != old(servo.open) ==>
        servo.cmdUs == (if ShouldOpen(rec) then servo.maxUs else Clamp(servo.minUs, servo.maxUs, servo.minUs))
        && servo.duty == UsToDuty(servo.cmdUs)
      ensures servo.minUs == old(servo.minUs) && servo.maxUs == old(servo.maxUs)
    {
      if rec.hdr.timestampMs == 0 || rec.hdr.timestampMs == lastStamp {
        servo.Close();
        return;
      }
      lastStamp := rec.hdr.timestampMs;
      var shouldOpen := ShouldOpen(rec);
      if shouldOpen != servo.open {
        if shouldOpen { servo.Open(); } else { servo.Close(); }
      }
    }
  }
}
