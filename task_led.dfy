/**
 * The status LED task (firmware/src/task_led.cpp): each pass reads the
 * flight-computer status and the latest telemetry record, toggles the blink
 * phase, chooses the NeoPixel colour for the current mode and drives the
 * blue heartbeat LED. The LED hardware is the pair of fields `pixel` and
 * `blue`; the clock is the parameter `now`.
 */
module TaskLed {
  import opened Common
  import FcCore
  import FcService
  import Telemetry

  const LED_MODE_STATUS: u8 := 0
  const LED_MODE_SENSORS: u8 := 1
  const LED_MODE_TILT: u8 := 2

  /** LED_PERIOD_MS of tasks_config.h: the task's loop period. */
  const LED_PERIOD_MS: u32 := 15
  const BLINK_PERIOD_MS: u32 := 400
  const SLOT_MS: nat := 700

  const BLACK: u32 := 0x000000
  const RED: u32 := 0xFF0000
  const ORANGE: u32 := 0xFFA500
  const YELLOW: u32 := 0xFFFF00
  const GREEN: u32 := 0x00FF00
  const CYAN: u32 := 0x00FFFF
  const MAGENTA: u32 := 0xFF00FF

  // ---------------------------------------------------------------------
  // Health and blink
  // ---------------------------------------------------------------------

  datatype Health = Health(sensorsOk: bool, fault: bool)

  /** `sensors_ok` and `fault` from the status flags, when a status was obtained. */
  function HealthOf(haveFc: bool, flags: u32): Health
  {
    var ok := haveFc && FcCore.Bit(flags, FcCore.FCF_SENS_IMU1_OK) && FcCore.Bit(flags, FcCore.FCF_SENS_BMP1_OK);
    Health(ok, haveFc && !ok)
  }

  /**
   * For the flag word the flight computer publishes, the sensors are healthy
   * exactly when IMU1 and BMP1 are; IMU2 is never consulted, and every
   * unhealthy status is a fault.
   */
  lemma HealthFromFlags(f: FcCore.FcFlags)
    ensures HealthOf(true, FcCore.FlagWord(f)).sensorsOk <==> f.imu1Ok && f.bmp1Ok
    ensures HealthOf(true, FcCore.FlagWord(f)).fault <==> !(f.imu1Ok && f.bmp1Ok)
    ensures HealthOf(true, FcCore.FlagWord(f)) == HealthOf(true, FcCore.FlagWord(f.(imu2Ok := !f.imu2Ok)))
  {
    var g := f.(imu2Ok := !f.imu2Ok);
    FcCore.FlagWordBits(f, FcCore.FCF_SENS_IMU1_OK);
    FcCore.FlagWordBits(f, FcCore.FCF_SENS_BMP1_OK);
    FcCore.FlagWordBits(g, FcCore.FCF_SENS_IMU1_OK);
    FcCore.FlagWordBits(g, FcCore.FCF_SENS_BMP1_OK);
  }

  /** The blink phase and the time of its last toggle after a pass at `now`. */
  function BlinkStep(on: bool, last: u32, now: u32): (r: (bool, u32))
  {
    if Sub32(now, last) >= BLINK_PERIOD_MS then (!on, now) else (on, last)
  }

  /**
   * The blink toggles exactly when 400 ms (in wrapping uint32 time) have
   * passed since the last toggle, and a toggle restarts the period: a second
   * pass at the same instant leaves the phase alone.
   */
  lemma BlinkPeriod(on: bool, last: u32, now: u32)
    ensures BlinkStep(on, last, now).0 != on <==> Sub32(now, last) >= BLINK_PERIOD_MS
    ensures BlinkStep(on, last, now).0 == on ==> BlinkStep(on, last, now).1 == last
    ensures var r := BlinkStep(on, last, now); BlinkStep(r.0, r.1, now) == r
  {
  }

  // ---------------------------------------------------------------------
  // Colours
  // ---------------------------------------------------------------------

  /** `(uint32_t)R << 16 | (uint32_t)G << 8 | B`. */
  function Pack(r: u8, g: u8, b: u8): (c: u32)
    ensures c < 0x100_0000
    ensures c / 0x1_0000 == r && c / 0x100 % 0x100 == g && c % 0x100 == b
  {
    var c := b + 0x100 * (g + 0x100 * r);
    Digit(b, g + 0x100 * r);
    Digit(g, r);
    ShiftTwice(c);
    c
  }

  /** STATUS mode: blinking yellow on a fault, else green or orange by AGL readiness, red only without a status. */
  function StatusColor(h: Health, aglReady: bool, blinkOn: bool): u32
  {
    if h.fault then (if blinkOn then YELLOW else BLACK)
    else if h.sensorsOk && !aglReady then ORANGE
    else if h.sensorsOk && aglReady then GREEN
    else RED
  }

  /** The STATUS colour's precedence, and red exactly when no status was obtained. */
  lemma StatusPrecedence(haveFc: bool, flags: u32, aglReady: bool, blinkOn: bool)
    ensures var h := HealthOf(haveFc, flags); var c := StatusColor(h, aglReady, blinkOn);
      && (h.fault ==> c in {YELLOW, BLACK} && (c == YELLOW <==> blinkOn))
      && (c == GREEN <==> haveFc && h.sensorsOk && aglReady)
      && (c == ORANGE <==> haveFc && h.sensorsOk && !aglReady)
      && (c == RED <==> !haveFc)
  {
  }

  /** The sensor slot, cycling BMP1, IMU1, IMU2 every 700 ms of accumulated phase. */
  function Slot(phase: nat): (s: nat)
    ensures s < 3
  {
    (phase / SLOT_MS) % 3
  }

  lemma DivBy700(x: nat, q: nat, r: nat)
    requires x == 700 * q + r && r < 700
    ensures x / 700 == q
  {
  }

  /** Each slot lasts 700 ms of phase, and then the next slot follows. */
  lemma SlotCycle(phase: nat, d: nat)
    ensures phase % SLOT_MS + d < SLOT_MS ==> Slot(phase + d) == Slot(phase)
    ensures Slot(phase + SLOT_MS) == (Slot(phase) + 1) % 3
  {
    var q, r := phase / 700, phase % 700;
    DivBy700(phase, q, r);
    DivBy700(phase + SLOT_MS, q + 1, r);
    if r + d < SLOT_MS {
      DivBy700(phase + d, q, r + d);
    }
  }

  /** SENSORS mode: the slot's colour, solid when its sensor is healthy and blinking otherwise. */
  function SensorColor(slot: nat, ff: u32, blinkOn: bool): (c: u32)
    requires slot < 3
  {
    var base := if slot == 0 then GREEN else if slot == 1 then CYAN else MAGENTA;
    var bit := if slot == 0 then FcCore.FCF_SENS_BMP1_OK else if slot == 1 then FcCore.FCF_SENS_IMU1_OK
      else FcCore.FCF_SENS_IMU2_OK;
    if FcCore.Bit(ff, bit) then base else if blinkOn then base else BLACK
  }

  /** The slot colours are distinct; the LED goes dark only for an unhealthy sensor in the off phase. */
  lemma SensorColorShows(f: FcCore.FcFlags, slot: nat, blinkOn: bool)
    requires slot < 3
    ensures slot == 0 ==> SensorColor(slot, FcCore.FlagWord(f), blinkOn) == if !f.bmp1Ok && !blinkOn then BLACK else GREEN
    ensures slot == 1 ==> SensorColor(slot, FcCore.FlagWord(f), blinkOn) == if !f.imu1Ok && !blinkOn then BLACK else CYAN
    ensures slot == 2 ==> SensorColor(slot, FcCore.FlagWord(f), blinkOn) == if !f.imu2Ok && !blinkOn then BLACK else MAGENTA
  {
    var w := FcCore.FlagWord(f);
    if slot == 0 {
      FcCore.FlagWordBits(f, FcCore.FCF_SENS_BMP1_OK);
      assert FcCore.Bit(w, FcCore.FCF_SENS_BMP1_OK) == f.bmp1Ok;
    } else if slot == 1 {
      FcCore.FlagWordBits(f, FcCore.FCF_SENS_IMU1_OK);
      assert FcCore.Bit(w, FcCore.FCF_SENS_IMU1_OK) == f.imu1Ok;
    } else {
      FcCore.FlagWordBits(f, FcCore.FCF_SENS_IMU2_OK);
      assert FcCore.Bit(w, FcCore.FCF_SENS_IMU2_OK) == f.imu2Ok;
    }
  }

  // ---------------------------------------------------------------------
  // HSV (TILT mode)
  // ---------------------------------------------------------------------

  /** The hue brought into [0, 360) by whole turns. */
  function Wrap360(h: real): (r: real)
    ensures 0.0 <= r < 360.0
  {
    h - 360.0 * ((h / 360.0).Floor as real)
  }

  /** Whole turns of 360 degrees are the only freedom: a hue in [0, 360) that differs by turns is `Wrap360`. */
  lemma WrapUnique(h: real, r: real, k: int)
    requires 0.0 <= r < 360.0 && r == h + 360.0 * (k as real)
    ensures r == Wrap360(h)
  {
    var q := h / 360.0;
    assert q == r / 360.0 - k as real;
    assert -k as real <= q < -k as real + 1.0;
    assert q.Floor == -k;
  }

  /** `colorFromHSV`'s two `while` loops. */
  method NormaliseHue(h0: real) returns (h: real)
    ensures h == Wrap360(h0)
  {
    h := h0;
    ghost var k: int := 0;
    while h < 0.0
      invariant h == h0 + 360.0 * (k as real)
      invariant h0 >= 0.0 ==> h == h0
      decreases (-h).Floor
    {
      h := h + 360.0;
      k := k + 1;
    }
    while h >= 360.0
      invariant 0.0 <= h
      invariant h == h0 + 360.0 * (k as real)
      decreases h.Floor
    {
      h := h - 360.0;
      k := k - 1;
    }
    WrapUnique(h0, h, k);
  }

  /** `fmodf(y, 2)` for y >= 0. */
  function FMod2(y: real): (r: real)
    requires y >= 0.0
    ensures 0.0 <= r < 2.0
  {
    y - 2.0 * ((y / 2.0).Floor as real)
  }

  /** The (r, g, b) before adding `m`, by 60-degree sector of the hue. */
  function Sector(h: real, c: real, x: real): (real, real, real)
  {
    if h < 60.0 then (c, x, 0.0)
    else if h < 120.0 then (x, c, 0.0)
    else if h < 180.0 then (0.0, c, x)
    else if h < 240.0 then (0.0, x, c)
    else if h < 300.0 then (x, 0.0, c)
    else (c, 0.0, x)
  }

  /**
   * `(uint8_t)f`: truncation toward zero when the result fits; C leaves the
   * conversion of NaN or of an out-of-range value undefined, and the model
   * leaves it to the parameter `undef`.
   */
  function ToByte(x: Flt, undef: Flt -> u8): u8
  {
    if x.Num? && -1.0 < x.v < 256.0 then (if x.v < 0.0 then 0 else x.v.Floor) else undef(x)
  }

  /** A channel level (0 to 1) scaled to 255 and converted by `(uint8_t)`. */
  function Channel(y: Flt, undef: Flt -> u8): u8
  {
    ToByte(FScale(255.0, y), undef)
  }

  /** The channel levels r + m, g + m, b + m. */
  datatype Levels = Levels(r: Flt, g: Flt, b: Flt)

  /** The levels for a hue already in [0, 360), chroma `c` and offset `m`. */
  function SectorLevels(hh: real, c: real, m: real): Levels
    requires 0.0 <= hh < 360.0
  {
    var x := c * (1.0 - Abs(FMod2(hh / 60.0) - 1.0));
    var t := Sector(hh, c, x);
    Levels(Num(t.0 + m), Num(t.1 + m), Num(t.2 + m))
  }

  /** The levels `colorFromHSV` computes; for a NaN hue every sector test fails and the last sector's x is NaN. */
  function HsvLevels(h: Flt, s: real, v: real): Levels
  {
    var c := v * s;
    var m := v - c;
    if h.NaN? then Levels(Num(c + m), Num(m), NaN) else SectorLevels(Wrap360(h.v), c, m)
  }

  /** `colorFromHSV(h, s, v)`. */
  function HsvColor(h: Flt, s: real, v: real, undef: Flt -> u8): u32
  {
    var l := HsvLevels(h, s, v);
    Pack(Channel(l.r, undef), Channel(l.g, undef), Channel(l.b, undef))
  }

  lemma ProductBounds(a: real, b: real)
    requires 0.0 <= a && 0.0 <= b <= 1.0
    ensures 0.0 <= a * b <= a
  {
  }

  /** With chroma and offset non-negative and summing to at most 1, every level lies in [0, 1]. */
  lemma SectorLevelsInUnit(hh: real, c: real, m: real)
    requires 0.0 <= hh < 360.0 && 0.0 <= c && 0.0 <= m && c + m <= 1.0
    ensures var l := SectorLevels(hh, c, m);
      && l.r.Num? && 0.0 <= l.r.v <= 1.0 && l.g.Num? && 0.0 <= l.g.v <= 1.0 && l.b.Num? && 0.0 <= l.b.v <= 1.0
  {
    var w := 1.0 - Abs(FMod2(hh / 60.0) - 1.0);
    ProductBounds(c, w);
    SectorBounds(hh, c, c * w);
  }

  /** Every component of a sector triple is 0, `x` or `c`, so within [0, c] when `x` is. */
  lemma SectorBounds(h: real, c: real, x: real)
    requires 0.0 <= x <= c
    ensures var t := Sector(h, c, x); 0.0 <= t.0 <= c && 0.0 <= t.1 <= c && 0.0 <= t.2 <= c
  {
  }

  /** A level in [0, 1] converts without undefined behaviour. */
  lemma ChannelDefined(y: Flt, u1: Flt -> u8, u2: Flt -> u8)
    requires y.Num? && 0.0 <= y.v <= 1.0
    ensures Channel(y, u1) == Channel(y, u2)
  {
  }

  /**
   * For a numeric hue and saturation and value in [0, 1], every channel is
   * 255 times a level in [0, 1]: no conversion is undefined, so the colour
   * does not depend on `undef`.
   */
  lemma HsvDefined(h: real, s: real, v: real, u1: Flt -> u8, u2: Flt -> u8)
    requires 0.0 <= s <= 1.0 && 0.0 <= v <= 1.0
    ensures HsvColor(Num(h), s, v, u1) == HsvColor(Num(h), s, v, u2)
  {
    ProductBounds(v, s);
    var c := v * s;
    SectorLevelsInUnit(Wrap360(h), c, v - c);
    var l := HsvLevels(Num(h), s, v);
    ChannelDefined(l.r, u1, u2);
    ChannelDefined(l.g, u1, u2);
    ChannelDefined(l.b, u1, u2);
  }

  /** The `colorFromHSV` routine: the hue loops, then the sector levels and the packing. */
  method ColorFromHsv(h: Flt, s: real, v: real, undef: Flt -> u8) returns (color: u32)
    ensures color == HsvColor(h, s, v, undef)
    ensures color < 0x100_0000
  {
    var c := v * s;
    var m := v - c;
    var l: Levels;
    if h.NaN? {
      l := Levels(Num(c + m), Num(m), NaN);
    } else {
      var hh := NormaliseHue(h.v);
      l := SectorLevels(hh, c, m);
    }
    assert l == HsvLevels(h, s, v);
    color := Pack(Channel(l.r, undef), Channel(l.g, undef), Channel(l.b, undef));
  }

  /** `fminf(1.0f, tilt / 30.0f)`: brightness saturating at 30 degrees; a NaN tilt gives full brightness. */
  function TiltBrightness(tiltDeg: Flt): (v: real)
    ensures v <= 1.0
    ensures tiltDeg.NaN? ==> v == 1.0
    ensures tiltDeg.Num? && tiltDeg.v >= 0.0 ==> 0.0 <= v
  {
    FMinf(Num(1.0), FDiv(tiltDeg, Num(30.0))).v
  }

  /** TILT mode: hue from the tilt azimuth, brightness from the tilt, dark in the off phase of a fault. */
  function TiltColor(fu: Telemetry.FusedSection, h: Health, blinkOn: bool, undef: Flt -> u8): u32
  {
    var v := TiltBrightness(fu.tiltDeg);
    var s := if h.sensorsOk then 1.0 else 0.2;
    if h.fault && !blinkOn then BLACK else HsvColor(fu.tiltAzDeg360, s, v, undef)
  }

  /** With a numeric azimuth and a tilt that is NaN or non-negative, the TILT colour is fully defined. */
  lemma TiltColorDefined(fu: Telemetry.FusedSection, h: Health, blinkOn: bool, u1: Flt -> u8, u2: Flt -> u8)
    requires fu.tiltAzDeg360.Num? && (fu.tiltDeg.NaN? || fu.tiltDeg.v >= 0.0)
    ensures TiltColor(fu, h, blinkOn, u1) == TiltColor(fu, h, blinkOn, u2)
  {
    var v := TiltBrightness(fu.tiltDeg);
    var s := if h.sensorsOk then 1.0 else 0.2;
    HsvDefined(fu.tiltAzDeg360.v, s, v, u1, u2);
  }

  /** The NeoPixel colour of a pass; an unknown mode keeps the default red. */
  function PixelColor(mode: u8, h: Health, aglReady: bool, blinkOn: bool, phase: u32, ff: u32,
                      fu: Telemetry.FusedSection, undef: Flt -> u8): u32
  {
    if mode == LED_MODE_STATUS then StatusColor(h, aglReady, blinkOn)
    else if mode == LED_MODE_SENSORS then SensorColor(Slot(phase), ff, blinkOn)
    else if mode == LED_MODE_TILT then TiltColor(fu, h, blinkOn, undef)
    else RED
  }

  /** Every colour the task writes is a 24-bit RGB word. */
  lemma PixelIs24Bit(mode: u8, h: Health, aglReady: bool, blinkOn: bool, phase: u32, ff: u32,
                     fu: Telemetry.FusedSection, undef: Flt -> u8)
    ensures PixelColor(mode, h, aglReady, blinkOn, phase, ff, fu, undef) < 0x100_0000
  {
  }

  // ---------------------------------------------------------------------
  // Blue heartbeat
  // ---------------------------------------------------------------------

  function BlueOn(h: Health, aglReady: bool, now: nat): bool
  {
    if h.fault then now % 250 < 100
    else if !h.sensorsOk then now % 2000 < 80
    else if !aglReady then now % 1000 < 100
    else var t := now % 2000; t < 60 || (300 <= t < 360)
  }

  /** The heartbeat's period: 250 ms on a fault, 1 s while waiting for AGL, 2 s otherwise. */
  function Period(h: Health, aglReady: bool): nat
  {
    if h.fault then 250 else if h.sensorsOk && !aglReady then 1000 else 2000
  }

  /** The time on per period: 100 ms fast blink, 80 ms blip, 100 ms blip, or two 60 ms blips. */
  function OnMs(h: Health, aglReady: bool): nat
  {
    if h.fault then 100 else if !h.sensorsOk then 80 else if !aglReady then 100 else 120
  }

  /** The number of milliseconds in [lo, hi) at which the blue LED is on. */
  function OnCount(h: Health, aglReady: bool, lo: nat, hi: nat): nat
    decreases hi - lo
  {
    if lo >= hi then 0 else (if BlueOn(h, aglReady, lo) then 1 else 0) + OnCount(h, aglReady, lo + 1, hi)
  }

  lemma {:induction false} OnCountSplit(h: Health, a: bool, lo: nat, mid: nat, hi: nat)
    requires lo <= mid <= hi
    ensures OnCount(h, a, lo, hi) == OnCount(h, a, lo, mid) + OnCount(h, a, mid, hi)
    decreases mid - lo
  {
    if lo < mid {
      OnCountSplit(h, a, lo + 1, mid, hi);
    }
  }

  lemma {:induction false} OnCountConst(h: Health, a: bool, lo: nat, hi: nat, on: bool)
    requires lo <= hi
    requires forall t :: lo <= t < hi ==> BlueOn(h, a, t) == on
    ensures OnCount(h, a, lo, hi) == if on then hi - lo else 0
    decreases hi - lo
  {
    if lo < hi {
      OnCountConst(h, a, lo + 1, hi, on);
    }
  }

  /** A window whose first `mid - lo` milliseconds are on and the rest off. */
  lemma OnWindow(h: Health, a: bool, lo: nat, mid: nat, hi: nat)
    requires lo <= mid <= hi
    requires forall t :: lo <= t < hi ==> BlueOn(h, a, t) == (t < mid)
    ensures OnCount(h, a, lo, hi) == mid - lo
  {
    OnCountSplit(h, a, lo, mid, hi);
    OnCountConst(h, a, lo, mid, true);
    OnCountConst(h, a, mid, hi, false);
  }

  /** The pattern repeats with its period. */
  lemma HeartbeatPeriodic(h: Health, aglReady: bool, now: nat)
    ensures BlueOn(h, aglReady, now + Period(h, aglReady)) == BlueOn(h, aglReady, now)
  {
    if h.fault {
      assert (now + 250) % 250 == now % 250;
    } else if h.sensorsOk && !aglReady {
      assert (now + 1000) % 1000 == now % 1000;
    } else {
      assert (now + 2000) % 2000 == now % 2000;
    }
  }

  lemma DutyFault(h: Health, a: bool)
    requires h.fault
    ensures OnCount(h, a, 0, 250) == 100
  {
    forall t | 0 <= t < 250 ensures BlueOn(h, a, t) == (t < 100) {
      assert t % 250 == t;
    }
    OnWindow(h, a, 0, 100, 250);
  }

  lemma DutyNoSensors(h: Health, a: bool)
    requires !h.fault && !h.sensorsOk
    ensures OnCount(h, a, 0, 2000) == 80
  {
    forall t | 0 <= t < 2000 ensures BlueOn(h, a, t) == (t < 80) {
      assert t % 2000 == t;
    }
    OnWindow(h, a, 0, 80, 2000);
  }

  lemma DutyWaiting(h: Health, a: bool)
    requires !h.fault && h.sensorsOk && !a
    ensures OnCount(h, a, 0, 1000) == 100
  {
    forall t | 0 <= t < 1000 ensures BlueOn(h, a, t) == (t < 100) {
      assert t % 1000 == t;
    }
    OnWindow(h, a, 0, 100, 1000);
  }

  /** The first blip of the ready pattern and the gap after it. */
  lemma DutyReadyFirst(h: Health, a: bool)
    requires !h.fault && h.sensorsOk && a
    ensures OnCount(h, a, 0, 300) == 60
  {
    forall t | 0 <= t < 300 ensures BlueOn(h, a, t) == (t < 60) {
      assert t % 2000 == t;
    }
    OnWindow(h, a, 0, 60, 300);
  }

  /** The second blip and the rest of the period. */
  lemma DutyReadySecond(h: Health, a: bool)
    requires !h.fault && h.sensorsOk && a
    ensures OnCount(h, a, 300, 2000) == 60
  {
    forall t | 300 <= t < 2000 ensures BlueOn(h, a, t) == (t < 360) {
      assert t % 2000 == t;
    }
    OnWindow(h, a, 300, 360, 2000);
  }

  lemma DutyReady(h: Health, a: bool)
    requires !h.fault && h.sensorsOk && a
    ensures OnCount(h, a, 0, 2000) == 120
  {
    OnCountSplit(h, a, 0, 300, 2000);
    DutyReadyFirst(h, a);
    DutyReadySecond(h, a);
  }

  /** The duty cycle: over one period from 0 the LED is on for exactly `OnMs` milliseconds. */
  lemma HeartbeatDuty(h: Health, aglReady: bool)
    ensures OnCount(h, aglReady, 0, Period(h, aglReady)) == OnMs(h, aglReady)
  {
    if h.fault {
      DutyFault(h, aglReady);
    } else if !h.sensorsOk {
      DutyNoSensors(h, aglReady);
    } else if !aglReady {
      DutyWaiting(h, aglReady);
    } else {
      DutyReady(h, aglReady);
    }
  }

  // ---------------------------------------------------------------------
  // The task
  // ---------------------------------------------------------------------

  class LedTask {
    /** `s_led_mode`. */
    var mode: u8
    var blinkOn: bool
    var lastBlinkMs: u32
    var phaseMs: u32
    /** The colour last sent to the NeoPixel, and the blue LED level. */
    var pixel: u32
    var blue: bool

    /** Start of the task: solid red, blink off, phase zero, the default STATUS mode. */
    constructor()
      ensures mode == LED_MODE_STATUS && !blinkOn && lastBlinkMs == 0 && phaseMs == 0
      ensures pixel == RED && !blue
    {
      mode := LED_MODE_STATUS;
      blinkOn := false;
      lastBlinkMs := 0;
      phaseMs := 0;
      pixel := RED;
      blue := false;
    }

    /** `ledSetMode`. */
    method SetMode(m: u8)
      modifies this
      ensures mode == m
      ensures blinkOn == old(blinkOn) && lastBlinkMs == old(lastBlinkMs) && phaseMs == old(phaseMs)
      ensures pixel == old(pixel) && blue == old(blue)
    {
      mode := m;
    }

    /** The colour branch of a pass, for the mode, the health and the blink phase. */
    static method PassColor(mode: u8, h: Health, aglReady: bool, blinkOn: bool, phase: u32, ff: u32,
                            fu: Telemetry.FusedSection, undef: Flt -> u8) returns (color: u32)
      ensures color == PixelColor(mode, h, aglReady, blinkOn, phase, ff, fu, undef)
      ensures color < 0x100_0000
    {
      color := RED;
      if mode == LED_MODE_STATUS {
        color := StatusColor(h, aglReady, blinkOn);
      } else if mode == LED_MODE_SENSORS {
        color := SensorColor(Slot(phase), ff, blinkOn);
      } else if mode == LED_MODE_TILT {
        var v := TiltBrightness(fu.tiltDeg);
        var s := if h.sensorsOk then 1.0 else 0.2;
        color := ColorFromHsv(fu.tiltAzDeg360, s, v, undef);
        if h.fault && !blinkOn {
          color := BLACK;
        }
      }
      PixelIs24Bit(mode, h, aglReady, blinkOn, phase, ff, fu, undef);
    }

    /**
     * One pass of the loop. The status always arrives (`fcGetStatus` never
     * fails), so STATUS mode never shows red after the start.
     */
    method Iterate(fc: FcService.FcTask, agg: Telemetry.Aggregator, now: u32, undef: Flt -> u8)
      modifies this
      ensures mode == old(mode)
      ensures (blinkOn, lastBlinkMs) == BlinkStep(old(blinkOn), old(lastBlinkMs), now)
      ensures phaseMs == if mode == LED_MODE_SENSORS then Add32(old(phaseMs), LED_PERIOD_MS) else old(phaseMs)
      ensures var h := HealthOf(true, fc.status.flags); var aglReady := agg.latest.fused.aglReady != 0;
        && pixel == PixelColor(mode, h, aglReady, blinkOn, phaseMs, fc.status.flags, agg.latest.fused, undef)
        && blue == BlueOn(h, aglReady, now)
      ensures mode == LED_MODE_STATUS ==> pixel != RED
      ensures pixel < 0x100_0000
    {
      var haveFc, st := fc.GetStatus();
      var _, rec := agg.GetLatest();
      var h := HealthOf(haveFc, st.flags);
      var aglReady := rec.fused.aglReady != 0;
      if Sub32(now, lastBlinkMs) >= BLINK_PERIOD_MS {
        blinkOn := !blinkOn;
        lastBlinkMs := now;
      }
      if mode == LED_MODE_SENSORS {
        phaseMs := Add32(phaseMs, LED_PERIOD_MS);
      }
      var ff: u32 := 0;
      if haveFc {
        ff := st.flags;
      }
      pixel := PassColor(mode, h, aglReady, blinkOn, phaseMs, ff, rec.fused, undef);
      if mode == LED_MODE_STATUS {
        StatusPrecedence(haveFc, st.flags, aglReady, blinkOn);
      }
      blue := BlueOn(h, aglReady, now);
    }
  }
}
