# Airbrake flight computer — a Dafny model

This project models the decision logic of the srad-flight-computer firmware. The firmware runs on an ESP32 under FreeRTOS and controls a rocket's airbrake. The model also covers the two ground-station dashboards that plot the firmware's serial telemetry. Each core source file becomes one Dafny module:

| module | file | what it holds |
|---|---|---|
| `Common` | `common.dfy` | uint8/16/32 with C wrap-around made explicit, a float as "a real or NaN" (`Flt`), the libm calls as an uninterpreted `Libm` record |
| `FcCore` | `fc_core.dfy` | `fc_init`/`fc_step`: sensor debounce, tilt latch, Mach gate, baro agreement, the flag word, liftoff/burnout latches, the flight-phase state machine; the four function-local statics hoisted into `CoreStatics` |
| `FcService` | `fc_service.dfy` | the `fc_task` loop (uint32 dt clamp, inputs from the telemetry record, the published `FcStatus`), `fcGetStatus`, `fcSoftReset` |
| `Fusion` | `fusion.dfy` | one pass of `fusion_task`: arming deadline and baselines, fused AGL, the EMA derivative and the leaky integrator, the vz blend, speed-of-sound references, Mach proxy, apogee prediction, tilt azimuth and its unwrap, the reset branch |
| `Readings` | `readings.dfy` | the BMP390, IMU1 and IMU2 snapshots the sensor tasks publish |
| `Crc32` | `crc32.dfy` | `crc32_update`, the reflected CRC-32 of IEEE 802.3 section 3.2.9 |
| `Telemetry` | `telemetry.dfy` | `telemetry_build`, the packed record layout with its optional CRC, and the aggregator's sequence counter |
| `ActuatorServo` | `actuator_servo.dfy` | `us_to_duty`, endpoint clamping, open/close/centre, the boot sweep and the decision rule of `task_servo_ctrl` |
| `Monitor` | `task_monitor.dfy` | the console line assembler with its 96-byte buffer, `!cmd:` dispatch, `state_name`, the lockout field and NaN printing |
| `SensorImu1` | `sensor_imu1.dfy` | the presence probe, the data-ready dispatch, the held baro sample, `imu1Get` |
| `Usfsmax` | `usfsmax.dfy` | the USFSMAX register decoders that write the driver's global sample arrays, and the start command byte |
| `TaskLed` | `task_led.dfy` | the LED task: colour precedence, blink timing, sensor-slot cycling, the blue heartbeat, `colorFromHSV` and RGB packing |
| `GroundLine` | `ground_line.dfy` | what both dashboards share: `key:value` tokenising, the last-wins scan, bounded deques, flag and lockout derivation, elapsed time |
| `GroundText` | `ground_text.dfy` | `clamp` and `fmt_time` |
| `VisualizerQt` | `visualizer_qt.dfy` | the Qt dashboard's `_handle_line`, `_clear_data`, `_add_marker`, `_update_event_markers` |
| `VisualizerMpl` | `visualizer_mpl.dfy` | the matplotlib dashboard's per-line reader, the bar gauge and the text cache |

Functions over value types state what each step does, and lemmas prove the properties the firmware relies on. Code that changes state in place becomes a class whose fields are the source's statics or struct members. Each of its methods is proved to produce the state the specification function gives. Examples are `FcCoreCtx.Step` against `CoreStep`, `FusionTask.Tick` against `FusionTick` and `Dashboard.HandleLine` against `Handle`.

Floats are exact reals plus NaN. Times in milliseconds are uint32 with explicit wrap-around. Thresholds are the flight values of `fc_config.h`, and `FcCore.DESK_CONFIG` holds the bench overrides of the flight-computer thresholds (`FC_*`) in `desk_mode.h`; its other overrides are listed under "Left out".

## Model

| member | source | states |
|---|---|---|
| ActuatorServo.UsToDuty | firmware/src/actuator_servo.cpp:27-35 | the duty is ⌊us·65535/20000⌋ capped at 65535: never above full scale, d·20000 ≤ us·65535, and below the cap us·65535 < (d+1)·20000 |
| ActuatorServo.DutyMonotone | firmware/src/actuator_servo.cpp:27-35 | a wider pulse never gives a smaller duty; the default endpoints 1000 µs and 1400 µs give 3276 and 4587 counts |
| ActuatorServo.Clamp | firmware/src/actuator_servo.cpp:39-40 | the command lands in [min, max] and is left alone inside it; with crossed endpoints (min > max) it is always max |
| ActuatorServo.Midpoint | firmware/src/actuator_servo.cpp:48 | the centre command is ⌊(min+max)/2⌋ and lies between ordered endpoints |
| ActuatorServo.Servo.constructor | firmware/src/actuator_servo.cpp:21-24 | the statics start at the default endpoints, command 1200 µs, closed |
| ActuatorServo.Servo.WriteUS | firmware/src/actuator_servo.cpp:37-44 | the stored command is the clamped pulse and the written duty is its us_to_duty; endpoints and open flag unchanged |
| ActuatorServo.Servo.Open | firmware/src/actuator_servo.cpp:46 | open is set and the command is the upper endpoint |
| ActuatorServo.Servo.Close | firmware/src/actuator_servo.cpp:47 | open is cleared and the command is the lower endpoint (the upper one when the endpoints are crossed) |
| ActuatorServo.Servo.Center | firmware/src/actuator_servo.cpp:48 | the command is the midpoint of the endpoints; open is untouched |
| ActuatorServo.Servo.SetRange | firmware/src/actuator_servo.cpp:104 | the bench `range:` command stores both values truncated to uint16 and then closes |
| ActuatorServo.Servo.SweepUp | firmware/src/actuator_servo.cpp:60-66 | a rising pass ends on a command within one step below the upper endpoint; crossed endpoints write nothing |
| ActuatorServo.Servo.SweepDown | firmware/src/actuator_servo.cpp:61-67 | a falling pass ends on a command within one step above the lower endpoint; crossed endpoints write nothing |
| ActuatorServo.Servo.BootSweep | firmware/src/actuator_servo.cpp:56-71 | after the six passes the brake is closed at the lower endpoint, and the endpoints are unchanged |
| ActuatorServo.Servo.Init | firmware/src/actuator_servo.cpp:73-80 | servoInit leaves the brake closed at the lower endpoint |
| ActuatorServo.ShouldOpen | firmware/src/actuator_servo.cpp:135-148 | should_open holds iff the state is WINDOW, all three sensors are ok, AGL is ready, tilt is not latched, mach_cons is a number below 0.5, and t_to_apogee is not a number ≤ 1.0 |
| ActuatorServo.OpensOnlyInWindow | firmware/src/actuator_servo.cpp:138-148 | outside WINDOW (so also in DEPLOYED, ABORT_LOCKOUT and LOCKED) the brake is never commanded open |
| ActuatorServo.Stalled | firmware/src/actuator_servo.cpp:122-123 | a zero stamp is always stalled, and a record that is not stalled carries a stamp other than 0 and other than the one last accepted |
| ActuatorServo.RepeatStalls | firmware/src/actuator_servo.cpp:122-128 | once a record is accepted its stamp is remembered, so the same record seen again is stalled, while against any other remembered stamp it is not |
| ActuatorServo.ServoCtrl.constructor | firmware/src/actuator_servo.cpp:118 | the remembered stamp starts at 0 |
| ActuatorServo.ServoCtrl.Iterate | firmware/src/actuator_servo.cpp:119-153 | a zero or repeated stamp closes the brake and keeps the stamp; otherwise the stamp is taken, the brake ends at should_open, and the servo is written only when that differs from its current position |
| Crc32.MaskedStepIsShift | firmware/src/telemetry.cpp:51-52 | `-(crc & 1)` is all ones iff the low bit is set, so each masked step is (crc>>1) xor (lsb ? 0xEDB88320 : 0) |
| Crc32.ShiftBitsSucc | firmware/src/telemetry.cpp:49-53 | eight inner-loop steps are one bit shift after another |
| Crc32.RegisterAppend | firmware/src/telemetry.cpp:45-54 | the byte loop over a + b is the loop over a followed by the loop over b |
| Crc32.CrcOfNothing | firmware/src/telemetry.cpp:44-55 | an empty buffer leaves the CRC unchanged: the pre- and post-inversion cancel |
| Crc32.CrcChains | firmware/src/telemetry.cpp:42-56 | updates chain: update(update(c, a), b) = update(c, a ++ b) |
| Crc32.CheckValue | firmware/src/telemetry.cpp:42-56 | the standard CRC-32 check value: the CRC of "123456789" from 0 is 0xCBF43926 |
| Crc32.Crc32UpdateLoop | firmware/src/telemetry.cpp:42-56 | the nested loops compute the reflected CRC-32 register with pre- and post-inversion |
| Telemetry.EncodeBody | firmware/include/telemetry.h:22-149 | the packed record before the CRC field is 240 bytes: header 16, BMP390 16, IMU1 76, IMU2 32, system 32, control 8, fused 60 |
| Telemetry.Encode | firmware/include/telemetry.h:138-149 | the whole record is 244 bytes, the body followed by the CRC in little-endian order |
| Telemetry.BodyIgnoresCrc | firmware/src/telemetry.cpp:205 | the bytes the CRC covers do not depend on the CRC field |
| Telemetry.U32Of | firmware/lib/usfsmax/USFSMAX.cpp:469-472 | the word before the float bit-cast has bytes b0..b3 from least to most significant |
| Telemetry.U32RoundTrip | firmware/lib/usfsmax/USFSMAX.cpp:469-472 | assembling the little-endian bytes of a word gives the word back |
| Telemetry.U32BytesRoundTrip | firmware/lib/usfsmax/USFSMAX.cpp:469-472 | every four bytes are the little-endian image of the word they assemble |
| Telemetry.HeaderReadsBack | firmware/include/telemetry.h:24-32 | reading magic, packet type, sequence number, timestamp and present flags back from the 16 packed header bytes gives the header back |
| Telemetry.EncodeReadsBack | firmware/include/telemetry.h:138-149 | a receiver of the 244 packed bytes reads back exactly the header and the CRC field the record carried |
| Telemetry.Millivolts | firmware/src/telemetry.cpp:155 | `(uint16_t)(v*1000)` is the truncated millivolt count whenever it fits in 16 bits |
| Telemetry.FlagByte | firmware/src/telemetry.cpp:165-173 | `(ff & mask) ? 1 : 0` is 1 exactly when the flag bit is set, and never more than 1 |
| Telemetry.BmpSection | firmware/src/telemetry.cpp:69-82 | ok = 1 ∧ status = 0 iff the BMP390 reading is valid, and then the reading is copied; otherwise ok = 0, status = 1 over zeros |
| Telemetry.Imu1SectionOf | firmware/src/telemetry.cpp:84-133 | ok/status as for the BMP390; a valid reading copies the quaternion, its Euler angles, acceleration and baro altitude, scales the raw gyro by 0.07 dps/count and the raw magnetometer by the µT scale; calibration fields are 0 |
| Telemetry.Imu2SectionOf | firmware/src/telemetry.cpp:135-152 | ok/status as for the BMP390; a valid reading copies acceleration, rates and temperature |
| Telemetry.SystemSectionOf | firmware/src/telemetry.cpp:154-178 | battery millivolts, zero error counters, state and flag word copied, and each of the nine booleans is 1 iff its flag bit is set |
| Telemetry.FusedSectionOf | firmware/src/telemetry.cpp:181-202 | the fused section copies the fusion snapshot field for field, stamped with the header time |
| Telemetry.TelemetryBuild | firmware/src/telemetry.cpp:59-209 | header magic 0xAB 0xCD, packet type 0, the given seq and all five section bits; every section as above; airbrake_actual_deg 0; crc32 is the CRC of the 240 body bytes with LOG_INCLUDE_CRC and 0 without |
| Telemetry.UnpackedFlagsMatch | firmware/src/telemetry.cpp:165-173 | the k-th unpacked boolean equals the k-th controller flag |
| Telemetry.Aggregator.constructor | firmware/src/telemetry.cpp:216 | the sequence counter starts at 0 |
| Telemetry.Aggregator.Iterate | firmware/src/telemetry.cpp:218-227 | the published record is exactly what telemetry_build makes from the inputs with the counter's old value (every section, and the CRC when enabled), and the counter advances by exactly 1 modulo 2^32 |
| Telemetry.Aggregator.GetLatest | firmware/src/telemetry.cpp:337-345 | telemetryGetLatest always succeeds and returns the latest record |
| Telemetry.SeqRun | firmware/src/telemetry.cpp:216-221 | n records from a counter at s0 carry n sequence numbers starting at s0 |
| Telemetry.SeqConsecutive | firmware/src/telemetry.cpp:216-221 | consecutive records carry consecutive sequence numbers modulo 2^32, and s0 + i before wrap-around |
| FcService.ClampDt | firmware/src/services/fc.cpp:36-42 | dt is always in [1, 1000]; it is the unsigned difference now − prev_ms when that lies in range, 1000 above it, and 1 for an unchanged clock |
| FcService.BackwardsClockGivesLongestStep | firmware/src/services/fc.cpp:37-39 | a clock that steps backwards wraps around to a huge difference and is held at 1000 ms |
| FcService.InputsOf | firmware/src/services/fc.cpp:44-59 | every input field is copied from the record: the fused values, agl_ready as 0/1, the BMP390 and IMU1 baro altitudes, and the three `ok` bytes as validity |
| FcService.InputsReflectReadings | firmware/src/services/fc.cpp:44-59 | through a record the aggregator built, a sensor counts as valid exactly when its reading was valid, and the agreement altitudes are the valid readings (0 otherwise) |
| FcService.StatusOf | firmware/src/services/fc.cpp:64-73 | the published status is the step's outputs field for field, with the flags packed into their word, stamped with now |
| FcService.StatusFlagsReachTelemetry | firmware/src/services/fc.cpp:64-73 | the booleans the telemetry record unpacks from the published status are exactly the controller's nine flags |
| FcService.ResetControllerStaysSafe | firmware/src/services/fc.cpp:100-103 | after fcSoftReset the all-zero context is SAFE, and since fc_init is not run again, no sequence of ticks ever leaves SAFE |
| FcService.ReinitLeavesSafe | firmware/src/services/fc.cpp:103 | re-initialising before the next tick, as the reset's comment intends, ends that tick in PREFLIGHT, BOOST or ABORT_LOCKOUT, never SAFE |
| FcService.FcTask.constructor | firmware/src/services/fc.cpp:17-19 | the statics start zeroed and uninitialised |
| FcService.FcTask.Start | firmware/src/services/fc.cpp:26-30 | prev_ms is the current time, and fc_init runs exactly when the core was not yet initialised |
| FcService.FcTask.Iterate | firmware/src/services/fc.cpp:31-75 | one loop pass steps the context, as it stands, on inputs built with the clamped dt, and publishes StatusOf the outputs |
| FcService.FcTask.IterateReinit | firmware/src/services/fc.cpp:30-75 | the pass with the initialisation check moved into the loop: an uninitialised context is initialised before it is stepped |
| FcService.FcTask.GetStatus | firmware/src/services/fc.cpp:85-93 | fcGetStatus always succeeds and returns the snapshot |
| FcService.FcTask.SoftReset | firmware/src/services/fc.cpp:95-105 | the snapshot is zero with state SAFE, the context is all zero, and the core is marked uninitialised |
| FcCore.WordBound | firmware/include/services/fc.h:24-36 | a word assembled from n flag bits is below 2^n |
| FcCore.FlagWord | firmware/include/services/fc.h:24-36 | the FcFlags bitmask of a flag record never exceeds nine bits (< 0x200) |
| FcCore.WordBit | firmware/include/services/fc.h:24-36 | bit k of an assembled word is exactly the k-th flag, and bits past the end are clear |
| FcCore.ZeroHasNoBits | firmware/src/services/fc_core.cpp:14 | the cleared flag word (flags = 0) has no bit set |
| FcCore.FlagWordBits | firmware/include/services/fc.h:27-35 | `flags & (1u << k)` tests the k-th FCF_* flag in declaration order (IMU1_OK = bit 0 … BURNOUT_DET = bit 8), and no higher bit is ever set |
| FcCore.DebounceStep | firmware/src/services/fc_core.cpp:63-67 | a valid sample adds dt to good_acc and zeroes bad_acc, an invalid one the reverse; a sensor that was not OK becomes OK iff the sample is valid and good_acc reached the recovery time, and an OK sensor drops iff the sample is invalid and bad_acc reached the invalid time (u32 wrap-around explicit) |
| FcCore.DebounceUpdate | firmware/src/services/fc_core.cpp:63-70 | the by-reference lambda leaves (ok, good_acc, bad_acc) as DebounceStep says |
| FcCore.TiltStep | firmware/src/services/fc_core.cpp:72-82 | a NaN tilt changes nothing; a tilt below the abort angle zeroes the accumulator; at or above it the accumulator adds dt, and the latch is set exactly when it reaches the dwell; a set latch is never cleared |
| FcCore.CosFloor | firmware/src/services/fc_core.cpp:89-90 | cos of the abort tilt, floored at 0.1 |
| FcCore.MachProxy | firmware/src/services/fc_core.cpp:84-92 | the Mach proxy is NaN iff both vz values are NaN, is non-negative, and is |vz| (fused vz preferred) divided by the floored cosine and the fixed speed of sound |
| FcCore.MachGate | firmware/src/services/fc_core.cpp:93-104 | below the on-threshold the accumulator adds dt and MACH_OK turns on only once it reaches the dwell; above on+hysteresis the gate and the accumulator are cleared; in the hysteresis band nothing changes |
| FcCore.AgreeStep | firmware/src/services/fc_core.cpp:108-120 | with either altitude unusable nothing changes; a disagreement beyond the tolerance zeroes agree_acc and clears BARO_AGREE; an agreement adds dt and sets BARO_AGREE exactly when the accumulator reaches the dwell, never clearing it |
| FcCore.FlagsUpdate | firmware/src/services/fc_core.cpp:60-128 | update_flags touches only the flags, the tilt latch, the accumulators and the debounce records; the sensor-OK, TILT_OK and TILT_LATCH bits mirror their state; MACH_OK follows the static gate state unless the Mach proxy is NaN; the latch is sticky and LIFTOFF_DET/BURNOUT_DET are untouched |
| FcCore.LiftoffUpdate | firmware/src/services/fc_core.cpp:132-150 | once latched nothing changes; the liftoff accumulator adds dt while vz, az or AGL exceeds its threshold and resets otherwise; the latch is taken exactly when the accumulator reaches the dwell, stamping t_launch and setting LIFTOFF_DET |
| FcCore.BurnoutUpdate | firmware/src/services/fc_core.cpp:152-166 | evaluated only after liftoff and before burnout is latched; a non-NaN az at or below the burnout threshold accumulates dt and latches at the dwell, stamping t_burnout and setting BURNOUT_DET; anything else resets the accumulator |
| FcCore.FsmTransition | firmware/src/services/fc_core.cpp:168-213 | the phase switch changes only state, t_state and t_deploy; every change stamps t_state; a tilt latch aborts every phase up to DEPLOYED; BOOST needs liftoff, POST_BURN_HOLD needs burnout, WINDOW comes exactly when the hold has elapsed, DEPLOYED exactly when AGL, predicted apogee and all four gates pass (stamping t_deploy), RETRACTING exactly on near-apogee or timeout; an unknown state falls to SAFE |
| FcCore.FsmUpdate | firmware/src/services/fc_core.cpp:130-214 | update_fsm keeps the tilt latch, moves the phase only forward, never clears the liftoff and burnout latches or their flags, latches burnout only after liftoff, and stamps t_launch / t_burnout with now when a latch is taken |
| FcCore.Outputs | firmware/src/services/fc_core.cpp:40-53 | the command is the deploy angle only in DEPLOYED and 0 otherwise; time since launch is (now − t_launch)·0.001 with u32 wrap-around, 0 before launch, and never negative |
| FcCore.CoreStep | firmware/src/services/fc_core.cpp:34-54 | one tick keeps the tilt, liftoff and burnout latches and both detection flags, moves the phase only forward, and reports the new state, flags and Mach proxy with a command that is non-zero only in DEPLOYED |
| FcCore.SumNonNeg | firmware/src/services/fc_core.cpp:65-66 | a sum of dt values is non-negative and at least its first element |
| FcCore.DebounceRecovers | firmware/src/services/fc_core.cpp:65 | over consecutive valid samples (without wrap-around) good_acc is the sum of their dt, and the sensor is OK at the end iff it was OK or that sum reached the recovery time |
| FcCore.DebounceDrops | firmware/src/services/fc_core.cpp:66 | over consecutive invalid samples bad_acc is the sum of their dt, and an OK sensor stays OK iff that sum is still below the invalid time |
| FcCore.MachGateDwell | firmware/src/services/fc_core.cpp:93-104 | no chattering: MACH_OK can only switch on after samples below the on-threshold add up to the dwell time |
| FcCore.BelowTimeNonNeg | firmware/src/services/fc_core.cpp:97-98 | the time spent below the on-threshold is non-negative |
| FcCore.TiltLatchSticky | firmware/src/services/fc_core.cpp:76-78 | no sequence of ticks ever clears the tilt latch |
| FcCore.PhasesMoveForward | firmware/src/services/fc_core.cpp:168-210 | over any run of ticks a flight phase stays a flight phase and its rank along PREFLIGHT → BOOST → … → LOCKED, ABORT_LOCKOUT never decreases |
| FcCore.TerminalPhasesStay | firmware/src/services/fc_core.cpp:205-210 | LOCKED and ABORT_LOCKOUT are never left |
| FcCore.SafeStaysSafe | firmware/src/services/fc_core.cpp:211-212 | SAFE (state 0, a zeroed context) is never left: it falls into the default case on every tick |
| FcCore.LatchesStick | firmware/src/services/fc_core.cpp:137-161 | the liftoff and burnout latches never clear, and burnout is never latched without liftoff |
| FcCore.DeployRule | firmware/src/services/fc_core.cpp:183-194 | in WINDOW one tick deploys exactly when the tilt is not latched, AGL and the predicted apogee clear their thresholds and IMU1_OK, BMP1_OK, TILT_OK and MACH_OK hold on the freshly updated flags |
| FcCore.WindowDeploys | firmware/src/services/fc_core.cpp:183-194 | in WINDOW, update_fsm deploys exactly when the tilt is not latched and the deploy condition holds on the flags it was given, since the liftoff and burnout latches change neither the state, the tilt latch nor the deploy gates |
| FcCore.CoreStatics.constructor | firmware/src/services/fc_core.cpp:94-153 | the function-local statics start false / 0 at boot |
| FcCore.FcCoreCtx.constructor | firmware/src/services/fc.cpp:18 | a context in static storage starts zeroed, i.e. in SAFE |
| FcCore.FcCoreCtx.Zero | firmware/src/services/fc.cpp:102 | memset leaves the zero context |
| FcCore.FcCoreCtx.Init | firmware/src/services/fc_core.cpp:11-28 | fc_init leaves PREFLIGHT with every flag, timestamp, accumulator and sensor-OK cleared |
| FcCore.FcCoreCtx.Step | firmware/src/services/fc_core.cpp:34-54 | fc_step updates the context and statics in place exactly as CoreStep and returns its outputs |
| FcCore.FcCoreCtx.UpdateFlags | firmware/src/services/fc_core.cpp:60-128 | the in-place update_flags agrees with FlagsUpdate |
| FcCore.FcCoreCtx.DebounceSensors | firmware/src/services/fc_core.cpp:68-70 | each sensor's debounce record is stepped with its own validity byte |
| FcCore.FcCoreCtx.TiltUpdate | firmware/src/services/fc_core.cpp:72-82 | the in-place tilt block agrees with TiltStep |
| FcCore.FcCoreCtx.SetInstantFlags | firmware/src/services/fc_core.cpp:122-127 | the instantaneous bits are recomputed from the sensor OK state and the tilt latch |
| FcCore.FcCoreCtx.MachUpdate | firmware/src/services/fc_core.cpp:84-106 | the in-place Mach block agrees with MachProxy and MachGate |
| FcCore.FcCoreCtx.AgreeUpdate | firmware/src/services/fc_core.cpp:108-120 | the in-place agreement block agrees with AgreeStep |
| FcCore.FcCoreCtx.UpdateFsm | firmware/src/services/fc_core.cpp:130-214 | the in-place update_fsm agrees with FsmUpdate |
| FcCore.FcCoreCtx.DetectLiftoff | firmware/src/services/fc_core.cpp:132-150 | the in-place liftoff block agrees with LiftoffUpdate and touches no other static |
| FcCore.FcCoreCtx.DetectBurnout | firmware/src/services/fc_core.cpp:152-166 | the in-place burnout block agrees with BurnoutUpdate and touches no other static |
| FcCore.FcCoreCtx.Transition | firmware/src/services/fc_core.cpp:168-213 | the in-place switch agrees with FsmTransition |
| Fusion.ArmStep | firmware/src/services/fusion.cpp:120-134 | the arming deadline is set once to now + ZERO_AGL_AFTER_MS (u32 wrap-around) and then kept; AGL becomes ready once now reaches it and stays ready; each sensor's baseline is captured lazily from its first valid altitude after that and never replaced |
| Fusion.ArmStepKeepsBaselineOk | firmware/src/services/fusion.cpp:121-134 | baselines exist only while AGL is ready, and readiness is never lost |
| Fusion.AglOf | firmware/src/services/fusion.cpp:136-156 | each sensor's AGL is its altitude minus its baseline when both exist and AGL is ready; the fused AGL is the weighted blend of both, or the one that exists, and all three are NaN before readiness |
| Fusion.AglFusedAvailability | firmware/src/services/fusion.cpp:136-156 | the fused AGL is NaN exactly when AGL is not ready or neither sensor has an AGL |
| Fusion.AglFusedBetween | firmware/src/services/fusion.cpp:144-147 | with both AGLs the fused AGL lies between them (the weights sum to 1) and equals them when they agree |
| Fusion.ClampDtMs | firmware/src/services/fusion.cpp:165-169 | the derivative step is the unsigned elapsed time in ms, clamped to [1, FUSION_VZ_MAX_DT_MS] |
| Fusion.Ema | firmware/src/services/fusion.cpp:173-175 | a NaN filter is seeded with the instantaneous value; otherwise the EMA with FUSION_VZ_ALPHA lies between the old filter and the new value |
| Fusion.VzStep | firmware/src/services/fusion.cpp:158-191 | a usable fused AGL records (agl, now) as the anchor; the first such tick gives no vz; afterwards vz is the EMA of (agl − prev)/dt with dt in [0.001, 0.2] s; losing AGL drops the anchor and the filter; the integrator is untouched |
| Fusion.AccelStep | firmware/src/services/fusion.cpp:193-215 | without a valid IMU1 sample nothing changes; with one, the integrator is zeroed while there is no anchor, leaks by 2% and adds az·dt (dt falling back to FUSION_VZ_MAX_DT_MS) while there is one, and only the integrator changes |
| Fusion.MulNonNeg | firmware/src/services/fusion.cpp:208 | a product of non-negative reals is non-negative |
| Fusion.LeakStepBounded | firmware/src/services/fusion.cpp:207-208 | one leak step keeps |acc| ≤ 10·amax when |az| ≤ amax and dt ≤ 0.2 s |
| Fusion.LeakBounded | firmware/src/services/fusion.cpp:202-213 | the leaky integrator bounds drift: a bounded vertical acceleration keeps vz_acc within 10·amax |
| Fusion.VzFused | firmware/src/services/fusion.cpp:339-352 | the complementary vz is never NaN (the integrator never is): the FUSION_VZ_FUSE_BETA blend of derivative vz and integrator, lying between them, or the integrator alone when vz is NaN |
| Fusion.AtmosOf | firmware/src/services/fusion.cpp:217-229 | without a valid BMP sample all four are NaN; otherwise temperature and pressure/100 are copied, the speed of sound is sqrt(γR(T+273.15)) and mach_vz·sos = |vz| |
| Fusion.T10k | firmware/src/services/fusion.cpp:238-240 | the 10 kft temperature is T0 − SOS_10KFT_DELTA_K floored at 150 K |
| Fusion.SosStep | firmware/src/services/fusion.cpp:231-244 | the references are computed on the first valid BMP sample only, with sos_min = max(floor, min(ground, 10 kft)) |
| Fusion.SosMinFloor | firmware/src/services/fusion.cpp:242 | sos_min never drops below SOS_MIN_FLOOR_MPS |
| Fusion.SosTakenOnce | firmware/src/services/fusion.cpp:232-243 | once taken, the references are never recomputed, whatever samples follow |
| Fusion.MachCons | firmware/src/services/fusion.cpp:354-362 | the conservative Mach proxy is defined exactly when vz_fused is and the references exist, is non-negative, and times sos_min times the floored cos(TILT_MAX_DEPLOY_DEG) gives |vz_fused| |
| Fusion.Apogee | firmware/src/services/fusion.cpp:249-263 | with AGL and vz: rising gives t_apx·g = factor·vz and z_apx ≥ AGL by factor·vz²/2g; falling gives (0, AGL); otherwise both NaN |
| Fusion.AzDirStep | firmware/src/services/fusion.cpp:279-312 | outside the tilt/horizontal gate the direction is kept and the azimuth is the last one (NaN if none); inside it the first update takes the normalised horizontal nose direction and later ones a renormalised EMA; the azimuth is atan2 of the stored direction in degrees |
| Fusion.Wrap180 | firmware/src/services/fusion.cpp:327-331 | the wrapped delta lies in [−180, 180] and a delta already there is unchanged |
| Fusion.WrapIsWholeTurns | firmware/src/services/fusion.cpp:327-331 | wrapping only adds whole turns of 360° |
| Fusion.WrapDelta | firmware/src/services/fusion.cpp:326-331 | the two while loops compute Wrap180 and leave the delta in [−180, 180] |
| Fusion.Deg360 | firmware/src/services/fusion.cpp:316 | negative azimuths get +360, so (−360, 360) maps into [0, 360) |
| Fusion.UnwrapStep | firmware/src/services/fusion.cpp:313-336 | the first azimuth seeds the continuous angle, later ones add the wrapped delta (a step of at most 180°) and become the new previous azimuth |
| Fusion.UnwrapTracksAzimuth | firmware/src/services/fusion.cpp:324-335 | the unwrapped angle always points where the last azimuth points (they differ by whole turns) |
| Fusion.UnwrapSeedsDirection | firmware/src/services/fusion.cpp:318-323 | the seed sets up that invariant |
| Fusion.AttitudeStep | firmware/src/services/fusion.cpp:265-337 | without a valid IMU1 sample all attitude outputs are NaN and the azimuth state is kept; with one, tilt is a number, and the 0-360 and unwrapped azimuths exist exactly when the azimuth does |
| Fusion.ResetFusion | firmware/src/services/fusion.cpp:86-111 | the reset branch returns every filter, baseline and reference to its boot value and publishes a zeroed snapshot stamped with now |
| Fusion.FusionTick | firmware/src/services/fusion.cpp:83-398 | an iteration clears the reset request, stamps the snapshot with now and age 0, publishes agl_ready, a non-NaN vz_fused and vz_acc, sos_min ≥ the floor, and NaN AGL/vz/t_apogee before readiness |
| Fusion.ResetRestartsFusion | firmware/src/services/fusion.cpp:86-111 | an iteration with a pending reset request behaves exactly as one from the boot state |
| Fusion.FusionTask.constructor | firmware/src/services/fusion.cpp:50-82 | the statics start at their boot values |
| Fusion.FusionTask.SoftReset | firmware/src/services/fusion.cpp:430-433 | fusionSoftReset only raises the request flag |
| Fusion.FusionTask.GetAlt | firmware/src/services/fusion.cpp:411-419 | fusionGetAlt always succeeds and returns the published snapshot |
| Fusion.FusionTask.Tick | firmware/src/services/fusion.cpp:83-401 | one loop iteration updates the statics in place exactly as FusionTick |
| Fusion.FusionTask.ArmBaseline | firmware/src/services/fusion.cpp:120-134 | the in-place arming block agrees with ArmStep and touches nothing else |
| Fusion.FusionTask.DeriveVz | firmware/src/services/fusion.cpp:158-191 | the in-place derivative block agrees with VzStep and touches nothing else |
| Fusion.FusionTask.IntegrateAccel | firmware/src/services/fusion.cpp:193-215 | the in-place integrator block agrees with AccelStep and touches nothing else |
| Fusion.FusionTask.UpdateAttitude | firmware/src/services/fusion.cpp:265-337 | the in-place attitude block agrees with AttitudeStep and touches nothing else |
| Fusion.FusionTask.Restart | firmware/src/services/fusion.cpp:86-111 | a pending reset request brings every static back to boot with the snapshot zeroed and stamped; without one nothing changes |
| Fusion.FusionTask.Advance | firmware/src/services/fusion.cpp:112-398 | the blocks run in order on the statics leave exactly the state one iteration specifies |
| Monitor.CStr | firmware/src/task_monitor.cpp:45 | the C string in a buffer is its longest NUL-free prefix, ending at the first NUL |
| Monitor.CStrAtNul | firmware/src/task_monitor.cpp:45 | writing the terminator after a line cuts the C string there, whatever the buffer holds beyond it |
| Monitor.ToLower | firmware/src/task_monitor.cpp:50-56 | `tolower` maps exactly 'A'..'Z' to lower case and keeps every other byte |
| Monitor.SoftIsNotHard | firmware/src/task_monitor.cpp:50-56 | no word equals both "soft_reset" and "hard_reset" ignoring case, so at most one branch fires |
| Monitor.Recognise | firmware/src/task_monitor.cpp:47-63 | a finished line is a soft (hard) reset command exactly when it starts with "!cmd:" and the rest equals "soft_reset" ("hard_reset") ignoring case |
| Monitor.CaseRules | firmware/src/task_monitor.cpp:47-50 | the "!cmd:" prefix is case-sensitive while the command word is not |
| Monitor.FeedByte | firmware/src/task_monitor.cpp:43-69 | CR or LF finishes the line (recognising its C string) and empties the buffer; any other byte is appended while fewer than 95 are held and dropped otherwise; the line never exceeds 95 bytes |
| Monitor.FeedAll | firmware/src/task_monitor.cpp:39-70 | reading stops at a failed read; the line stays within 95 bytes; a hard reset is the last command handled (the chip restarts) |
| Monitor.LongLineTruncated | firmware/src/task_monitor.cpp:66-69 | without a line ending, the buffer keeps the first 95 bytes of everything received and dispatches nothing |
| Monitor.EmptyLineIsNoCommand | firmware/src/task_monitor.cpp:43-47 | an empty line (or a CR LF pair) dispatches nothing |
| Monitor.FeedAllStep | firmware/src/task_monitor.cpp:39-70 | the command of the first byte joins those already dispatched, and a hard reset ends the run |
| Monitor.Console.constructor | firmware/src/task_monitor.cpp:37-38 | the static buffer starts empty |
| Monitor.Console.Take | firmware/src/task_monitor.cpp:41-69 | handling one byte updates cbuf/clen as FeedByte says and returns its command |
| Monitor.Console.Service | firmware/src/task_monitor.cpp:35-71 | the loop dispatches exactly FeedAll's commands and leaves FeedAll's line; afterwards the two tasks are in AfterSoftReset of their old state when a soft reset was dispatched, and untouched otherwise |
| Monitor.Console.Handle | firmware/src/task_monitor.cpp:41-69 | one byte is assembled as FeedByte says; when it completes the soft reset command both tasks end in AfterSoftReset of their old state, and any other byte leaves them as they were |
| Monitor.SoftResetTasks | firmware/src/task_monitor.cpp:50-54 | fusionSoftReset then fcSoftReset leave exactly AfterSoftReset of the two tasks' state |
| Monitor.AfterSoftReset | firmware/src/services/fusion.cpp:430-433 | after a soft reset the fusion reset is requested, the controller snapshot and context are in SAFE and the core uninitialised, while the tick time and the fused snapshot are kept |
| Monitor.StateName | firmware/src/task_monitor.cpp:101-116 | state codes past ABORT_LOCKOUT print "UNKNOWN"; ABORT_LOCKOUT prints "ABORT" in human mode and "ABORT_LOCKOUT" otherwise |
| Monitor.StateNamesDistinct | firmware/src/task_monitor.cpp:101-116 | different states get different labels |
| Monitor.Lockout | firmware/src/task_monitor.cpp:130 | the `lockout` field is 1 exactly in ABORT_LOCKOUT and 0 otherwise |
| Monitor.FloatText | firmware/src/task_monitor.cpp:81-85 | kv_f prints "nan" for a NaN and the rendered number otherwise |
| SensorImu1.Probe | firmware/src/sensor_imu1.cpp:55-69 | the device is present exactly when one of the three FIRMWARE_ID reads is neither 0xFF (a NACK) nor 0x00; probing stops at the first such read and makes all three attempts otherwise |
| SensorImu1.OffsetsFit | firmware/lib/usfsmax/USFSMAX.cpp:243-307 | every sensor a combined read refreshes lies inside the bytes that read transfers |
| SensorImu1.Requested | firmware/src/sensor_imu1.cpp:102-104 | the data-ready bits 0..3 announce accelerometer, gyroscope, magnetometer and barometer |
| SensorImu1.DispatchServesRequest | firmware/src/sensor_imu1.cpp:104-130 | the switch refreshes every announced sensor except for the masks 0x5, 0x6, 0x9, 0xA, 0xD and 0xE, which fall to the accelerometer-only default |
| SensorImu1.AccelAlmostAlwaysRead | firmware/src/sensor_imu1.cpp:103-130 | the accelerometer is refreshed on every pass except a magnetometer-only, barometer-only or magnetometer+barometer one |
| SensorImu1.BaroReadVersusAnnounced | firmware/src/sensor_imu1.cpp:104-149 | the barometer is read for 0x7, 0x8, 0xB, 0xC and 0xF; mask 0x7 reads it without the BARO bit, and 0x9, 0xA, 0xD, 0xE announce it without reading it, so the stale count is converted |
| SensorImu1.PressurePa | firmware/src/sensor_imu1.cpp:151-152 | pressure is the LPS22HB count at 4096 counts per hPa |
| SensorImu1.AccelOf | firmware/src/sensor_imu1.cpp:145-147 | each acceleration component is the raw count times g_per_count |
| SensorImu1.Imu1Task.constructor | firmware/src/sensor_imu1.cpp:93-94 | no snapshot yet (all zero, invalid) and a NaN held pressure and altitude |
| SensorImu1.Imu1Task.ReadSensors | firmware/src/sensor_imu1.cpp:104-130 | the combined read chosen by the low nibble of evt updates exactly the sensors it covers from the bytes returned |
| SensorImu1.Imu1Task.ReadAll | firmware/src/sensor_imu1.cpp:104-137 | row 0 of the gyro, accelerometer and magnetometer arrays and the raw pressure change exactly when the dispatched read covers them, to the decoded bytes; the quaternion, heading and tilt-angle rows 0 are refreshed exactly when bit 4 of evt is set; every row 1 is left alone |
| SensorImu1.Imu1Task.Iterate | firmware/src/sensor_imu1.cpp:97-161 | one pass refreshes row 0 of exactly the dispatched sensors (gyro, accelerometer, magnetometer, pressure), the quaternion, heading and tilt angles only when bit 4 is set, the held pressure and altitude only when bit 3 is set, and publishes a valid snapshot built from quaternion row 0, scaled accelerometer row 0 and the held barometer values |
| SensorImu1.Imu1Task.Publish | firmware/src/sensor_imu1.cpp:139-160 | the held pressure and altitude are recomputed from raw pressure row 0 exactly when bit 3 is set, and the published snapshot is valid and built from quaternion row 0, scaled accelerometer row 0 and the held values |
| SensorImu1.Imu1Task.Get | firmware/src/sensor_imu1.cpp:174-184 | imu1Get returns the latest snapshot and its valid flag, false exactly until the first snapshot |
| Usfsmax.I16Of | firmware/lib/usfsmax/USFSMAX.cpp:243 | `((int16_t)hi << 8) \| lo` is the two's-complement int16 whose low byte is lo and high byte hi; it is negative exactly when hi ≥ 0x80 |
| Usfsmax.I16RoundTrip | firmware/lib/usfsmax/USFSMAX.cpp:243 | decoding the little-endian bytes of any int16 gives it back |
| Usfsmax.I16BytesRoundTrip | firmware/lib/usfsmax/USFSMAX.cpp:243 | every byte pair is the little-endian image of its decoded value, so no two pairs decode alike |
| Usfsmax.Baro24 | firmware/lib/usfsmax/USFSMAX.cpp:252 | the pressure count is the unsigned 24-bit value with bytes b0, b1, b2 from least to most significant |
| Usfsmax.Baro24Injective | firmware/lib/usfsmax/USFSMAX.cpp:376 | distinct register bytes give distinct pressure counts |
| Usfsmax.Axes | firmware/lib/usfsmax/USFSMAX.cpp:243-245 | three int16 axes, each from its little-endian byte pair |
| Usfsmax.Floats | firmware/lib/usfsmax/USFSMAX.cpp:330-333 | n floats, each the bit-cast of its 4-byte group |
| Usfsmax.ConfigByte | firmware/lib/usfsmax/USFSMAX.cpp:54 | the start command has bit 0 set, bit 1 from the Euler/quaternion flag and bit 2 from the scaled-data flag; for 0/1 flags it is 1 + 2·euler + 4·scaled |
| Usfsmax.ConfiguredStartCommand | firmware/lib/usfsmax/USFSMAX.cpp:54 | with the flags of config.h the command is 0x07 |
| Usfsmax.Row | firmware/lib/usfsmax/Globals.h:14-16 | a row of a [2][3] sample array has three entries |
| Usfsmax.Rows | firmware/lib/usfsmax/Globals.h:14-16 | a [2][3] sample array has two rows |
| Usfsmax.FRow | firmware/lib/usfsmax/Globals.h:80 | a row of a float array has its column count of entries |
| Usfsmax.FRows | firmware/lib/usfsmax/Globals.h:80 | a [2][n] float array has two rows |
| Usfsmax.Samples.constructor | firmware/lib/usfsmax/Globals.h:14-84 | static storage: integer samples zero and both quaternions the identity {1, 0, 0, 0} |
| Usfsmax.StoreAxes | firmware/lib/usfsmax/USFSMAX.cpp:243-245 | three decoded axes replace one row and the other row is kept |
| Usfsmax.StoreFloats | firmware/lib/usfsmax/USFSMAX.cpp:330-333 | n decoded floats replace the head of one row; the rest of that row and the other row are kept |
| Usfsmax.Device.constructor | firmware/lib/usfsmax/USFSMAX.cpp:8-12 | the device writes the rows of its own sensor number |
| Usfsmax.Device.GyroAccelMagBaro | firmware/lib/usfsmax/USFSMAX.cpp:238-253 | the 21-byte read sets gyro from bytes 0-5, accel 6-11, mag 12-17 and the pressure count from 18-20, all in this sensor's row |
| Usfsmax.Device.GyroAccel | firmware/lib/usfsmax/USFSMAX.cpp:255-266 | the 12-byte read sets gyro and accel only |
| Usfsmax.Device.MagBaro | firmware/lib/usfsmax/USFSMAX.cpp:268-277 | the 9-byte read sets mag from bytes 0-5 and the pressure count from 6-8 |
| Usfsmax.Device.Gyro | firmware/lib/usfsmax/USFSMAX.cpp:279-287 | the 6-byte read sets gyro only |
| Usfsmax.Device.Acc | firmware/lib/usfsmax/USFSMAX.cpp:289-297 | the 6-byte read sets accel only |
| Usfsmax.Device.Mag | firmware/lib/usfsmax/USFSMAX.cpp:299-307 | the 6-byte read sets mag only |
| Usfsmax.Device.Baro | firmware/lib/usfsmax/USFSMAX.cpp:371-377 | the 3-byte read sets the pressure count only |
| Usfsmax.Device.LinAcc | firmware/lib/usfsmax/USFSMAX.cpp:358-369 | the 12-byte read sets linear acceleration from bytes 0-5 and gravity from 6-11 |
| Usfsmax.Device.GetQuat | firmware/lib/usfsmax/USFSMAX.cpp:326-334 | the 16-byte read sets the four quaternion components w, x, y, z |
| Usfsmax.Device.GetEuler | firmware/lib/usfsmax/USFSMAX.cpp:336-343 | the 12-byte read sets the heading and the two tilt angles |
| Usfsmax.Device.GetQuatLin | firmware/lib/usfsmax/USFSMAX.cpp:345-356 | the 24-byte read sets the quaternion from bytes 0-15 and linear acceleration from 16-21 |
| TaskLed.HealthFromFlags | firmware/src/task_led.cpp:98-104 | with a status, sensors_ok holds exactly when IMU1_OK and BMP1_OK are set, fault is its negation, and IMU2 plays no part |
| TaskLed.BlinkPeriod | firmware/src/task_led.cpp:107-112 | the blink phase toggles exactly when 400 ms (unsigned, wrap-around) have passed since the last toggle, which is then restamped; a second pass at the same instant changes nothing |
| TaskLed.Pack | firmware/src/task_led.cpp:70 | the packed colour is the 24-bit word with R, G, B as its high, middle and low bytes |
| TaskLed.StatusPrecedence | firmware/src/task_led.cpp:117-135 | a fault blinks yellow/off with the blink phase; green exactly when the sensors are OK and AGL is ready; orange exactly when they are OK and AGL is not ready; red exactly when no status was obtained |
| TaskLed.Slot | firmware/src/task_led.cpp:140-142 | the slot (phase / 700) mod 3 is one of BMP1, IMU1, IMU2 |
| TaskLed.DivBy700 | firmware/src/task_led.cpp:142 | division by 700 recovers the quotient of 700·q + r with r < 700 |
| TaskLed.SlotCycle | firmware/src/task_led.cpp:139-142 | a slot lasts 700 ms of phase and is then followed by the next one, cyclically |
| TaskLed.SensorColorShows | firmware/src/task_led.cpp:143-161 | BMP1 shows green, IMU1 cyan and IMU2 magenta, solid when the sensor is OK and blinking to dark otherwise |
| TaskLed.Wrap360 | firmware/src/task_led.cpp:23-26 | the normalised hue lies in [0, 360) |
| TaskLed.WrapUnique | firmware/src/task_led.cpp:23-26 | it is the only value in [0, 360) that differs from the hue by whole turns |
| TaskLed.NormaliseHue | firmware/src/task_led.cpp:23-26 | the two while loops compute Wrap360 |
| TaskLed.FMod2 | firmware/src/task_led.cpp:28 | fmodf(y, 2) for y ≥ 0 lies in [0, 2) |
| TaskLed.ProductBounds | firmware/src/task_led.cpp:27-28 | the chroma products stay in [0, a] for factors in [0, 1] |
| TaskLed.SectorLevelsInUnit | firmware/src/task_led.cpp:27-66 | for s and v in [0, 1] every channel level r + m, g + m, b + m lies in [0, 1] |
| TaskLed.ChannelDefined | firmware/src/task_led.cpp:67-69 | a level in [0, 1] converts to a byte without the undefined float-to-uint8 case |
| TaskLed.HsvDefined | firmware/src/task_led.cpp:20-71 | for a numeric hue and s, v in [0, 1] colorFromHSV is fully defined |
| TaskLed.ColorFromHsv | firmware/src/task_led.cpp:20-71 | the routine computes HsvColor, a 24-bit word |
| TaskLed.TiltBrightness | firmware/src/task_led.cpp:169 | brightness saturates at 1 (30° of tilt), is 1 for a NaN tilt, and is non-negative for a non-negative tilt |
| TaskLed.TiltColorDefined | firmware/src/task_led.cpp:164-176 | with a numeric azimuth and a NaN or non-negative tilt the TILT colour is fully defined |
| TaskLed.PixelIs24Bit | firmware/src/task_led.cpp:114-181 | every colour written to the NeoPixel is a 24-bit RGB word |
| TaskLed.OnCountSplit | firmware/src/task_led.cpp:183-210 | on-time over adjacent intervals adds up |
| TaskLed.OnCountConst | firmware/src/task_led.cpp:183-210 | a constant LED level over an interval gives all or none of its length |
| TaskLed.HeartbeatPeriodic | firmware/src/task_led.cpp:185-209 | the blue pattern repeats with its period: 250 ms on a fault, 1 s while waiting for AGL, 2 s otherwise |
| TaskLed.DutyFault | firmware/src/task_led.cpp:186-191 | a fault gives 100 ms on per 250 ms |
| TaskLed.DutyNoSensors | firmware/src/task_led.cpp:192-197 | missing sensors give one 80 ms blip per 2 s |
| TaskLed.DutyWaiting | firmware/src/task_led.cpp:198-203 | waiting for AGL gives 100 ms on per second |
| TaskLed.DutyReadyFirst | firmware/src/task_led.cpp:204-209 | the ready pattern's first blip is 60 ms in the first 300 ms |
| TaskLed.DutyReadySecond | firmware/src/task_led.cpp:204-209 | its second blip is 60 ms in the remaining 1700 ms |
| TaskLed.DutyReady | firmware/src/task_led.cpp:204-209 | ready gives two 60 ms blips per 2 s |
| TaskLed.HeartbeatDuty | firmware/src/task_led.cpp:183-210 | over one period the blue LED is on for exactly 100, 80, 100 or 120 ms according to the health case |
| TaskLed.LedTask.constructor | firmware/src/task_led.cpp:75-81 | the task starts solid red with blink off, phase zero and the default STATUS mode |
| TaskLed.LedTask.SetMode | firmware/src/task_led.cpp:18 | ledSetMode changes the mode and nothing else |
| TaskLed.LedTask.Iterate | firmware/src/task_led.cpp:83-213 | one pass keeps the mode, steps the blink, advances the phase only in SENSORS mode, writes PixelColor and the heartbeat level; since fcGetStatus never fails, STATUS mode never shows red after the start |
| TaskLed.LedTask.PassColor | firmware/src/task_led.cpp:114-175 | the colour the mode switch picks is PixelColor for the mode, the health, the blink and the phase, and always fits in 24 bits |
| GroundLine.StripLeft | firmware/tools/flight_visualizer_qt.py:757 | the result is a suffix of the input that does not start with whitespace, and everything dropped is whitespace |
| GroundLine.StripRight | firmware/tools/flight_visualizer_qt.py:757 | the result is a prefix of the input that does not end with whitespace, and everything dropped is whitespace |
| GroundLine.StripShape | firmware/tools/flight_visualizer_qt.py:757 | strip() is the infix of the input with no whitespace at either end, and all that surrounds it is whitespace |
| GroundLine.StripFixed | firmware/tools/flight_visualizer_qt.py:757 | a string without surrounding whitespace is its own strip() |
| GroundLine.StripIdempotent | firmware/tools/flight_visualizer_qt.py:757 | strip() applied twice is strip() applied once |
| GroundLine.StripInfix | firmware/tools/flight_visualizer_qt.py:757 | every character of strip(s) occurs in s |
| GroundLine.Split | firmware/tools/flight_visualizer_qt.py:757-763 | str.split(sep) yields at least one piece, no piece holds the separator, and joining the pieces with it gives the input back |
| GroundLine.SplitNoSep | firmware/tools/flight_visualizer_qt.py:757 | a text without the separator splits into itself alone |
| GroundLine.SplitCons | firmware/tools/flight_visualizer_qt.py:757 | a separator-free head followed by the separator splits off as the first piece |
| GroundLine.SplitJoin | firmware/tools/flight_visualizer_qt.py:757 | split undoes join for separator-free pieces |
| GroundLine.NonEmptyStripped | firmware/tools/flight_visualizer_qt.py:757 | the kept comma pieces are stripped, non-empty and no more than the pieces of the line |
| GroundLine.IndexOf | firmware/tools/flight_visualizer_qt.py:763 | the position of the first occurrence of the character, with none before it |
| GroundLine.KeyValue | firmware/tools/flight_visualizer_qt.py:760-767 | a token yields a pair exactly when it holds ':'; the key holds no ':' and the value is stripped |
| GroundLine.KeyValues | firmware/tools/flight_visualizer_qt.py:760-767 | tokens without ':' are skipped, so there are no more pairs than tokens |
| GroundLine.Fields | firmware/tools/flight_visualizer_qt.py:756-766 | the emitted fields are one `key:value` per pair, in order, with the optional teleplot '>' |
| GroundLine.FirstSep | firmware/tools/flight_visualizer_qt.py:763 | in a key without ':' followed by ':' and a value, the first ':' ends the key and the value is what follows |
| GroundLine.FieldShape | firmware/tools/flight_visualizer_qt.py:757 | a carryable pair's field holds no ',' and is non-empty and stripped, so the tokeniser keeps it whole |
| GroundLine.FieldKeyValue | firmware/tools/flight_visualizer_qt.py:760-767 | a carryable pair's field, with or without '>', parses back to the same pair |
| GroundLine.TokensOfFields | firmware/tools/flight_visualizer_qt.py:757 | the tokeniser keeps every field of an emitted line |
| GroundLine.PairsOfFields | firmware/tools/flight_visualizer_qt.py:760-767 | the pairs of the emitted fields are the original pairs |
| GroundLine.EmitThenParse | firmware/tools/flight_visualizer_qt.py:756-767 | round trip: a line emitted from carryable pairs, plain or teleplot, parses back to exactly those pairs in order |
| GroundLine.ScanLastWins | firmware/tools/flight_visualizer_qt.py:775-787 | the timestamp is the float of the last ts_ms/ts pair (None when none or unparsable), timestamp keys are never stored, and every other key holds the classified value of its last pair exactly when the line carries it |
| GroundLine.Push | firmware/tools/flight_visualizer_qt.py:457 | a deque with maxlen: the new element is last, the length grows by one up to the bound, and the result is the newest entries of the old contents plus the new element |
| GroundLine.PushBounded | firmware/tools/flight_visualizer_qt.py:457 | a deque within its bound stays within it; below the bound the element is appended, at the bound the oldest is dropped |
| GroundLine.Upper | firmware/tools/flight_visualizer_qt.py:809 | str.upper(): same length, each character upper-cased |
| GroundLine.Lower | firmware/tools/flight_visualizer_qt.py:770 | str.lower(): same length, each character lower-cased |
| GroundLine.NewFlags | firmware/tools/flight_visualizer_qt.py:807-815 | the flag list after a telemetry line keeps one entry per flag name |
| GroundLine.FlagRules | firmware/tools/flight_visualizer_qt.py:807-815 | a numeric value sets its flag to value != 0 (NaN counts as set), a text value or an absent key leaves it alone, and without a lockout value the lockout flag is derived from the state |
| GroundLine.LockoutFromState | firmware/tools/flight_visualizer_qt.py:807-809 | the derived lockout is true exactly for the ABORT_LOCKOUT state in any letter case, and unknown exactly while no non-empty state text has been seen |
| GroundLine.AppendAll | firmware/tools/flight_visualizer_qt.py:817-831 | every series deque gets one entry: its value's float, or NaN |
| GroundLine.ElapsedMeaning | firmware/tools/flight_visualizer_qt.py:802 | seconds since the base are never negative, exact (ts - t0)/1000 at or after the base, and 0 before it |
| GroundLine.PushNonNegative | firmware/tools/flight_visualizer_qt.py:802-803 | appending a non-negative time keeps every time non-negative |
| GroundLine.AppendSeries | firmware/tools/flight_visualizer_qt.py:817-831 | the series loop appends exactly what AppendAll describes |
| GroundLine.ApplyFlags | firmware/tools/flight_visualizer_qt.py:807-815 | the lockout derivation and the flag loop produce exactly NewFlags |
| GroundText.ClampMeaning | firmware/tools/flight_visualizer_qt.py:67-68 | clamp() lands in [lo, hi], keeps values inside, sends values below to lo and above to hi, and NaN to hi |
| GroundText.ClampMonotone | firmware/tools/flight_visualizer_qt.py:67-68 | clamp() is monotone |
| GroundText.Digits | firmware/tools/flight_visualizer_qt.py:71-77 | the decimal text of a number is a non-empty digit string |
| GroundText.Zeros | firmware/tools/flight_visualizer_qt.py:71-77 | k zero digits |
| GroundText.Pad | firmware/tools/flight_visualizer_qt.py:71-77 | zero padding reaches the requested width and keeps a digit string a digit string |
| GroundText.DigitsValue | firmware/tools/flight_visualizer_qt.py:71-77 | the decimal text of n reads back as n |
| GroundText.LeadingZeros | firmware/tools/flight_visualizer_qt.py:71-77 | leading zeros do not change the value read |
| GroundText.PaddedValue | firmware/tools/flight_visualizer_qt.py:71-77 | a zero-padded decimal text reads back as its number |
| GroundText.Pow10 | firmware/tools/flight_visualizer_qt.py:71-77 | a power of ten is at least 1 |
| GroundText.RoundHalfEven | firmware/tools/flight_visualizer_qt.py:71-77 | the rounded integer is within half of x, and an exact tie goes to the even neighbour |
| GroundText.NatDivMod | firmware/tools/flight_visualizer_qt.py:71-77 | quotient and remainder of a natural division are in range |
| GroundText.ReadClockText | firmware/tools/flight_visualizer_qt.py:71-77 | the mm:ss.cc text of m minutes and c hundredths reads back to m, c / 100 and c % 100 |
| GroundText.FmtTimeIsClock | firmware/tools/flight_visualizer_qt.py:71-77 | fmt_time shows the whole minutes of max(0, s) and the rounded hundredths of the remaining seconds |
| GroundText.FmtTimePlaceholder | firmware/tools/flight_visualizer_qt.py:71-77 | "--:--.--" is shown exactly for a missing or NaN time |
| GroundText.ClockNear | firmware/tools/flight_visualizer_qt.py:71-77 | minutes plus rounded hundredths read back within half a hundredth of a second |
| GroundText.FmtTimeReads | firmware/tools/flight_visualizer_qt.py:71-77 | fmt_time's text reads back to the whole minutes and the rounded hundredths of the rest |
| GroundText.FmtTimeAccurate | firmware/tools/flight_visualizer_qt.py:71-77 | fmt_time reads back to within 0.005 s of max(0, s) |
| GroundText.FmtTimeShowsSixty | firmware/tools/flight_visualizer_qt.py:71-77 | as written, 59.999 s reads back as 0 minutes and 60 seconds |
| GroundText.FmtClockSound | firmware/tools/flight_visualizer_qt.py:71-77 | the corrected clock always shows seconds below 60 and hundredths below 100 and reads back within 0.005 s of max(0, s) |
| VisualizerQt.NonEvents | firmware/tools/flight_visualizer_qt.py:768-774 | no pair left after removing the events has the key evt |
| VisualizerQt.ScanEvtMeaning | firmware/tools/flight_visualizer_qt.py:757-787 | the dashboard's scan is the shared scan of the non-event pairs, and a reset is reported exactly when some evt pair names soft_reset or hard_reset in any letter case |
| VisualizerQt.EvtNeverStored | firmware/tools/flight_visualizer_qt.py:768-774 | evt is never stored as a value |
| VisualizerQt.Targets | firmware/tools/flight_visualizer_qt.py:1172-1177 | every event is drawn on one or two of the three plots |
| VisualizerQt.Limit | firmware/tools/flight_visualizer_qt.py:1194 | each plot keeps at least two markers of an event (two for liftoff, burnout and tilt, a thousand for baro agreement) |
| VisualizerQt.CountOfAppend | firmware/tools/flight_visualizer_qt.py:1195-1205 | the markers of an event in a joined list are those of both parts |
| VisualizerQt.FirstOf | firmware/tools/flight_visualizer_qt.py:1195-1205 | the index found holds the event, and no earlier marker does |
| VisualizerQt.RemoveOldestCounts | firmware/tools/flight_visualizer_qt.py:1195-1205 | dropping the oldest marker of an event removes exactly one of it and no marker of another event |
| VisualizerQt.RetainMeaning | firmware/tools/flight_visualizer_qt.py:1194-1205 | after adding a marker its event stays within its limit (one more, or exactly the limit), other events keep their counts and markers, and the new marker is present |
| VisualizerQt.NoneBefore | firmware/tools/flight_visualizer_qt.py:1195-1205 | with an older marker of the event present, the eviction never removes the marker just added |
| VisualizerQt.WithMarker | firmware/tools/flight_visualizer_qt.py:1162-1205 | adding a marker keeps the three plots |
| VisualizerQt.MarkersFor | firmware/tools/flight_visualizer_qt.py:1122-1133 | checking the events for rising edges keeps the three plots |
| VisualizerQt.WithMarkerBounded | firmware/tools/flight_visualizer_qt.py:1162-1205 | adding a marker keeps every plot within every event's limit |
| VisualizerQt.MarkersForBounded | firmware/tools/flight_visualizer_qt.py:1122-1133 | the edge pass keeps every plot within every event's limit |
| VisualizerQt.NoEdgeNoMarker | firmware/tools/flight_visualizer_qt.py:1126-1133 | without a rising edge (from unset or false to true) no marker is added or removed |
| VisualizerQt.EdgeLeavesMarker | firmware/tools/flight_visualizer_qt.py:1126-1133 | a rising edge of an event leaves a marker at the newest time on each of its plots |
| VisualizerQt.InitialInv | firmware/tools/flight_visualizer_qt.py:449-477 | the freshly built dashboard satisfies the invariant: aligned series within the window, non-negative times, bounded raw buffer, state stored as text, marker limits |
| VisualizerQt.Clear | firmware/tools/flight_visualizer_qt.py:1234-1299 | clearing empties the time base, the time axis, every series, the latest values, every flag, every marker list and the raw-line buffer, keeps the shape, and keeps the edge-detection memory (`_prev_flags` is not reset) |
| VisualizerQt.ClearInv | firmware/tools/flight_visualizer_qt.py:1234-1299 | clearing keeps the invariant, and clearing twice is clearing once |
| VisualizerQt.ScanStateIsText | firmware/tools/flight_visualizer_qt.py:781-783 | the state name is always stored as text |
| VisualizerQt.AppendInv | firmware/tools/flight_visualizer_qt.py:799-831 | appending a telemetry sample keeps the invariant |
| VisualizerQt.TelemetryInv | firmware/tools/flight_visualizer_qt.py:790-831 | the telemetry part of a line, including the restart check, keeps the invariant |
| VisualizerQt.Handle | firmware/tools/flight_visualizer_qt.py:755-838 | handling a line keeps the shape and the edge memory, always leaves the line as the newest raw line, and after a reset event leaves no marker and no older raw line |
| VisualizerQt.IngestKeeps | firmware/tools/flight_visualizer_qt.py:757-831 | the scan, the reset events and the sample keep the shape and the edge memory, and a reset event leaves no marker and no raw line behind |
| VisualizerQt.HandleInv | firmware/tools/flight_visualizer_qt.py:755-838 | handling any line keeps the invariant |
| VisualizerQt.IngestInv | firmware/tools/flight_visualizer_qt.py:757-831 | the scan, the restart check and the appended sample keep the invariant |
| VisualizerQt.EdgeMarkersInv | firmware/tools/flight_visualizer_qt.py:1122-1133 | the edge pass keeps the invariant |
| VisualizerQt.LogLineOnlyRaw | firmware/tools/flight_visualizer_qt.py:789-833 | a line without a timestamp or reset event changes only the raw buffer |
| VisualizerQt.ResetEventClears | firmware/tools/flight_visualizer_qt.py:769-833 | a reset event without a timestamp clears the buffers, raw history included, so the line itself is the only raw line left |
| VisualizerQt.OneSamplePerLine | firmware/tools/flight_visualizer_qt.py:799-831 | a telemetry line appends one time (the elapsed time since the base) and one entry per metric and component series (its float or NaN), keeping them aligned and within the window |
| VisualizerQt.Restarted | firmware/tools/flight_visualizer_qt.py:793-796 | a timestamp more than a second behind the previous one clears the buffers (raw lines included, edge memory kept); any other timestamp leaves them as they are |
| VisualizerQt.RestartDetected | firmware/tools/flight_visualizer_qt.py:793-796 | a timestamp more than a second behind the previous one clears everything first, raw lines included, so the line's sample is the only one, at time 0 with a new base |
| VisualizerQt.EvictOldest | firmware/tools/flight_visualizer_qt.py:1195-1205 | the eviction loop drops exactly the oldest marker of the event |
| VisualizerQt.Dashboard.constructor | firmware/tools/flight_visualizer_qt.py:449-477 | the buffers start empty with no time base, no flags and no markers |
| VisualizerQt.Dashboard.ClearData | firmware/tools/flight_visualizer_qt.py:1234-1299 | the new state is the cleared old state: series, time base, flags, markers and raw lines emptied, edge memory kept |
| VisualizerQt.Dashboard.AppendTelemetry | firmware/tools/flight_visualizer_qt.py:790-803 | the new state is the restart check (a back-jump clears the buffers and the raw lines) plus the appended sample |
| VisualizerQt.Dashboard.AppendSample | firmware/tools/flight_visualizer_qt.py:799-831 | the new state is the old one with the time base, latest values, flags and one entry per series |
| VisualizerQt.Dashboard.NextSample | firmware/tools/flight_visualizer_qt.py:799-831 | the buffers computed as the sample loop does are exactly the specified append |
| VisualizerQt.Dashboard.ScanLine | firmware/tools/flight_visualizer_qt.py:757-787 | the pair loop gathers exactly the scan's timestamp and values, and clears the buffers and the raw lines exactly when a reset event is seen |
| VisualizerQt.Dashboard.HandleLine | firmware/tools/flight_visualizer_qt.py:755-838 | the new state is the handled old state (a reset or restart empties the raw lines before the line is kept), and the invariant holds |
| VisualizerQt.Dashboard.IngestLine | firmware/tools/flight_visualizer_qt.py:757-831 | the new state is the old one after the scan, the reset events and restart check (each clearing the raw lines too) and, for a telemetry line only, the appended sample |
| VisualizerQt.Dashboard.KeepRaw | firmware/tools/flight_visualizer_qt.py:833 | only the raw-line history changes: the line is appended and the oldest dropped past the buffer size |
| VisualizerQt.Dashboard.AddMarker | firmware/tools/flight_visualizer_qt.py:1162-1205 | only the marker lists change, to the retained lists with the new marker |
| VisualizerQt.Dashboard.AddedMarkers | firmware/tools/flight_visualizer_qt.py:1185-1205 | the loop over the target plots leaves exactly WithMarker: each target plot retains the new marker and the other plots keep theirs |
| VisualizerQt.Dashboard.RetainMarker | firmware/tools/flight_visualizer_qt.py:1194-1205 | appending to one plot and evicting that event's oldest marker past its limit gives exactly Retain |
| VisualizerQt.Dashboard.UpdateEventMarkers | firmware/tools/flight_visualizer_qt.py:1122-1133 | the new state has markers for the rising edges and remembers the flags, and the invariant holds |
| VisualizerQt.Dashboard.EdgeScan | firmware/tools/flight_visualizer_qt.py:1127-1133 | the event loop leaves exactly MarkersFor over the four events, and remembers each event's current flag |
| VisualizerMpl.FreshInv | firmware/tools/flight_visualizer.py:277-324 | the freshly built visualizer satisfies the invariant: bounded buffers, metric series aligned with the time axis, non-negative times |
| VisualizerMpl.LineTimeNonNegative | firmware/tools/flight_visualizer.py:496-502 | the time a line gets is never negative |
| VisualizerMpl.PushedInv | firmware/tools/flight_visualizer.py:493-529 | storing one time, one raw line and one entry per metric keeps the invariant |
| VisualizerMpl.StepInv | firmware/tools/flight_visualizer.py:493-529 | storing a scanned line keeps the invariant |
| VisualizerMpl.IngestInv | firmware/tools/flight_visualizer.py:462-529 | reading any line keeps the invariant |
| VisualizerMpl.OneTimePerLine | firmware/tools/flight_visualizer.py:496-529 | every line, stamped or not, appends one time and one entry per metric until the window is full |
| VisualizerMpl.UnstampedLineSteps | firmware/tools/flight_visualizer.py:501-502 | a line without a timestamp lands the guessed 0.05 s after the previous time, or at 0 on an empty plot, and leaves the base alone |
| VisualizerMpl.TimeBaseIsFirstStamp | firmware/tools/flight_visualizer.py:497-500 | the first timestamp becomes the base and sits at time 0; later ones are measured against the base |
| VisualizerMpl.TimeBaseKept | firmware/tools/flight_visualizer.py:497-499 | once set, the time base never changes and is never cleared |
| VisualizerMpl.EventIsStored | firmware/tools/flight_visualizer.py:462-506 | this tool has no event handling: an evt pair is stored like any other value |
| VisualizerMpl.OtherValuesKept | firmware/tools/flight_visualizer.py:506 | keys the line does not carry keep their latest value |
| VisualizerMpl.Reached | firmware/tools/flight_visualizer.py:124-131 | the number of thresholds reached is at most the number of thresholds |
| VisualizerMpl.ReachedMonotone | firmware/tools/flight_visualizer.py:124-131 | a larger value reaches at least as many thresholds |
| VisualizerMpl.ColorIsBand | firmware/tools/flight_visualizer.py:122-131 | the colour is the band of the clamped fraction (red, orange, amber, green at 0.2, 0.4, 0.7), and NaN shows green |
| VisualizerMpl.ColorMonotone | firmware/tools/flight_visualizer.py:122-131 | a higher fraction never shows a lower band |
| VisualizerMpl.FixedHasPoint | firmware/tools/flight_visualizer.py:144 | the 0.3f text always holds a decimal point |
| VisualizerMpl.GaugeMeaning | firmware/tools/flight_visualizer.py:133-144 | a missing or NaN value, and only it, shows the grey empty bar and "--"; a known one fills between nothing and the whole range, in a band colour, with a label ending in the unit |
| VisualizerMpl.GaugeFractionBounded | firmware/tools/flight_visualizer.py:140 | the filled share stays within [0, 1] |
| VisualizerMpl.GaugeMonotone | firmware/tools/flight_visualizer.py:139-143 | a larger value fills at least as much of the bar and never shows a lower band |
| VisualizerMpl.SetTextAgrees | firmware/tools/flight_visualizer.py:645-649 | after setting a text the cache equals what each artist shows, and the artist shows the new text |
| VisualizerMpl.SetTextIdempotent | firmware/tools/flight_visualizer.py:645-649 | setting the same text twice draws at most once |
| VisualizerMpl.UnchangedTextNotDrawn | firmware/tools/flight_visualizer.py:645-649 | a text that is already shown is not drawn again |
| VisualizerMpl.FlightVisualizer.constructor | firmware/tools/flight_visualizer.py:277-324 | the buffers start empty with no time base and no flags; nothing is drawn |
| VisualizerMpl.FlightVisualizer.ScanPairs | firmware/tools/flight_visualizer.py:462-491 | the tokenising loop gathers exactly the shared scan's timestamp and values |
| VisualizerMpl.FlightVisualizer.ReadLine | firmware/tools/flight_visualizer.py:462-529 | the new state is the old one with the line ingested, the drawn texts untouched, and the invariant holds |
| VisualizerMpl.FlightVisualizer.Store | firmware/tools/flight_visualizer.py:493-529 | the new state is the stored step of the scanned line |
| VisualizerMpl.FlightVisualizer.SetText | firmware/tools/flight_visualizer.py:645-649 | the label state becomes the specified one and the buffers are untouched |
| VisualizerMpl.FlightVisualizer.NextFeed | firmware/tools/flight_visualizer.py:496-529 | the buffers after one line, computed as the loop body does, are exactly the specified step |

## Left out

- Floating-point rounding and infinities: floats are exact reals or NaN, and a division by zero gives NaN.
- `sqrtf`, `cosf`, `acosf`, `atan2f`, `asinf` and the float bit-cast in `uint32_reg_to_float` are the uninterpreted `Libm` record. The `pow` of the barometric formula is a parameter of `SensorImu1`. The IEEE bit pattern a float is stored with is the parameter `fb` in `Telemetry`.
- The quaternion rotation and the Euler extraction in `fusion.cpp` are the uninterpreted `Geometry` parameter, so the tilt and azimuth inputs are whatever it returns.
- `colorFromHSV`: the conversion of NaN or of an out-of-range float to `uint8_t` is undefined in C, so the model leaves it to the parameter `undef`.
- The bench build's fusion overrides in `desk_mode.h` (`ZERO_AGL_AFTER_MS` 1500 ms, `FUSION_VZ_MAX_DT_MS` 100 ms) and its `MON_INCLUDE_TS` switch: `Fusion` is fixed at the flight values, 10000 ms and 200 ms, and the monitor line's `ts_ms` prefix is part of the unmodelled output text.
- FreeRTOS tasks, delays, tick timing and the mutexes: every snapshot is an atomic copy, and each task is modelled one loop pass at a time.
- The clock (`millis()`) and every bus transfer are parameters: the current time, and the bytes each I2C read returned.
- The I2C driver (`I2Cdev.cpp`), the USFSMAX initialisation and configuration upload, calibration retrieval, `getMxMy` and `getDHI_Rsq`, the BMP390, MPU6050 and IMU2 drivers: these are hardware access with no decision logic.
- The SD-card writer and logging macros of `telemetry.cpp`, and the text of the console status line beyond its state names, lockout field and NaN printing: these are output formatting and I/O.
- The NeoPixel and blue LED hardware: the model records the colour word and LED level each pass leaves behind.
- The LEDC peripheral: the servo records the duty last written instead of driving a channel.
- The dashboards' widgets, plot items, timers, the serial reader and its reconnect logic, `print_raw`, the raw-text box (`_raw_pending`, `_flush_raw_box`), the sparklines and frame counters that `_clear_data` also resets, and the y-axis autoscale bookkeeping.
- VisualizerQt.Dashboard.UpdateEventMarkers: does not model the pruning of markers that have scrolled out of the visible time range, because it depends on the plot's view box.
- `str.isspace`, `str.upper` and `str.lower` are modelled on the ASCII/Latin-1 range only, so whitespace and case of other Unicode characters are not captured.
- Python's `float()` is the parameter `parse`: the model does not say which texts it accepts or what it returns for them.
- `serial_monitor.py`, `tilt_visualizer.py`, `health.cpp`, the placeholder `fusion_init`/`fusion_update`/`fusion_get`, `main.cpp` and `pin12_probe.cpp` are not part of this model: they hold no decision logic.

## Findings

| source | as written | input that shows it | evidently intended | confidence | as-written member | corrected member |
|---|---|---|---|---|---|---|
| firmware/src/services/fc.cpp:100-103 | `fc_init` runs only before the task loop (fc.cpp line 30). After `fcSoftReset` zeroes the context, its state 0 is SAFE, and the default branch of the state machine keeps it SAFE on every later tick. | any sequence of ticks after `fcSoftReset` | the comment says the task re-initialises on its next iteration, so the controller should return to PREFLIGHT (`FcTask.IterateReinit`) | high, not executed | FcService.ResetControllerStaysSafe | FcService.ReinitLeavesSafe |
| firmware/tools/flight_visualizer_qt.py:71-77 | the seconds are rounded to hundredths after the whole minutes are taken, so a rounding up to 60 is not carried into the minutes | `fmt_time(59.999)` gives `"00:60.00"` | `"01:00.00"`: the seconds field always below 60 | high, not executed | GroundText.FmtTimeShowsSixty | GroundText.FmtClockSound |
