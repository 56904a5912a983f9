/**
 * The sensor snapshots the tasks publish (sensor_bmp1.h, sensor_imu1.h,
 * sensor_imu2.h). A getter that returned false is `None`; a snapshot that was
 * returned carries its own `valid` flag.
 */
module Readings {
  import opened Common

  datatype V3 = V3(x: Flt, y: Flt, z: Flt)
  datatype Quat = Quat(w: Flt, x: Flt, y: Flt, z: Flt)

  const V3_ZERO: V3 := V3(Num(0.0), Num(0.0), Num(0.0))
  const QUAT_ZERO: Quat := Quat(Num(0.0), Num(0.0), Num(0.0), Num(0.0))

  function V3Scale(k: real, v: V3): V3
  {
    V3(FScale(k, v.x), FScale(k, v.y), FScale(k, v.z))
  }

  datatype BmpReading = BmpReading(temperatureC: Flt, pressurePa: Flt, altitudeM: Flt, valid: bool)

  datatype Imu1Reading = Imu1Reading(quat: Quat, accelG: V3, pressurePa: Flt, altitudeM: Flt, valid: bool)

  datatype Imu2Reading = Imu2Reading(accelG: V3, gyroDps: V3, tempC: Flt, valid: bool)

  /** `xGet(r) && r.valid`: a snapshot exists and it is valid. */
  predicate BmpValid(r: Option<BmpReading>) { r.Some? && r.value.valid }
  predicate Imu1Valid(r: Option<Imu1Reading>) { r.Some? && r.value.valid }
  predicate Imu2Valid(r: Option<Imu2Reading>) { r.Some? && r.value.valid }
}
