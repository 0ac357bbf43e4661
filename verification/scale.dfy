/** Setting and reading the full-scale range, and the range state the driver
    tracks for the conversions. */
module Scale {
  import opened Wrappers
  import opened Bits
  import opened Registers
  import opened Status
  import opened Transport
  import opened DriverState

  /** The result code, the bus and the driver state after a range operation. */
  datatype Scaled = Scaled(code: byte, bus: Bus, drv: Driver)

  /** A configuration byte after `AFS_SEL = scale` (or `FS_SEL = scale`): bits
      3-4 take the low two bits of `scale`, the self-test bits and bits 0-2 keep
      theirs. */
  function RangeByte(prev: byte, scale: byte): (w: byte)
    ensures w & 0xE7 == prev & 0xE7
    ensures (w >> 3) & 0x03 == scale & 0x03
  {
    SetField(prev, RangeSel, scale)
  }

  /** The body `accel_set_scale_mpu6050` and `gyro_set_scale_mpu6050` share:
      both read and write ACCEL_CONFIG (0x1C), and only a fully successful
      edit records `scale`, untruncated, as the tracked range of `s`. */
  function SetScale(e: Env, b: Bus, d: Driver, s: Sensor, scale: byte): (r: Scaled)
    ensures ReadThenWrite(e, b, Step(r.code, r.bus), AccelConfig, RangeByte(Peek(e, b, AccelConfig), scale), Translated)
    ensures r.code == 0 <==> !Fails(e.codes, e.status(|b.trace|)) && !Fails(e.codes, e.status(|b.trace| + 1))
    ensures r.drv == if r.code == 0 then Track(d, s, scale) else d
    ensures SameExcept(b.regs, r.bus.regs, AccelConfig)
  {
    var m := Modify(e, b, AccelConfig, prev => RangeByte(prev, scale), Translated);
    Scaled(m.code, m.bus, if m.code == 0 then Track(d, s, scale) else d)
  }

  /** `accel_set_scale_mpu6050`. */
  function AccelSetScale(e: Env, b: Bus, d: Driver, scale: byte): (r: Scaled)
    ensures ReadThenWrite(e, b, Step(r.code, r.bus), AccelConfig, RangeByte(Peek(e, b, AccelConfig), scale), Translated)
    ensures r.code == 0 ==> r.drv == d.(accelState := scale)
    ensures r.code != 0 ==> r.drv == d
    ensures SameExcept(b.regs, r.bus.regs, AccelConfig)
  {
    SetScale(e, b, d, Accel, scale)
  }

  /** `gyro_set_scale_mpu6050`: the same edit of ACCEL_CONFIG, tracked as the
      gyroscope range; GYRO_CONFIG (0x1B) is never addressed. */
  function GyroSetScale(e: Env, b: Bus, d: Driver, scale: byte): (r: Scaled)
    ensures ReadThenWrite(e, b, Step(r.code, r.bus), AccelConfig, RangeByte(Peek(e, b, AccelConfig), scale), Translated)
    ensures r.code == 0 ==> r.drv == d.(gyroState := scale)
    ensures r.code != 0 ==> r.drv == d
    ensures Get(r.bus.regs, GyroConfig) == Get(b.regs, GyroConfig)
    ensures SameExcept(b.regs, r.bus.regs, AccelConfig)
  {
    SetScale(e, b, d, Gyro, scale)
  }

  /** The result code, the value written to `*scale` (None when it was left
      unwritten), the bus and the driver state. */
  datatype ScaleRead = ScaleRead(code: byte, scale: Option<byte>, bus: Bus, drv: Driver)

  /** The body `accel_get_scale_mpu6050` and `gyro_get_scale_mpu6050` share:
      read ACCEL_CONFIG and return its bits 3-4, which also become the tracked
      range of `s`. */
  function GetScale(e: Env, b: Bus, d: Driver, s: Sensor): (r: ScaleRead)
    ensures r.bus == Bus(b.regs, b.trace + [Read(AccelConfig, Peek(e, b, AccelConfig))])
    ensures Fails(e.codes, e.status(|b.trace|)) ==>
      r.code == CheckErr(e.codes, e.status(|b.trace|)) && r.scale == None && r.drv == d
    ensures !Fails(e.codes, e.status(|b.trace|)) ==>
      && r.code == 0 && r.scale.Some?
      && r.scale.value < 4
      && r.scale.value << 3 == Peek(e, b, AccelConfig) & 0x18
      && r.drv == Track(d, s, r.scale.value)
  {
    var rd := ReadReg(e, b, AccelConfig);
    if Fails(e.codes, rd.status) then ScaleRead(CheckErr(e.codes, rd.status), None, rd.bus, d)
    else
      var f := GetField(rd.value, RangeSel);
      ScaleRead(0, Some(f), rd.bus, Track(d, s, f))
  }

  /** `accel_get_scale_mpu6050`: on success the range is bits 3-4 of
      ACCEL_CONFIG as read. */
  function AccelGetScale(e: Env, b: Bus, d: Driver): (r: ScaleRead)
    ensures r.bus == Bus(b.regs, b.trace + [Read(AccelConfig, Peek(e, b, AccelConfig))])
    ensures r.code == 0 ==> r.scale.Some? && r.scale.value < 4 && r.drv == d.(accelState := r.scale.value)
    ensures r.code == 0 ==> r.scale.value << 3 == Peek(e, b, AccelConfig) & 0x18
    ensures r.code == 0 <==> !Fails(e.codes, e.status(|b.trace|))
    ensures r.code != 0 ==> r.scale == None && r.drv == d && r.code == CheckErr(e.codes, e.status(|b.trace|))
  {
    GetScale(e, b, d, Accel)
  }

  /** `gyro_get_scale_mpu6050`: reads ACCEL_CONFIG as well, and on success
      the range is bits 3-4 of that byte. */
  function GyroGetScale(e: Env, b: Bus, d: Driver): (r: ScaleRead)
    ensures r.bus == Bus(b.regs, b.trace + [Read(AccelConfig, Peek(e, b, AccelConfig))])
    ensures r.code == 0 ==> r.scale.Some? && r.scale.value < 4 && r.drv == d.(gyroState := r.scale.value)
    ensures r.code == 0 ==> r.scale.value << 3 == Peek(e, b, AccelConfig) & 0x18
    ensures r.code == 0 <==> !Fails(e.codes, e.status(|b.trace|))
    ensures r.code != 0 ==> r.scale == None && r.drv == d && r.code == CheckErr(e.codes, e.status(|b.trace|))
  {
    GetScale(e, b, d, Gyro)
  }

  /** Setting a range and reading it back: when the set's read succeeds, its
      write is committed and the get's read succeeds, the get returns the
      range truncated to two bits, while the set had tracked it untruncated. */
  lemma SetThenGet(e: Env, b: Bus, d: Driver, s: Sensor, scale: byte)
    requires !Fails(e.codes, e.status(|b.trace|))
    requires e.status(|b.trace| + 1) == e.codes.ok
    requires !Fails(e.codes, e.status(|b.trace| + 2))
    ensures var st := SetScale(e, b, d, s, scale);
      var get := GetScale(e, st.bus, st.drv, s);
      && Tracked(st.drv, s) == scale
      && get.scale == Some(scale & 0x03)
      && Tracked(get.drv, s) == scale & 0x03
  {
    var st := SetScale(e, b, d, s, scale);
    assert Peek(e, st.bus, AccelConfig) == RangeByte(Peek(e, b, AccelConfig), scale);
  }

  /** A range setting whose read and write both report OK returns 0, tracks
      `scale`, and leaves the low two bits of `scale` in the range field of
      ACCEL_CONFIG. */
  lemma SetScaleSucceeds(e: Env, b: Bus, d: Driver, s: Sensor, scale: byte)
    requires e.status(|b.trace|) == e.codes.ok
    requires e.status(|b.trace| + 1) == e.codes.ok
    ensures var r := SetScale(e, b, d, s, scale);
      && r.code == 0
      && Tracked(r.drv, s) == scale
      && GetField(Get(r.bus.regs, AccelConfig), RangeSel) == scale & 0x03
  {
    var r := SetScale(e, b, d, s, scale);
    assert Get(r.bus.regs, AccelConfig) == RangeByte(Peek(e, b, AccelConfig), scale);
  }

  /** Because both setters edit ACCEL_CONFIG, a successful gyroscope range
      change is what the accelerometer getter reads back next. */
  lemma GyroRangeOverwritesAccelRange(e: Env, b: Bus, d: Driver, scale: byte)
    requires !Fails(e.codes, e.status(|b.trace|))
    requires e.status(|b.trace| + 1) == e.codes.ok
    requires !Fails(e.codes, e.status(|b.trace| + 2))
    ensures var st := GyroSetScale(e, b, d, scale);
      AccelGetScale(e, st.bus, st.drv).scale == Some(scale & 0x03)
  {
    var st := GyroSetScale(e, b, d, scale);
    assert Peek(e, st.bus, AccelConfig) == RangeByte(Peek(e, b, AccelConfig), scale);
  }
}
