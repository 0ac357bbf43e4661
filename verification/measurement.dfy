/** Reading the sensor's 16-bit outputs and scaling them to physical units. */
module Measurement {
  import opened Wrappers
  import opened Bits
  import opened Registers
  import opened Status
  import opened Transport

  /** The result code, the word written to `*data` (None when the operation
      returned before writing it) and the bus afterwards. */
  datatype RawRead = RawRead(code: byte, data: Option<Int16>, bus: Bus)

  /** `get_{accel,gyro}_{x,y,z}_raw_mpu6050`: read the low register of the pair,
      then the high one, and assemble them through the `data16_t` union. */
  function ReadRaw(e: Env, b: Bus, c: Channel): (r: RawRead)
    ensures r.bus.regs == b.regs
    ensures var n := |b.trace|;
      var lo := Peek(e, b, c.OutL());
      var hi := Fetch(e, b.regs, n + 1, c.OutH());
      && (Fails(e.codes, e.status(n)) ==>
            r == RawRead(CheckErr(e.codes, e.status(n)), None, Bus(b.regs, b.trace + [Read(c.OutL(), lo)])))
      && (!Fails(e.codes, e.status(n)) ==>
            && r.bus.trace == b.trace + [Read(c.OutL(), lo), Read(c.OutH(), hi)]
            && r.code == CheckErr(e.codes, e.status(n + 1)))
      && (r.data.Some? <==> !Fails(e.codes, e.status(n)) && !Fails(e.codes, e.status(n + 1)))
      && (r.data.Some? ==> LowByte(r.data.value) == lo as int && HighByte(r.data.value) == hi as int)
    ensures r.code == 0 <==> r.data.Some?
  {
    var l := ReadReg(e, b, c.OutL());
    if Fails(e.codes, l.status) then RawRead(CheckErr(e.codes, l.status), None, l.bus)
    else
      var h := ReadReg(e, l.bus, c.OutH());
      if Fails(e.codes, h.status) then RawRead(CheckErr(e.codes, h.status), None, h.bus)
      else RawRead(0, Some(Word(l.value, h.value)), h.bus)
  }

  /** The register part of `get_temp_mpu6050`: TEMP_OUT_L, then TEMP_OUT_H,
      assembled through the `TEMP16_t` union, which has the layout of `data16_t`. */
  function ReadTempRaw(e: Env, b: Bus): (r: RawRead)
    ensures r.bus.regs == b.regs
    ensures var n := |b.trace|;
      var lo := Peek(e, b, Temp.OutL());
      var hi := Fetch(e, b.regs, n + 1, Temp.OutH());
      && (Fails(e.codes, e.status(n)) ==>
            r == RawRead(CheckErr(e.codes, e.status(n)), None, Bus(b.regs, b.trace + [Read(Temp.OutL(), lo)])))
      && (!Fails(e.codes, e.status(n)) ==>
            && r.bus.trace == b.trace + [Read(Temp.OutL(), lo), Read(Temp.OutH(), hi)]
            && r.code == CheckErr(e.codes, e.status(n + 1)))
      && (r.data.Some? <==> !Fails(e.codes, e.status(n)) && !Fails(e.codes, e.status(n + 1)))
      && (r.data.Some? ==> r.data.value == Word(lo, hi))
      && (r.data.Some? ==> LowByte(r.data.value) == lo as int && HighByte(r.data.value) == hi as int)
    ensures r.code == 0 <==> r.data.Some?
  {
    ReadRaw(e, b, Temp)
  }

  /** Counts per g for each accelerometer range code. */
  function AccelDivisor(range: byte): real
    requires range < 4
  {
    if range == 0 then 16384.0 else if range == 1 then 8192.0 else if range == 2 then 4096.0 else 2048.0
  }

  /** Counts per degree per second for each gyroscope range code. */
  function GyroDivisor(range: byte): real
    requires range < 4
  {
    if range == 0 then 131.072 else if range == 1 then 65.536 else if range == 2 then 32.768 else 16.384
  }

  /** The full-scale magnitude of each range: 2, 4, 8, 16 g and 250, 500, 1000,
      2000 degrees per second. */
  function AccelFullScale(range: byte): real
    requires range < 4
  {
    if range == 0 then 2.0 else if range == 1 then 4.0 else if range == 2 then 8.0 else 16.0
  }

  function GyroFullScale(range: byte): real
    requires range < 4
  {
    if range == 0 then 250.0 else if range == 1 then 500.0 else if range == 2 then 1000.0 else 2000.0
  }

  /** Each divisor spreads the 2^15 positive counts of an int16 over the range's
      full scale. */
  lemma DivisorsSpanFullScale()
    ensures forall r: byte :: r < 4 ==> AccelDivisor(r) * AccelFullScale(r) == 32768.0
    ensures forall r: byte :: r < 4 ==> GyroDivisor(r) * GyroFullScale(r) == 32768.0
  {
  }

  /** `accel_val_to_g_mpu6050`, in exact arithmetic: a defined range divides the
      count by its divisor, any other range code returns the count unscaled. */
  function AccelToG(raw: Int16, range: byte): (g: real)
    ensures range < 4 ==> g * AccelDivisor(range) == raw as real
    ensures range >= 4 ==> g == raw as real
  {
    if range < 4 then raw as real / AccelDivisor(range) else raw as real
  }

  /** `gyro_degrees_sec_mpu6050`, in exact arithmetic. */
  function GyroToDps(raw: Int16, range: byte): (dps: real)
    ensures range < 4 ==> dps * GyroDivisor(range) == raw as real
    ensures range >= 4 ==> dps == raw as real
  {
    if range < 4 then raw as real / GyroDivisor(range) else raw as real
  }
}
