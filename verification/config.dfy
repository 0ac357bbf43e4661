/** Register edits that configure the sensor: clock source, standby bits,
    interrupts, resets, the interrupt-cause decode and the self-test stubs. */
module Config {
  import opened Bits
  import opened Registers
  import opened Status
  import opened Transport

  /** PWR_MGMT_1 after `reg.CLKSEL = clk_sel`: bits 0-2 take the low three bits
      of `clk`, and TEMP_DIS, bit 4, CYCLE, SLEEP and DEVICE_RESET keep theirs. */
  function ClockByte(prev: byte, clk: byte): (w: byte)
    ensures w & 0xF8 == prev & 0xF8
    ensures w & 0x07 == clk & 0x07
  {
    SetField(prev, ClkSel, clk)
  }

  /** `clk_sel_mpu6050`: a read-modify-write of PWR_MGMT_1 that changes only CLKSEL. */
  function ClockSelect(e: Env, b: Bus, clk: byte): (r: Step)
    ensures ReadThenWrite(e, b, r, PwrMgmt1, ClockByte(Peek(e, b, PwrMgmt1), clk), Translated)
  {
    Modify(e, b, PwrMgmt1, prev => ClockByte(prev, clk), Translated)
  }

  /** PWR_MGMT_2 after `stdby_all_mpu6050` rebuilds it: LP_WAKE_CTRL is kept and
      all six standby bits are cleared, whatever `on_off` asked for. */
  function StandbyAllByte(prev: byte): (w: byte)
    ensures w & 0xC0 == prev & 0xC0
    ensures w & 0x3F == 0
  {
    SetField(0, LpWakeCtrl, GetField(prev, LpWakeCtrl))
  }

  /** `stdby_all_mpu6050`: `onOff` is accepted and ignored; a failure is
      reported as the raw transport status. */
  function StandbyAll(e: Env, b: Bus, onOff: byte): (r: Step)
    ensures ReadThenWrite(e, b, r, PwrMgmt2, StandbyAllByte(Peek(e, b, PwrMgmt2)), Untranslated)
  {
    Modify(e, b, PwrMgmt2, StandbyAllByte, Untranslated)
  }

  /** PWR_MGMT_2 after assigning `on_off` to the axis's one-bit standby member:
      that bit becomes the low bit of `onOff`, the seven others keep theirs. */
  function StandbyByte(prev: byte, a: Axis, onOff: byte): (w: byte)
    ensures Bit(w, StandbyField(a).lo) == onOff & 1
    ensures forall k: bv8 :: k < 8 && k != StandbyField(a).lo ==> Bit(w, k) == Bit(prev, k)
  {
    SetField(prev, StandbyField(a), onOff)
  }

  /** `stdby_{accel,gyro}_{x,y,z}_mpu6050`: a read-modify-write of PWR_MGMT_2
      that changes only the axis's standby bit; a failure is reported as the raw
      transport status. */
  function StandbyAxis(e: Env, b: Bus, a: Axis, onOff: byte): (r: Step)
    ensures ReadThenWrite(e, b, r, PwrMgmt2, StandbyByte(Peek(e, b, PwrMgmt2), a, onOff), Untranslated)
  {
    Modify(e, b, PwrMgmt2, prev => StandbyByte(prev, a, onOff), Untranslated)
  }

  /** INT_ENABLE as `int_enable_mpu6050` writes it: the `int` value `1 << k`
      truncated to a byte, so exactly bit k for k < 8 and no bit otherwise. */
  function InterruptByte(k: byte): (w: byte)
    ensures k < 8 ==> forall j: bv8 :: j < 8 ==> (Bit(w, j) == 1 <==> j == k)
    ensures k >= 8 ==> w == 0
  {
    if k < 8 then (1 as bv8) << k else 0
  }

  /** `int_enable_mpu6050`: reads INT_ENABLE, then overwrites it with the single
      requested bit, so every other enabled interrupt is switched off. */
  function EnableInterrupt(e: Env, b: Bus, k: byte): (r: Step)
    ensures ReadThenWrite(e, b, r, IntEnable, InterruptByte(k), Translated)
  {
    Modify(e, b, IntEnable, _ => InterruptByte(k), Translated)
  }

  /** `int_disable_mpu6050`: reads INT_ENABLE, then writes `0 << k`, which
      switches every interrupt off whichever one was named. */
  function DisableInterrupt(e: Env, b: Bus, k: byte): (r: Step)
    ensures ReadThenWrite(e, b, r, IntEnable, 0, Translated)
  {
    Modify(e, b, IntEnable, _ => 0, Translated)
  }

  /** The interrupt causes INT_STATUS can flag. */
  datatype Cause = DataReady | I2cMaster | FifoOverflow

  /** The causes an INT_STATUS byte flags, through the union's bit-fields. */
  function CausesOf(status: byte): (s: set<Cause>)
    ensures DataReady in s <==> status & 0x01 != 0
    ensures I2cMaster in s <==> status & 0x08 != 0
    ensures FifoOverflow in s <==> status & 0x10 != 0
  {
    (if GetField(status, DataRdy) == 1 then {DataReady} else {})
    + (if GetField(status, I2cMst) == 1 then {I2cMaster} else {})
    + (if GetField(status, FifoOflow) == 1 then {FifoOverflow} else {})
  }

  /** The return value the doc comment of `what_happend_mpu6050` lists for each
      combination of causes. */
  function DocumentedCode(s: set<Cause>): nat {
    if s == {} then 0
    else if s == {FifoOverflow} then 3
    else if s == {I2cMaster} then 4
    else if s == {DataReady} then 5
    else if s == {FifoOverflow, I2cMaster} then 7
    else if s == {FifoOverflow, DataReady} then 8
    else if s == {I2cMaster, DataReady} then 9
    else 12
  }

  /** `what_happend_mpu6050`: the weighted sum 3 FIFO_OFLOW + 4 I2C_MST +
      5 DATA_RDY of the INT_STATUS bits, which is the documented code of the
      flagged causes; every other status bit is ignored. */
  function InterruptCause(e: Env, b: Bus): (r: Step)
    ensures r.bus == Bus(b.regs, b.trace + [Read(IntStatus, Peek(e, b, IntStatus))])
    ensures Fails(e.codes, e.status(|b.trace|)) ==> r.code == CheckErr(e.codes, e.status(|b.trace|))
    ensures !Fails(e.codes, e.status(|b.trace|)) ==>
      r.code as int == DocumentedCode(CausesOf(Peek(e, b, IntStatus)))
  {
    var rd := ReadReg(e, b, IntStatus);
    if Fails(e.codes, rd.status) then Step(CheckErr(e.codes, rd.status), rd.bus)
    else
      var s := rd.value;
      var fifo: byte := if GetField(s, FifoOflow) == 1 then 3 else 0;
      var mst: byte := if GetField(s, I2cMst) == 1 then 4 else 0;
      var drdy: byte := if GetField(s, DataRdy) == 1 then 5 else 0;
      Step(fifo + mst + drdy, rd.bus)
  }

  /** The cause set a code stands for: the inverse of `DocumentedCode`. */
  function CausesOfCode(n: nat): set<Cause> {
    (if n in {3, 7, 8, 12} then {FifoOverflow} else {})
    + (if n in {4, 7, 9, 12} then {I2cMaster} else {})
    + (if n in {5, 8, 9, 12} then {DataReady} else {})
  }

  /** The weights 3, 4, 5 keep every combination apart: the flagged causes can
      be recovered from the code, and no code of a successful read equals a
      failure code of `check_err_mpu6050`. */
  lemma CauseCodesDecode(status: byte)
    ensures CausesOfCode(DocumentedCode(CausesOf(status))) == CausesOf(status)
    ensures DocumentedCode(CausesOf(status)) in {0, 3, 4, 5, 7, 8, 9, 12}
    ensures DocumentedCode(CausesOf(status)) !in {1, 2, 20, 100}
  {
  }

  /** The header names DATA_RDY_INT 3 and MPU_6050_FIFO_INT 5, but the decode
      weighs a FIFO overflow 3 and data-ready 5. */
  lemma CauseCodesDisagreeWithHeader()
    ensures DocumentedCode({DataReady}) == FifoInt
    ensures DocumentedCode({FifoOverflow}) == DataRdyInt
    ensures DocumentedCode({I2cMaster}) == I2cMstInt
  {
  }

  /** `reset_mpu6050`: a single write of the byte with only DEVICE_RESET set. */
  function Reset(e: Env, b: Bus): (r: Step)
    ensures WriteOnce(e, b, r, PwrMgmt1, SetField(0, DeviceReset, 1))
  {
    Store(e, b, PwrMgmt1, (1 as bv8) << 7)
  }

  /** `reset_accel_mpu6050`: a single write of SIGNAL_PATH_RESET with only the
      accelerometer bit set. */
  function ResetAccel(e: Env, b: Bus): (r: Step)
    ensures WriteOnce(e, b, r, SignalPathReset, SetField(0, AccelReset, 1))
  {
    Store(e, b, SignalPathReset, (1 as bv8) << 1)
  }

  /** `reset_gyro_mpu6050`: a single write with only the gyroscope bit set. */
  function ResetGyro(e: Env, b: Bus): (r: Step)
    ensures WriteOnce(e, b, r, SignalPathReset, SetField(0, GyroReset, 1))
  {
    Store(e, b, SignalPathReset, (1 as bv8) << 2)
  }

  /** `reset_temp_mpu6050`: a single write with only the temperature bit set. */
  function ResetTemp(e: Env, b: Bus): (r: Step)
    ensures WriteOnce(e, b, r, SignalPathReset, SetField(0, TempReset, 1))
  {
    Store(e, b, SignalPathReset, (1 as bv8) << 0)
  }

  /** `self_test_{x,y,z,a}_mpu6050`: not implemented; always reports success
      without touching the bus. */
  function SelfTest(b: Bus): (r: Step)
    ensures r.code == 0 && r.bus == b
  {
    Step(0, b)
  }
}
