/** Power management: the literal writes of PWR_MGMT_1, and the enable and
    disable sequences built from the other operations. */
module Power {
  import opened Wrappers
  import opened Bits
  import opened Registers
  import opened Status
  import opened Transport
  import opened DriverState
  import opened Scale
  import opened Config
  import opened Calibration

  /** The byte `sleep_mpu6050` writes, `1 << 6`. */
  const SleepOnly: byte := (1 as bv8) << 6

  /** The byte `disable_temp_mpu6050` writes, `1 << 3`. */
  const TempDisOnly: byte := (1 as bv8) << 3

  /** `wake_up_mpu6050`: reads PWR_MGMT_1, then writes 0, clearing SLEEP and
      every other field with it. */
  function WakeUp(e: Env, b: Bus): (r: Step)
    ensures ReadThenWrite(e, b, r, PwrMgmt1, 0, Translated)
  {
    Modify(e, b, PwrMgmt1, _ => 0, Translated)
  }

  /** `sleep_mpu6050`: reads PWR_MGMT_1, then writes the byte with only SLEEP set. */
  function Sleep(e: Env, b: Bus): (r: Step)
    ensures ReadThenWrite(e, b, r, PwrMgmt1, SetField(0, SleepBit, 1), Translated)
  {
    Modify(e, b, PwrMgmt1, _ => SleepOnly, Translated)
  }

  /** `disable_temp_mpu6050`: reads PWR_MGMT_1, then writes the byte with only
      TEMP_DIS set. */
  function DisableTemp(e: Env, b: Bus): (r: Step)
    ensures ReadThenWrite(e, b, r, PwrMgmt1, SetField(0, TempDis, 1), Translated)
  {
    Modify(e, b, PwrMgmt1, _ => TempDisOnly, Translated)
  }

  /** `enable_temp_mpu6050`: reads PWR_MGMT_1, then writes 0. */
  function EnableTemp(e: Env, b: Bus): (r: Step)
    ensures ReadThenWrite(e, b, r, PwrMgmt1, 0, Translated)
  {
    Modify(e, b, PwrMgmt1, _ => 0, Translated)
  }

  /** None of the four power writes keeps anything of the register it read:
      each sets at most its one field and clears all the others, so sleeping
      forgets the clock source and the temperature setting, disabling the
      temperature sensor wakes the device, and enabling it is a wake-up. */
  lemma PowerWritesClobber()
    ensures SetField(0, SleepBit, 1) == 0x40
    ensures SetField(0, TempDis, 1) == 0x08
    ensures GetField(SetField(0, SleepBit, 1), TempDis) == 0 && GetField(SetField(0, SleepBit, 1), ClkSel) == 0
    ensures GetField(SetField(0, TempDis, 1), SleepBit) == 0 && GetField(SetField(0, TempDis, 1), ClkSel) == 0
    ensures GetField(0, SleepBit) == 0 && GetField(0, TempDis) == 0 && GetField(0, ClkSel) == Clk8MHz
  {
  }

  /** The calibrations `enable_mpu6050` runs, in its order. */
  const CalibrationOrder: seq<Axis> := [AccelX, AccelY, AccelZ, GyroX, GyroY, GyroZ]

  /** The bus and driver after a run of calibrations, and the batches of the
      last one (empty when none ran). */
  datatype Calibrations = Calibrations(bus: Bus, drv: Driver, batches: seq<seq<Int16>>)

  /** `next` is what calibrating axis `a` leaves after `prev`, started with
      the `value` that `init` gives the axis. */
  ghost predicate CalibratedFrom(e: Env, init: Axis -> Int16, prev: Calibrations, a: Axis, next: Calibrations) {
    var c := Calibrate(e, prev.bus, prev.drv, a, init(a));
    next == Calibrations(c.bus, c.drv, c.batches)
  }

  /** The calibration step as a relation between the states before and after. */
  ghost function CalibrationStep(e: Env, init: Axis -> Int16): (Calibrations, Axis, Calibrations) -> bool {
    (prev: Calibrations, a: Axis, next: Calibrations) => CalibratedFrom(e, init, prev, a, next)
  }

  /** Step `k` of a run: `runs[k + 1]` follows from `runs[k]` by the step for
      `order[k]`. */
  ghost predicate LinkAt(step: (Calibrations, Axis, Calibrations) -> bool, order: seq<Axis>, runs: seq<Calibrations>, k: nat)
    requires k < |order| && k + 1 < |runs|
  {
    step(runs[k], order[k], runs[k + 1])
  }

  /** `runs` lists the states of a run of the first `k` steps of `order`, one
      after the other: the state before the first step and after each. */
  ghost predicate ChainUpTo(step: (Calibrations, Axis, Calibrations) -> bool, order: seq<Axis>, runs: seq<Calibrations>, k: nat) {
    && k <= |order|
    && |runs| == k + 1
    && forall j :: 0 <= j < k ==> LinkAt(step, order, runs, j)
  }

  /** A run extended by its next step. */
  lemma ChainSnoc(step: (Calibrations, Axis, Calibrations) -> bool, order: seq<Axis>, runs: seq<Calibrations>, k: nat, next: Calibrations)
    requires ChainUpTo(step, order, runs, k) && k < |order|
    requires step(runs[k], order[k], next)
    ensures ChainUpTo(step, order, runs + [next], k + 1)
  {
    var runs' := runs + [next];
    forall j | 0 <= j < k + 1
      ensures LinkAt(step, order, runs', j)
    {
      if j < k {
        assert LinkAt(step, order, runs, j);
      }
    }
  }

  /** One calibration after `prev`, with its result code discarded. */
  method CalibrateOne(e: Env, init: Axis -> Int16, prev: Calibrations, a: Axis) returns (r: Calibrations)
    ensures CalibratedFrom(e, init, prev, a, r)
    ensures HoldsBatches(r.drv.offsets, a, r.batches)
    ensures OtherSlots(r.drv.offsets) == OtherSlots(prev.drv.offsets)
    ensures SameExcept(prev.bus.regs, r.bus.regs, AccelConfig)
  {
    var c := Calibrate(e, prev.bus, prev.drv, a, init(a));
    CalibrationFillsAccelXSlots(e, prev.bus, prev.drv, a, init(a));
    r := Calibrations(c.bus, c.drv, c.batches);
  }

  /** The six calibrations of `enable_mpu6050`, one after the other, with
      their result codes discarded; `init` gives each its uninitialised
      `value`. `runs` lists the state before the first calibration and after
      each, so the batches returned are those of the last call, the
      gyroscope z calibration on the bus and driver the first five left.
      Only those averages survive in the accelerometer x slots, and no other
      slot changes. */
  method CalibrateAll(e: Env, b: Bus, d: Driver, init: Axis -> Int16) returns (r: Calibrations, ghost runs: seq<Calibrations>)
    ensures ChainUpTo(CalibrationStep(e, init), CalibrationOrder, runs, 6)
    ensures runs[0] == Calibrations(b, d, []) && runs[6] == r
    ensures CalibratedFrom(e, init, runs[5], GyroZ, r)
    ensures HoldsBatches(r.drv.offsets, GyroZ, r.batches)
    ensures OtherSlots(r.drv.offsets) == OtherSlots(d.offsets)
    ensures SameExcept(b.regs, r.bus.regs, AccelConfig)
  {
    r := Calibrations(b, d, []);
    runs := [r];
    for k := 0 to |CalibrationOrder|
      invariant ChainUpTo(CalibrationStep(e, init), CalibrationOrder, runs, k)
      invariant runs[0] == Calibrations(b, d, []) && runs[k] == r
      invariant OtherSlots(r.drv.offsets) == OtherSlots(d.offsets)
      invariant SameExcept(b.regs, r.bus.regs, AccelConfig)
      invariant k > 0 ==> HoldsBatches(r.drv.offsets, CalibrationOrder[k - 1], r.batches)
    {
      var a := CalibrationOrder[k];
      r := CalibrateOne(e, init, r, a);
      ChainSnoc(CalibrationStep(e, init), CalibrationOrder, runs, k, r);
      runs := runs + [r];
    }
    assert LinkAt(CalibrationStep(e, init), CalibrationOrder, runs, 5);
  }

  /** The result code, the bus and the driver after `enable_mpu6050`, and the
      batches of its last calibration (empty when it returned before
      calibrating). */
  datatype Enabled = Enabled(code: byte, bus: Bus, drv: Driver, batches: seq<seq<Int16>>)

  /** The closing range settings of `enable_mpu6050`: `accel_set_scale_mpu6050`
      with range 0, then `gyro_set_scale_mpu6050` with range 0 on the bus and
      driver it left, whatever the first returned; the code is the second's.
      Each is a read-then-write of ACCEL_CONFIG whose range is tracked only
      when its write succeeds. The offsets never change, and on a bus where
      every transfer succeeds both tracked ranges and the ACCEL_CONFIG range
      field end at 0. No register other than ACCEL_CONFIG changes. */
  function RestoreRanges(e: Env, b: Bus, d: Driver): (r: Scaled)
    ensures var ac := AccelSetScale(e, b, d, AccelScale2G);
      && ReadThenWrite(e, ac.bus, Step(r.code, r.bus), AccelConfig, RangeByte(Peek(e, ac.bus, AccelConfig), GyroScale250), Translated)
      && r.drv == (if r.code == 0 then ac.drv.(gyroState := GyroScale250) else ac.drv)
    ensures |r.bus.trace| >= |b.trace| + 2 && r.bus.trace[|b.trace|] == Read(AccelConfig, Peek(e, b, AccelConfig))
    ensures r.drv.offsets == d.offsets
    ensures SameExcept(b.regs, r.bus.regs, AccelConfig)
    ensures AllOk(e) ==>
      && r.drv.accelState == 0 && r.drv.gyroState == 0
      && GetField(Get(r.bus.regs, AccelConfig), RangeSel) == 0
  {
    var ac := AccelSetScale(e, b, d, AccelScale2G);
    var gy := GyroSetScale(e, ac.bus, ac.drv, GyroScale250);
    SameExceptTrans(b.regs, ac.bus.regs, gy.bus.regs, AccelConfig);
    RestoresWhenAllOk(e, b, d);
    gy
  }

  /** On a bus where every transfer succeeds, both closing range settings
      succeed and leave range 0 tracked and in ACCEL_CONFIG. */
  lemma RestoresWhenAllOk(e: Env, b: Bus, d: Driver)
    ensures var ac := AccelSetScale(e, b, d, AccelScale2G);
      var gy := GyroSetScale(e, ac.bus, ac.drv, GyroScale250);
      AllOk(e) ==>
        && gy.drv.accelState == 0 && gy.drv.gyroState == 0
        && GetField(Get(gy.bus.regs, AccelConfig), RangeSel) == 0
  {
    if AllOk(e) {
      var ac := AccelSetScale(e, b, d, AccelScale2G);
      assert OkAt(e, |b.trace|) && OkAt(e, |b.trace| + 1);
      SetScaleSucceeds(e, b, d, Accel, AccelScale2G);
      assert OkAt(e, |ac.bus.trace|) && OkAt(e, |ac.bus.trace| + 1);
      SetScaleSucceeds(e, ac.bus, ac.drv, Gyro, GyroScale250);
    }
  }

  /** The result code and bus after the first two steps of `enable_mpu6050`,
      and whether it goes on to calibrate. */
  datatype Powered = Powered(code: byte, bus: Bus, proceed: bool)

  /** The second step of `enable_mpu6050`, `stdby_all_mpu6050`, with the
      enable going on exactly when its raw code is 0. */
  function ClearStandby(e: Env, b: Bus): (r: Powered)
    ensures var n := |b.trace|;
      r.code == if Fails(e.codes, e.status(n)) then e.status(n)
                else if Fails(e.codes, e.status(n + 1)) then e.status(n + 1)
                else 0
    ensures r.proceed <==> r.code == 0
    ensures var n := |b.trace|;
      var pm2 := Get(b.regs, PwrMgmt2);
      && (!Fails(e.codes, e.status(n)) ==> r.bus.trace == b.trace + [Read(PwrMgmt2, pm2), Write(PwrMgmt2, StandbyAllByte(pm2))])
      && (Fails(e.codes, e.status(n)) ==> r.bus.trace == b.trace + [Read(PwrMgmt2, pm2)])
      && Get(r.bus.regs, PwrMgmt2) == (if !Fails(e.codes, e.status(n)) && OkAt(e, n + 1) then StandbyAllByte(pm2) else pm2)
    ensures forall x: byte :: x != PwrMgmt2 ==> Get(r.bus.regs, x) == Get(b.regs, x)
  {
    var sa := StandbyAll(e, b, 0);
    Powered(sa.code, sa.bus, sa.code == 0)
  }

  /** The standby step of `enable_mpu6050` after its write of 0 to PWR_MGMT_1,
      `w`, did not fail: the code is the raw status of the first failing
      transfer of `stdby_all_mpu6050`, or 0. */
  function AfterWake(e: Env, b: Bus, w: Step): (r: Powered)
    requires w == WriteReg(e, b, PwrMgmt1, 0) && !Fails(e.codes, w.code)
    ensures var n := |b.trace|;
      r.code == if Fails(e.codes, e.status(n + 1)) then e.status(n + 1)
                else if Fails(e.codes, e.status(n + 2)) then e.status(n + 2)
                else 0
    ensures r.proceed <==> r.code == 0
    ensures var n := |b.trace|;
      var pm2 := Get(b.regs, PwrMgmt2);
      && (!Fails(e.codes, e.status(n + 1)) ==>
            r.bus.trace == b.trace + [Write(PwrMgmt1, 0), Read(PwrMgmt2, pm2), Write(PwrMgmt2, StandbyAllByte(pm2))])
      && (Fails(e.codes, e.status(n + 1)) ==>
            r.bus.trace == b.trace + [Write(PwrMgmt1, 0), Read(PwrMgmt2, pm2)])
      && Get(r.bus.regs, PwrMgmt1) == (if OkAt(e, n) then 0 else Get(b.regs, PwrMgmt1))
      && Get(r.bus.regs, PwrMgmt2) == (if !Fails(e.codes, e.status(n + 1)) && OkAt(e, n + 2) then StandbyAllByte(pm2) else pm2)
    ensures forall x: byte :: x != PwrMgmt1 && x != PwrMgmt2 ==> Get(r.bus.regs, x) == Get(b.regs, x)
    ensures AllOk(e) ==>
      && r.proceed
      && Get(r.bus.regs, PwrMgmt1) == 0
      && Get(r.bus.regs, PwrMgmt2) & 0x3F == 0
      && Get(r.bus.regs, PwrMgmt2) & 0xC0 == Get(b.regs, PwrMgmt2) & 0xC0
  {
    var n := |b.trace|;
    var pm2 := Get(b.regs, PwrMgmt2);
    assert |w.bus.trace| == n + 1;
    assert Get(w.bus.regs, PwrMgmt2) == pm2;
    assert w.bus.trace + [Read(PwrMgmt2, pm2)] == b.trace + [Write(PwrMgmt1, 0), Read(PwrMgmt2, pm2)];
    assert w.bus.trace + [Read(PwrMgmt2, pm2), Write(PwrMgmt2, StandbyAllByte(pm2))]
        == b.trace + [Write(PwrMgmt1, 0), Read(PwrMgmt2, pm2), Write(PwrMgmt2, StandbyAllByte(pm2))];
    var cs := ClearStandby(e, w.bus);
    StandbyClearedWhenAllOk(e, b, w);
    cs
  }

  /** On a bus where every transfer succeeds, the wake-up write and both
      transfers of the standby step succeed: PWR_MGMT_1 ends at 0 and
      PWR_MGMT_2 at the byte with every standby bit cleared. */
  lemma StandbyClearedWhenAllOk(e: Env, b: Bus, w: Step)
    requires w == WriteReg(e, b, PwrMgmt1, 0)
    ensures var cs := ClearStandby(e, w.bus);
      AllOk(e) ==>
        && cs.proceed
        && Get(cs.bus.regs, PwrMgmt1) == 0
        && Get(cs.bus.regs, PwrMgmt2) == StandbyAllByte(Get(b.regs, PwrMgmt2))
  {
    if AllOk(e) {
      var n := |b.trace|;
      assert OkAt(e, n) && OkAt(e, n + 1) && OkAt(e, n + 2);
      assert Get(w.bus.regs, PwrMgmt1) == 0;
    }
  }

  /** The first two steps of `enable_mpu6050`: write 0 to PWR_MGMT_1, and stop
      with its raw status if that status is a failure; otherwise clear all
      standby bits, and stop with that operation's code if it is not 0.
      `proceed` says whether the enable goes on to calibrate. The code after
      a successful PWR_MGMT_1 write is the raw status of the first failing
      transfer of `stdby_all_mpu6050`, or 0. Going on means the write of 0 to
      PWR_MGMT_1 and the read of PWR_MGMT_2 were issued, followed by the write
      of that byte with its standby bits cleared unless the read failed:
      `stdby_all_mpu6050` returns a failed read's raw status, and a failure
      status whose value is 0 lets the enable go on. Only PWR_MGMT_1 and
      PWR_MGMT_2 can change. */
  function PowerUp(e: Env, b: Bus): (r: Powered)
    ensures Fails(e.codes, e.status(|b.trace|)) ==>
      && !r.proceed
      && r.code == e.status(|b.trace|)
      && r.bus.trace == b.trace + [Write(PwrMgmt1, 0)]
    ensures var n := |b.trace|;
      !Fails(e.codes, e.status(n)) ==>
        r.code == if Fails(e.codes, e.status(n + 1)) then e.status(n + 1)
                  else if Fails(e.codes, e.status(n + 2)) then e.status(n + 2)
                  else 0
    ensures r.proceed <==> !Fails(e.codes, e.status(|b.trace|)) && r.code == 0
    ensures !r.proceed ==> Fails(e.codes, r.code)
    ensures var n := |b.trace|;
      var pm2 := Get(b.regs, PwrMgmt2);
      !Fails(e.codes, e.status(n)) ==>
        && (!Fails(e.codes, e.status(n + 1)) ==>
              r.bus.trace == b.trace + [Write(PwrMgmt1, 0), Read(PwrMgmt2, pm2), Write(PwrMgmt2, StandbyAllByte(pm2))])
        && (Fails(e.codes, e.status(n + 1)) ==>
              r.bus.trace == b.trace + [Write(PwrMgmt1, 0), Read(PwrMgmt2, pm2)])
        && Get(r.bus.regs, PwrMgmt1) == (if OkAt(e, n) then 0 else Get(b.regs, PwrMgmt1))
        && Get(r.bus.regs, PwrMgmt2) == (if !Fails(e.codes, e.status(n + 1)) && OkAt(e, n + 2) then StandbyAllByte(pm2) else pm2)
    ensures forall x: byte :: x != PwrMgmt1 && x != PwrMgmt2 ==> Get(r.bus.regs, x) == Get(b.regs, x)
    ensures AllOk(e) ==>
      && r.proceed
      && Get(r.bus.regs, PwrMgmt1) == 0
      && Get(r.bus.regs, PwrMgmt2) & 0x3F == 0
      && Get(r.bus.regs, PwrMgmt2) & 0xC0 == Get(b.regs, PwrMgmt2) & 0xC0
  {
    var w := WriteReg(e, b, PwrMgmt1, 0);
    if Fails(e.codes, w.code) then
      assert AllOk(e) ==> OkAt(e, |b.trace|);
      Powered(w.code, w.bus, false)
    else
      AfterWake(e, b, w)
  }

  /** `enable_mpu6050`: zero every offset slot; write 0 to PWR_MGMT_1 and
      return its raw status if it failed; clear all standby bits and return
      that raw status if it is not 0; run the six calibrations; set both
      ranges back to 0; return `MPU6050_TWI_OK`, whatever the calibrations and
      range settings reported. `init` stands for the calibrations'
      uninitialised locals. The `OFF` passed to `stdby_all_mpu6050` is
      defined outside this model and ignored by it, so 0 is passed.

      A stop in the first two steps returns their code with no calibration
      run. Past them the result is 0 on any bus, and `runs` lists the state
      before each of the six calibrations and after the last, starting from
      the bus the first two steps left and the zeroed offsets; the batches
      returned are those of the last, the gyroscope z calibration. So when
      the PWR_MGMT_1 write and both transfers of `stdby_all_mpu6050` succeed,
      the result is 0.

      Afterwards the offsets of five axes are 0 whatever happened, and the
      accelerometer x slots hold the gyroscope z averages once the
      calibrations have run. On a bus where every transfer succeeds both
      tracked ranges and the ACCEL_CONFIG range field end at 0, PWR_MGMT_1
      ends at 0, so the device is awake, and the standby bits of PWR_MGMT_2
      end clear with LP_WAKE_CTRL as it was. Whatever happens, no register
      other than PWR_MGMT_1, PWR_MGMT_2 and ACCEL_CONFIG changes. */
  method Enable(e: Env, b: Bus, d: Driver, init: Axis -> Int16) returns (r: Enabled, ghost runs: seq<Calibrations>)
    ensures Fails(e.codes, e.status(|b.trace|)) ==>
      && r.code == e.status(|b.trace|)
      && r.bus.trace == b.trace + [Write(PwrMgmt1, 0)]
      && r.batches == []
    ensures var n := |b.trace|;
      !Fails(e.codes, e.status(n)) && !Fails(e.codes, e.status(n + 1)) && !Fails(e.codes, e.status(n + 2)) ==>
        r.code == 0 && |r.batches| == 4
    ensures r.code == 0 || Fails(e.codes, r.code)
    ensures OthersZero(r.drv.offsets)
    ensures r.batches != [] ==> r.code == 0 && HoldsBatches(r.drv.offsets, GyroZ, r.batches)
    ensures r.batches == [] ==> AccelXHolds(r.drv.offsets, 0.0)
    ensures AllOk(e) ==>
      && r.code == 0 && r.batches != []
      && r.drv.accelState == 0 && r.drv.gyroState == 0
      && GetField(Get(r.bus.regs, AccelConfig), RangeSel) == 0
      && Get(r.bus.regs, PwrMgmt1) == 0
      && Get(r.bus.regs, PwrMgmt2) & 0x3F == 0
      && Get(r.bus.regs, PwrMgmt2) & 0xC0 == Get(b.regs, PwrMgmt2) & 0xC0
    ensures forall x: byte :: x != PwrMgmt1 && x != PwrMgmt2 && x != AccelConfig ==> Get(r.bus.regs, x) == Get(b.regs, x)
    ensures var p := PowerUp(e, b);
      !p.proceed ==> r.code == p.code && r.bus == p.bus && r.drv == d.(offsets := Zeroed(d.offsets)) && r.batches == []
    ensures var p := PowerUp(e, b);
      p.proceed ==>
        && |runs| == 7
        && var rr := RestoreRanges(e, runs[6].bus, runs[6].drv);
        && r.bus == rr.bus && r.drv == rr.drv
    ensures var p := PowerUp(e, b);
      p.proceed ==>
        && r.code == 0
        && ChainUpTo(CalibrationStep(e, init), CalibrationOrder, runs, 6)
        && runs[0] == Calibrations(p.bus, d.(offsets := Zeroed(d.offsets)), [])
        && CalibratedFrom(e, init, runs[5], GyroZ, runs[6])
        && r.batches == runs[6].batches
        && |r.batches| == 4
  {
    var d0 := d.(offsets := Zeroed(d.offsets));
    var p := PowerUp(e, b);
    if !p.proceed {
      return Enabled(p.code, p.bus, d0, []), [];
    }
    var cs;
    cs, runs := CalibrateAll(e, p.bus, d0, init);
    OthersStayZero(d0.offsets, cs.drv.offsets);
    var rr := RestoreRanges(e, cs.bus, cs.drv);
    SameExceptTrans(p.bus.regs, cs.bus.regs, rr.bus.regs, AccelConfig);
    assert Get(rr.bus.regs, PwrMgmt1) == Get(p.bus.regs, PwrMgmt1);
    assert Get(rr.bus.regs, PwrMgmt2) == Get(p.bus.regs, PwrMgmt2);
    r := Enabled(TwiOk, rr.bus, rr.drv, cs.batches);
  }

  /** `disable_mpu6050`: disable the temperature sensor, write 1 to PWR_MGMT_2,
      then put the device to sleep. The codes of the temperature and sleep
      steps are already translated and pass through `check_err_mpu6050` a
      second time; the raw status of the PWR_MGMT_2 write is translated once.
      The sequence stops at the first step whose translation reports a failure,
      with that translation as the result and no transfer of a later step. */
  function Disable(e: Env, b: Bus): (r: Step)
    ensures var dt := DisableTemp(e, b);
      Fails(e.codes, dt.code) ==> r == Step(CheckErr(e.codes, dt.code), dt.bus)
    ensures var dt := DisableTemp(e, b);
      var m := |dt.bus.trace|;
      !Fails(e.codes, dt.code) && Fails(e.codes, e.status(m)) ==>
        && r.code == CheckErr(e.codes, e.status(m))
        && r.bus == Bus(dt.bus.regs, dt.bus.trace + [Write(PwrMgmt2, 1)])
    ensures var dt := DisableTemp(e, b);
      var m := |dt.bus.trace|;
      var w := Bus(Commit(e, dt.bus.regs, e.status(m), PwrMgmt2, 1), dt.bus.trace + [Write(PwrMgmt2, 1)]);
      var sl := Sleep(e, w);
      !Fails(e.codes, dt.code) && !Fails(e.codes, e.status(m)) ==>
        && r.bus == sl.bus
        && r.code == (if Fails(e.codes, sl.code) then CheckErr(e.codes, sl.code) else 0)
    ensures r.code in {0, 1, 2, 20, 100}
    ensures forall x: byte :: x != PwrMgmt1 && x != PwrMgmt2 ==> Get(r.bus.regs, x) == Get(b.regs, x)
    ensures |r.bus.trace| > |b.trace| && r.bus.trace[|b.trace|] == Read(PwrMgmt1, Peek(e, b, PwrMgmt1))
  {
    var dt := DisableTemp(e, b);
    if Fails(e.codes, dt.code) then Step(CheckErr(e.codes, dt.code), dt.bus)
    else
      var w := WriteReg(e, dt.bus, PwrMgmt2, 1);
      if Fails(e.codes, w.code) then Step(CheckErr(e.codes, w.code), w.bus)
      else
        var sl := Sleep(e, w.bus);
        if Fails(e.codes, sl.code) then Step(CheckErr(e.codes, sl.code), sl.bus)
        else Step(0, sl.bus)
  }

  /** On a bus where every transfer succeeds, `disable_mpu6050` issues exactly
      five transfers and returns 0, but leaves PWR_MGMT_1 with only SLEEP set
      (the TEMP_DIS it had just written is cleared again) and PWR_MGMT_2 with
      only the z-gyroscope standby bit set, so five of the six axes stay
      active. The 0 relies on the code 0 not naming a transport failure, since
      the 0 of the temperature and sleep steps is translated a second time. */
  lemma DisableOutcome(e: Env, b: Bus)
    requires AllOk(e)
    requires !Fails(e.codes, 0)
    ensures var r := Disable(e, b);
      && r.code == 0
      && r.bus.trace == b.trace + [
           Read(PwrMgmt1, Peek(e, b, PwrMgmt1)), Write(PwrMgmt1, 0x08),
           Write(PwrMgmt2, 0x01),
           Read(PwrMgmt1, 0x08), Write(PwrMgmt1, 0x40)]
      && Get(r.bus.regs, PwrMgmt1) == 0x40
      && GetField(Get(r.bus.regs, PwrMgmt1), TempDis) == 0
      && Get(r.bus.regs, PwrMgmt2) == 0x01
      && GetField(Get(r.bus.regs, PwrMgmt2), StbyZG) == 1
      && GetField(Get(r.bus.regs, PwrMgmt2), StbyXA) == 0
  {
    var n := |b.trace|;
    assert OkAt(e, n) && OkAt(e, n + 1) && OkAt(e, n + 2) && OkAt(e, n + 3) && OkAt(e, n + 4);
    var dt := DisableTemp(e, b);
    var w := WriteReg(e, dt.bus, PwrMgmt2, 1);
    assert Get(w.bus.regs, PwrMgmt1) == 0x08;
  }

  /** Because a step's translated code is translated again, a NACK on the
      first transfer of `disable_mpu6050` is not reported when 100 is not
      itself a transport status: the sequence carries on and writes
      PWR_MGMT_2. */
  lemma DisableOverlooksNack(e: Env, b: Bus)
    requires e.codes.Distinct() && 100 !in e.codes.Failures()
    requires e.status(|b.trace|) == e.codes.nack
    ensures var r := Disable(e, b);
      |r.bus.trace| >= |b.trace| + 2 && r.bus.trace[|b.trace| + 1] == Write(PwrMgmt2, 1)
  {
    RetranslationCanHideFailure(e.codes);
  }
}
