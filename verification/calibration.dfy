/** The calibration routines `calibrate_{accel,gyro}_{x,y,z}_mpu6050`: for each
    of the four ranges, select the range, average 700 raw samples of the axis
    and store the average as the offset of that range. */
module Calibration {
  import opened Wrappers
  import opened Bits
  import opened Registers
  import opened Status
  import opened Transport
  import opened Measurement
  import opened DriverState
  import opened Scale

  /** Samples averaged per range. */
  const SampleCount: nat := 700

  const Int32Min: int := -0x8000_0000
  const Int32Modulus: int := 0x1_0000_0000

  /** An `int32_t` result: the value reduced into the 32-bit two's-complement range. */
  function Wrap32(x: int): (r: int)
    ensures Int32Min <= r < -Int32Min
    ensures Int32Min <= x < -Int32Min ==> r == x
  {
    (x - Int32Min) % Int32Modulus + Int32Min
  }

  /** The exact sum of the samples, added from first to last. */
  function Sum(s: seq<Int16>): int {
    if |s| == 0 then 0 else Sum(s[..|s| - 1]) + s[|s| - 1]
  }

  /** The `int32_t sum` after `sum += value` for every sample in turn. */
  function RunningSum(s: seq<Int16>): (r: int)
    ensures Int32Min <= r < -Int32Min
  {
    if |s| == 0 then 0 else Wrap32(RunningSum(s[..|s| - 1]) + s[|s| - 1])
  }

  /** Up to 700 samples never overflow the 32-bit sum: the running sum is the
      exact sum, which lies between 700 times the int16 extremes. */
  lemma {:induction false} RunningSumIsExact(s: seq<Int16>)
    requires |s| <= SampleCount
    ensures RunningSum(s) == Sum(s)
    ensures -32768 * |s| <= Sum(s) <= 32767 * |s|
  {
    if |s| > 0 {
      RunningSumIsExact(s[..|s| - 1]);
    }
  }

  /** C's `/` on integers: the quotient truncated toward zero. */
  function TruncDiv(x: int, d: int): (q: int)
    requires d > 0
    ensures x >= 0 ==> q * d <= x < q * d + d
    ensures x < 0 ==> q * d - d < x <= q * d
  {
    if x >= 0 then x / d else -((-x) / d)
  }

  /** The offset stored for one range: `(float) sum / 700` for every axis but
      the accelerometer z axis, which stores `(float) (sum / 700) - 1`, the
      truncated integer quotient minus one. */
  function Offset(a: Axis, sum: int): (o: real)
    ensures a != AccelZ ==> o * SampleCount as real == sum as real
    ensures a == AccelZ ==> o + 1.0 == TruncDiv(sum, SampleCount) as real
  {
    if a == AccelZ then (TruncDiv(sum, SampleCount) - 1) as real else sum as real / SampleCount as real
  }

  /** The offset of a sum of 700 int16 samples lies in the int16 range, one
      lower for the accelerometer z axis. */
  lemma OffsetBounds(a: Axis, sum: int)
    requires -32768 * SampleCount <= sum <= 32767 * SampleCount
    ensures -32769.0 <= Offset(a, sum) <= 32767.0
    ensures a != AccelZ ==> -32768.0 <= Offset(a, sum)
  {
  }

  /** The offset of a full batch lies in the int16 range, one lower for the
      accelerometer z axis: the batch's sum is bounded by 700 int16 extremes. */
  lemma BatchOffsetBounds(a: Axis, samples: seq<Int16>)
    requires |samples| == SampleCount
    ensures -32769.0 <= Offset(a, Sum(samples)) <= 32767.0
    ensures a != AccelZ ==> -32768.0 <= Offset(a, Sum(samples))
  {
    RunningSumIsExact(samples);
    OffsetBounds(a, Sum(samples));
  }

  /** The z-axis formula truncates before subtracting one: a sum of 1050
      averages 1.5 on every other axis but gives 0 on z. */
  lemma AccelZOffsetTruncates()
    ensures Offset(AccelX, 1050) == 1.5
    ensures Offset(AccelZ, 1050) == 0.0
    ensures Offset(AccelZ, -1050) == -2.0
  {
  }

  /** The samples of an inner loop, the value of `value` after it, and the bus. */
  datatype Sampling = Sampling(samples: seq<Int16>, last: Int16, bus: Bus)

  /** `count` iterations of the inner loop: each reads the axis once; a read
      that fails leaves `value` as it was, and that stale value is added. */
  function Collect(e: Env, b: Bus, a: Axis, count: nat, value: Int16): (r: Sampling)
    ensures |r.samples| == count
    ensures r.last == if count == 0 then value else r.samples[count - 1]
    ensures r.bus.regs == b.regs
    decreases count
  {
    if count == 0 then Sampling([], value, b)
    else
      var rd := ReadRaw(e, b, a);
      var v := if rd.data.Some? then rd.data.value else value;
      var rest := Collect(e, rd.bus, a, count - 1, v);
      Sampling([v] + rest.samples, rest.last, rest.bus)
  }

  /** The transfer after a raw read whose first transfer is `p`: a failed
      first read ends it after one transfer, otherwise it takes two. */
  function ReadEnd(e: Env, p: nat): nat {
    if Fails(e.codes, e.status(p)) then p + 1 else p + 2
  }

  /** The first transfer of read `k` of an inner loop whose first read
      starts at transfer `n`. */
  function ReadStart(e: Env, n: nat, k: nat): nat
    decreases k
  {
    if k == 0 then n else ReadEnd(e, ReadStart(e, n, k - 1))
  }

  lemma {:induction false} ReadStartShift(e: Env, n: nat, k: nat)
    ensures ReadStart(e, n, k + 1) == ReadStart(e, ReadEnd(e, n), k)
    decreases k
  {
    if k > 0 {
      ReadStartShift(e, n, k - 1);
    }
  }

  /** Both transfers of a raw read whose first transfer is `p` succeed. */
  predicate PairOk(e: Env, p: nat) {
    !Fails(e.codes, e.status(p)) && !Fails(e.codes, e.status(p + 1))
  }

  /** What `value` holds before sample `k`: the previous sample, or the value
      it had before the loop. */
  function Before(s: seq<Int16>, k: nat, value: Int16): Int16
    requires k <= |s|
  {
    if k == 0 then value else s[k - 1]
  }

  /** The sample a raw read starting at transfer `p` leaves in `value`: the
      word of the pair it fetched when both of its reads succeed, and
      otherwise the stale `prev`. */
  function Sampled(e: Env, regs: map<int, byte>, p: nat, a: Axis, prev: Int16): Int16 {
    if PairOk(e, p) then Word(Fetch(e, regs, p, a.OutL()), Fetch(e, regs, p + 1, a.OutH())) else prev
  }

  /** Sample `k` is what read `k` of the loop left behind, given the sample
      before it. */
  ghost predicate SamplesRead(e: Env, regs: map<int, byte>, n: nat, a: Axis, samples: seq<Int16>, value: Int16) {
    forall k :: 0 <= k < |samples| ==> SampleAt(e, regs, n, a, samples, value, k)
  }

  ghost predicate SampleAt(e: Env, regs: map<int, byte>, n: nat, a: Axis, samples: seq<Int16>, value: Int16, k: nat)
    requires k < |samples|
  {
    samples[k] == Sampled(e, regs, ReadStart(e, n, k), a, Before(samples, k, value))
  }

  /** One raw read as the inner loop uses it: the sample it contributes is
      the word fetched when both reads succeed and the stale `value`
      otherwise, and it ends at the transfer `ReadEnd` names. */
  lemma ReadSample(e: Env, b: Bus, a: Axis, value: Int16)
    ensures var rd := ReadRaw(e, b, a);
      var n := |b.trace|;
      && rd.bus.regs == b.regs
      && |rd.bus.trace| == ReadEnd(e, n)
      && (if rd.data.Some? then rd.data.value else value) == Sampled(e, b.regs, n, a, value)
  {
  }

  /** A sample read at transfer `n` in front of samples read from the
      transfer after it. */
  lemma SamplesReadCons(e: Env, regs: map<int, byte>, n: nat, a: Axis, v: Int16, rest: seq<Int16>, value: Int16)
    requires v == Sampled(e, regs, n, a, value)
    requires SamplesRead(e, regs, ReadEnd(e, n), a, rest, v)
    ensures SamplesRead(e, regs, n, a, [v] + rest, value)
  {
    var s := [v] + rest;
    forall k | 0 <= k < |s|
      ensures SampleAt(e, regs, n, a, s, value, k)
    {
      if k > 0 {
        assert SampleAt(e, regs, ReadEnd(e, n), a, rest, v, k - 1);
        ReadStartShift(e, n, k - 1);
        assert s[k] == rest[k - 1];
        assert Before(s, k, value) == Before(rest, k - 1, v);
      }
    }
  }

  /** On any bus, every sample of the inner loop is the word read for it or,
      after a failed read, the value carried over from the sample before; the
      loop ends at the transfer after its last read. */
  lemma {:induction false} CollectReads(e: Env, b: Bus, a: Axis, count: nat, value: Int16)
    ensures var r := Collect(e, b, a, count, value);
      && |r.bus.trace| == ReadStart(e, |b.trace|, count)
      && SamplesRead(e, b.regs, |b.trace|, a, r.samples, value)
    decreases count
  {
    if count > 0 {
      var n := |b.trace|;
      var rd := ReadRaw(e, b, a);
      var v := if rd.data.Some? then rd.data.value else value;
      ReadSample(e, b, a, value);
      CollectReads(e, rd.bus, a, count - 1, v);
      ReadStartShift(e, n, count - 1);
      SamplesReadCons(e, b.regs, n, a, v, Collect(e, rd.bus, a, count - 1, v).samples, value);
    }
  }

  /** The range codes a calibration sweeps for a sensor. */
  function Ranges(s: Sensor): seq<byte> {
    if s == Accel then AccelRanges else GyroRanges
  }

  /** The driver after `ACCELX_OFFSET_MPU6050[i] = ...` with the average of a
      batch of samples: the 32-bit running sum never wraps, so the stored
      offset is that of the exact sum. */
  function StoreOffset(d: Driver, a: Axis, i: nat, samples: seq<Int16>): (d': Driver)
    requires |samples| == SampleCount
    ensures d'.offsets == d.offsets[AccelXSlot(i) := Offset(a, Sum(samples))]
    ensures d'.accelState == d.accelState && d'.gyroState == d.gyroState
  {
    RunningSumIsExact(samples);
    d.(offsets := d.offsets[AccelXSlot(i) := Offset(a, RunningSum(samples))])
  }

  /** The bus, driver and `value` after one pass of the outer loop, and the
      samples it averaged. */
  datatype Stage = Stage(bus: Bus, drv: Driver, samples: seq<Int16>, last: Int16)

  /** Pass `i` of the outer loop: select range `i` (ignoring the result), add
      up 700 samples, and store their average in accelerometer x slot `i`,
      whichever axis is being calibrated. */
  function RangeStage(e: Env, b: Bus, d: Driver, a: Axis, i: nat, value: Int16): (r: Stage)
    requires i < 4
    ensures |r.samples| == SampleCount
    ensures r.drv.offsets == d.offsets[AccelXSlot(i) := Offset(a, Sum(r.samples))]
    ensures SensorOf(a) == Accel ==> r.drv.gyroState == d.gyroState
    ensures SensorOf(a) == Gyro ==> r.drv.accelState == d.accelState
    ensures SameExcept(b.regs, r.bus.regs, AccelConfig)
  {
    var sel := SetScale(e, b, d, SensorOf(a), Ranges(SensorOf(a))[i]);
    var c := Collect(e, sel.bus, a, SampleCount, value);
    Stage(c.bus, StoreOffset(sel.drv, a, i, c.samples), c.samples, c.last)
  }

  /** The bus, driver and `value` after the outer loop, and the samples
      averaged for each range it visited. */
  datatype Sweep = Sweep(bus: Bus, drv: Driver, batches: seq<seq<Int16>>, last: Int16)

  /** The offset table after storing the average of each batch in turn, the
      first in accelerometer x slot `i`, the next in slot `i + 1`, and so on. */
  function Fill(m: map<Slot, real>, a: Axis, i: nat, batches: seq<seq<Int16>>): map<Slot, real>
    decreases |batches|
  {
    if |batches| == 0 then m
    else Fill(m[AccelXSlot(i) := Offset(a, Sum(batches[0]))], a, i + 1, batches[1..])
  }

  /** Filling with one more batch in front stores that batch first. */
  lemma FillCons(m: map<Slot, real>, a: Axis, i: nat, x: seq<Int16>, rest: seq<seq<Int16>>)
    ensures Fill(m, a, i, [x] + rest) == Fill(m[AccelXSlot(i) := Offset(a, Sum(x))], a, i + 1, rest)
  {
    assert ([x] + rest)[1..] == rest;
  }

  /** After filling, slot `i + j` holds the offset of batch `j`. */
  lemma {:induction false} FillSlot(m: map<Slot, real>, a: Axis, i: nat, batches: seq<seq<Int16>>, j: nat)
    requires j < |batches|
    ensures AccelXSlot(i + j) in Fill(m, a, i, batches)
    ensures Fill(m, a, i, batches)[AccelXSlot(i + j)] == Offset(a, Sum(batches[j]))
    decreases |batches|
  {
    var m' := m[AccelXSlot(i) := Offset(a, Sum(batches[0]))];
    if j == 0 {
      FillKeeps(m', a, i + 1, batches[1..], AccelXSlot(i));
    } else {
      FillSlot(m', a, i + 1, batches[1..], j - 1);
    }
  }

  /** Filling leaves alone every slot outside the accelerometer x slots it visits. */
  lemma {:induction false} FillKeeps(m: map<Slot, real>, a: Axis, i: nat, batches: seq<seq<Int16>>, s: Slot)
    requires s in m && !(s.0 == AccelX && i <= s.1 < i + |batches|)
    ensures s in Fill(m, a, i, batches) && Fill(m, a, i, batches)[s] == m[s]
    decreases |batches|
  {
    if |batches| > 0 {
      FillKeeps(m[AccelXSlot(i) := Offset(a, Sum(batches[0]))], a, i + 1, batches[1..], s);
    }
  }

  /** Filling adds no slot other than the accelerometer x slots it visits. */
  lemma {:induction false} FillAdds(m: map<Slot, real>, a: Axis, i: nat, batches: seq<seq<Int16>>, s: Slot)
    requires s in Fill(m, a, i, batches)
    ensures s in m || (s.0 == AccelX && i <= s.1 < i + |batches|)
    decreases |batches|
  {
    if |batches| > 0 {
      FillAdds(m[AccelXSlot(i) := Offset(a, Sum(batches[0]))], a, i + 1, batches[1..], s);
    }
  }

  /** Every batch holds the 700 samples of one pass. */
  ghost predicate FullBatches(batches: seq<seq<Int16>>) {
    forall j :: 0 <= j < |batches| ==> |batches[j]| == SampleCount
  }

  lemma FullBatchesCons(x: seq<Int16>, rest: seq<seq<Int16>>)
    requires |x| == SampleCount && FullBatches(rest)
    ensures FullBatches([x] + rest)
  {
  }

  /** The outer loop from range index `i` on. */
  function SweepFrom(e: Env, b: Bus, d: Driver, a: Axis, i: nat, value: Int16): (r: Sweep)
    requires i <= 4
    ensures |r.batches| == 4 - i
    ensures FullBatches(r.batches)
    ensures r.drv.offsets == Fill(d.offsets, a, i, r.batches)
    ensures SensorOf(a) == Accel ==> r.drv.gyroState == d.gyroState
    ensures SensorOf(a) == Gyro ==> r.drv.accelState == d.accelState
    ensures SameExcept(b.regs, r.bus.regs, AccelConfig)
    decreases 4 - i
  {
    if i == 4 then Sweep(b, d, [], value)
    else
      var st := RangeStage(e, b, d, a, i, value);
      var rest := SweepFrom(e, st.bus, st.drv, a, i + 1, st.last);
      FillCons(d.offsets, a, i, st.samples, rest.batches);
      FullBatchesCons(st.samples, rest.batches);
      SameExceptTrans(b.regs, st.bus.regs, rest.bus.regs, AccelConfig);
      Sweep(rest.bus, rest.drv, [st.samples] + rest.batches, rest.last)
  }

  /** The result code of a calibration, the bus and driver after it, the
      samples averaged per range, and the code of the closing range restore. */
  datatype Calibrated = Calibrated(code: byte, bus: Bus, drv: Driver, batches: seq<seq<Int16>>, restore: byte)

  /** The close of a calibration whose outer loop left `sw`: the restore code
      and bus are those of a read of ACCEL_CONFIG followed, unless it failed,
      by a write of that byte with range 0; the code is 0 exactly when
      neither transfer fails, and a failed read ends the close after that one
      transfer with its translation. */
  ghost predicate ClosedAfter(e: Env, sw: Sweep, r: Calibrated) {
    var n := |sw.bus.trace|;
    && ReadThenWrite(e, sw.bus, Step(r.restore, r.bus), AccelConfig, RangeByte(Peek(e, sw.bus, AccelConfig), 0), Translated)
    && (r.restore == 0 <==> !Fails(e.codes, e.status(n)) && !Fails(e.codes, e.status(n + 1)))
    && (Fails(e.codes, e.status(n)) ==> r.restore == CheckErr(e.codes, e.status(n)) && |r.bus.trace| == n + 1)
  }

  /** The close of a calibration after the sweep `sw`: the range is set back
      to 0 by a read and a write of ACCEL_CONFIG, and that call's already
      translated code is passed through `check_err_mpu6050` again; the
      calibration returns 1 exactly when that second translation reports a
      failure. The restore code is 0 exactly when both closing transfers
      succeed, and a failed closing read stops the close with its
      translation and no write. */
  function Finish(e: Env, sw: Sweep, a: Axis): (r: Calibrated)
    ensures ReadThenWrite(e, sw.bus, Step(r.restore, r.bus), AccelConfig, RangeByte(Peek(e, sw.bus, AccelConfig), 0), Translated)
    ensures r.restore == 0 <==> !Fails(e.codes, e.status(|sw.bus.trace|)) && !Fails(e.codes, e.status(|sw.bus.trace| + 1))
    ensures Fails(e.codes, e.status(|sw.bus.trace|)) ==>
      && r.restore == CheckErr(e.codes, e.status(|sw.bus.trace|))
      && |r.bus.trace| == |sw.bus.trace| + 1
    ensures r.drv == if r.restore == 0 then Track(sw.drv, SensorOf(a), 0) else sw.drv
    ensures r.code == 1 <==> Fails(e.codes, r.restore)
    ensures r.code in {0, 1}
    ensures r.restore in {0, 1, 2, 20, 100}
    ensures r.restore == 0 ==> Tracked(r.drv, SensorOf(a)) == 0
    ensures r.batches == sw.batches
    ensures r.drv.offsets == sw.drv.offsets
    ensures SensorOf(a) == Accel ==> r.drv.gyroState == sw.drv.gyroState
    ensures SensorOf(a) == Gyro ==> r.drv.accelState == sw.drv.accelState
    ensures SameExcept(sw.bus.regs, r.bus.regs, AccelConfig)
    ensures ClosedAfter(e, sw, r)
  {
    var fin := SetScale(e, sw.bus, sw.drv, SensorOf(a), 0);
    Calibrated(if Fails(e.codes, fin.code) then 1 else 0, fin.bus, fin.drv, sw.batches, fin.code)
  }

  /** When both transfers of the closing range setting report OK, the
      calibration restores range 0 in ACCEL_CONFIG and in the tracked state,
      and returns 0 unless the code 0 itself names a transport failure. */
  lemma FinishSucceeds(e: Env, sw: Sweep, a: Axis)
    requires OkAt(e, |sw.bus.trace|) && OkAt(e, |sw.bus.trace| + 1)
    ensures var r := Finish(e, sw, a);
      && r.restore == 0
      && Tracked(r.drv, SensorOf(a)) == 0
      && GetField(Get(r.bus.regs, AccelConfig), RangeSel) == 0
      && (!Fails(e.codes, 0) ==> r.code == 0)
      && (Fails(e.codes, 0) ==> r.code == 1)
  {
    SetScaleSucceeds(e, sw.bus, sw.drv, SensorOf(a), 0);
  }

  /** `calibrate_{accel,gyro}_{x,y,z}_mpu6050`. `init` stands for the
      uninitialised local `value`, which a failed first read leaves in place.
      After the outer loop the range is set back to 0; the result is 1
      exactly when that closing setting fails, as seen through the second
      translation of its code. */
  function Calibrate(e: Env, b: Bus, d: Driver, a: Axis, init: Int16): (r: Calibrated)
    ensures r.code == 1 <==> Fails(e.codes, r.restore)
    ensures r.code in {0, 1}
    ensures r.restore in {0, 1, 2, 20, 100}
    ensures r.restore == 0 ==> Tracked(r.drv, SensorOf(a)) == 0
    ensures |r.batches| == 4
    ensures FullBatches(r.batches)
    ensures r.drv.offsets == Fill(d.offsets, a, 0, r.batches)
    ensures SensorOf(a) == Accel ==> r.drv.gyroState == d.gyroState
    ensures SensorOf(a) == Gyro ==> r.drv.accelState == d.accelState
    ensures SameExcept(b.regs, r.bus.regs, AccelConfig)
    ensures ClosedAfter(e, SweepFrom(e, b, d, a, 0, init), r)
  {
    var sw := SweepFrom(e, b, d, a, 0, init);
    var r := Finish(e, sw, a);
    SameExceptTrans(b.regs, sw.bus.regs, r.bus.regs, AccelConfig);
    r
  }

  /** A full sweep's table: the four accelerometer x slots hold the offsets
      of the four batches, within the int16 range, and every other slot is
      as it was. */
  lemma FillFourSlots(m: map<Slot, real>, a: Axis, batches: seq<seq<Int16>>)
    requires |batches| == 4
    requires FullBatches(batches)
    ensures forall j :: 0 <= j < 4 ==>
      && AccelXSlot(j) in Fill(m, a, 0, batches)
      && Fill(m, a, 0, batches)[AccelXSlot(j)] == Offset(a, Sum(batches[j]))
      && -32769.0 <= Fill(m, a, 0, batches)[AccelXSlot(j)] <= 32767.0
    ensures forall s :: s in m && s.0 != AccelX ==> s in Fill(m, a, 0, batches) && Fill(m, a, 0, batches)[s] == m[s]
    ensures forall s :: s in Fill(m, a, 0, batches) ==> s in m || (s.0 == AccelX && s.1 < 4)
    ensures OtherSlots(Fill(m, a, 0, batches)) == OtherSlots(m)
  {
    var t := Fill(m, a, 0, batches);
    forall j | 0 <= j < 4
      ensures AccelXSlot(j) in t && t[AccelXSlot(j)] == Offset(a, Sum(batches[j]))
      ensures -32769.0 <= Offset(a, Sum(batches[j])) <= 32767.0
    {
      FillSlot(m, a, 0, batches, j);
      BatchOffsetBounds(a, batches[j]);
    }
    forall s | s in m && s.0 != AccelX
      ensures s in t && t[s] == m[s]
    {
      FillKeeps(m, a, 0, batches, s);
    }
    forall s | s in t
      ensures s in m || (s.0 == AccelX && s.1 < 4)
    {
      FillAdds(m, a, 0, batches, s);
    }
    assert OtherSlots(t) == OtherSlots(m);
  }

  /** Accelerometer x slot `j` holds the offset that axis `a` computes from
      batch `j`, for each of the four batches. */
  ghost predicate HoldsBatches(m: map<Slot, real>, a: Axis, batches: seq<seq<Int16>>) {
    && |batches| == 4
    && forall j :: 0 <= j < 4 ==> AccelXSlot(j) in m && m[AccelXSlot(j)] == Offset(a, Sum(batches[j]))
  }

  /** Whatever the bus does, a calibration of any axis overwrites exactly the
      four accelerometer x slots, each with the offset of its range's 700
      samples, and leaves the slots of the other five axes alone. */
  lemma CalibrationFillsAccelXSlots(e: Env, b: Bus, d: Driver, a: Axis, init: Int16)
    ensures var r := Calibrate(e, b, d, a, init);
      && (forall j :: 0 <= j < 4 ==>
            && AccelXSlot(j) in r.drv.offsets
            && r.drv.offsets[AccelXSlot(j)] == Offset(a, Sum(r.batches[j]))
            && -32769.0 <= r.drv.offsets[AccelXSlot(j)] <= 32767.0)
      && OtherSlots(r.drv.offsets) == OtherSlots(d.offsets)
  {
    var r := Calibrate(e, b, d, a, init);
    FillFourSlots(d.offsets, a, r.batches);
  }

  /** An environment in which every transfer succeeds and the axis's output
      pair always holds the word `v`. */
  ghost predicate Steady(e: Env, a: Axis, v: Int16) {
    && AllOk(e)
    && (forall n: nat :: e.sample(n, a.OutL()) as int == LowByte(v) && e.sample(n, a.OutH()) as int == HighByte(v))
  }

  /** Every sample of `s` is `v`. */
  ghost predicate Constant(s: seq<Int16>, v: Int16) {
    forall k :: 0 <= k < |s| ==> s[k] == v
  }

  /** `n` copies of `v`. */
  function Repeat(v: Int16, n: nat): (s: seq<Int16>)
    ensures |s| == n
  {
    if n == 0 then [] else [v] + Repeat(v, n - 1)
  }

  lemma {:induction false} RepeatConstant(v: Int16, n: nat)
    ensures Constant(Repeat(v, n), v)
  {
    if n > 0 {
      RepeatConstant(v, n - 1);
    }
  }

  /** In a steady environment a read of the axis succeeds and returns `v`. */
  lemma ReadSteady(e: Env, b: Bus, a: Axis, v: Int16)
    requires Steady(e, a, v)
    ensures ReadRaw(e, b, a).data == Some(v)
  {
    var rd := ReadRaw(e, b, a);
    assert OkAt(e, |b.trace|) && OkAt(e, |b.trace| + 1);
    assert Live(a.OutL()) && Live(a.OutH());
    WordOfBytes(rd.data.value);
    WordOfBytes(v);
  }

  /** In a steady environment every read returns `v`. */
  lemma {:induction false} CollectSteady(e: Env, b: Bus, a: Axis, count: nat, value: Int16, v: Int16)
    requires Steady(e, a, v)
    ensures Collect(e, b, a, count, value).samples == Repeat(v, count)
    decreases count
  {
    if count > 0 {
      ReadSteady(e, b, a, v);
      CollectSteady(e, ReadRaw(e, b, a).bus, a, count - 1, v, v);
    }
  }

  /** `|s|` equal samples sum to `|s|` times the sample. */
  lemma {:induction false} SumConstant(s: seq<Int16>, v: Int16)
    requires Constant(s, v)
    ensures Sum(s) == |s| * v
  {
    if |s| > 0 {
      SumConstant(s[..|s| - 1], v);
    }
  }

  /** The offset of 700 equal samples `v`: `v` itself, and `v - 1` on the
      accelerometer z axis. */
  lemma OffsetOfConstant(a: Axis, v: Int16)
    ensures Offset(a, SampleCount * v) == if a == AccelZ then v as real - 1.0 else v as real
  {
    var q := TruncDiv(SampleCount * v, SampleCount);
    assert q * 700 <= 700 * v < q * 700 + 700 || q * 700 - 700 < 700 * v <= q * 700;
    assert q == v;
  }

  /** One pass of the outer loop contributes the first batch of the sweep. */
  lemma SweepUnfold(e: Env, b: Bus, d: Driver, a: Axis, i: nat, value: Int16)
    requires i < 4
    ensures var st := RangeStage(e, b, d, a, i, value);
      SweepFrom(e, b, d, a, i, value).batches == [st.samples] + SweepFrom(e, st.bus, st.drv, a, i + 1, st.last).batches
  {
  }

  /** The batch of a pass is the samples collected after its range selection. */
  lemma StageSamples(e: Env, b: Bus, d: Driver, a: Axis, i: nat, value: Int16)
    requires i < 4
    ensures RangeStage(e, b, d, a, i, value).samples
      == Collect(e, SetScale(e, b, d, SensorOf(a), Ranges(SensorOf(a))[i]).bus, a, SampleCount, value).samples
  {
  }

  /** Every inner loop of 700 reads, from any bus, collects 700 copies of `v`. */
  ghost predicate CollectsSteady(e: Env, a: Axis, v: Int16) {
    forall b: Bus, value: Int16 :: Collect(e, b, a, SampleCount, value).samples == Repeat(v, SampleCount)
  }

  /** A steady environment makes every inner loop steady. */
  lemma AllCollectsSteady(e: Env, a: Axis, v: Int16)
    requires Steady(e, a, v)
    ensures CollectsSteady(e, a, v)
  {
    forall b: Bus, value: Int16
      ensures Collect(e, b, a, SampleCount, value).samples == Repeat(v, SampleCount)
    {
      CollectSteady(e, b, a, SampleCount, value, v);
    }
  }

  /** Every batch is 700 copies of `v`. */
  ghost predicate AllRepeat(batches: seq<seq<Int16>>, v: Int16) {
    forall j :: 0 <= j < |batches| ==> batches[j] == Repeat(v, SampleCount)
  }

  lemma AllRepeatCons(x: seq<Int16>, rest: seq<seq<Int16>>, v: Int16)
    requires x == Repeat(v, SampleCount) && AllRepeat(rest, v)
    ensures AllRepeat([x] + rest, v)
  {
  }

  /** When every inner loop is steady, every batch of the sweep from `i` is
      700 copies of `v`. */
  lemma {:induction false} SweepSteady(e: Env, b: Bus, d: Driver, a: Axis, i: nat, value: Int16, v: Int16)
    requires i <= 4
    requires CollectsSteady(e, a, v)
    ensures AllRepeat(SweepFrom(e, b, d, a, i, value).batches, v)
    decreases 4 - i
  {
    if i < 4 {
      var st := RangeStage(e, b, d, a, i, value);
      SweepUnfold(e, b, d, a, i, value);
      StageSamples(e, b, d, a, i, value);
      SweepSteady(e, st.bus, st.drv, a, i + 1, st.last, v);
      AllRepeatCons(st.samples, SweepFrom(e, st.bus, st.drv, a, i + 1, st.last).batches, v);
    }
  }

  /** When every inner loop is steady, all four batches of a calibration are
      700 copies of `v`. */
  lemma CalibrateSteadyBatches(e: Env, b: Bus, d: Driver, a: Axis, init: Int16, v: Int16)
    requires CollectsSteady(e, a, v)
    ensures AllRepeat(Calibrate(e, b, d, a, init).batches, v)
  {
    SweepSteady(e, b, d, a, 0, init, v);
  }

  /** A table holding the offsets of four batches of 700 copies of `v` holds
      `v` in every accelerometer x slot, or `v - 1` for the accelerometer z
      axis. */
  lemma SteadyTable(m: map<Slot, real>, a: Axis, batches: seq<seq<Int16>>, v: Int16)
    requires HoldsBatches(m, a, batches)
    requires AllRepeat(batches, v)
    ensures AccelXHolds(m, if a == AccelZ then v as real - 1.0 else v as real)
  {
    RepeatConstant(v, SampleCount);
    SumConstant(Repeat(v, SampleCount), v);
    OffsetOfConstant(a, v);
  }

  /** Calibrating an axis whose output holds `v` on a bus where every transfer
      succeeds leaves `v` in all four accelerometer x slots, or `v - 1` when
      the axis is the accelerometer z axis. */
  lemma CalibrateSteadyOffsets(e: Env, b: Bus, d: Driver, a: Axis, init: Int16, v: Int16)
    requires Steady(e, a, v)
    ensures AccelXHolds(Calibrate(e, b, d, a, init).drv.offsets, if a == AccelZ then v as real - 1.0 else v as real)
  {
    var r := Calibrate(e, b, d, a, init);
    CalibrationFillsAccelXSlots(e, b, d, a, init);
    AllCollectsSteady(e, a, v);
    CalibrateSteadyBatches(e, b, d, a, init, v);
    SteadyTable(r.drv.offsets, a, r.batches, v);
  }

  /** On a bus where every transfer succeeds a calibration ends with the range
      field of ACCEL_CONFIG at 0 and the sensor's tracked range 0, and returns
      0 unless the code 0 itself names a transport failure. */
  lemma CalibrateSteadyRestores(e: Env, b: Bus, d: Driver, a: Axis, init: Int16)
    requires AllOk(e)
    ensures var r := Calibrate(e, b, d, a, init);
      && r.restore == 0
      && Tracked(r.drv, SensorOf(a)) == 0
      && GetField(Get(r.bus.regs, AccelConfig), RangeSel) == 0
      && (!Fails(e.codes, 0) ==> r.code == 0)
      && (Fails(e.codes, 0) ==> r.code == 1)
  {
    var sw := SweepFrom(e, b, d, a, 0, init);
    assert OkAt(e, |sw.bus.trace|) && OkAt(e, |sw.bus.trace| + 1);
    FinishSucceeds(e, sw, a);
  }
}
