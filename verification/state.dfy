/** The driver's process-wide state: the tracked full-scale ranges
    (`accel_state`, `gyro_state`) and the calibration offset slots. */
module DriverState {
  import opened Bits
  import opened Registers

  /** An offset slot: the axis's offset array and an index into it. */
  type Slot = (Axis, nat)

  /** Slot `i` of the accelerometer x offsets, where every calibration stores
      its averages. */
  function AccelXSlot(i: nat): Slot {
    (AccelX, i)
  }

  /** The part of an offset table outside the accelerometer x slots. */
  function OtherSlots(m: map<Slot, real>): (o: map<Slot, real>)
    ensures forall s :: s in o <==> s in m && s.0 != AccelX
  {
    map s | s in m && s.0 != AccelX :: m[s]
  }

  /** The source keeps six offset arrays of four slots, declared outside the
      files of this model; here they are one table keyed by (axis, index). */
  datatype Driver = Driver(accelState: byte, gyroState: byte, offsets: map<Slot, real>)

  /** The tracked range of a sensor. */
  function Tracked(d: Driver, s: Sensor): byte {
    if s == Accel then d.accelState else d.gyroState
  }

  /** The driver with the tracked range of `s` replaced by `v`. */
  function Track(d: Driver, s: Sensor, v: byte): (d': Driver)
    ensures Tracked(d', s) == v
    ensures s == Accel ==> d'.gyroState == d.gyroState
    ensures s == Gyro ==> d'.accelState == d.accelState
    ensures d'.offsets == d.offsets
  {
    if s == Accel then d.(accelState := v) else d.(gyroState := v)
  }

  /** The table in which the four slots of every axis hold zero. */
  function ZeroOffsets(): (t: map<Slot, real>)
    ensures forall a: Axis, i: nat :: i < 4 ==> (a, i) in t && t[(a, i)] == 0.0
  {
    map a: Axis, i: nat | i < 4 :: (a, i) := 0.0
  }

  /** The four slots of every axis other than the accelerometer x axis hold zero. */
  ghost predicate OthersZero(m: map<Slot, real>) {
    forall a: Axis, i: nat :: a != AccelX && i < 4 ==> (a, i) in m && m[(a, i)] == 0.0
  }

  /** The four accelerometer x slots all hold `x`. */
  ghost predicate AccelXHolds(m: map<Slot, real>, x: real) {
    forall j :: 0 <= j < 4 ==> AccelXSlot(j) in m && m[AccelXSlot(j)] == x
  }

  /** A table with the four slots of every axis set to zero, as
      `enable_mpu6050` leaves it first; any other slot keeps its entry. */
  function Zeroed(m: map<Slot, real>): (z: map<Slot, real>)
    ensures OthersZero(z) && AccelXHolds(z, 0.0)
  {
    m + ZeroOffsets()
  }

  /** Slots outside the accelerometer x ones that agree with a table holding
      zero there hold zero as well. */
  lemma OthersStayZero(m0: map<Slot, real>, m: map<Slot, real>)
    requires OthersZero(m0)
    requires OtherSlots(m) == OtherSlots(m0)
    ensures OthersZero(m)
  {
    forall a: Axis, i: nat | a != AccelX && i < 4
      ensures (a, i) in m && m[(a, i)] == 0.0
    {
      assert (a, i) in OtherSlots(m0);
    }
  }
}
