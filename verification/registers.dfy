/** The MPU6050 register map as the driver's header declares it, the bit-field
    layout of the registers the driver edits, and the header's named codes. */
module Registers {
  import opened Bits

  // Configuration and control registers.
  const GyroConfig: byte := 0x1B
  const AccelConfig: byte := 0x1C
  const IntEnable: byte := 0x38
  const IntStatus: byte := 0x3A
  const SignalPathReset: byte := 0x68
  const PwrMgmt1: byte := 0x6B
  const PwrMgmt2: byte := 0x6C

  /** A 16-bit output of the sensor, held in a register pair: high byte at the
      lower address, low byte at the next one. */
  datatype Channel = AccelX | AccelY | AccelZ | Temp | GyroX | GyroY | GyroZ {

    /** The `*_OUT_H` register of the pair. */
    function OutH(): byte {
      match this
      case AccelX => 0x3B
      case AccelY => 0x3D
      case AccelZ => 0x3F
      case Temp => 0x41
      case GyroX => 0x43
      case GyroY => 0x45
      case GyroZ => 0x47
    }

    /** The `*_OUT_L` register of the pair. */
    function OutL(): byte {
      match this
      case AccelX => 0x3C
      case AccelY => 0x3E
      case AccelZ => 0x40
      case Temp => 0x42
      case GyroX => 0x44
      case GyroY => 0x46
      case GyroZ => 0x48
    }
  }

  /** The six motion axes: every output channel except the temperature. */
  type Axis = c: Channel | !c.Temp? witness AccelX

  /** The two sensors whose full-scale range the driver tracks. */
  datatype Sensor = Accel | Gyro

  function SensorOf(a: Axis): Sensor {
    if a.AccelX? || a.AccelY? || a.AccelZ? then Accel else Gyro
  }

  // PWR_MGMT_1 bit-fields.
  const ClkSel: Field := BitField(0, 3)
  const TempDis: Field := BitField(3, 1)
  const Cycle: Field := BitField(5, 1)
  const SleepBit: Field := BitField(6, 1)
  const DeviceReset: Field := BitField(7, 1)

  // PWR_MGMT_2 bit-fields.
  const StbyZG: Field := BitField(0, 1)
  const StbyYG: Field := BitField(1, 1)
  const StbyXG: Field := BitField(2, 1)
  const StbyZA: Field := BitField(3, 1)
  const StbyYA: Field := BitField(4, 1)
  const StbyXA: Field := BitField(5, 1)
  const LpWakeCtrl: Field := BitField(6, 2)

  /** The standby bit of PWR_MGMT_2 that belongs to an axis. */
  function StandbyField(a: Axis): Field {
    match a
    case AccelX => StbyXA
    case AccelY => StbyYA
    case AccelZ => StbyZA
    case GyroX => StbyXG
    case GyroY => StbyYG
    case GyroZ => StbyZG
  }

  /** The full-scale range field (AFS_SEL of ACCEL_CONFIG, FS_SEL of GYRO_CONFIG);
      bits 5-7 above it are the three self-test bits. */
  const RangeSel: Field := BitField(3, 2)

  // SIGNAL_PATH_RESET bits.
  const TempReset: Field := BitField(0, 1)
  const AccelReset: Field := BitField(1, 1)
  const GyroReset: Field := BitField(2, 1)

  // INT_STATUS bit-fields.
  const DataRdy: Field := BitField(0, 1)
  const I2cMst: Field := BitField(3, 1)
  const FifoOflow: Field := BitField(4, 1)

  // Bit positions in INT_ENABLE that the header names.
  const DataRdyIntEn: bv8 := 0
  const I2cMstIntEn: bv8 := 3
  const FifoIntEn: bv8 := 4

  // Interrupt cause codes that the header names.
  const DataRdyInt: nat := 3
  const I2cMstInt: nat := 4
  const FifoInt: nat := 5

  // The driver's success code and the clock source the header names.
  const TwiOk: byte := 0
  const Clk8MHz: byte := 0

  // Full-scale range codes.
  const AccelScale2G: byte := 0
  const AccelScale4G: byte := 1
  const AccelScale8G: byte := 2
  const AccelScale16G: byte := 3
  const GyroScale250: byte := 0
  const GyroScale500: byte := 1
  const GyroScale1000: byte := 2
  const GyroScale2000: byte := 3

  /** The range codes in ascending order, as the calibration sweeps them. */
  const AccelRanges: seq<byte> := [AccelScale2G, AccelScale4G, AccelScale8G, AccelScale16G]
  const GyroRanges: seq<byte> := [GyroScale250, GyroScale500, GyroScale1000, GyroScale2000]

  /** Every range code fits the 2-bit range field unchanged, and the i-th code
      of either sweep is i. */
  lemma RangeCodesFitField()
    ensures forall i :: 0 <= i < 4 ==> AccelRanges[i] as int == i && GyroRanges[i] as int == i
    ensures forall i :: 0 <= i < 4 ==> AccelRanges[i] & Ones(RangeSel) == AccelRanges[i]
    ensures forall i :: 0 <= i < 4 ==> GyroRanges[i] & Ones(RangeSel) == GyroRanges[i]
  {
  }

  /** Each output pair occupies two consecutive addresses with the high byte
      first, the pairs do not overlap, and together they tile 0x3B-0x48:
      accelerometer, then temperature, then gyroscope. */
  lemma OutputPairsTile()
    ensures forall c: Channel :: c.OutL() == c.OutH() + 1
    ensures forall c: Channel :: 0x3B <= c.OutH() && c.OutL() <= 0x48
    ensures forall c: Channel, d: Channel :: c != d ==> c.OutH() != d.OutH() && c.OutH() != d.OutL()
    ensures AccelX.OutH() == 0x3B && AccelZ.OutL() == 0x40
    ensures Temp.OutH() == 0x41 && Temp.OutL() == 0x42
    ensures GyroX.OutH() == 0x43 && GyroZ.OutL() == 0x48
  {
  }

  /** The gyroscope configuration register is not the accelerometer one. */
  lemma ConfigRegistersDistinct()
    ensures GyroConfig != AccelConfig
  {
  }

  /** The six standby bits and LP_WAKE_CTRL partition PWR_MGMT_2, and each axis
      owns a different standby bit. */
  lemma StandbyLayout()
    ensures Mask(StbyZG) | Mask(StbyYG) | Mask(StbyXG) | Mask(StbyZA) | Mask(StbyYA) | Mask(StbyXA) == 0x3F
    ensures Mask(LpWakeCtrl) == 0xC0
    ensures forall a: Axis, b: Axis :: a != b ==> StandbyField(a).lo != StandbyField(b).lo
    ensures forall a: Axis :: StandbyField(a).width == 1 && StandbyField(a).lo < 6
  {
  }

  /** The PWR_MGMT_1 fields are disjoint and leave only bit 4 unassigned. */
  lemma PowerLayout()
    ensures Mask(ClkSel) == 0x07 && Mask(TempDis) == 0x08 && Mask(Cycle) == 0x20
    ensures Mask(SleepBit) == 0x40 && Mask(DeviceReset) == 0x80
  {
  }

  /** The INT_ENABLE bit positions the header names are the positions at which
      the INT_STATUS union decodes the same three causes. */
  lemma InterruptBitsAgree()
    ensures DataRdy.lo == DataRdyIntEn && I2cMst.lo == I2cMstIntEn && FifoOflow.lo == FifoIntEn
  {
  }
}
