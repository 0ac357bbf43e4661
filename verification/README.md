# MPU6050 driver for the Xmega two-wire bus, register-level model

A model of the MPU6050 driver in `mpu6050.c` and `mpu6050.h`. Everything the driver does
on the bus is a single-register read or write. Each call turns one register-file state
and one driver state into a result code, a new register-file state and a new driver state.
The driver state is the tracked full-scale ranges `accel_state`/`gyro_state` plus the
calibration offset slots. This model states that behaviour in Dafny and proves properties
about it.

The modules follow the driver's structure:

- `Bits`: bytes, the LSB-first bit-field layout of the register unions, and the
  `data16_t`/`TEMP16_t` word layout.
- `Registers`: the register map, the field layout and the named constants of the header.
- `Status`: `check_err_mpu6050`.
- `Transport`: the bus as a register file plus a transport oracle. A `Bus` holds the
  register file and the trace of every transfer issued. An `Env` gives:
  - the status of the n-th transfer;
  - the byte the sensor presents at its self-refreshing registers (INT_STATUS and the
    outputs 0x3B-0x48) on the n-th transfer.

  A write changes the register file only when its status is OK.
- `DriverState`: `accel_state`, `gyro_state` and the offset slots.
- `Measurement`: the raw 16-bit reads and the range divisors.
- `Config`: clock source, standby bits, interrupts, the interrupt-cause decode, resets and
  the self-test stubs.
- `Scale`: setting and reading the full-scale ranges.
- `Calibration`: the six `calibrate_*` routines.
- `Power`: wake-up, sleep, the temperature switch, and the `enable`/`disable` sequences.

The driver's quirks are modelled as written and each is stated as a lemma:

- Both gyroscope range functions address ACCEL_CONFIG.
- Every calibration stores its averages in the accelerometer x offsets.
- The literal-byte writes clobber the other fields.
- `check_err_mpu6050` returns 100 and 20.
- Some callers translate a status twice.
- The interrupt-cause weights disagree with the header's names.
- `disable_mpu6050` leaves five axes active.

One more follows from `stdby_all_mpu6050` returning its raw status. A failed read of
PWR_MGMT_2 whose status value happens to be 0 lets `enable_mpu6050` go on without the
standby write. The contract of `Power.PowerUp` covers that path.

## Model

| member | source | states |
|---|---|---|
| Bits.GetField | mpu6050.c:44-100 | Reading a bit-field member gives the field's bits of the byte, shifted down, never more than the field can hold |
| Bits.SetField | mpu6050.c:44-100 | Assigning a bit-field member stores the value truncated to the field's width and leaves every bit outside the field unchanged |
| Bits.Word | mpu6050.h:252-258 | The word assembled from an output pair has DATAL equal to the low register and DATAH equal to the high register, and is negative exactly when the high byte's top bit is set |
| Bits.WordOfBytes | mpu6050.h:252-258 | The byte views and the word view of the union are inverse: splitting any int16 into DATAL/DATAH and reassembling gives it back |
| Bits.WordExamples | mpu6050.h:252-266 | (0x34, 0x12) is 0x1234, (0xFF, 0xFF) is -1 and (0x00, 0x80) is -32768 under the union's layout |
| Registers.RangeCodesFitField | mpu6050.h:234-242 | The accelerometer and gyroscope range codes are 0, 1, 2, 3 in sweep order and fit the 2-bit range field unchanged |
| Registers.OutputPairsTile | mpu6050.h:129-150 | Each output pair has its high byte at the lower address and its low byte at the next one; the pairs are disjoint and tile 0x3B-0x48, with accelerometer, then temperature, then gyroscope |
| Registers.ConfigRegistersDistinct | mpu6050.h:79-80 | GYRO_CONFIG and ACCEL_CONFIG are different registers |
| Registers.StandbyLayout | mpu6050.c:67-78 | The six standby bits fill bits 0-5 of PWR_MGMT_2, LP_WAKE_CTRL fills bits 6-7, and each axis owns a distinct single standby bit |
| Registers.PowerLayout | mpu6050.c:55-65 | CLKSEL, TEMP_DIS, CYCLE, SLEEP and DEVICE_RESET occupy bits 0-2, 3, 5, 6 and 7 of PWR_MGMT_1 |
| Registers.InterruptBitsAgree | mpu6050.h:206-208 | The INT_ENABLE bit positions of the header are the positions at which the INT_STATUS union decodes the same causes |
| Status.CheckErr | mpu6050.c:116-123 | Every status maps to one of 0, 1, 2, 20, 100; 0 exactly for OK or an unknown status; with distinct constants BUS_IN_USE gives 1, NACK 100, DATA_NOT_SEND 20 and DATA_NOT_RECEIVED 2 |
| Status.CheckErrExceedsDocumentedCodes | mpu6050.c:108-123 | A NACK and an unsent byte produce codes outside the 0/1/2 the doc comment lists |
| Status.RetranslationCanHideFailure | mpu6050.c:177-191 | When 100 is not itself a transport status, translating a NACK's code a second time reports success |
| Transport.Modify | mpu6050.c:1076-1089 | A register edit reads first; a failed read issues no write; otherwise exactly one write of the edited byte follows; when the failure is reported translated, the code is 0 exactly when neither transfer failed; reported raw, it is the failing transfer's status, which is 0 when a failure status has the value 0; no other register changes |
| Transport.Store | mpu6050.c:981-991 | A single write: the register changes only if the write is acknowledged OK, and the code is the translated status |
| DriverState.Track | mpu6050.c:102-103 | The two ranges are independent: after recording `v` for one sensor, reading that sensor's range gives `v`, while the other sensor's range and every offset slot read as before |
| DriverState.Zeroed | mpu6050.c:135-143 | After the zeroing loop all four slots of all six axes hold 0 |
| Measurement.ReadRaw | mpu6050.c:239-255 | OUT_L is read strictly before OUT_H; a failed first read ends the call with its translated code and no second read; the word is written exactly when both reads succeed, the code is then 0, and its DATAL/DATAH are the two bytes read |
| Measurement.ReadTempRaw | mpu6050.c:824-832 | TEMP_OUT_L is read first; a failed read returns its translation with no second read and no word; otherwise TEMP_OUT_H is read next and the code is that read's translation; the word is produced exactly when neither read fails, and its low and high bytes are the bytes read, assembled through the `TEMP16_t` union; the code is 0 exactly when the word is produced |
| Measurement.DivisorsSpanFullScale | mpu6050.c:532-599 | Each range's divisor times its full-scale value is 32768: the divisors spread the int16 range over ±2/4/8/16 g and ±250/500/1000/2000 °/s |
| Measurement.AccelToG | mpu6050.c:570-599 | A defined range divides the count by its divisor; any other range code returns the count unscaled |
| Measurement.GyroToDps | mpu6050.c:532-561 | A defined range divides the count by its divisor; any other range code returns the count unscaled |
| Config.ClockByte | mpu6050.c:1083 | The written PWR_MGMT_1 byte has bits 0-2 equal to the low three bits of `clk_sel` and bits 3-7 as read |
| Config.ClockSelect | mpu6050.c:1076-1089 | `clk_sel_mpu6050` is a read-modify-write of PWR_MGMT_1 that writes the byte read with only CLKSEL replaced, and writes nothing after a failed read |
| Config.StandbyAllByte | mpu6050.c:1260-1265 | The rebuilt PWR_MGMT_2 keeps LP_WAKE_CTRL and clears all six standby bits |
| Config.StandbyAll | mpu6050.c:1253-1271 | `stdby_all_mpu6050` writes that byte whatever `on_off` is, and reports a failure as the raw transport status |
| Config.StandbyByte | mpu6050.c:1288-1290 | The axis's standby bit becomes the low bit of `on_off`; the other seven bits are unchanged |
| Config.StandbyAxis | mpu6050.c:1281-1296 | The per-axis standby call is a read-modify-write of PWR_MGMT_2 that changes only that axis's bit and reports failures raw |
| Config.InterruptByte | mpu6050.c:855 | `1 << k` truncated to a byte has exactly bit k set for k < 8 and no bit set otherwise |
| Config.EnableInterrupt | mpu6050.c:849-861 | INT_ENABLE is read, then overwritten with the single requested bit, so every other enabled interrupt is cleared |
| Config.DisableInterrupt | mpu6050.c:871-883 | INT_ENABLE is read, then overwritten with 0 whichever interrupt was named |
| Config.CausesOf | mpu6050.c:44-53 | The INT_STATUS union flags data-ready at bit 0, I2C master at bit 3 and FIFO overflow at bit 4 |
| Config.InterruptCause | mpu6050.c:899-911 | A failed read returns the translated code; otherwise the result is the documented code of the flagged causes, and every other status bit is ignored |
| Config.CauseCodesDecode | mpu6050.c:885-898 | The code determines the flagged causes uniquely, is one of 0, 3, 4, 5, 7, 8, 9, 12, and never equals a failure code of `check_err_mpu6050` |
| Config.CauseCodesDisagreeWithHeader | mpu6050.h:213-215 | The header's DATA_RDY_INT (3) is the code the decode gives a FIFO overflow, and its FIFO_INT (5) is the code it gives data-ready |
| Config.Reset | mpu6050.c:981-991 | A single write of PWR_MGMT_1 with only DEVICE_RESET set, with no read before it |
| Config.ResetAccel | mpu6050.c:1006-1016 | A single write of SIGNAL_PATH_RESET with only the accelerometer reset bit set |
| Config.ResetGyro | mpu6050.c:1031-1041 | A single write of SIGNAL_PATH_RESET with only the gyroscope reset bit set |
| Config.ResetTemp | mpu6050.c:1056-1066 | A single write of SIGNAL_PATH_RESET with only the temperature reset bit set |
| Config.SelfTest | mpu6050.c:1101-1143 | The four self-test stubs return 0 and touch neither the bus nor the driver state |
| Scale.RangeByte | mpu6050.c:1161-1163 | The written configuration byte has bits 3-4 equal to the low two bits of `scale` and every other bit as read |
| Scale.SetScale | mpu6050.c:1153-1171 | A read-modify-write of ACCEL_CONFIG; the code is 0 exactly when neither transfer failed, and only then is `scale`, untruncated, recorded as the tracked range; no other register changes |
| Scale.AccelSetScale | mpu6050.c:1153-1171 | A successful set records `scale` in `accel_state`; a failed one leaves the driver state unchanged; no register other than ACCEL_CONFIG changes |
| Scale.GyroSetScale | mpu6050.c:1203-1221 | The same edit of ACCEL_CONFIG, recorded in `gyro_state`; GYRO_CONFIG and every other register except ACCEL_CONFIG are never changed |
| Scale.GetScale | mpu6050.c:1181-1193 | One read of ACCEL_CONFIG; a failure leaves `*scale` unwritten and the state unchanged; otherwise `*scale` is bits 3-4 of the byte read, in 0..3, and becomes the tracked range |
| Scale.AccelGetScale | mpu6050.c:1181-1193 | Success exactly when the read does not fail; then `*scale` is bits 3-4 of the ACCEL_CONFIG byte read, in 0..3, and becomes `accel_state`; on failure the code is the read's translation, `*scale` is untouched and nothing changes |
| Scale.GyroGetScale | mpu6050.c:1231-1243 | Reads ACCEL_CONFIG too; success exactly when that read does not fail; then `*scale` is bits 3-4 of the byte read, in 0..3, and becomes `gyro_state`; on failure the code is the read's translation and nothing changes |
| Scale.SetThenGet | mpu6050.c:1153-1193 | Setting a range and reading it back returns the range truncated to two bits, while the set had tracked it untruncated |
| Scale.SetScaleSucceeds | mpu6050.c:1153-1171 | When both transfers report OK the set returns 0, tracks `scale`, and leaves its low two bits in the range field |
| Scale.GyroRangeOverwritesAccelRange | mpu6050.c:1181-1221 | A successful gyroscope range change is what the accelerometer range getter reads back next |
| Calibration.Wrap32 | mpu6050.c:611 | An `int32_t` value always lies in the 32-bit range and equals the exact value when that value fits |
| Calibration.RunningSum | mpu6050.c:619-625 | The running `int32_t` sum stays in the 32-bit range after every addition |
| Calibration.RunningSumIsExact | mpu6050.c:615-625 | Up to 700 int16 samples never overflow the 32-bit sum: it equals the exact sum, which lies between 700 times the int16 extremes |
| Calibration.TruncDiv | mpu6050.c:802 | C integer division truncates toward zero for negative as well as positive sums |
| Calibration.Offset | mpu6050.c:627 | The stored offset times 700 is the sum for every axis but accelerometer z, whose offset plus one is the truncated quotient |
| Calibration.OffsetBounds | mpu6050.c:627 | The offset of a sum within 700 int16 extremes lies in the int16 range, one lower for accelerometer z |
| Calibration.BatchOffsetBounds | mpu6050.c:615-627 | The offset of a full batch of 700 samples lies in the int16 range, one lower for accelerometer z |
| Calibration.AccelZOffsetTruncates | mpu6050.c:802 | Accelerometer z truncates before subtracting one: a sum of 1050 gives 1.5 on x but 0 on z, and -1050 gives -2 on z |
| Calibration.Collect | mpu6050.c:619-625 | The inner loop takes exactly `count` samples without changing any register, and the `value` left behind is the last sample added |
| Calibration.CollectReads | mpu6050.c:619-624 | On any bus, sample k is the word of the OUT_L/OUT_H pair that read k fetched when both of its transfers succeed, and otherwise the value the sample before left (the initial `value` for the first); read k starts where read k-1 ended, one transfer later after a failed first read and two otherwise, and the loop ends where its last read ended |
| Calibration.StoreOffset | mpu6050.c:627 | The batch's offset, computed from the running 32-bit sum, equals the offset of the exact sum and is stored in accelerometer x slot `i`, whichever axis is calibrated |
| Calibration.RangeStage | mpu6050.c:615-627 | One outer pass collects 700 samples, changes only accelerometer x slot `i` and only the calibrated sensor's tracked range, and changes no register other than ACCEL_CONFIG |
| Calibration.SweepFrom | mpu6050.c:614-628 | The outer loop from index `i` yields one batch of 700 samples per remaining range, and the table is the input with those batches' offsets stored slot by slot |
| Calibration.Finish | mpu6050.c:630-633 | The close is a read and a write of ACCEL_CONFIG setting range 0; its code is 0 exactly when both transfers succeed, a failed read gives that read's translation after one transfer; the tracked range becomes 0 only on success; the code is translated a second time and the calibration returns 1 exactly when that second translation reports a failure, and otherwise 0 |
| Calibration.FinishSucceeds | mpu6050.c:630-633 | When both closing transfers report OK, range 0 is in ACCEL_CONFIG and in the tracked state, and the result is 0 unless the code 0 itself names a transport failure |
| Calibration.Calibrate | mpu6050.c:608-634 | Four full batches; after the outer loop, the closing read and write of ACCEL_CONFIG give a restore code that is 0 exactly when both succeed (a failed read gives its translation after one transfer); the result code is 0 or 1, and 1 exactly when the second translation of that restore code reports a failure; the table is the input with the batch offsets stored; the other sensor's range and every register but ACCEL_CONFIG are unchanged |
| Calibration.FillFourSlots | mpu6050.c:614-628 | After a sweep the four accelerometer x slots hold the four batch offsets, within the int16 range, and every other slot is as before |
| Calibration.CalibrationFillsAccelXSlots | mpu6050.c:608-809 | Whatever the bus does, a calibration of any axis overwrites exactly the four accelerometer x slots and leaves the other five axes' slots alone |
| Calibration.ReadSteady | mpu6050.c:239-255 | When every transfer succeeds and the axis's output holds `v`, a raw read returns `v` |
| Calibration.CollectSteady | mpu6050.c:619-625 | In that environment the inner loop collects `count` copies of `v` |
| Calibration.OffsetOfConstant | mpu6050.c:783-809 | The offset of 700 equal samples `v` is `v`, and `v - 1` on accelerometer z |
| Calibration.SweepSteady | mpu6050.c:614-628 | When every inner loop is steady, every batch of the sweep is 700 copies of `v` |
| Calibration.CalibrateSteadyBatches | mpu6050.c:608-634 | When every inner loop is steady, all four batches of a calibration are 700 copies of `v` |
| Calibration.CalibrateSteadyOffsets | mpu6050.c:608-809 | Calibrating an axis whose output steadily holds `v` on a bus where every transfer succeeds leaves `v` in all four accelerometer x slots, or `v - 1` for accelerometer z |
| Calibration.CalibrateSteadyRestores | mpu6050.c:630-633 | On such a bus the calibration ends with range 0 in ACCEL_CONFIG and in the tracked state, and returns 0 unless the code 0 names a failure |
| Power.WakeUp | mpu6050.c:200-210 | PWR_MGMT_1 is read, then 0 is written; nothing is written after a failed read |
| Power.Sleep | mpu6050.c:219-229 | PWR_MGMT_1 is read, then overwritten with only SLEEP set |
| Power.DisableTemp | mpu6050.c:940-950 | PWR_MGMT_1 is read, then overwritten with only TEMP_DIS set |
| Power.EnableTemp | mpu6050.c:959-969 | PWR_MGMT_1 is read, then overwritten with 0 |
| Power.PowerWritesClobber | mpu6050.c:219-229 | The sleep byte is 0x40 and the temperature-off byte 0x08: each keeps nothing of the register it read, so sleeping clears TEMP_DIS and CLKSEL, and disabling the temperature sensor clears SLEEP |
| Power.CalibrateOne | mpu6050.c:156 | The bus, driver and batches are those of the calibration of that axis from the given state; it leaves its batch offsets in the accelerometer x slots, other slots alone, and only ACCEL_CONFIG changed |
| Power.CalibrateAll | mpu6050.c:156-162 | The six calibrations run in the source's order, each from the state the one before left, starting from the given bus and driver; the batches are those of the last, the gyroscope z calibration, and only its averages survive, in the accelerometer x slots; no other slot changes, and no register but ACCEL_CONFIG changes |
| Power.RestoreRanges | mpu6050.c:164-165 | The accelerometer range setting comes first, starting with a read of ACCEL_CONFIG; the gyroscope range setting then runs on the bus and driver it left, whatever its code: a read of ACCEL_CONFIG and, unless that fails, a write of the byte with range 0, with the gyroscope range tracked only when neither transfer fails; the offsets never change and no register but ACCEL_CONFIG changes; on a bus where every transfer succeeds both tracked ranges and the range field of ACCEL_CONFIG end at 0 |
| Power.RestoresWhenAllOk | mpu6050.c:164-165 | On a bus where every transfer succeeds, both closing range settings leave range 0 tracked for both sensors and in ACCEL_CONFIG |
| Power.AfterWake | mpu6050.c:153-154 | After a PWR_MGMT_1 write that did not fail, the code is the raw status of the first failing transfer of `stdby_all_mpu6050`, or 0; the transfers are that write, the read of PWR_MGMT_2 and, unless the read fails, the write of its standby bits cleared; only PWR_MGMT_1 and PWR_MGMT_2 can change |
| Power.StandbyClearedWhenAllOk | mpu6050.c:153-154 | On a bus where every transfer succeeds, the standby step goes on with PWR_MGMT_1 at 0 and PWR_MGMT_2 at the byte read with every standby bit cleared |
| Power.ClearStandby | mpu6050.c:153-154 | The code is the raw status of the first failing transfer of `stdby_all_mpu6050`, or 0, and the enable goes on exactly when it is 0; a failed read issues no write; only PWR_MGMT_2 can change, to the byte read with its standby bits cleared when the write commits |
| Power.PowerUp | mpu6050.c:146-154 | A failing PWR_MGMT_1 write stops with its raw status after that one write; otherwise the code is the raw status of the first failing transfer of `stdby_all_mpu6050`, or 0; the enable goes on exactly when the PWR_MGMT_1 write did not fail and the code is 0; any stop carries a failure code; when the PWR_MGMT_1 write does not fail, the transfers are that write, the read of PWR_MGMT_2 and (when that read succeeds) the write of its standby bits cleared, with PWR_MGMT_1 and PWR_MGMT_2 holding what the committed writes put there; no other register changes; on a bus where every transfer succeeds it goes on with PWR_MGMT_1 at 0, the six standby bits clear and LP_WAKE_CTRL kept |
| Power.Enable | mpu6050.c:132-168 | A stop in the first two steps returns their code and bus with the offsets zeroed and no calibration; past them the returned bus and driver are those the two closing range settings leave when run on the bus and driver of the last calibration, and the result is 0 on any bus, and the six calibrations run in order from the bus those steps left and the zeroed offsets, the batches being those of the gyroscope z calibration; when the PWR_MGMT_1 write and both transfers of the standby step do not fail, the result is 0 with four batches; five axes' offsets end at 0 in every case; after the calibrations the accelerometer x slots hold the gyroscope z averages and the result is 0; only PWR_MGMT_1, PWR_MGMT_2 and ACCEL_CONFIG can change; on a bus where every transfer succeeds the result is 0, both ranges end at 0, PWR_MGMT_1 is 0, the six standby bits are clear and LP_WAKE_CTRL is kept |
| Power.Disable | mpu6050.c:177-191 | A failing translation of the temperature step's code ends the sequence with that translation and its bus; a failed PWR_MGMT_2 write ends it with that status's translation after the one write, with no sleep transfers and no register changed by it; otherwise the sleep step follows on the bus the write left and its code, translated again, is the result; the result is one of the translated codes, the first transfer is the read of PWR_MGMT_1, and no register other than PWR_MGMT_1 and PWR_MGMT_2 changes |
| Power.DisableOutcome | mpu6050.c:177-191 | On a bus where every transfer succeeds there are exactly five transfers and the result is 0; PWR_MGMT_1 ends with only SLEEP set, so TEMP_DIS is cleared again, and PWR_MGMT_2 ends with only the z-gyroscope standby bit, so five axes stay active |
| Power.DisableOverlooksNack | mpu6050.c:180-184 | Because the step's code is translated twice, a NACK on the first transfer is not reported when 100 is not itself a transport status, and the sequence goes on to write PWR_MGMT_2 |

## Left out

- The two-wire transport. `read_8bit_register_TWI`, `write_8bit_register_TWI` and the
  numeric values of the status constants come from the transport library's header, which
  is not part of this model. The bus is a register file plus an oracle for each transfer's
  status, and the status constants are a `TwiCodes` parameter.
- Registers the sensor refreshes by itself (INT_STATUS and the output pairs) read from the
  oracle. Every other register reads what was last written successfully, and 0 when it was
  never written.
- Floating point. The offsets, the divisions of the conversions and the averages are exact
  `real` arithmetic; float rounding is not modelled.
- The float getters `get_{accel,gyro}_{x,y,z}_mpu6050` (mpu6050.c:390-523). They subtract a
  float offset and convert. The raw read they start with (`ReadRaw`) and the conversions
  (`AccelToG`, `GyroToDps`) are modelled; the float subtraction and its int16 narrowing
  are not.
- The temperature formula of `get_temp_mpu6050` (divide by 340, add 36.53). Only the
  register part (`ReadTempRaw`) is modelled.
- `ext_sens_value_mpu6050`: it reads into a local variable and discards it, and external
  sensors are unsupported.
- `temp_set_scale_mpu6050` and `temp_get_scale_mpu6050` are declared in the header but
  never defined.
- The register macros whose values do not fit a byte (WHO_AM_I 0x752, I2C_SLV3_CTRL 0x302)
  are unused by the driver and are not modelled.
- The generated documentation under `html/` holds no logic.
- The declared type of the offset arrays is outside the two files. The six arrays are one
  table keyed by (axis, index), and the stored values are exact quotients.
- `OFF`, passed to `stdby_all_mpu6050` by `enable_mpu6050`, is defined outside the two
  files. `stdby_all_mpu6050` ignores its argument, so 0 is passed.
- The uninitialised local `value` of the calibrations is an explicit `init` parameter. A
  failed read keeps the previous value, which is then added.
- Calibration.Calibrate: the 32-bit wrap of `sum` is modelled (`Wrap32`) and proved never
  to happen for 700 samples. The stored offset is therefore stated on the exact sum.
- Config.InterruptByte: `1 << k` is computed on the 16-bit `int` of avr-gcc and truncated
  to a byte on assignment. Shift counts 8 to 14 give 0 there. From 15 on the shift is
  undefined in C (section 6.5.7 of ISO/IEC 9899:2011), and the model gives 0 for those too.
- Power.DisableOutcome: requires that the code 0 does not itself name a transport failure.
  The already translated codes of the temperature and sleep steps are translated again, and without that requirement
  a 0 could read as a failure.
- Platform details (`TWI_MODULE`, the AVR headers), timing and concurrency are left out.
