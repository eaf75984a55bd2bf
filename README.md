# ADXL362 driver model

This project models the LibDriver ADXL362 driver (`src/driver_adxl362.c` and
`src/driver_adxl362.h`). The ADXL362 is a three-axis accelerometer on an SPI bus.
The driver keeps a handle that holds:
- the caller's function pointers (SPI, delay, debug print, interrupt callback);
- an `inited` flag;
- a 1024-byte scratch buffer.

Every public operation checks the handle, then talks to the chip in register reads and
writes: a read-modify-write of one bit field, a little-endian pair, or a burst of samples.
A status byte is fanned out into callbacks.

The model is arranged as follows:
- **`Bits`**: the fixed-width arithmetic. A bit field is set by clear-then-OR and read by
  shift-and-mask. A 16-bit word splits into bytes and joins back. There are
  two's-complement casts.
- **`Adxl362Types`**: the header's enumerations as subset types of `bv8`, the status masks,
  the frame record and the buffer size. It also holds the lemmas about these constants.
- **`Adxl362Registers`**: the register map and the SPI address bytes. The chip is a register
  file of 256 bytes that bursts auto-increment over, together with the bit-field layout of
  every control register. There, one generic load/store lemma is proved: a stored value
  that fits reads back, and nothing outside its field changes. Every accessor instantiates it.
- **`Adxl362Decode`**: the pure parts of the driver:
  - sample decoding;
  - FIFO word decoding and its encoding inverse;
  - the FIFO length policy;
  - the range scale and output data rate that a conversion selects;
  - the order in which the interrupt handler turns a status byte into callbacks.
- **`Adxl362Findings`**: three defects of the driver, each once as written and once as
  intended.
- **`Adxl362`**: the `Driver` class. Its fields are:
  - the linked function pointers (`links`);
  - `buf`;
  - `inited`;
  - the register file `regs`;
  - a ghost `trace` of every bus transfer, delay and callback, each with its outcome.

  Every public operation is a method. Bus calls succeed or fail nondeterministically. Each
  method's postcondition states the whole new state:
  - which transfers happened, in order;
  - how `regs`, `buf` and the caller's arrays changed;
  - the status code: 0 success, 1 bus failure, 3 not initialised, 4 bad argument, failed
    identity check or failed standby in deinit, 5 failed reset.

## Model

| member | source | states |
|---|---|---|
| Bits.GetField | src/driver_adxl362.c:1274 | a getter's `(prev >> shift) & mask` never exceeds the field's mask |
| Bits.SetThenGetField | src/driver_adxl362.c:1229-1230 | clear-then-OR of a value that fits its field, read back by shift-and-mask, gives the value |
| Bits.SetFieldKeepsOtherBits | src/driver_adxl362.c:1229-1230 | clear-then-OR of a value that fits leaves every bit outside the field unchanged |
| Bits.SetFieldKeepsDisjointField | src/driver_adxl362.c:1475-1476 | setting one field leaves every disjoint field of the same byte unchanged |
| Bits.UnmaskedValueLeaks | src/driver_adxl362.c:1476 | the setters do not mask the value: the 3-bit ODR field given 8 sets bit 3, which belongs to the next field |
| Bits.ClearField | src/driver_adxl362.c:356 | clearing a field is `prev & ~mask`, the form deinit uses |
| Bits.SplitJoin | src/driver_adxl362.c:2049-2050 | splitting a 16-bit value into `& 0xFF` and `>> 8` and joining the bytes again gives the value |
| Bits.JoinSplit | src/driver_adxl362.c:2094 | joining `buf[1] << 8 \| buf[0]` and splitting again gives the bytes |
| Bits.Int16 | src/driver_adxl362.c:479 | the `(int16_t)` cast: negative exactly when the word is 0x8000 or more; adding 65536 to a negative result gives the word back |
| Bits.Int8 | src/driver_adxl362.c:420 | the `(int8_t)` cast: negative exactly when the byte is 0x80 or more; adding 256 to a negative result gives the byte back |
| Adxl362Types.FrameTypeOf | src/driver_adxl362.c:3377 | the cast of a 2-bit tag to a frame type keeps its numeric value |
| Adxl362Types.InterruptMapBelowLevelBit | src/driver_adxl362.h:150-159 | the interrupt-map values are exactly the bit positions 0 to 6, all below the level bit 7 |
| Adxl362Types.StatusMasksCoverByte | src/driver_adxl362.h:164-174 | the eight status masks are the single bits 7 to 0, pairwise disjoint, covering the byte |
| Adxl362Types.FrameTypesCoverTag | src/driver_adxl362.h:190-196 | the four frame tags cover every 2-bit value, and tag and type convert exactly both ways |
| Adxl362Types.NoiseModesCoincide | src/driver_adxl362.h:112-117 | every noise mode is 0 |
| Adxl362Types.EnumsFitTheirFields | src/driver_adxl362.h:62-145 | every enumeration fits the width of the field it is written into |
| Adxl362Types.BufferHoldsWholeFifo | src/driver_adxl362.h:222 | the scratch buffer is 1024 bytes, two for each of the 512 FIFO entries |
| Adxl362Registers.AddressBytes | src/driver_adxl362.c:100-133 | a register read is addressed 0x0B:reg and a write 0x0A:reg |
| Adxl362Registers.AddressesDistinct | src/driver_adxl362.c:100-133 | different registers, or a read and a write, never share an address |
| Adxl362Registers.WriteBurstAt | src/driver_adxl362.c:123-133 | a burst write puts byte k at register reg+k and changes no other register |
| Adxl362Registers.WriteThenBurst | src/driver_adxl362.c:100-133 | a burst read of the registers just written returns the written bytes |
| Adxl362Registers.InterruptMapField | src/driver_adxl362.c:980-981 | a pin-map source selects the one-bit field at its own bit position |
| Adxl362Registers.FifoControlLayout | src/driver_adxl362.c:627-628 | FIFO_CONTROL's sample-bit-8, temperature and mode fields are valid and pairwise disjoint |
| Adxl362Registers.FilterCtlLayout | src/driver_adxl362.c:1229-1230 | FILTER_CTL's range, bandwidth, trigger and ODR fields are valid and pairwise disjoint |
| Adxl362Registers.PowerCtlLayout | src/driver_adxl362.c:1639-1640 | POWER_CTL's external clock, noise, wake-up, autosleep and mode fields are valid and pairwise disjoint |
| Adxl362Registers.ActInactCtlLayout | src/driver_adxl362.c:2840-2841 | ACT_INACT_CTL's five fields are valid and pairwise disjoint |
| Adxl362Registers.InterruptMapLayout | src/driver_adxl362.c:980-981 | two different map sources, and any source and the level bit, are separate fields |
| Adxl362Registers.LoadAfterStore | src/driver_adxl362.c:1208-1277 | a getter returns what its setter stored, for every value that fits |
| Adxl362Registers.StoreChangesOnly | src/driver_adxl362.c:1208-1240 | a setter changes no other register and no other bit of its own register |
| Adxl362Registers.ChangesOnlyKeepsSeparate | src/driver_adxl362.c:1454-1486 | a change confined to one field leaves every separate field's value unchanged |
| Adxl362Registers.BurstOne | src/driver_adxl362.c:100-110 | a one-byte read returns the register itself |
| Adxl362Decode.Sample | src/driver_adxl362.c:479 | a little-endian sample is negative exactly when its high byte is 0x80 or more |
| Adxl362Decode.SampleValue | src/driver_adxl362.c:3263-3265 | a sample is its signed high byte times 256 plus its unsigned low byte |
| Adxl362Decode.DecodeWord | src/driver_adxl362.c:3369-3377 | a FIFO word decodes to the tag in bits 15:14 and a raw value that agrees with bits 13:0, is negative exactly when bit 12 is set, and lies in -0x3000..0x2FFF |
| Adxl362Decode.FifoWordRoundTrip | src/driver_adxl362.c:3369-3377 | decoding inverts the device's encoding of every type and every 13-bit sample |
| Adxl362Decode.DecodeFifo | src/driver_adxl362.c:3367-3377 | a transfer of n entries decodes to exactly n frames |
| Adxl362Decode.DecodeFifoOfEncoded | src/driver_adxl362.c:3367-3377 | decoding a transfer gives back every frame the device encoded into it, entry i from bytes 2i and 2i+1 |
| Adxl362Decode.DecodeFifoLocal | src/driver_adxl362.c:3369-3377 | frame i depends only on bytes 2i and 2i+1 of the transfer |
| Adxl362Decode.DecodeFifoPrefix | src/driver_adxl362.c:3367-3377 | decoding fewer entries gives a prefix of the longer decoding |
| Adxl362Decode.FifoLength | src/driver_adxl362.c:3330-3351 | the transfer count never exceeds the device count, 512 or the caller's capacity; it is their minimum rounded down to a multiple of 4 with temperature, of 3 without; twice it fits the buffer |
| Adxl362Decode.RangeScale | src/driver_adxl362.c:2140-2152 | FILTER_CTL bits 7:6 select 1000 for 2g, 500 for 4g and 235 for every other code, in both directions |
| Adxl362Decode.OdrRate | src/driver_adxl362.c:2321-2345 | FILTER_CTL bits 2:0 select 12.5, 25, 50, 100 or 200 Hz for codes 0 to 4 and 400 Hz otherwise |
| Adxl362Decode.ScaleOfStoredRange | src/driver_adxl362.c:1208-1240 | after setting a range, every conversion selects that range's scale |
| Adxl362Decode.RateOfStoredOdr | src/driver_adxl362.c:1454-1486 | after setting an ODR, every time conversion selects that rate, and the range scale is unchanged |
| Adxl362Decode.AssertedMembers | src/driver_adxl362.c:3434-3490 | a mask is dispatched exactly when it is listed and its bit is set |
| Adxl362Decode.AssertedDescending | src/driver_adxl362.c:3434-3490 | dispatch keeps the strictly descending order of the masks |
| Adxl362Decode.IrqCallbackOrder | src/driver_adxl362.c:3434-3490 | for any status byte the callbacks are exactly the set bits, bit 7 first, each once |
| Adxl362Decode.CallbacksOfDispatch | src/driver_adxl362.c:3434-3490 | leaving the drain aside, the handler's events pass exactly the asserted masks to the callback, in order |
| Adxl362Decode.DrainOnOverrunOnly | src/driver_adxl362.c:3462-3469 | the drain happens exactly when the overrun bit is set |
| Adxl362Decode.IrqDrainPlacement | src/driver_adxl362.c:3462-3469 | the drain happens exactly for a set overrun bit, directly before the overrun callback, and in no other step |
| Adxl362Decode.DispatchSteps | src/driver_adxl362.c:3434-3490 | eight consecutive tests, bit 7 to bit 0, produce the dispatch of the status byte |
| Adxl362Findings.LoadFifoSample | src/driver_adxl362.c:860 | the sample count as the getter reads it is at most 511 |
| Adxl362Findings.FifoSampleDropsBit8 | src/driver_adxl362.c:798-809 | as written, the two writes to FIFO_SAMPLES leave only the low byte, and FIFO_CONTROL bit 3 is unchanged |
| Adxl362Findings.FifoSampleRoundTripAsWritten | src/driver_adxl362.c:798-809 | as written, a count reads back exactly when its bit 8 already equals FIFO_CONTROL bit 3 |
| Adxl362Findings.FifoSample256ReadsZero | src/driver_adxl362.c:800 | as written, 256 on a device with FIFO_CONTROL bit 3 clear reads back as 0 |
| Adxl362Findings.FifoSampleRoundTripIntended | src/driver_adxl362.c:771-863 | with bit 8 written to FIFO_CONTROL, every count up to 511 reads back, and the temperature and mode fields are kept |
| Adxl362Findings.FifoCounterAsWritten | src/driver_adxl362.c:552-553 | as written, the counter is always 0 or 512 |
| Adxl362Findings.FifoCounterDropsCount | src/driver_adxl362.c:553 | as written, five entries are reported as none |
| Adxl362Findings.FifoCounterKeepsCount | src/driver_adxl362.c:552-553 | masked with 0x3FF, every 10-bit count is reported unchanged and the upper bits are ignored |
| Adxl362Findings.NoiseModesIndistinguishable | src/driver_adxl362.h:114-116 | as written, storing low or ultra-low noise mode leaves exactly the registers that normal mode leaves |
| Adxl362Findings.NoiseModesDistinguishable | src/driver_adxl362.h:112-117 | with the values 0, 1 and 2, each mode reads back as itself and different modes differ |
| Adxl362.Threshold | src/driver_adxl362.c:2094-2095 | a threshold read back is at most 0x7FF |
| Adxl362.Word16RoundTrip | src/driver_adxl362.c:2613-2675 | every 16-bit inactivity time written little-endian reads back unchanged |
| Adxl362.ThresholdRoundTrip | src/driver_adxl362.c:2029-2098 | every threshold up to 0x7FF written by the setter is returned by the getter |
| Adxl362.ByteRoundTrip | src/driver_adxl362.c:2218-2279 | every activity time byte written reads back |
| Adxl362.Driver.constructor | src/driver_adxl362.h:258 | a fresh handle is not initialised, has a 1024-byte buffer and no history |
| Adxl362.Driver.ReadRegisters | src/driver_adxl362.c:100-110 | a read at 0x0B:reg returns the registers from reg upwards and changes nothing |
| Adxl362.Driver.WriteRegisters | src/driver_adxl362.c:123-133 | a write at 0x0A:reg changes the registers only when it succeeds |
| Adxl362.Driver.ReadFifoInto | src/driver_adxl362.c:145-155 | a FIFO read at plain address 0x0D touches only the first len bytes of the destination, and none when it fails |
| Adxl362.Driver.UpdateField | src/driver_adxl362.c:606-638 | the setter body: code 3 before any transfer when not initialised; otherwise read, write back the byte with the field replaced, and store only when both succeed |
| Adxl362.Driver.FetchField | src/driver_adxl362.c:651-675 | the getter body: code 3 before any transfer when not initialised; otherwise one read, and on success the field's value |
| Adxl362.Driver.SetFifoTemperature | src/driver_adxl362.c:606-638 | stores FIFO_CONTROL bit 2 with the generic setter contract; on success it reads back and nothing else changes |
| Adxl362.Driver.GetFifoTemperature | src/driver_adxl362.c:651-675 | returns FIFO_CONTROL bit 2 with the generic getter contract |
| Adxl362.Driver.SetFifoMode | src/driver_adxl362.c:688-720 | stores FIFO_CONTROL bits 1:0; on success it reads back and nothing else changes |
| Adxl362.Driver.GetFifoMode | src/driver_adxl362.c:733-757 | returns FIFO_CONTROL bits 1:0 |
| Adxl362.Driver.SetInterruptPin1ActiveLevel | src/driver_adxl362.c:876-908 | stores INTMAP1 bit 7; on success it reads back and nothing else changes |
| Adxl362.Driver.GetInterruptPin1ActiveLevel | src/driver_adxl362.c:921-945 | returns INTMAP1 bit 7 |
| Adxl362.Driver.SetInterruptPin1Map | src/driver_adxl362.c:959-991 | stores the INTMAP1 bit of the given source; on success it reads back and nothing else changes |
| Adxl362.Driver.GetInterruptPin1Map | src/driver_adxl362.c:1005-1029 | returns the INTMAP1 bit of the given source |
| Adxl362.Driver.SetInterruptPin2ActiveLevel | src/driver_adxl362.c:1042-1074 | stores INTMAP2 bit 7; on success it reads back and nothing else changes |
| Adxl362.Driver.GetInterruptPin2ActiveLevel | src/driver_adxl362.c:1087-1111 | returns INTMAP2 bit 7 |
| Adxl362.Driver.SetInterruptPin2Map | src/driver_adxl362.c:1125-1157 | stores the INTMAP2 bit of the given source; on success it reads back and nothing else changes |
| Adxl362.Driver.GetInterruptPin2Map | src/driver_adxl362.c:1171-1195 | returns the INTMAP2 bit of the given source |
| Adxl362.Driver.SetRange | src/driver_adxl362.c:1208-1240 | stores FILTER_CTL bits 7:6; on success it reads back and nothing else changes |
| Adxl362.Driver.GetRange | src/driver_adxl362.c:1253-1277 | returns FILTER_CTL bits 7:6 |
| Adxl362.Driver.SetBandwidth | src/driver_adxl362.c:1290-1322 | stores FILTER_CTL bit 4; on success it reads back and nothing else changes |
| Adxl362.Driver.GetBandwidth | src/driver_adxl362.c:1335-1359 | returns FILTER_CTL bit 4 |
| Adxl362.Driver.SetInterruptPin2AsExternalSamplingTrigger | src/driver_adxl362.c:1372-1404 | stores FILTER_CTL bit 3; on success it reads back and nothing else changes |
| Adxl362.Driver.GetInterruptPin2AsExternalSamplingTrigger | src/driver_adxl362.c:1417-1441 | returns FILTER_CTL bit 3 |
| Adxl362.Driver.SetOdr | src/driver_adxl362.c:1454-1486 | stores FILTER_CTL bits 2:0; on success it reads back and nothing else changes |
| Adxl362.Driver.GetOdr | src/driver_adxl362.c:1499-1523 | returns FILTER_CTL bits 2:0 |
| Adxl362.Driver.SetInterruptPin1AsExternalClock | src/driver_adxl362.c:1536-1568 | stores POWER_CTL bit 6; on success it reads back and nothing else changes |
| Adxl362.Driver.GetInterruptPin1AsExternalClock | src/driver_adxl362.c:1581-1605 | returns POWER_CTL bit 6 |
| Adxl362.Driver.SetNoiseMode | src/driver_adxl362.c:1618-1650 | stores POWER_CTL bits 5:4; on success it reads back and nothing else changes |
| Adxl362.Driver.GetNoiseMode | src/driver_adxl362.c:1663-1687 | returns POWER_CTL bits 5:4 |
| Adxl362.Driver.SetWakeUp | src/driver_adxl362.c:1700-1732 | stores POWER_CTL bit 3; on success it reads back and nothing else changes |
| Adxl362.Driver.GetWakeUp | src/driver_adxl362.c:1745-1769 | returns POWER_CTL bit 3 |
| Adxl362.Driver.SetAutoSleep | src/driver_adxl362.c:1782-1814 | stores POWER_CTL bit 2; on success it reads back and nothing else changes |
| Adxl362.Driver.GetAutoSleep | src/driver_adxl362.c:1827-1851 | returns POWER_CTL bit 2 |
| Adxl362.Driver.SetMode | src/driver_adxl362.c:1864-1896 | stores POWER_CTL bits 1:0; on success it reads back and nothing else changes |
| Adxl362.Driver.GetMode | src/driver_adxl362.c:1909-1933 | returns POWER_CTL bits 1:0 |
| Adxl362.Driver.SetSelfTest | src/driver_adxl362.c:1946-1978 | stores SELF_TEST bit 0; on success it reads back and nothing else changes |
| Adxl362.Driver.GetSelfTest | src/driver_adxl362.c:1991-2015 | returns SELF_TEST bit 0 |
| Adxl362.Driver.SetDetectMode | src/driver_adxl362.c:2819-2851 | stores ACT_INACT_CTL bits 5:4; on success it reads back and nothing else changes |
| Adxl362.Driver.GetDetectMode | src/driver_adxl362.c:2864-2888 | returns ACT_INACT_CTL bits 5:4 |
| Adxl362.Driver.SetInactivityDetectTrigger | src/driver_adxl362.c:2901-2933 | stores ACT_INACT_CTL bit 3; on success it reads back and nothing else changes |
| Adxl362.Driver.GetInactivityDetectTrigger | src/driver_adxl362.c:2946-2970 | returns ACT_INACT_CTL bit 3 |
| Adxl362.Driver.SetActivityDetectTrigger | src/driver_adxl362.c:2983-3015 | stores ACT_INACT_CTL bit 1; on success it reads back and nothing else changes |
| Adxl362.Driver.GetActivityDetectTrigger | src/driver_adxl362.c:3028-3052 | returns ACT_INACT_CTL bit 1 |
| Adxl362.Driver.SetInactivity | src/driver_adxl362.c:3065-3097 | stores ACT_INACT_CTL bit 2; on success it reads back and nothing else changes |
| Adxl362.Driver.GetInactivity | src/driver_adxl362.c:3110-3134 | returns ACT_INACT_CTL bit 2 |
| Adxl362.Driver.SetActivity | src/driver_adxl362.c:3147-3179 | stores ACT_INACT_CTL bit 0; on success it reads back and nothing else changes |
| Adxl362.Driver.GetActivity | src/driver_adxl362.c:3192-3216 | returns ACT_INACT_CTL bit 0 |
| Adxl362.Driver.SetReg | src/driver_adxl362.c:3508-3520 | code 3 before any transfer when not initialised; otherwise one write, whose outcome is the code; after a successful write of at most 256 bytes, a burst read from `reg` returns them |
| Adxl362.Driver.GetReg | src/driver_adxl362.c:3535-3547 | code 3 when not initialised; otherwise one read, returning the registers from reg upwards |
| Adxl362.Driver.GetFifo | src/driver_adxl362.c:3561-3573 | code 3 when not initialised; otherwise one FIFO read into the front of the caller's buffer, and nothing written past len |
| Adxl362.Driver.GetRevision | src/driver_adxl362.c:168-190 | returns REVID |
| Adxl362.Driver.GetStatus | src/driver_adxl362.c:496-518 | returns STATUS |
| Adxl362.Driver.CheckIdentity | src/driver_adxl362.c:266-272 | one identity read, traced with its outcome, passes exactly when the read succeeds and the register holds the expected value |
| Adxl362.Driver.Identify | src/driver_adxl362.c:266-308 | the reads of 0x00, 0x01 and 0x02 in order, each one that fails or finds a byte other than 0xAD, 0x1D, 0xF2 the last; passes exactly when all three succeed and match |
| Adxl362.Driver.Init | src/driver_adxl362.c:204-322 | code 3 exactly when a link is missing, and then nothing happens; a failed bus start gives 1; a failed or mismatching identity read closes the bus and gives 4; a failed write of 0x52 to 0x1F closes the bus and gives 5; otherwise a 2 ms delay, code 0 and the handle initialised; each path with its exact trace; no failure changes `inited` or the registers |
| Adxl362.Driver.EnterStandby | src/driver_adxl362.c:349-362 | reads POWER_CTL and writes it back with bits 1:0 cleared |
| Adxl362.Driver.Deinit | src/driver_adxl362.c:335-376 | code 3 when not initialised; a failed standby gives 4 and a failed close gives 1; the handle is cleared only when both succeed; only POWER_CTL bits 1:0 change |
| Adxl362.Driver.SoftReset | src/driver_adxl362.c:568-593 | writes 0x52 to 0x1F, then waits 2 ms only on success |
| Adxl362.Driver.SetFifoSample | src/driver_adxl362.c:771-818 | code 3, then code 4 for counts above 511, both before any transfer; otherwise the three transfers as written; on success the count reads back exactly when its bit 8 matches FIFO_CONTROL bit 3 |
| Adxl362.Driver.GetFifoSample | src/driver_adxl362.c:831-863 | reads FIFO_CONTROL and then FIFO_SAMPLES; returns bit 3 of the first above the second |
| Adxl362.Driver.GetFifoCounter | src/driver_adxl362.c:531-556 | returns the entry word masked with 0x200: always 0 or 512 |
| Adxl362.Driver.StoreThreshold | src/driver_adxl362.c:2029-2060 | code 4 before any transfer above 0x7FF; otherwise one little-endian write; on success the threshold reads back |
| Adxl362.Driver.SetActivityThreshold | src/driver_adxl362.c:2029-2060 | writes THRESH_ACT_L/H after the 0x7FF check; on success the getter returns the value |
| Adxl362.Driver.GetActivityThreshold | src/driver_adxl362.c:2073-2098 | returns THRESH_ACT_L/H masked with 0x7FF |
| Adxl362.Driver.SetInactivityThreshold | src/driver_adxl362.c:2424-2455 | writes THRESH_INACT_L/H after the 0x7FF check; on success the getter returns the value |
| Adxl362.Driver.GetInactivityThreshold | src/driver_adxl362.c:2468-2493 | returns THRESH_INACT_L/H masked with 0x7FF |
| Adxl362.Driver.SetActivityTime | src/driver_adxl362.c:2218-2242 | writes TIME_ACT; on success the byte reads back |
| Adxl362.Driver.GetActivityTime | src/driver_adxl362.c:2255-2279 | returns TIME_ACT |
| Adxl362.Driver.SetInactivityTime | src/driver_adxl362.c:2613-2638 | writes TIME_INACT_L/H little-endian; on success the 16-bit value reads back |
| Adxl362.Driver.GetInactivityTime | src/driver_adxl362.c:2651-2675 | returns TIME_INACT_L/H unmasked |
| Adxl362.Driver.RangeScaleToData | src/driver_adxl362.c:2168-2205 | reads FILTER_CTL and selects the range scale |
| Adxl362.Driver.RangeScaleToRegister | src/driver_adxl362.c:2112-2155 | code 4 before any transfer when the input fails its positivity test; otherwise as RangeScaleToData |
| Adxl362.Driver.OdrRateToData | src/driver_adxl362.c:2361-2410 | reads FILTER_CTL and selects the output data rate |
| Adxl362.Driver.OdrRateToRegister | src/driver_adxl362.c:2293-2348 | code 4 before any transfer when the input fails its positivity test; otherwise as OdrRateToData |
| Adxl362.Driver.Read | src/driver_adxl362.c:3230-3290 | reads six bytes from XDATA_L and then FILTER_CTL; returns the three little-endian axes and the range scale |
| Adxl362.Driver.Read8Msb | src/driver_adxl362.c:390-444 | reads FILTER_CTL and then three bytes from XDATA; returns the three signed bytes and the range scale |
| Adxl362.Driver.ReadTemperature | src/driver_adxl362.c:458-483 | returns TEMP_L/H as a little-endian signed sample |
| Adxl362.Driver.FifoRequest | src/driver_adxl362.c:3330-3351 | the entry count read_fifo asks for never exceeds the caller's capacity, and twice it fits the buffer |
| Adxl362.Driver.TransferFifo | src/driver_adxl362.c:3323-3365 | the four transfers of read_fifo, each failure ending the sequence, with the FIFO burst sized by the length policy; `buf` beyond the burst is kept, and all of it when the FIFO read fails or is not reached |
| Adxl362.Driver.DecodeFrames | src/driver_adxl362.c:3367-3397 | the first n frames are the decoded buffer words; the rest of the caller's array is untouched |
| Adxl362.Driver.ReadFifo | src/driver_adxl362.c:3304-3401 | on success, the returned length follows the length policy and those frames are the decoded buffer words; on failure, the length is unchanged and no frame is written; `buf` beyond the burst is kept, and all of it when the FIFO read fails or is not reached |
| Adxl362.Driver.NotifyIfSet | src/driver_adxl362.c:3434-3461 | one handler test: a callback with the mask exactly when the bit is set and a callback is linked |
| Adxl362.Driver.DrainIfOverrun | src/driver_adxl362.c:3462-3469 | the overrun test: a 1024-byte drain into the buffer, then the callback, and the buffer changes only then |
| Adxl362.Driver.IrqHandler | src/driver_adxl362.c:3413-3493 | code 3 when not initialised; STATUS read once; a failed read gives 1 with no callbacks; otherwise the dispatch events of the status byte, and the buffer changes only on an overrun |

## Left out

- Null handle (code 2): Dafny references are never null, so every operation starts at the
  `inited` check.
- `debug_print`: its messages are not modelled. The SPI transport is the abstract register
  file plus a success flag per call. `delay_ms` is a trace entry.
- Floating point: the g, ms and °C values of `read`, `read_8msb`, `read_temperature`,
  `read_fifo` and the `*_convert_*` functions are not modelled. That includes the float-to-int
  truncation and the uint8 overflow of the time conversion. Only the integer samples and the
  selected scale or rate are kept.
- RangeScaleToRegister, OdrRateToRegister: the float guard `g - 0.0f < 1e-6` becomes the
  boolean parameter `positive`.
- OdrRate: rates are in tenths of a hertz (12.5 Hz is 125), so they stay integers.
- `adxl362_info`: it only copies strings and float constants.
- Device semantics: read-only registers, the effect of a soft reset on the registers, and the
  FIFO's contents are not simulated. A FIFO read delivers arbitrary bytes. `regs` is a
  public field the environment may change between calls.
- Failed transfers: the model states that a failed read returns no data and a failed write
  changes no register. What real hardware leaves behind after a failed transfer is not
  modelled.
- Init: the eight function-pointer checks are the single predicate `Links.Complete()`, which
  yields code 3. Which pointer was missing only changes the debug message.
- ReadFifo, DecodeFrames: the caller's frame array is required to be a different object from
  the handle's byte buffer. In C they have different element types and cannot overlap.
- Sample: injectivity (different bytes give different samples) is not stated.
- The register file has 256 entries, one per 8-bit address, and a burst wraps at 256,
  because `set_reg` and `get_reg` pass the caller's register and length to the
  bus unchecked. The fixed operations only address 0x00 to 0x2E.
- The example, test, project and interface files are not part of this model.

## Findings

| source | as written | input that shows it | evidently intended | confidence | as-written member | corrected member |
|---|---|---|---|---|---|---|
| src/driver_adxl362.c:800 | `set_fifo_sample` writes FIFO_CONTROL, with bit 3 set to bit 8 of the count, into FIFO_SAMPLES (0x29); the next write overwrites it with the low byte, so bit 8 is lost | count 256 on a device whose FIFO_CONTROL bit 3 is clear reads back as 0 | write the updated byte to FIFO_CONTROL (0x28), so every count up to 511 reads back | not executed | Adxl362Findings.FifoSample256ReadsZero | Adxl362Findings.FifoSampleRoundTripIntended |
| src/driver_adxl362.c:553 | `get_fifo_counter` masks the entry word with 0x200, keeping only bit 9 | five entries (word 0x0005) are reported as 0 | mask with 0x3FF, the 10-bit entry count | not executed | Adxl362Findings.FifoCounterDropsCount | Adxl362Findings.FifoCounterKeepsCount |
| src/driver_adxl362.h:114-116 | normal, low-noise and ultra-low-noise mode are all 0x00 | setting ultra-low-noise mode leaves exactly the registers normal mode leaves, and reads back 0 | the values 0, 1 and 2 of POWER_CTL bits 5:4 | not executed | Adxl362Findings.NoiseModesIndistinguishable | Adxl362Findings.NoiseModesDistinguishable |
