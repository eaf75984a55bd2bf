/** The ADXL362 driver handle and its public operations. Each operation is a method of
    `Driver` that moves bytes through the abstract bus: a register read or write acts on
    the register file `regs`, every bus call may fail, and every call is appended, with
    its outcome, to the ghost `trace`. */
module Adxl362 {
  import opened Bits
  import opened Adxl362Types
  import opened Adxl362Registers
  import opened Adxl362Decode
  import opened Adxl362Findings

  // Status codes of the public operations
  const SUCCESS: nat := 0
  const FAILED: nat := 1
  const NOT_INITED: nat := 3
  const INVALID: nat := 4
  const RESET_FAILED: nat := 5

  /** Which of the handle's function pointers are linked, in the order init checks them. */
  datatype Links = Links(debugPrint: bool, spiInit: bool, spiDeinit: bool, spiRead: bool,
                         spiReadAddress16: bool, spiWriteAddress16: bool, delayMs: bool,
                         receiveCallback: bool)
  {
    predicate Complete()
    {
      debugPrint && spiInit && spiDeinit && spiRead && spiReadAddress16 && spiWriteAddress16
      && delayMs && receiveCallback
    }
  }

  /** The three identity registers hold the values init insists on. */
  predicate IdentityMatches(r: RegisterFile)
  {
    At(r, REG_DEVID_AD) == DEVID_AD && At(r, REG_DEVID_MST) == DEVID_MST && At(r, REG_PARTID) == PARTID
  }

  /** The identity reads of init on the register file `r`, each with its outcome: a read
      that fails or finds the wrong byte is the last one. */
  function IdentityReads(r: RegisterFile, ok1: bool, ok2: bool, ok3: bool): seq<BusEvent>
  {
    [ReadAddressed(ReadAddress(REG_DEVID_AD), 1, ok1)]
    + if ok1 && At(r, REG_DEVID_AD) == DEVID_AD then
        [ReadAddressed(ReadAddress(REG_DEVID_MST), 1, ok2)]
        + if ok2 && At(r, REG_DEVID_MST) == DEVID_MST then [ReadAddressed(ReadAddress(REG_PARTID), 1, ok3)] else []
      else []
  }

  /** The identity check of init passes: all three reads succeed and find the expected
      bytes. */
  predicate IdentityPasses(r: RegisterFile, ok1: bool, ok2: bool, ok3: bool)
  {
    ok1 && ok2 && ok3 && IdentityMatches(r)
  }

  /** The transfers of an init that succeeds: the bus comes up, the three identity reads,
      the soft-reset write and the 2 ms settling delay. */
  function InitEvents(): seq<BusEvent>
  {
    [SpiInit(true),
     ReadAddressed(ReadAddress(REG_DEVID_AD), 1, true),
     ReadAddressed(ReadAddress(REG_DEVID_MST), 1, true),
     ReadAddressed(ReadAddress(REG_PARTID), 1, true),
     WriteAddressed(WriteAddress(REG_SOFT_RESET), [SOFT_RESET_COMMAND], true),
     DelayMs(RESET_DELAY_MS)]
  }

  /** The little-endian 16-bit value of the register pair at `reg`. */
  function Word16(r: RegisterFile, reg: bv8): bv16
  {
    var b := Burst(r, reg, 2);
    Word(b[0], b[1])
  }

  /** An 11-bit threshold as its getter reads it: the register pair masked with 0x7FF. */
  function Threshold(r: RegisterFile, reg: bv8): (t: bv16)
    ensures t <= 0x7FF
  {
    Word16(r, reg) & 0x7FF
  }

  /** The number of FIFO entries the device reports in FIFO_ENTRIES_L/H. */
  function FifoEntries(r: RegisterFile): uint16
  {
    var b := Burst(r, REG_FIFO_ENTRIES_L, 2);
    WordValue(b[0], b[1])
  }

  /** A 16-bit value written little-endian to a register pair reads back unchanged. */
  lemma Word16RoundTrip(r: RegisterFile, reg: bv8, x: bv16)
    ensures Word16(WriteAt(r, reg, [Lo(x), Hi(x)]), reg) == x
  {
    WriteThenBurst(r, reg, [Lo(x), Hi(x)]);
    SplitJoin(x);
  }

  /** Every threshold up to 0x7FF written by the setter is returned by the getter. */
  lemma ThresholdRoundTrip(r: RegisterFile, reg: bv8, t: bv16)
    requires t <= 0x7FF
    ensures Threshold(WriteAt(r, reg, [Lo(t), Hi(t)]), reg) == t
  {
    Word16RoundTrip(r, reg, t);
  }

  /** A single byte written to a register reads back unchanged. */
  lemma ByteRoundTrip(r: RegisterFile, reg: bv8, b: bv8)
    ensures Burst(WriteAt(r, reg, [b]), reg, 1) == [b]
  {
    WriteThenBurst(r, reg, [b]);
  }

  class Driver {
    /** The function pointers the caller linked into the handle. */
    const links: Links
    /** The handle's scratch buffer, `uint8_t buf[512 * 2]`. */
    const buf: array<bv8>
    /** `handle->inited == 1`. */
    var inited: bool
    /** The device's registers as the bus sees them. */
    var regs: RegisterFile
    /** Every bus transfer, delay and callback so far, in order. */
    ghost var trace: seq<BusEvent>

    /** The scratch buffer has its declared size. */
    predicate Valid()
    {
      buf.Length == BUF_SIZE
    }

    /** A handle with the given links on a device with the given registers, not yet
        initialised (the state `DRIVER_ADXL362_LINK_INIT` leaves). */
    constructor (links: Links, registers: RegisterFile)
      ensures Valid() && fresh(buf)
      ensures this.links == links && regs == registers && !inited && trace == []
    {
      this.links := links;
      buf := new bv8[BUF_SIZE](_ => 0);
      regs := registers;
      inited := false;
      trace := [];
    }

    // ----- The bus -----

    /** `a_adxl362_read`: a burst read of `len` registers from `reg`, addressed with the
        read command in the high byte. */
    method ReadRegisters(reg: bv8, len: nat) returns (ok: bool, data: seq<bv8>)
      modifies this
      ensures inited == old(inited) && regs == old(regs)
      ensures data == Burst(regs, reg, len)
      ensures trace == old(trace) + [ReadAddressed(ReadAddress(reg), len, ok)]
    {
      ok := *;
      data := Burst(regs, reg, len);
      trace := trace + [ReadAddressed(ReadAddress(reg), len, ok)];
    }

    /** `a_adxl362_write`: a burst write of `data` from `reg`, addressed with the write
        command in the high byte; a failed write changes no register. */
    method WriteRegisters(reg: bv8, data: seq<bv8>) returns (ok: bool)
      modifies this
      ensures inited == old(inited)
      ensures regs == if ok then WriteAt(old(regs), reg, data) else old(regs)
      ensures trace == old(trace) + [WriteAddressed(WriteAddress(reg), data, ok)]
    {
      ok := *;
      if ok {
        regs := WriteAt(regs, reg, data);
      }
      trace := trace + [WriteAddressed(WriteAddress(reg), data, ok)];
    }

    /** `a_adxl362_read_fifo`: `len` bytes from the FIFO, plain address 0x0D, into the
        front of `dst`. The bytes the FIFO delivers are arbitrary; a failed read leaves
        `dst` as it was, and nothing past `len` is touched. */
    method ReadFifoInto(dst: array<bv8>, len: nat) returns (ok: bool)
      requires len <= dst.Length
      modifies this, dst
      ensures inited == old(inited) && regs == old(regs)
      ensures trace == old(trace) + [ReadPlain(FIFO_READ_ADDRESS, len, ok)]
      ensures !ok ==> dst[..] == old(dst[..])
      ensures dst[len..] == old(dst[len..])
    {
      ok := *;
      if ok {
        var i := 0;
        while i < len
          invariant 0 <= i <= len
          modifies dst
          invariant dst[i..] == old(dst[i..])
        {
          dst[i] := *;
          i := i + 1;
        }
      }
      trace := trace + [ReadPlain(FIFO_READ_ADDRESS, len, ok)];
    }

    /** The `spi_init` link. */
    method BusInit() returns (ok: bool)
      modifies this
      ensures inited == old(inited) && regs == old(regs)
      ensures trace == old(trace) + [SpiInit(ok)]
    {
      ok := *;
      trace := trace + [SpiInit(ok)];
    }

    /** The `spi_deinit` link. */
    method BusDeinit() returns (ok: bool)
      modifies this
      ensures inited == old(inited) && regs == old(regs)
      ensures trace == old(trace) + [SpiDeinit(ok)]
    {
      ok := *;
      trace := trace + [SpiDeinit(ok)];
    }

    /** The `delay_ms` link. */
    method Delay(ms: nat)
      modifies this
      ensures inited == old(inited) && regs == old(regs)
      ensures trace == old(trace) + [DelayMs(ms)]
    {
      trace := trace + [DelayMs(ms)];
    }

    /** The `receive_callback` link, called with one status mask. */
    method Notify(kind: bv8)
      modifies this
      ensures inited == old(inited) && regs == old(regs)
      ensures trace == old(trace) + [Callback(kind)]
    {
      trace := trace + [Callback(kind)];
    }

    // ----- Generic read-modify-write of one field -----

    /** The outcome of a field setter: refused with 3 before any transfer when not
        initialised; otherwise the read of the register, the write of the updated byte
        when the read succeeded, and the register file updated only when both did. */
    twostate predicate FieldStored(f: Field, v: bv8, code: nat, readOk: bool, writeOk: bool)
      requires f.Valid()
      reads this
    {
      inited == old(inited)
      && if !old(inited) then code == NOT_INITED && regs == old(regs) && trace == old(trace)
         else
           trace == old(trace) + [ReadAddressed(ReadAddress(f.reg), 1, readOk)]
                    + (if readOk then [WriteAddressed(WriteAddress(f.reg), [Updated(old(regs), f, v)], writeOk)] else [])
           && regs == (if readOk && writeOk then StoreField(old(regs), f, v) else old(regs))
           && code == (if readOk && writeOk then SUCCESS else FAILED)
    }

    /** The outcome of a field getter: refused with 3 when not initialised; otherwise one
        read of the register, and on success the field's value. No register changes. */
    twostate predicate FieldLoaded(f: Field, code: nat, v: bv8, readOk: bool)
      requires f.Valid()
      reads this
    {
      inited == old(inited) && regs == old(regs)
      && if !old(inited) then code == NOT_INITED && trace == old(trace)
         else
           trace == old(trace) + [ReadAddressed(ReadAddress(f.reg), 1, readOk)]
           && code == (if readOk then SUCCESS else FAILED)
           && (readOk ==> v == LoadField(regs, f))
    }

    /** The body shared by the field setters: read the register, clear the field, OR in
        `v << shift`, write the byte back. */
    method UpdateField(f: Field, v: bv8) returns (code: nat, ghost readOk: bool, ghost writeOk: bool)
      requires f.Valid()
      modifies this
      ensures FieldStored(f, v, code, readOk, writeOk)
    {
      readOk, writeOk := false, false;
      if !inited {
        return NOT_INITED, readOk, writeOk;
      }
      var ok, prev := ReadRegisters(f.reg, 1);
      readOk := ok;
      if !ok {
        return FAILED, readOk, writeOk;
      }
      BurstOne(regs, f.reg);
      ok := WriteRegisters(f.reg, [SetField(prev[0], f.shift, f.width, v)]);
      writeOk := ok;
      code := if ok then SUCCESS else FAILED;
    }

    /** The body shared by the field getters: read the register and extract the field. */
    method FetchField(f: Field) returns (code: nat, v: bv8, ghost readOk: bool)
      requires f.Valid()
      modifies this
      ensures FieldLoaded(f, code, v, readOk)
    {
      readOk := false;
      if !inited {
        return NOT_INITED, 0, readOk;
      }
      var ok, prev := ReadRegisters(f.reg, 1);
      readOk := ok;
      if !ok {
        return FAILED, 0, readOk;
      }
      BurstOne(regs, f.reg);
      code, v := SUCCESS, GetField(prev[0], f.shift, f.width);
    }

    /** Instantiates the generic field lemmas for one setter call: a stored value that
        fits reads back and nothing outside its field changes. */
    static lemma Stored(r: RegisterFile, f: Field, v: bv8)
      requires f.Valid() && v <= Mask(f.width)
      ensures LoadField(StoreField(r, f, v), f) == v && ChangesOnly(r, StoreField(r, f, v), f)
    {
      LoadAfterStore(r, f, v);
      StoreChangesOnly(r, f, v);
    }

    /** `adxl362_set_fifo_temperature`: FIFO_CONTROL bit 2, whether temperature samples enter the FIFO. */
    method SetFifoTemperature(enable: Bool) returns (code: nat, ghost readOk: bool, ghost writeOk: bool)
      modifies this
      ensures FieldStored(FIFO_TEMPERATURE, enable, code, readOk, writeOk)
      ensures code == SUCCESS ==> LoadField(regs, FIFO_TEMPERATURE) == enable && ChangesOnly(old(regs), regs, FIFO_TEMPERATURE)
    {
      code, readOk, writeOk := UpdateField(FIFO_TEMPERATURE, enable);
      Stored(old(regs), FIFO_TEMPERATURE, enable);
    }

    /** `adxl362_get_fifo_temperature`. */
    method GetFifoTemperature() returns (code: nat, enable: bv8, ghost readOk: bool)
      modifies this
      ensures FieldLoaded(FIFO_TEMPERATURE, code, enable, readOk)
    {
      code, enable, readOk := FetchField(FIFO_TEMPERATURE);
    }

    /** `adxl362_set_fifo_mode`: FIFO_CONTROL bits 1:0. */
    method SetFifoMode(mode: FifoMode) returns (code: nat, ghost readOk: bool, ghost writeOk: bool)
      modifies this
      ensures FieldStored(FIFO_MODE, mode, code, readOk, writeOk)
      ensures code == SUCCESS ==> LoadField(regs, FIFO_MODE) == mode && ChangesOnly(old(regs), regs, FIFO_MODE)
    {
      code, readOk, writeOk := UpdateField(FIFO_MODE, mode);
      Stored(old(regs), FIFO_MODE, mode);
    }

    /** `adxl362_get_fifo_mode`. */
    method GetFifoMode() returns (code: nat, mode: bv8, ghost readOk: bool)
      modifies this
      ensures FieldLoaded(FIFO_MODE, code, mode, readOk)
    {
      code, mode, readOk := FetchField(FIFO_MODE);
    }

    /** `adxl362_set_interrupt_pin1_active_level`: INTMAP1 bit 7. */
    method SetInterruptPin1ActiveLevel(level: PinLevel) returns (code: nat, ghost readOk: bool, ghost writeOk: bool)
      modifies this
      ensures FieldStored(INT1_ACTIVE_LEVEL, level, code, readOk, writeOk)
      ensures code == SUCCESS ==> LoadField(regs, INT1_ACTIVE_LEVEL) == level && ChangesOnly(old(regs), regs, INT1_ACTIVE_LEVEL)
    {
      code, readOk, writeOk := UpdateField(INT1_ACTIVE_LEVEL, level);
      Stored(old(regs), INT1_ACTIVE_LEVEL, level);
    }

    /** `adxl362_get_interrupt_pin1_active_level`. */
    method GetInterruptPin1ActiveLevel() returns (code: nat, level: bv8, ghost readOk: bool)
      modifies this
      ensures FieldLoaded(INT1_ACTIVE_LEVEL, code, level, readOk)
    {
      code, level, readOk := FetchField(INT1_ACTIVE_LEVEL);
    }

    /** `adxl362_set_interrupt_pin2_active_level`: INTMAP2 bit 7. */
    method SetInterruptPin2ActiveLevel(level: PinLevel) returns (code: nat, ghost readOk: bool, ghost writeOk: bool)
      modifies this
      ensures FieldStored(INT2_ACTIVE_LEVEL, level, code, readOk, writeOk)
      ensures code == SUCCESS ==> LoadField(regs, INT2_ACTIVE_LEVEL) == level && ChangesOnly(old(regs), regs, INT2_ACTIVE_LEVEL)
    {
      code, readOk, writeOk := UpdateField(INT2_ACTIVE_LEVEL, level);
      Stored(old(regs), INT2_ACTIVE_LEVEL, level);
    }

    /** `adxl362_get_interrupt_pin2_active_level`. */
    method GetInterruptPin2ActiveLevel() returns (code: nat, level: bv8, ghost readOk: bool)
      modifies this
      ensures FieldLoaded(INT2_ACTIVE_LEVEL, code, level, readOk)
    {
      code, level, readOk := FetchField(INT2_ACTIVE_LEVEL);
    }

    /** `adxl362_set_range`: FILTER_CTL bits 7:6. */
    method SetRange(range: Range) returns (code: nat, ghost readOk: bool, ghost writeOk: bool)
      modifies this
      ensures FieldStored(RANGE, range, code, readOk, writeOk)
      ensures code == SUCCESS ==> LoadField(regs, RANGE) == range && ChangesOnly(old(regs), regs, RANGE)
    {
      code, readOk, writeOk := UpdateField(RANGE, range);
      Stored(old(regs), RANGE, range);
    }

    /** `adxl362_get_range`. */
    method GetRange() returns (code: nat, range: bv8, ghost readOk: bool)
      modifies this
      ensures FieldLoaded(RANGE, code, range, readOk)
    {
      code, range, readOk := FetchField(RANGE);
    }

    /** `adxl362_set_bandwidth`: FILTER_CTL bit 4. */
    method SetBandwidth(bandwidth: Bandwidth) returns (code: nat, ghost readOk: bool, ghost writeOk: bool)
      modifies this
      ensures FieldStored(BANDWIDTH, bandwidth, code, readOk, writeOk)
      ensures code == SUCCESS ==> LoadField(regs, BANDWIDTH) == bandwidth && ChangesOnly(old(regs), regs, BANDWIDTH)
    {
      code, readOk, writeOk := UpdateField(BANDWIDTH, bandwidth);
      Stored(old(regs), BANDWIDTH, bandwidth);
    }

    /** `adxl362_get_bandwidth`. */
    method GetBandwidth() returns (code: nat, bandwidth: bv8, ghost readOk: bool)
      modifies this
      ensures FieldLoaded(BANDWIDTH, code, bandwidth, readOk)
    {
      code, bandwidth, readOk := FetchField(BANDWIDTH);
    }

    /** `adxl362_set_interrupt_pin2_as_external_sampling_trigger`: FILTER_CTL bit 3. */
    method SetInterruptPin2AsExternalSamplingTrigger(enable: Bool) returns (code: nat, ghost readOk: bool, ghost writeOk: bool)
      modifies this
      ensures FieldStored(EXT_SAMPLE, enable, code, readOk, writeOk)
      ensures code == SUCCESS ==> LoadField(regs, EXT_SAMPLE) == enable && ChangesOnly(old(regs), regs, EXT_SAMPLE)
    {
      code, readOk, writeOk := UpdateField(EXT_SAMPLE, enable);
      Stored(old(regs), EXT_SAMPLE, enable);
    }

    /** `adxl362_get_interrupt_pin2_as_external_sampling_trigger`. */
    method GetInterruptPin2AsExternalSamplingTrigger() returns (code: nat, enable: bv8, ghost readOk: bool)
      modifies this
      ensures FieldLoaded(EXT_SAMPLE, code, enable, readOk)
    {
      code, enable, readOk := FetchField(EXT_SAMPLE);
    }

    /** `adxl362_set_odr`: FILTER_CTL bits 2:0. */
    method SetOdr(odr: Odr) returns (code: nat, ghost readOk: bool, ghost writeOk: bool)
      modifies this
      ensures FieldStored(ODR, odr, code, readOk, writeOk)
      ensures code == SUCCESS ==> LoadField(regs, ODR) == odr && ChangesOnly(old(regs), regs, ODR)
    {
      code, readOk, writeOk := UpdateField(ODR, odr);
      Stored(old(regs), ODR, odr);
    }

    /** `adxl362_get_odr`. */
    method GetOdr() returns (code: nat, odr: bv8, ghost readOk: bool)
      modifies this
      ensures FieldLoaded(ODR, code, odr, readOk)
    {
      code, odr, readOk := FetchField(ODR);
    }

    /** `adxl362_set_interrupt_pin1_as_external_clock`: POWER_CTL bit 6. */
    method SetInterruptPin1AsExternalClock(enable: Bool) returns (code: nat, ghost readOk: bool, ghost writeOk: bool)
      modifies this
      ensures FieldStored(EXT_CLOCK, enable, code, readOk, writeOk)
      ensures code == SUCCESS ==> LoadField(regs, EXT_CLOCK) == enable && ChangesOnly(old(regs), regs, EXT_CLOCK)
    {
      code, readOk, writeOk := UpdateField(EXT_CLOCK, enable);
      Stored(old(regs), EXT_CLOCK, enable);
    }

    /** `adxl362_get_interrupt_pin1_as_external_clock`. */
    method GetInterruptPin1AsExternalClock() returns (code: nat, enable: bv8, ghost readOk: bool)
      modifies this
      ensures FieldLoaded(EXT_CLOCK, code, enable, readOk)
    {
      code, enable, readOk := FetchField(EXT_CLOCK);
    }

    /** `adxl362_set_noise_mode`: POWER_CTL bits 5:4. */
    method SetNoiseMode(mode: NoiseMode) returns (code: nat, ghost readOk: bool, ghost writeOk: bool)
      modifies this
      ensures FieldStored(NOISE_MODE, mode, code, readOk, writeOk)
      ensures code == SUCCESS ==> LoadField(regs, NOISE_MODE) == mode && ChangesOnly(old(regs), regs, NOISE_MODE)
    {
      code, readOk, writeOk := UpdateField(NOISE_MODE, mode);
      Stored(old(regs), NOISE_MODE, mode);
    }

    /** `adxl362_get_noise_mode`. */
    method GetNoiseMode() returns (code: nat, mode: bv8, ghost readOk: bool)
      modifies this
      ensures FieldLoaded(NOISE_MODE, code, mode, readOk)
    {
      code, mode, readOk := FetchField(NOISE_MODE);
    }

    /** `adxl362_set_wake_up`: POWER_CTL bit 3. */
    method SetWakeUp(enable: Bool) returns (code: nat, ghost readOk: bool, ghost writeOk: bool)
      modifies this
      ensures FieldStored(WAKE_UP, enable, code, readOk, writeOk)
      ensures code == SUCCESS ==> LoadField(regs, WAKE_UP) == enable && ChangesOnly(old(regs), regs, WAKE_UP)
    {
      code, readOk, writeOk := UpdateField(WAKE_UP, enable);
      Stored(old(regs), WAKE_UP, enable);
    }

    /** `adxl362_get_wake_up`. */
    method GetWakeUp() returns (code: nat, enable: bv8, ghost readOk: bool)
      modifies this
      ensures FieldLoaded(WAKE_UP, code, enable, readOk)
    {
      code, enable, readOk := FetchField(WAKE_UP);
    }

    /** `adxl362_set_auto_sleep`: POWER_CTL bit 2. */
    method SetAutoSleep(enable: Bool) returns (code: nat, ghost readOk: bool, ghost writeOk: bool)
      modifies this
      ensures FieldStored(AUTO_SLEEP, enable, code, readOk, writeOk)
      ensures code == SUCCESS ==> LoadField(regs, AUTO_SLEEP) == enable && ChangesOnly(old(regs), regs, AUTO_SLEEP)
    {
      code, readOk, writeOk := UpdateField(AUTO_SLEEP, enable);
      Stored(old(regs), AUTO_SLEEP, enable);
    }

    /** `adxl362_get_auto_sleep`. */
    method GetAutoSleep() returns (code: nat, enable: bv8, ghost readOk: bool)
      modifies this
      ensures FieldLoaded(AUTO_SLEEP, code, enable, readOk)
    {
      code, enable, readOk := FetchField(AUTO_SLEEP);
    }

    /** `adxl362_set_mode`: POWER_CTL bits 1:0. */
    method SetMode(mode: ChipMode) returns (code: nat, ghost readOk: bool, ghost writeOk: bool)
      modifies this
      ensures FieldStored(MEASURE_MODE, mode, code, readOk, writeOk)
      ensures code == SUCCESS ==> LoadField(regs, MEASURE_MODE) == mode && ChangesOnly(old(regs), regs, MEASURE_MODE)
    {
      code, readOk, writeOk := UpdateField(MEASURE_MODE, mode);
      Stored(old(regs), MEASURE_MODE, mode);
    }

    /** `adxl362_get_mode`. */
    method GetMode() returns (code: nat, mode: bv8, ghost readOk: bool)
      modifies this
      ensures FieldLoaded(MEASURE_MODE, code, mode, readOk)
    {
      code, mode, readOk := FetchField(MEASURE_MODE);
    }

    /** `adxl362_set_self_test`: SELF_TEST bit 0. */
    method SetSelfTest(enable: Bool) returns (code: nat, ghost readOk: bool, ghost writeOk: bool)
      modifies this
      ensures FieldStored(SELF_TEST, enable, code, readOk, writeOk)
      ensures code == SUCCESS ==> LoadField(regs, SELF_TEST) == enable && ChangesOnly(old(regs), regs, SELF_TEST)
    {
      code, readOk, writeOk := UpdateField(SELF_TEST, enable);
      Stored(old(regs), SELF_TEST, enable);
    }

    /** `adxl362_get_self_test`. */
    method GetSelfTest() returns (code: nat, enable: bv8, ghost readOk: bool)
      modifies this
      ensures FieldLoaded(SELF_TEST, code, enable, readOk)
    {
      code, enable, readOk := FetchField(SELF_TEST);
    }

    /** `adxl362_set_detect_mode`: ACT_INACT_CTL bits 5:4. */
    method SetDetectMode(mode: DetectMode) returns (code: nat, ghost readOk: bool, ghost writeOk: bool)
      modifies this
      ensures FieldStored(DETECT_MODE, mode, code, readOk, writeOk)
      ensures code == SUCCESS ==> LoadField(regs, DETECT_MODE) == mode && ChangesOnly(old(regs), regs, DETECT_MODE)
    {
      code, readOk, writeOk := UpdateField(DETECT_MODE, mode);
      Stored(old(regs), DETECT_MODE, mode);
    }

    /** `adxl362_get_detect_mode`. */
    method GetDetectMode() returns (code: nat, mode: bv8, ghost readOk: bool)
      modifies this
      ensures FieldLoaded(DETECT_MODE, code, mode, readOk)
    {
      code, mode, readOk := FetchField(DETECT_MODE);
    }

    /** `adxl362_set_inactivity_detect_trigger`: ACT_INACT_CTL bit 3. */
    method SetInactivityDetectTrigger(trigger: DetectTrigger) returns (code: nat, ghost readOk: bool, ghost writeOk: bool)
      modifies this
      ensures FieldStored(INACT_REFERENCED, trigger, code, readOk, writeOk)
      ensures code == SUCCESS ==> LoadField(regs, INACT_REFERENCED) == trigger && ChangesOnly(old(regs), regs, INACT_REFERENCED)
    {
      code, readOk, writeOk := UpdateField(INACT_REFERENCED, trigger);
      Stored(old(regs), INACT_REFERENCED, trigger);
    }

    /** `adxl362_get_inactivity_detect_trigger`. */
    method GetInactivityDetectTrigger() returns (code: nat, trigger: bv8, ghost readOk: bool)
      modifies this
      ensures FieldLoaded(INACT_REFERENCED, code, trigger, readOk)
    {
      code, trigger, readOk := FetchField(INACT_REFERENCED);
    }

    /** `adxl362_set_activity_detect_trigger`: ACT_INACT_CTL bit 1. */
    method SetActivityDetectTrigger(trigger: DetectTrigger) returns (code: nat, ghost readOk: bool, ghost writeOk: bool)
      modifies this
      ensures FieldStored(ACT_REFERENCED, trigger, code, readOk, writeOk)
      ensures code == SUCCESS ==> LoadField(regs, ACT_REFERENCED) == trigger && ChangesOnly(old(regs), regs, ACT_REFERENCED)
    {
      code, readOk, writeOk := UpdateField(ACT_REFERENCED, trigger);
      Stored(old(regs), ACT_REFERENCED, trigger);
    }

    /** `adxl362_get_activity_detect_trigger`. */
    method GetActivityDetectTrigger() returns (code: nat, trigger: bv8, ghost readOk: bool)
      modifies this
      ensures FieldLoaded(ACT_REFERENCED, code, trigger, readOk)
    {
      code, trigger, readOk := FetchField(ACT_REFERENCED);
    }

    /** `adxl362_set_inactivity`: ACT_INACT_CTL bit 2. */
    method SetInactivity(enable: Bool) returns (code: nat, ghost readOk: bool, ghost writeOk: bool)
      modifies this
      ensures FieldStored(INACT_ENABLE, enable, code, readOk, writeOk)
      ensures code == SUCCESS ==> LoadField(regs, INACT_ENABLE) == enable && ChangesOnly(old(regs), regs, INACT_ENABLE)
    {
      code, readOk, writeOk := UpdateField(INACT_ENABLE, enable);
      Stored(old(regs), INACT_ENABLE, enable);
    }

    /** `adxl362_get_inactivity`. */
    method GetInactivity() returns (code: nat, enable: bv8, ghost readOk: bool)
      modifies this
      ensures FieldLoaded(INACT_ENABLE, code, enable, readOk)
    {
      code, enable, readOk := FetchField(INACT_ENABLE);
    }

    /** `adxl362_set_activity`: ACT_INACT_CTL bit 0. */
    method SetActivity(enable: Bool) returns (code: nat, ghost readOk: bool, ghost writeOk: bool)
      modifies this
      ensures FieldStored(ACT_ENABLE, enable, code, readOk, writeOk)
      ensures code == SUCCESS ==> LoadField(regs, ACT_ENABLE) == enable && ChangesOnly(old(regs), regs, ACT_ENABLE)
    {
      code, readOk, writeOk := UpdateField(ACT_ENABLE, enable);
      Stored(old(regs), ACT_ENABLE, enable);
    }

    /** `adxl362_get_activity`. */
    method GetActivity() returns (code: nat, enable: bv8, ghost readOk: bool)
      modifies this
      ensures FieldLoaded(ACT_ENABLE, code, enable, readOk)
    {
      code, enable, readOk := FetchField(ACT_ENABLE);
    }

    /** `adxl362_set_interrupt_pin1_map`: the INTMAP1 bit whose position is the source
        `source`. */
    method SetInterruptPin1Map(source: InterruptMap, enable: Bool) returns (code: nat, ghost readOk: bool, ghost writeOk: bool)
      modifies this
      ensures FieldStored(InterruptMapField(REG_INTMAP1, source), enable, code, readOk, writeOk)
      ensures code == SUCCESS ==> LoadField(regs, InterruptMapField(REG_INTMAP1, source)) == enable && ChangesOnly(old(regs), regs, InterruptMapField(REG_INTMAP1, source))
    {
      code, readOk, writeOk := UpdateField(InterruptMapField(REG_INTMAP1, source), enable);
      Stored(old(regs), InterruptMapField(REG_INTMAP1, source), enable);
    }

    /** `adxl362_get_interrupt_pin1_map`. */
    method GetInterruptPin1Map(source: InterruptMap) returns (code: nat, enable: bv8, ghost readOk: bool)
      modifies this
      ensures FieldLoaded(InterruptMapField(REG_INTMAP1, source), code, enable, readOk)
    {
      code, enable, readOk := FetchField(InterruptMapField(REG_INTMAP1, source));
    }

    /** `adxl362_set_interrupt_pin2_map`: the INTMAP2 bit whose position is the source
        `source`. */
    method SetInterruptPin2Map(source: InterruptMap, enable: Bool) returns (code: nat, ghost readOk: bool, ghost writeOk: bool)
      modifies this
      ensures FieldStored(InterruptMapField(REG_INTMAP2, source), enable, code, readOk, writeOk)
      ensures code == SUCCESS ==> LoadField(regs, InterruptMapField(REG_INTMAP2, source)) == enable && ChangesOnly(old(regs), regs, InterruptMapField(REG_INTMAP2, source))
    {
      code, readOk, writeOk := UpdateField(InterruptMapField(REG_INTMAP2, source), enable);
      Stored(old(regs), InterruptMapField(REG_INTMAP2, source), enable);
    }

    /** `adxl362_get_interrupt_pin2_map`. */
    method GetInterruptPin2Map(source: InterruptMap) returns (code: nat, enable: bv8, ghost readOk: bool)
      modifies this
      ensures FieldLoaded(InterruptMapField(REG_INTMAP2, source), code, enable, readOk)
    {
      code, enable, readOk := FetchField(InterruptMapField(REG_INTMAP2, source));
    }

    // ----- Raw register access -----

    /** The outcome of a register write: refused with 3 before any transfer when not
        initialised; otherwise one write, applied to the register file only when it
        succeeded. */
    twostate predicate BytesWritten(reg: bv8, data: seq<bv8>, code: nat, ok: bool)
      reads this
    {
      inited == old(inited)
      && if !old(inited) then code == NOT_INITED && regs == old(regs) && trace == old(trace)
         else
           trace == old(trace) + [WriteAddressed(WriteAddress(reg), data, ok)]
           && regs == (if ok then WriteAt(old(regs), reg, data) else old(regs))
           && code == (if ok then SUCCESS else FAILED)
    }

    /** The outcome of a register read: refused with 3 when not initialised; otherwise one
        read, and on success the registers from `reg` upwards. No register changes. */
    twostate predicate BytesRead(reg: bv8, len: nat, code: nat, data: seq<bv8>, ok: bool)
      reads this
    {
      inited == old(inited) && regs == old(regs)
      && if !old(inited) then code == NOT_INITED && trace == old(trace)
         else
           trace == old(trace) + [ReadAddressed(ReadAddress(reg), len, ok)]
           && code == (if ok then SUCCESS else FAILED)
           && (ok ==> data == Burst(regs, reg, len))
    }

    /** `adxl362_set_reg`: a raw write of `data` from `reg`; what was written reads back. */
    method SetReg(reg: bv8, data: seq<bv8>) returns (code: nat, ghost ok: bool)
      requires |data| <= 0xFFFF
      modifies this
      ensures BytesWritten(reg, data, code, ok)
      ensures code == SUCCESS && |data| <= 0x100 ==> Burst(regs, reg, |data|) == data
    {
      ok := false;
      if !inited {
        return NOT_INITED, ok;
      }
      var succeeded := WriteRegisters(reg, data);
      ok := succeeded;
      code := if succeeded then SUCCESS else FAILED;
      if succeeded && |data| <= 0x100 {
        WriteThenBurst(old(regs), reg, data);
      }
    }

    /** `adxl362_get_reg`: a raw read of `len` registers from `reg`. */
    method GetReg(reg: bv8, len: nat) returns (code: nat, data: seq<bv8>, ghost ok: bool)
      requires len <= 0xFFFF
      modifies this
      ensures BytesRead(reg, len, code, data, ok)
    {
      ok := false;
      if !inited {
        return NOT_INITED, [], ok;
      }
      var succeeded;
      succeeded, data := ReadRegisters(reg, len);
      ok := succeeded;
      code := if succeeded then SUCCESS else FAILED;
    }

    /** `adxl362_get_fifo`: a raw read of `len` FIFO bytes into the front of `dst`. */
    method GetFifo(dst: array<bv8>, len: nat) returns (code: nat, ghost ok: bool)
      requires len <= dst.Length && len <= 0xFFFF
      modifies this, dst
      ensures inited == old(inited) && regs == old(regs)
      ensures !old(inited) ==> code == NOT_INITED && trace == old(trace) && dst[..] == old(dst[..])
      ensures old(inited) ==> trace == old(trace) + [ReadPlain(FIFO_READ_ADDRESS, len, ok)]
                              && code == (if ok then SUCCESS else FAILED)
      ensures !ok ==> dst[..] == old(dst[..])
      ensures dst[len..] == old(dst[len..])
    {
      ok := false;
      if !inited {
        return NOT_INITED, ok;
      }
      var succeeded := ReadFifoInto(dst, len);
      ok := succeeded;
      code := if succeeded then SUCCESS else FAILED;
    }

    /** The body of the one-byte getters: refused with 3 when not initialised, otherwise
        one read of `reg`. */
    method FetchByte(reg: bv8) returns (code: nat, b: bv8, ghost ok: bool)
      modifies this
      ensures BytesRead(reg, 1, code, [b], ok)
      ensures code == SUCCESS ==> b == At(regs, reg)
    {
      var data;
      code, data, ok := GetReg(reg, 1);
      BurstOne(regs, reg);
      b := if code == SUCCESS then data[0] else 0;
    }

    /** The body of the 16-bit getters: one read of the little-endian pair at `reg`. */
    method FetchWord(reg: bv8) returns (code: nat, w: bv16, ghost ok: bool)
      modifies this
      ensures BytesRead(reg, 2, code, [Lo(w), Hi(w)], ok)
      ensures code == SUCCESS ==> w == Word16(regs, reg)
    {
      var data;
      code, data, ok := GetReg(reg, 2);
      w := if code == SUCCESS then Word(data[0], data[1]) else 0;
      JoinSplit(if code == SUCCESS then data[0] else 0, if code == SUCCESS then data[1] else 0);
    }

    // ----- Identification and status -----

    /** `adxl362_get_revision`: the REVID register. */
    method GetRevision() returns (code: nat, id: bv8, ghost ok: bool)
      modifies this
      ensures BytesRead(REG_REVID, 1, code, [id], ok)
      ensures code == SUCCESS ==> id == At(regs, REG_REVID)
    {
      code, id, ok := FetchByte(REG_REVID);
    }

    /** `adxl362_get_status`: the STATUS register. */
    method GetStatus() returns (code: nat, status: bv8, ghost ok: bool)
      modifies this
      ensures BytesRead(REG_STATUS, 1, code, [status], ok)
      ensures code == SUCCESS ==> status == At(regs, REG_STATUS)
    {
      code, status, ok := FetchByte(REG_STATUS);
    }

    // ----- Lifecycle -----

    /** One identity check of init: read `reg` and compare it with `expected`. */
    method CheckIdentity(reg: bv8, expected: bv8) returns (ok: bool, ghost readOk: bool)
      modifies this
      ensures inited == old(inited) && regs == old(regs)
      ensures trace == old(trace) + [ReadAddressed(ReadAddress(reg), 1, readOk)]
      ensures ok == (readOk && At(regs, reg) == expected)
    {
      var succeeded, id := ReadRegisters(reg, 1);
      readOk := succeeded;
      BurstOne(regs, reg);
      ok := succeeded && id[0] == expected;
    }

    /** The identity half of init: the three identity reads, each ending the sequence when
        it fails or finds the wrong byte. */
    method Identify() returns (ok: bool, ghost ok1: bool, ghost ok2: bool, ghost ok3: bool)
      modifies this
      ensures inited == old(inited) && regs == old(regs)
      ensures trace == old(trace) + IdentityReads(regs, ok1, ok2, ok3)
      ensures ok == IdentityPasses(regs, ok1, ok2, ok3)
    {
      ok2, ok3 := false, false;
      ok, ok1 := CheckIdentity(REG_DEVID_AD, DEVID_AD);
      if !ok {
        return;
      }
      ok, ok2 := CheckIdentity(REG_DEVID_MST, DEVID_MST);
      if !ok {
        return;
      }
      ok, ok3 := CheckIdentity(REG_PARTID, PARTID);
    }

    /** `adxl362_init`: with every link present, bring the bus up, check the three identity
        registers, soft-reset the device, wait 2 ms and mark the handle initialised. A
        failed bus start gives 1; a failed or mismatching identity read closes the bus and
        gives 4; a failed reset write closes the bus and gives 5; no failure changes
        `inited`. */
    method Init() returns (code: nat, ghost initOk: bool, ghost ok1: bool, ghost ok2: bool, ghost ok3: bool,
                           ghost resetOk: bool, ghost closeOk: bool)
      modifies this
      ensures !links.Complete() ==> code == NOT_INITED && trace == old(trace)
      ensures links.Complete() ==>
        trace == old(trace) + [SpiInit(initOk)]
                 + (if initOk then IdentityReads(old(regs), ok1, ok2, ok3) else [])
                 + (if initOk && IdentityPasses(old(regs), ok1, ok2, ok3)
                    then [WriteAddressed(WriteAddress(REG_SOFT_RESET), [SOFT_RESET_COMMAND], resetOk)] else [])
                 + (if !initOk then []
                    else if IdentityPasses(old(regs), ok1, ok2, ok3) && resetOk then [DelayMs(RESET_DELAY_MS)]
                    else [SpiDeinit(closeOk)])
        && code == (if !initOk then FAILED
                    else if !IdentityPasses(old(regs), ok1, ok2, ok3) then INVALID
                    else if !resetOk then RESET_FAILED
                    else SUCCESS)
      ensures inited == (code == SUCCESS || old(inited))
      ensures regs == if code == SUCCESS then WriteAt(old(regs), REG_SOFT_RESET, [SOFT_RESET_COMMAND]) else old(regs)
      ensures code == SUCCESS ==> IdentityMatches(old(regs)) && trace == old(trace) + InitEvents()
    {
      initOk, ok1, ok2, ok3, resetOk, closeOk := false, false, false, false, false, false;
      if !links.Complete() {
        return NOT_INITED, initOk, ok1, ok2, ok3, resetOk, closeOk;
      }
      var ok := BusInit();
      initOk := ok;
      if !ok {
        return FAILED, initOk, ok1, ok2, ok3, resetOk, closeOk;
      }
      ok, ok1, ok2, ok3 := Identify();
      if !ok {
        ok := BusDeinit();
        closeOk := ok;
        return INVALID, initOk, ok1, ok2, ok3, resetOk, closeOk;
      }
      ok := WriteRegisters(REG_SOFT_RESET, [SOFT_RESET_COMMAND]);
      resetOk := ok;
      if !ok {
        ok := BusDeinit();
        closeOk := ok;
        return RESET_FAILED, initOk, ok1, ok2, ok3, resetOk, closeOk;
      }
      Delay(RESET_DELAY_MS);
      inited := true;
      code := SUCCESS;
    }

    /** The first half of deinit: read POWER_CTL and write it back with bits 1:0 cleared,
        which puts the device in standby. */
    method EnterStandby() returns (ok: bool, ghost readOk: bool, ghost writeOk: bool)
      modifies this
      ensures inited == old(inited)
      ensures trace == old(trace) + [ReadAddressed(ReadAddress(REG_POWER_CTL), 1, readOk)]
                 + (if readOk then [WriteAddressed(WriteAddress(REG_POWER_CTL), [Updated(old(regs), MEASURE_MODE, MODE_STANDBY)], writeOk)] else [])
      ensures regs == (if ok then StoreField(old(regs), MEASURE_MODE, MODE_STANDBY) else old(regs))
      ensures ok == (readOk && writeOk)
    {
      writeOk := false;
      var prev;
      ok, prev := ReadRegisters(REG_POWER_CTL, 1);
      readOk := ok;
      if !ok {
        return;
      }
      BurstOne(regs, REG_POWER_CTL);
      ClearField(prev[0], 0, 2);
      assert Mask(2) << 0 == 3;
      assert [prev[0] & !3] == [Updated(regs, MEASURE_MODE, MODE_STANDBY)];
      ok := WriteRegisters(REG_POWER_CTL, [prev[0] & !3]);
      writeOk := ok;
    }

    /** `adxl362_deinit`: put the device in standby, then close the bus; a failed standby
        is reported as 4, a failed close as 1, and the handle is marked uninitialised only
        when both succeed. */
    method Deinit() returns (code: nat, ghost readOk: bool, ghost writeOk: bool, ghost closeOk: bool)
      modifies this
      ensures !old(inited) ==> code == NOT_INITED && inited == old(inited) && regs == old(regs) && trace == old(trace)
      ensures old(inited) ==>
        trace == old(trace) + [ReadAddressed(ReadAddress(REG_POWER_CTL), 1, readOk)]
                 + (if readOk then [WriteAddressed(WriteAddress(REG_POWER_CTL), [Updated(old(regs), MEASURE_MODE, MODE_STANDBY)], writeOk)] else [])
                 + (if readOk && writeOk then [SpiDeinit(closeOk)] else [])
        && regs == (if readOk && writeOk then StoreField(old(regs), MEASURE_MODE, MODE_STANDBY) else old(regs))
        && code == (if !readOk || !writeOk then INVALID else if closeOk then SUCCESS else FAILED)
        && inited == (code != SUCCESS)
      ensures readOk && writeOk ==> LoadField(regs, MEASURE_MODE) == MODE_STANDBY && ChangesOnly(old(regs), regs, MEASURE_MODE)
    {
      readOk, writeOk, closeOk := false, false, false;
      if !inited {
        return NOT_INITED, readOk, writeOk, closeOk;
      }
      var ok;
      ok, readOk, writeOk := EnterStandby();
      if !ok {
        return INVALID, readOk, writeOk, closeOk;
      }
      Stored(old(regs), MEASURE_MODE, MODE_STANDBY);
      ok := BusDeinit();
      closeOk := ok;
      if !ok {
        return FAILED, readOk, writeOk, closeOk;
      }
      inited := false;
      code := SUCCESS;
    }

    /** `adxl362_soft_reset`: write the reset command, then wait 2 ms. */
    method SoftReset() returns (code: nat, ghost ok: bool)
      modifies this
      ensures inited == old(inited)
      ensures !old(inited) ==> code == NOT_INITED && regs == old(regs) && trace == old(trace)
      ensures old(inited) ==>
        trace == old(trace) + [WriteAddressed(WriteAddress(REG_SOFT_RESET), [SOFT_RESET_COMMAND], ok)]
                 + (if ok then [DelayMs(RESET_DELAY_MS)] else [])
        && regs == (if ok then WriteAt(old(regs), REG_SOFT_RESET, [SOFT_RESET_COMMAND]) else old(regs))
        && code == (if ok then SUCCESS else FAILED)
    {
      ok := false;
      if !inited {
        return NOT_INITED, ok;
      }
      var succeeded := WriteRegisters(REG_SOFT_RESET, [SOFT_RESET_COMMAND]);
      ok := succeeded;
      if !succeeded {
        return FAILED, ok;
      }
      Delay(RESET_DELAY_MS);
      code := SUCCESS;
    }

    // ----- FIFO sample count and entry counter -----

    /** `adxl362_set_fifo_sample` as the driver has it: counts above 511 are refused with 4
        before any transfer; otherwise FIFO_CONTROL is read, FIFO_CONTROL with bit 3
        replaced by bit 8 of the count is written to FIFO_SAMPLES, and then the low byte
        is written to FIFO_SAMPLES. */
    method SetFifoSample(sample: bv16) returns (code: nat, ghost readOk: bool, ghost firstOk: bool, ghost secondOk: bool)
      modifies this
      ensures inited == old(inited)
      ensures !old(inited) || sample > 511 ==> code == (if old(inited) then INVALID else NOT_INITED)
                                                && regs == old(regs) && trace == old(trace)
      ensures old(inited) && sample <= 511 ==>
        trace == old(trace) + [ReadAddressed(ReadAddress(REG_FIFO_CONTROL), 1, readOk)]
                 + (if readOk then [WriteAddressed(WriteAddress(REG_FIFO_SAMPLES), [Updated(old(regs), FIFO_SAMPLE_BIT8, SampleBit8(sample))], firstOk)] else [])
                 + (if readOk && firstOk then [WriteAddressed(WriteAddress(REG_FIFO_SAMPLES), [Lo(sample)], secondOk)] else [])
        && code == (if readOk && firstOk && secondOk then SUCCESS else FAILED)
      ensures code == SUCCESS ==> regs == StoreFifoSample(old(regs), sample)
      ensures code == SUCCESS ==> (LoadFifoSample(regs) == sample <==> SampleBit8(sample) == LoadField(old(regs), FIFO_SAMPLE_BIT8))
      ensures code != SUCCESS ==>
        regs == if readOk && firstOk then WriteAt(old(regs), REG_FIFO_SAMPLES, [Updated(old(regs), FIFO_SAMPLE_BIT8, SampleBit8(sample))])
                else old(regs)
    {
      readOk, firstOk, secondOk := false, false, false;
      if !inited {
        return NOT_INITED, readOk, firstOk, secondOk;
      }
      if sample > 511 {
        return INVALID, readOk, firstOk, secondOk;
      }
      var prev;
      var readSucceeded;
      readSucceeded, prev := ReadRegisters(REG_FIFO_CONTROL, 1);
      readOk := readSucceeded;
      if !readSucceeded {
        return FAILED, readOk, firstOk, secondOk;
      }
      BurstOne(regs, REG_FIFO_CONTROL);
      var firstSucceeded := WriteRegisters(REG_FIFO_SAMPLES, [SetField(prev[0], 3, 1, SampleBit8(sample))]);
      firstOk := firstSucceeded;
      if !firstSucceeded {
        return FAILED, readOk, firstOk, secondOk;
      }
      var secondSucceeded := WriteRegisters(REG_FIFO_SAMPLES, [Lo(sample)]);
      secondOk := secondSucceeded;
      code := if secondSucceeded then SUCCESS else FAILED;
      FifoSampleRoundTripAsWritten(old(regs), sample);
    }

    /** `adxl362_get_fifo_sample`: FIFO_CONTROL bit 3 as bit 8, FIFO_SAMPLES as bits 7:0. */
    method GetFifoSample() returns (code: nat, sample: bv16, ghost controlOk: bool, ghost samplesOk: bool)
      modifies this
      ensures inited == old(inited) && regs == old(regs)
      ensures !old(inited) ==> code == NOT_INITED && trace == old(trace)
      ensures old(inited) ==>
        trace == old(trace) + [ReadAddressed(ReadAddress(REG_FIFO_CONTROL), 1, controlOk)]
                 + (if controlOk then [ReadAddressed(ReadAddress(REG_FIFO_SAMPLES), 1, samplesOk)] else [])
        && code == (if controlOk && samplesOk then SUCCESS else FAILED)
      ensures code == SUCCESS ==> sample == LoadFifoSample(regs) && sample <= 511
    {
      controlOk, samplesOk := false, false;
      if !inited {
        return NOT_INITED, 0, controlOk, samplesOk;
      }
      var prev, prev2;
      var controlSucceeded;
      controlSucceeded, prev := ReadRegisters(REG_FIFO_CONTROL, 1);
      controlOk := controlSucceeded;
      if !controlSucceeded {
        return FAILED, 0, controlOk, samplesOk;
      }
      var samplesSucceeded;
      samplesSucceeded, prev2 := ReadRegisters(REG_FIFO_SAMPLES, 1);
      samplesOk := samplesSucceeded;
      if !samplesSucceeded {
        return FAILED, 0, controlOk, samplesOk;
      }
      BurstOne(regs, REG_FIFO_CONTROL);
      BurstOne(regs, REG_FIFO_SAMPLES);
      sample := (GetField(prev[0], 3, 1) as bv16 << 8) | prev2[0] as bv16;
      code := SUCCESS;
    }

    /** `adxl362_get_fifo_counter` as the driver has it: the entry word masked with 0x200,
        so the result is 0 or 512 whatever the count. */
    method GetFifoCounter() returns (code: nat, counter: bv16, ghost ok: bool)
      modifies this
      ensures BytesRead(REG_FIFO_ENTRIES_L, 2, code, [Lo(Word16(regs, REG_FIFO_ENTRIES_L)), Hi(Word16(regs, REG_FIFO_ENTRIES_L))], ok)
      ensures code == SUCCESS ==> counter == FifoCounterAsWritten(Word16(regs, REG_FIFO_ENTRIES_L))
      ensures code == SUCCESS ==> counter == 0 || counter == 0x200
    {
      var w;
      code, w, ok := FetchWord(REG_FIFO_ENTRIES_L);
      counter := w & 0x200;
    }

    // ----- Thresholds and times -----

    /** The body shared by the two threshold setters: values above 0x7FF are refused with 4
        before any transfer; otherwise the value is written little-endian to `reg`. */
    method StoreThreshold(reg: bv8, threshold: bv16) returns (code: nat, ghost ok: bool)
      modifies this
      ensures old(inited) && threshold > 0x7FF ==> code == INVALID && Unchanged()
      ensures !(old(inited) && threshold > 0x7FF) ==> BytesWritten(reg, [Lo(threshold), Hi(threshold)], code, ok)
      ensures code == SUCCESS ==> Threshold(regs, reg) == threshold
    {
      ok := false;
      if !inited {
        return NOT_INITED, ok;
      }
      if threshold > 0x7FF {
        return INVALID, ok;
      }
      code, ok := SetReg(reg, [Lo(threshold), Hi(threshold)]);
      ThresholdRoundTrip(old(regs), reg, threshold);
    }

    /** Nothing observable changed. */
    twostate predicate Unchanged()
      reads this
    {
      inited == old(inited) && regs == old(regs) && trace == old(trace)
    }

    /** `adxl362_set_activity_threshold`: THRESH_ACT_L/H. */
    method SetActivityThreshold(threshold: bv16) returns (code: nat, ghost ok: bool)
      modifies this
      ensures old(inited) && threshold > 0x7FF ==> code == INVALID && Unchanged()
      ensures !(old(inited) && threshold > 0x7FF) ==> BytesWritten(REG_THRESH_ACT_L, [Lo(threshold), Hi(threshold)], code, ok)
      ensures code == SUCCESS ==> Threshold(regs, REG_THRESH_ACT_L) == threshold
    {
      code, ok := StoreThreshold(REG_THRESH_ACT_L, threshold);
    }

    /** `adxl362_get_activity_threshold`: THRESH_ACT_L/H masked with 0x7FF. */
    method GetActivityThreshold() returns (code: nat, threshold: bv16, ghost ok: bool)
      modifies this
      ensures BytesRead(REG_THRESH_ACT_L, 2, code, [Lo(Word16(regs, REG_THRESH_ACT_L)), Hi(Word16(regs, REG_THRESH_ACT_L))], ok)
      ensures code == SUCCESS ==> threshold == Threshold(regs, REG_THRESH_ACT_L)
    {
      var w;
      code, w, ok := FetchWord(REG_THRESH_ACT_L);
      threshold := w & 0x7FF;
    }

    /** `adxl362_set_inactivity_threshold`: THRESH_INACT_L/H. */
    method SetInactivityThreshold(threshold: bv16) returns (code: nat, ghost ok: bool)
      modifies this
      ensures old(inited) && threshold > 0x7FF ==> code == INVALID && Unchanged()
      ensures !(old(inited) && threshold > 0x7FF) ==> BytesWritten(REG_THRESH_INACT_L, [Lo(threshold), Hi(threshold)], code, ok)
      ensures code == SUCCESS ==> Threshold(regs, REG_THRESH_INACT_L) == threshold
    {
      code, ok := StoreThreshold(REG_THRESH_INACT_L, threshold);
    }

    /** `adxl362_get_inactivity_threshold`: THRESH_INACT_L/H masked with 0x7FF. */
    method GetInactivityThreshold() returns (code: nat, threshold: bv16, ghost ok: bool)
      modifies this
      ensures BytesRead(REG_THRESH_INACT_L, 2, code, [Lo(Word16(regs, REG_THRESH_INACT_L)), Hi(Word16(regs, REG_THRESH_INACT_L))], ok)
      ensures code == SUCCESS ==> threshold == Threshold(regs, REG_THRESH_INACT_L)
    {
      var w;
      code, w, ok := FetchWord(REG_THRESH_INACT_L);
      threshold := w & 0x7FF;
    }

    /** `adxl362_set_activity_time`: one byte to TIME_ACT; every byte reads back. */
    method SetActivityTime(time: bv8) returns (code: nat, ghost ok: bool)
      modifies this
      ensures BytesWritten(REG_TIME_ACT, [time], code, ok)
      ensures code == SUCCESS ==> At(regs, REG_TIME_ACT) == time
    {
      code, ok := SetReg(REG_TIME_ACT, [time]);
      ByteRoundTrip(old(regs), REG_TIME_ACT, time);
      BurstOne(WriteAt(old(regs), REG_TIME_ACT, [time]), REG_TIME_ACT);
    }

    /** `adxl362_get_activity_time`: TIME_ACT. */
    method GetActivityTime() returns (code: nat, time: bv8, ghost ok: bool)
      modifies this
      ensures BytesRead(REG_TIME_ACT, 1, code, [time], ok)
      ensures code == SUCCESS ==> time == At(regs, REG_TIME_ACT)
    {
      code, time, ok := FetchByte(REG_TIME_ACT);
    }

    /** `adxl362_set_inactivity_time`: 16 bits little-endian to TIME_INACT_L/H; every value
        reads back. */
    method SetInactivityTime(time: bv16) returns (code: nat, ghost ok: bool)
      modifies this
      ensures BytesWritten(REG_TIME_INACT_L, [Lo(time), Hi(time)], code, ok)
      ensures code == SUCCESS ==> Word16(regs, REG_TIME_INACT_L) == time
    {
      code, ok := SetReg(REG_TIME_INACT_L, [Lo(time), Hi(time)]);
      Word16RoundTrip(old(regs), REG_TIME_INACT_L, time);
    }

    /** `adxl362_get_inactivity_time`: TIME_INACT_L/H, unmasked. */
    method GetInactivityTime() returns (code: nat, time: bv16, ghost ok: bool)
      modifies this
      ensures BytesRead(REG_TIME_INACT_L, 2, code, [Lo(Word16(regs, REG_TIME_INACT_L)), Hi(Word16(regs, REG_TIME_INACT_L))], ok)
      ensures code == SUCCESS ==> time == Word16(regs, REG_TIME_INACT_L)
    {
      code, time, ok := FetchWord(REG_TIME_INACT_L);
    }

    // ----- Scale and rate selection of the unit conversions -----

    /** The FILTER_CTL read of a `*_convert_to_data` function and the range scale it
        selects: 1000, 500 or 235 counts per g. */
    method RangeScaleToData() returns (code: nat, scale: nat, ghost ok: bool)
      modifies this
      ensures BytesRead(REG_FILTER_CTL, 1, code, [At(regs, REG_FILTER_CTL)], ok)
      ensures code == SUCCESS ==> scale == RangeScale(At(regs, REG_FILTER_CTL))
    {
      var filter;
      code, filter, ok := FetchByte(REG_FILTER_CTL);
      scale := RangeScale(filter);
    }

    /** The same selection in a `*_convert_to_register` function, after its guard: when the
        float input fails the positivity test (`positive` is false) it returns 4 before
        any transfer. */
    method RangeScaleToRegister(positive: bool) returns (code: nat, scale: nat, ghost ok: bool)
      modifies this
      ensures old(inited) && !positive ==> code == INVALID && Unchanged()
      ensures !(old(inited) && !positive) ==> BytesRead(REG_FILTER_CTL, 1, code, [At(regs, REG_FILTER_CTL)], ok)
      ensures code == SUCCESS ==> scale == RangeScale(At(regs, REG_FILTER_CTL))
    {
      if inited && !positive {
        return INVALID, 0, false;
      }
      code, scale, ok := RangeScaleToData();
    }

    /** The FILTER_CTL read of a time `*_convert_to_data` function and the output data rate
        it selects, in tenths of a hertz. */
    method OdrRateToData() returns (code: nat, rate: nat, ghost ok: bool)
      modifies this
      ensures BytesRead(REG_FILTER_CTL, 1, code, [At(regs, REG_FILTER_CTL)], ok)
      ensures code == SUCCESS ==> rate == OdrRate(At(regs, REG_FILTER_CTL))
    {
      var filter;
      code, filter, ok := FetchByte(REG_FILTER_CTL);
      rate := OdrRate(filter);
    }

    /** The same selection in a time `*_convert_to_register` function, after its guard. */
    method OdrRateToRegister(positive: bool) returns (code: nat, rate: nat, ghost ok: bool)
      modifies this
      ensures old(inited) && !positive ==> code == INVALID && Unchanged()
      ensures !(old(inited) && !positive) ==> BytesRead(REG_FILTER_CTL, 1, code, [At(regs, REG_FILTER_CTL)], ok)
      ensures code == SUCCESS ==> rate == OdrRate(At(regs, REG_FILTER_CTL))
    {
      if inited && !positive {
        return INVALID, 0, false;
      }
      code, rate, ok := OdrRateToData();
    }

    // ----- Samples -----

    /** `adxl362_read`: six bytes from XDATA_L, then FILTER_CTL; the three little-endian
        axes and the scale of the configured range. */
    method Read() returns (code: nat, raw: seq<int16>, scale: nat, ghost dataOk: bool, ghost filterOk: bool)
      modifies this
      ensures inited == old(inited) && regs == old(regs)
      ensures !old(inited) ==> code == NOT_INITED && trace == old(trace)
      ensures old(inited) ==>
        trace == old(trace) + [ReadAddressed(ReadAddress(REG_XDATA_L), 6, dataOk)]
                 + (if dataOk then [ReadAddressed(ReadAddress(REG_FILTER_CTL), 1, filterOk)] else [])
        && code == (if dataOk && filterOk then SUCCESS else FAILED)
      ensures code == SUCCESS ==> raw == Axes(Burst(regs, REG_XDATA_L, 6)) && scale == RangeScale(At(regs, REG_FILTER_CTL))
    {
      dataOk, filterOk := false, false;
      if !inited {
        return NOT_INITED, [], 0, dataOk, filterOk;
      }
      var data, filter;
      var dataSucceeded;
      dataSucceeded, data := ReadRegisters(REG_XDATA_L, 6);
      dataOk := dataSucceeded;
      if !dataSucceeded {
        return FAILED, [], 0, dataOk, filterOk;
      }
      var filterSucceeded;
      filterSucceeded, filter := ReadRegisters(REG_FILTER_CTL, 1);
      filterOk := filterSucceeded;
      if !filterSucceeded {
        return FAILED, [], 0, dataOk, filterOk;
      }
      BurstOne(regs, REG_FILTER_CTL);
      code, raw, scale := SUCCESS, Axes(data), RangeScale(filter[0]);
    }

    /** `adxl362_read_8msb`: FILTER_CTL, then three bytes from XDATA; the three signed
        high bytes and the scale of the configured range. */
    method Read8Msb() returns (code: nat, raw: seq<int8>, scale: nat, ghost filterOk: bool, ghost dataOk: bool)
      modifies this
      ensures inited == old(inited) && regs == old(regs)
      ensures !old(inited) ==> code == NOT_INITED && trace == old(trace)
      ensures old(inited) ==>
        trace == old(trace) + [ReadAddressed(ReadAddress(REG_FILTER_CTL), 1, filterOk)]
                 + (if filterOk then [ReadAddressed(ReadAddress(REG_XDATA), 3, dataOk)] else [])
        && code == (if filterOk && dataOk then SUCCESS else FAILED)
      ensures code == SUCCESS ==> raw == Axes8(Burst(regs, REG_XDATA, 3)) && scale == RangeScale(At(regs, REG_FILTER_CTL))
    {
      filterOk, dataOk := false, false;
      if !inited {
        return NOT_INITED, [], 0, filterOk, dataOk;
      }
      var filter, data;
      var filterSucceeded;
      filterSucceeded, filter := ReadRegisters(REG_FILTER_CTL, 1);
      filterOk := filterSucceeded;
      if !filterSucceeded {
        return FAILED, [], 0, filterOk, dataOk;
      }
      var dataSucceeded;
      dataSucceeded, data := ReadRegisters(REG_XDATA, 3);
      dataOk := dataSucceeded;
      if !dataSucceeded {
        return FAILED, [], 0, filterOk, dataOk;
      }
      BurstOne(regs, REG_FILTER_CTL);
      code, raw, scale := SUCCESS, Axes8(data), RangeScale(filter[0]);
    }

    /** `adxl362_read_temperature`: TEMP_L/H as a little-endian signed sample. */
    method ReadTemperature() returns (code: nat, raw: int16, ghost ok: bool)
      modifies this
      ensures BytesRead(REG_TEMP_L, 2, code, Burst(regs, REG_TEMP_L, 2), ok)
      ensures code == SUCCESS ==> raw == Sample(Burst(regs, REG_TEMP_L, 2)[0], Burst(regs, REG_TEMP_L, 2)[1])
    {
      var data;
      code, data, ok := GetReg(REG_TEMP_L, 2);
      raw := if code == SUCCESS then Sample(data[0], data[1]) else 0;
    }

    // ----- FIFO -----

    /** The number of FIFO entries `read_fifo` asks for on this device, given the
        caller's capacity. */
    function FifoRequest(frameLen: uint16): (n: nat)
      reads this
      ensures n <= frameLen && 2 * n <= BUF_SIZE
    {
      FifoLength(FifoEntries(regs), LoadField(regs, FIFO_TEMPERATURE) == 1, frameLen)
    }

    /** The transfers of `read_fifo`, each stopping the operation when it fails: the entry
        count, FIFO_CONTROL, the FIFO bytes into `buf`, FILTER_CTL. */
    method TransferFifo(frameLen: uint16) returns (ok: bool, n: nat,
        ghost entriesOk: bool, ghost controlOk: bool, ghost dataOk: bool, ghost filterOk: bool)
      requires Valid()
      modifies this, buf
      ensures inited == old(inited) && regs == old(regs)
      ensures trace == old(trace) + [ReadAddressed(ReadAddress(REG_FIFO_ENTRIES_L), 2, entriesOk)]
                 + (if entriesOk then [ReadAddressed(ReadAddress(REG_FIFO_CONTROL), 1, controlOk)] else [])
                 + (if entriesOk && controlOk then [ReadPlain(FIFO_READ_ADDRESS, 2 * FifoRequest(frameLen), dataOk)] else [])
                 + (if entriesOk && controlOk && dataOk then [ReadAddressed(ReadAddress(REG_FILTER_CTL), 1, filterOk)] else [])
      ensures ok == (entriesOk && controlOk && dataOk && filterOk)
      ensures n == FifoRequest(frameLen)
      ensures buf[2 * n..] == old(buf[2 * n..])
      ensures !(entriesOk && controlOk && dataOk) ==> buf[..] == old(buf[..])
    {
      entriesOk, controlOk, dataOk, filterOk := false, false, false, false;
      n := FifoRequest(frameLen);
      var entries, control, filter;
      ok, entries := ReadRegisters(REG_FIFO_ENTRIES_L, 2);
      entriesOk := ok;
      if !ok {
        return;
      }
      ok, control := ReadRegisters(REG_FIFO_CONTROL, 1);
      controlOk := ok;
      if !ok {
        return;
      }
      BurstOne(regs, REG_FIFO_CONTROL);
      n := FifoLength(WordValue(entries[0], entries[1]), GetField(control[0], 2, 1) != 0, frameLen);
      ok := ReadFifoInto(buf, 2 * n);
      dataOk := ok;
      if !ok {
        return;
      }
      ok, filter := ReadRegisters(REG_FILTER_CTL, 1);
      filterOk := ok;
    }

    /** `adxl362_read_fifo`: read the entry count, clamp it to 512, read FIFO_CONTROL, fit
        the count to the caller's capacity `frameLen` and round it down to whole sets,
        read twice that many bytes into `buf`, read FILTER_CTL, and decode entry `i` from
        `buf[2i]` and `buf[2i+1]`. On success `len` is the number of frames written; on
        failure `len` is still `frameLen` and `frame` is untouched. */
    method ReadFifo(frame: array<Frame>, frameLen: uint16) returns (code: nat, len: nat,
        ghost entriesOk: bool, ghost controlOk: bool, ghost dataOk: bool, ghost filterOk: bool)
      requires Valid() && frameLen <= frame.Length && frame as object != buf
      modifies this, buf, frame
      ensures inited == old(inited) && regs == old(regs)
      ensures !old(inited) ==> code == NOT_INITED && trace == old(trace) && buf[..] == old(buf[..])
      ensures old(inited) ==>
        trace == old(trace) + [ReadAddressed(ReadAddress(REG_FIFO_ENTRIES_L), 2, entriesOk)]
                 + (if entriesOk then [ReadAddressed(ReadAddress(REG_FIFO_CONTROL), 1, controlOk)] else [])
                 + (if entriesOk && controlOk then [ReadPlain(FIFO_READ_ADDRESS, 2 * FifoRequest(frameLen), dataOk)] else [])
                 + (if entriesOk && controlOk && dataOk then [ReadAddressed(ReadAddress(REG_FILTER_CTL), 1, filterOk)] else [])
        && code == (if entriesOk && controlOk && dataOk && filterOk then SUCCESS else FAILED)
      ensures code != SUCCESS ==> len == frameLen && frame[..] == old(frame[..])
      ensures code == SUCCESS ==>
        len == FifoRequest(frameLen) && frame[..len] == DecodeFifo(buf[..], len) && frame[len..] == old(frame[len..])
      ensures buf[2 * FifoRequest(frameLen)..] == old(buf[2 * FifoRequest(frameLen)..])
      ensures !(old(inited) && entriesOk && controlOk && dataOk) ==> buf[..] == old(buf[..])
    {
      entriesOk, controlOk, dataOk, filterOk := false, false, false, false;
      len := frameLen;
      if !inited {
        return NOT_INITED, len, entriesOk, controlOk, dataOk, filterOk;
      }
      var ok, n;
      ok, n, entriesOk, controlOk, dataOk, filterOk := TransferFifo(frameLen);
      if !ok {
        return FAILED, len, entriesOk, controlOk, dataOk, filterOk;
      }
      DecodeFrames(frame, n);
      code, len := SUCCESS, n;
    }

    /** The decoding loop of `read_fifo`: the first `n` frames from the words in `buf`;
        the rest of `frame` is left alone. */
    method DecodeFrames(frame: array<Frame>, n: nat)
      requires Valid() && n <= frame.Length && 2 * n <= BUF_SIZE && frame as object != buf
      modifies frame
      ensures frame[..n] == DecodeFifo(buf[..], n)
      ensures frame[n..] == old(frame[n..])
    {
      ghost var words := DecodeFifo(buf[..], n);
      for i := 0 to n
        invariant frame[..i] == words[..i]
        invariant frame[i..] == old(frame[i..])
      {
        frame[i] := DecodeWord(WordValue(buf[2 * i], buf[2 * i + 1]));
        assert words[i] == frame[i];
        assert frame[..i + 1] == frame[..i] + [frame[i]];
        assert words[..i + 1] == words[..i] + [words[i]];
      }
      assert words[..n] == words;
    }

    // ----- Interrupts -----

    /** One test of the handler for a bit other than the overrun: when the bit is set in
        `status` and a callback is linked, call it with that bit's mask. */
    method NotifyIfSet(status: bv8, m: bv8)
      requires m != STATUS_FIFO_OVERRUN
      modifies this
      ensures inited == old(inited) && regs == old(regs)
      ensures !links.receiveCallback ==> trace == old(trace)
      ensures forall drain :: links.receiveCallback ==> trace == old(trace) + DispatchStep(status, m, drain)
    {
      if status & m != 0 {
        if links.receiveCallback {
          Notify(m);
        }
      }
    }

    /** The overrun test of the handler: when the bit is set and a callback is linked,
        drain the whole FIFO into `buf`, ignoring the outcome, then call back with the
        overrun mask. `buf` changes only then. */
    method DrainIfOverrun(status: bv8) returns (ghost ok: bool)
      requires Valid()
      modifies this, buf
      ensures inited == old(inited) && regs == old(regs)
      ensures trace == old(trace) + (if links.receiveCallback then DispatchStep(status, STATUS_FIFO_OVERRUN, ReadPlain(FIFO_READ_ADDRESS, BUF_SIZE, ok)) else [])
      ensures !(links.receiveCallback && status & STATUS_FIFO_OVERRUN != 0) ==> buf[..] == old(buf[..])
    {
      ok := false;
      if status & STATUS_FIFO_OVERRUN != 0 {
        if links.receiveCallback {
          ok := ReadFifoInto(buf, BUF_SIZE);
          Notify(STATUS_FIFO_OVERRUN);
          assert [ReadPlain(FIFO_READ_ADDRESS, BUF_SIZE, ok)] + [Callback(STATUS_FIFO_OVERRUN)]
              == [ReadPlain(FIFO_READ_ADDRESS, BUF_SIZE, ok), Callback(STATUS_FIFO_OVERRUN)];
        }
      }
    }

    /** `adxl362_irq_handler`: read STATUS once; with a callback linked, call it once for
        each set bit, bit 7 first, draining the FIFO just before the overrun callback. */
    method IrqHandler() returns (code: nat, ghost readOk: bool, ghost drainOk: bool)
      requires Valid()
      modifies this, buf
      ensures inited == old(inited) && regs == old(regs)
      ensures !old(inited) ==> code == NOT_INITED && trace == old(trace)
      ensures old(inited) ==>
        trace == old(trace) + [ReadAddressed(ReadAddress(REG_STATUS), 1, readOk)]
                 + (if readOk && links.receiveCallback
                    then DispatchEvents(At(regs, REG_STATUS), STATUS_ORDER, ReadPlain(FIFO_READ_ADDRESS, BUF_SIZE, drainOk))
                    else [])
        && code == (if readOk then SUCCESS else FAILED)
      ensures !(old(inited) && readOk && links.receiveCallback && At(regs, REG_STATUS) & STATUS_FIFO_OVERRUN != 0) ==>
        buf[..] == old(buf[..])
    {
      readOk, drainOk := false, false;
      if !inited {
        return NOT_INITED, readOk, drainOk;
      }
      var readSucceeded, prev;
      readSucceeded, prev := ReadRegisters(REG_STATUS, 1);
      readOk := readSucceeded;
      if !readSucceeded {
        return FAILED, readOk, drainOk;
      }
      BurstOne(regs, REG_STATUS);
      var status := prev[0];
      ghost var t0 := trace;
      NotifyIfSet(status, STATUS_ERR_USER_REGS);
      ghost var t1 := trace;
      NotifyIfSet(status, STATUS_AWAKE);
      ghost var t2 := trace;
      NotifyIfSet(status, STATUS_INACT);
      ghost var t3 := trace;
      NotifyIfSet(status, STATUS_ACT);
      ghost var t4 := trace;
      drainOk := DrainIfOverrun(status);
      ghost var t5 := trace;
      NotifyIfSet(status, STATUS_FIFO_WATERMARK);
      ghost var t6 := trace;
      NotifyIfSet(status, STATUS_FIFO_READY);
      ghost var t7 := trace;
      NotifyIfSet(status, STATUS_DATA_READY);
      code := SUCCESS;
      ghost var d := ReadPlain(FIFO_READ_ADDRESS, BUF_SIZE, drainOk);
      if links.receiveCallback {
        DispatchSteps(status, d, t0, t1, t2, t3, t4, t5, t6, t7, trace);
      } else {
        assert trace == t0 + [];
      }
    }
  }
}
