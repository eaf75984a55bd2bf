/** The register map of the ADXL362, the bit-field layout of its configuration
    registers, the framing of bus transfers, and the abstract register file that
    reads and writes act on. */
module Adxl362Registers {
  import opened Bits
  import opened Adxl362Types

  // Register offsets
  const REG_DEVID_AD: bv8 := 0x00
  const REG_DEVID_MST: bv8 := 0x01
  const REG_PARTID: bv8 := 0x02
  const REG_REVID: bv8 := 0x03
  const REG_XDATA: bv8 := 0x08
  const REG_YDATA: bv8 := 0x09
  const REG_ZDATA: bv8 := 0x0A
  const REG_STATUS: bv8 := 0x0B
  const REG_FIFO_ENTRIES_L: bv8 := 0x0C
  const REG_FIFO_ENTRIES_H: bv8 := 0x0D
  const REG_XDATA_L: bv8 := 0x0E
  const REG_XDATA_H: bv8 := 0x0F
  const REG_YDATA_L: bv8 := 0x10
  const REG_YDATA_H: bv8 := 0x11
  const REG_ZDATA_L: bv8 := 0x12
  const REG_ZDATA_H: bv8 := 0x13
  const REG_TEMP_L: bv8 := 0x14
  const REG_TEMP_H: bv8 := 0x15
  const REG_SOFT_RESET: bv8 := 0x1F
  const REG_THRESH_ACT_L: bv8 := 0x20
  const REG_THRESH_ACT_H: bv8 := 0x21
  const REG_TIME_ACT: bv8 := 0x22
  const REG_THRESH_INACT_L: bv8 := 0x23
  const REG_THRESH_INACT_H: bv8 := 0x24
  const REG_TIME_INACT_L: bv8 := 0x25
  const REG_TIME_INACT_H: bv8 := 0x26
  const REG_ACT_INACT_CTL: bv8 := 0x27
  const REG_FIFO_CONTROL: bv8 := 0x28
  const REG_FIFO_SAMPLES: bv8 := 0x29
  const REG_INTMAP1: bv8 := 0x2A
  const REG_INTMAP2: bv8 := 0x2B
  const REG_FILTER_CTL: bv8 := 0x2C
  const REG_POWER_CTL: bv8 := 0x2D
  const REG_SELF_TEST: bv8 := 0x2E

  /** Device identity checked by init, and the soft-reset command. */
  const DEVID_AD: bv8 := 0xAD
  const DEVID_MST: bv8 := 0x1D
  const PARTID: bv8 := 0xF2
  const SOFT_RESET_COMMAND: bv8 := 0x52
  const RESET_DELAY_MS: nat := 2

  // ----- Bus framing -----

  /** Command bytes placed in the high byte of a 16-bit register address. */
  const READ_COMMAND: bv8 := 0x0B
  const WRITE_COMMAND: bv8 := 0x0A
  /** The plain (8-bit) address of FIFO burst reads. */
  const FIFO_READ_ADDRESS: bv8 := 0x0D

  /** `((uint16_t)(0x0B) << 8) | reg`, the address of a register read. */
  function ReadAddress(reg: bv8): bv16
  {
    Word(reg, READ_COMMAND)
  }

  /** `((uint16_t)(0x0A) << 8) | reg`, the address of a register write. */
  function WriteAddress(reg: bv8): bv16
  {
    Word(reg, WRITE_COMMAND)
  }

  /** Both addresses carry their command in the high byte and the register offset in
      the low byte. */
  lemma AddressBytes(reg: bv8)
    ensures Hi(ReadAddress(reg)) == 0x0B && Lo(ReadAddress(reg)) == reg
    ensures Hi(WriteAddress(reg)) == 0x0A && Lo(WriteAddress(reg)) == reg
  {
    JoinSplit(reg, READ_COMMAND);
    JoinSplit(reg, WRITE_COMMAND);
  }

  /** Reads and writes never share an address, and distinct registers get distinct
      read addresses and distinct write addresses. */
  lemma AddressesDistinct(reg: bv8, other: bv8)
    ensures ReadAddress(reg) != WriteAddress(other)
    ensures reg != other ==> ReadAddress(reg) != ReadAddress(other)
    ensures reg != other ==> WriteAddress(reg) != WriteAddress(other)
  {
    AddressBytes(reg);
    AddressBytes(other);
  }

  /** One transfer on the bus, with its outcome; `DelayMs` is a call of the delay link
      and `Callback` a call of the user's receive callback. */
  datatype BusEvent =
    | SpiInit(ok: bool)
    | SpiDeinit(ok: bool)
    | ReadAddressed(address: bv16, len: nat, ok: bool)
    | WriteAddressed(address: bv16, data: seq<bv8>, ok: bool)
    | ReadPlain(plainAddress: bv8, len: nat, ok: bool)
    | DelayMs(ms: nat)
    | Callback(kind: bv8)

  // ----- Register file -----

  /** The device's registers, one byte per 8-bit offset. */
  type RegisterFile = r: seq<bv8> | |r| == 0x100 witness seq(0x100, _ => 0)

  /** The offset `k` places after `reg`, wrapping at 256. */
  function Offset(reg: bv8, k: nat): (a: nat)
    ensures a < 0x100
  {
    ByteBack(reg);
    (reg as int + k) % 0x100
  }

  /** The byte at register `reg`. */
  function At(r: RegisterFile, reg: bv8): bv8
  {
    ByteBack(reg);
    r[reg as int]
  }

  /** What a burst read of `len` bytes from `reg` returns: the registers from `reg`
      upwards, auto-incrementing. */
  function Burst(r: RegisterFile, reg: bv8, len: nat): (d: seq<bv8>)
    ensures |d| == len
  {
    seq(len, k requires 0 <= k < len => r[Offset(reg, k)])
  }

  /** The register file after a burst write of `data` starting at offset `start`. */
  function WriteBurst(r: RegisterFile, start: nat, data: seq<bv8>): RegisterFile
    requires start < 0x100
    decreases |data|
  {
    if data == [] then r else WriteBurst(r[start := data[0]], (start + 1) % 0x100, data[1..])
  }

  /** The register file after a burst write of `data` at register `reg`. */
  function WriteAt(r: RegisterFile, reg: bv8, data: seq<bv8>): RegisterFile
  {
    ByteBack(reg);
    WriteBurst(r, reg as int, data)
  }

  /** A burst write of at most 256 bytes puts byte `k` at `start + k` (mod 256) and
      leaves every register outside the written window unchanged. */
  lemma {:induction false} WriteBurstAt(r: RegisterFile, start: nat, data: seq<bv8>, a: nat)
    requires start < 0x100 && a < 0x100 && |data| <= 0x100
    ensures WriteBurst(r, start, data)[a] ==
            if (a - start) % 0x100 < |data| then data[(a - start) % 0x100] else r[a]
    decreases |data|
  {
    if data != [] {
      var next := (start + 1) % 0x100;
      WriteBurstAt(r[start := data[0]], next, data[1..], a);
      OffsetStep(start, a);
    }
  }

  /** Distances modulo 256 after moving the window start one place up. */
  lemma OffsetStep(start: nat, a: nat)
    requires start < 0x100 && a < 0x100
    ensures a == start ==> (a - (start + 1) % 0x100) % 0x100 == 0xFF
    ensures a != start ==> (a - (start + 1) % 0x100) % 0x100 == (a - start) % 0x100 - 1
  {
  }

  /** The distance from `reg` to its `k`-th successor is `k`. */
  lemma OffsetDistance(reg: bv8, k: nat)
    requires k < 0x100
    ensures (Offset(reg, k) - reg as int) % 0x100 == k
  {
    ByteBack(reg);
  }

  /** Reading back a burst write of at most 256 bytes returns the written bytes. */
  lemma WriteThenBurst(r: RegisterFile, reg: bv8, data: seq<bv8>)
    requires |data| <= 0x100
    ensures Burst(WriteAt(r, reg, data), reg, |data|) == data
  {
    ByteBack(reg);
    forall k | 0 <= k < |data|
      ensures Burst(WriteAt(r, reg, data), reg, |data|)[k] == data[k]
    {
      WriteBurstAt(r, reg as int, data, Offset(reg, k));
      OffsetDistance(reg, k);
    }
  }

  /** A one-byte write replaces exactly that register. */
  lemma WriteOne(r: RegisterFile, reg: bv8, b: bv8)
    ensures WriteAt(r, reg, [b]) == r[reg as int := b]
  {
    ByteBack(reg);
    assert [b][1..] == [];
    assert WriteAt(r, reg, [b]) == WriteBurst(r[reg as int := b], (reg as int + 1) % 0x100, []);
  }

  // ----- Bit-field layout -----

  /** A bit field: `width` bits of register `reg` starting at bit `shift`. */
  datatype Field = Field(reg: bv8, shift: bv8, width: bv8)
  {
    predicate Valid() { InByte(shift, width) }
  }

  // FIFO_CONTROL
  const FIFO_SAMPLE_BIT8 := Field(REG_FIFO_CONTROL, 3, 1)
  const FIFO_TEMPERATURE := Field(REG_FIFO_CONTROL, 2, 1)
  const FIFO_MODE := Field(REG_FIFO_CONTROL, 0, 2)
  // INTMAP1 and INTMAP2
  const INT1_ACTIVE_LEVEL := Field(REG_INTMAP1, 7, 1)
  const INT2_ACTIVE_LEVEL := Field(REG_INTMAP2, 7, 1)
  // FILTER_CTL
  const RANGE := Field(REG_FILTER_CTL, 6, 2)
  const BANDWIDTH := Field(REG_FILTER_CTL, 4, 1)
  const EXT_SAMPLE := Field(REG_FILTER_CTL, 3, 1)
  const ODR := Field(REG_FILTER_CTL, 0, 3)
  // POWER_CTL
  const EXT_CLOCK := Field(REG_POWER_CTL, 6, 1)
  const NOISE_MODE := Field(REG_POWER_CTL, 4, 2)
  const WAKE_UP := Field(REG_POWER_CTL, 3, 1)
  const AUTO_SLEEP := Field(REG_POWER_CTL, 2, 1)
  const MEASURE_MODE := Field(REG_POWER_CTL, 0, 2)
  // ACT_INACT_CTL
  const DETECT_MODE := Field(REG_ACT_INACT_CTL, 4, 2)
  const INACT_REFERENCED := Field(REG_ACT_INACT_CTL, 3, 1)
  const INACT_ENABLE := Field(REG_ACT_INACT_CTL, 2, 1)
  const ACT_REFERENCED := Field(REG_ACT_INACT_CTL, 1, 1)
  const ACT_ENABLE := Field(REG_ACT_INACT_CTL, 0, 1)
  // SELF_TEST
  const SELF_TEST := Field(REG_SELF_TEST, 0, 1)

  /** The map bit of one interrupt source in INTMAP1 or INTMAP2: the enumeration value
      is used directly as the shift. */
  function InterruptMapField(reg: bv8, source: InterruptMap): (f: Field)
    requires reg == REG_INTMAP1 || reg == REG_INTMAP2
    ensures f.Valid() && f.width == 1 && f.shift < 7
  {
    Field(reg, source, 1)
  }

  /** The fields of each configuration register, as the accessors use them. */
  const FIFO_CONTROL_FIELDS: seq<Field> := [FIFO_SAMPLE_BIT8, FIFO_TEMPERATURE, FIFO_MODE]
  const FILTER_CTL_FIELDS: seq<Field> := [RANGE, BANDWIDTH, EXT_SAMPLE, ODR]
  const POWER_CTL_FIELDS: seq<Field> := [EXT_CLOCK, NOISE_MODE, WAKE_UP, AUTO_SLEEP, MEASURE_MODE]
  const ACT_INACT_CTL_FIELDS: seq<Field> := [DETECT_MODE, INACT_REFERENCED, INACT_ENABLE, ACT_REFERENCED, ACT_ENABLE]

  /** Two fields that never overlap: different registers, or disjoint bits of one. */
  predicate Separate(f: Field, g: Field)
    requires f.Valid() && g.Valid()
  {
    f.reg != g.reg || Disjoint(f.shift, f.width, g.shift, g.width)
  }

  /** Every field of `fs` lies in register `reg`, within its byte, and no two overlap. */
  predicate RegisterLayout(reg: bv8, fs: seq<Field>)
  {
    (forall i :: 0 <= i < |fs| ==> fs[i].reg == reg && fs[i].Valid())
    && forall i, j :: 0 <= i < j < |fs| ==> fs[i].Valid() && fs[j].Valid() && Separate(fs[i], fs[j])
  }

  /** FIFO_CONTROL: the sample-count bit 8, the temperature bit and the mode bits are apart. */
  lemma FifoControlLayout()
    ensures RegisterLayout(REG_FIFO_CONTROL, FIFO_CONTROL_FIELDS)
  {
  }

  /** FILTER_CTL: range, bandwidth, external-sample and ODR fields are apart. */
  lemma FilterCtlLayout()
    ensures RegisterLayout(REG_FILTER_CTL, FILTER_CTL_FIELDS)
  {
  }

  /** POWER_CTL: external clock, noise, wake-up, auto-sleep and measure fields are apart. */
  lemma PowerCtlLayout()
    ensures RegisterLayout(REG_POWER_CTL, POWER_CTL_FIELDS)
  {
  }

  /** ACT_INACT_CTL: detect mode and the four activity/inactivity bits are apart. */
  lemma ActInactCtlLayout()
    ensures RegisterLayout(REG_ACT_INACT_CTL, ACT_INACT_CTL_FIELDS)
  {
  }

  /** INTMAP1 and INTMAP2: every interrupt-map bit lies apart from the active-level bit,
      different map values are different bits, and SELF_TEST is one bit of its register. */
  lemma InterruptMapLayout(m: InterruptMap, m2: InterruptMap)
    ensures RegisterLayout(REG_INTMAP1, [InterruptMapField(REG_INTMAP1, m), INT1_ACTIVE_LEVEL])
    ensures RegisterLayout(REG_INTMAP2, [InterruptMapField(REG_INTMAP2, m), INT2_ACTIVE_LEVEL])
    ensures m != m2 ==> Separate(InterruptMapField(REG_INTMAP1, m), InterruptMapField(REG_INTMAP1, m2))
    ensures m != m2 ==> Separate(InterruptMapField(REG_INTMAP2, m), InterruptMapField(REG_INTMAP2, m2))
    ensures SELF_TEST.Valid()
  {
  }

  // ----- Read-modify-write of one field -----

  /** The value of field `f` in the register file. */
  function LoadField(r: RegisterFile, f: Field): (v: bv8)
    requires f.Valid()
    ensures v <= Mask(f.width)
  {
    GetField(At(r, f.reg), f.shift, f.width)
  }

  /** The byte a setter writes back: the register's current byte with field `f`
      replaced by `v`. */
  function Updated(r: RegisterFile, f: Field, v: bv8): bv8
    requires f.Valid()
  {
    SetField(At(r, f.reg), f.shift, f.width, v)
  }

  /** The register file after a setter's successful read-modify-write. */
  function StoreField(r: RegisterFile, f: Field, v: bv8): RegisterFile
    requires f.Valid()
  {
    WriteAt(r, f.reg, [Updated(r, f, v)])
  }

  /** The getter of a field returns what the setter stored, for every value that fits. */
  lemma LoadAfterStore(r: RegisterFile, f: Field, v: bv8)
    requires f.Valid() && v <= Mask(f.width)
    ensures LoadField(StoreField(r, f, v), f) == v
  {
    ByteBack(f.reg);
    WriteOne(r, f.reg, Updated(r, f, v));
    SetThenGetField(At(r, f.reg), f.shift, f.width, v);
  }

  /** The registers `r2` differ from `r` at most under field `f`: every other register
      and every other bit of `f`'s register is as it was. */
  ghost predicate ChangesOnly(r: RegisterFile, r2: RegisterFile, f: Field)
    requires f.Valid()
  {
    (forall a: bv8 :: a != f.reg ==> At(r2, a) == At(r, a))
    && SameOutside(At(r2, f.reg), At(r, f.reg), f.shift, f.width)
  }

  /** Storing a value that fits changes nothing outside the field. */
  lemma StoreChangesOnly(r: RegisterFile, f: Field, v: bv8)
    requires f.Valid() && v <= Mask(f.width)
    ensures ChangesOnly(r, StoreField(r, f, v), f)
  {
    ByteBack(f.reg);
    WriteOne(r, f.reg, Updated(r, f, v));
    forall a: bv8 | a != f.reg
      ensures At(StoreField(r, f, v), a) == At(r, a)
    {
      ByteBack(a);
      assert a as int != f.reg as int by {
        if a as int == f.reg as int {
          assert false;
        }
      }
    }
    SetFieldKeepsOtherBits(At(r, f.reg), f.shift, f.width, v);
  }

  /** A change confined to field `f` leaves every field separate from `f` as it was. */
  lemma ChangesOnlyKeepsSeparate(r: RegisterFile, r2: RegisterFile, f: Field, g: Field)
    requires f.Valid() && g.Valid() && Separate(f, g) && ChangesOnly(r, r2, f)
    ensures LoadField(r2, g) == LoadField(r, g)
  {
    if f.reg == g.reg {
      SameOutsideKeepsDisjointField(At(r2, f.reg), At(r, f.reg), f.shift, f.width, g.shift, g.width);
    }
  }

  /** A one-byte burst reads the register itself. */
  lemma BurstOne(r: RegisterFile, reg: bv8)
    ensures Burst(r, reg, 1) == [At(r, reg)]
  {
    ByteBack(reg);
  }
}
