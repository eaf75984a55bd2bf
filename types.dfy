/** The enumerations, the frame record and the handle sizes of the driver's public
    header. Each enumeration is a subset of bytes holding exactly the header's
    constants, so a setter can only be handed a value the header defines. */
module Adxl362Types {
  import opened Bits

  // adxl362_bool_t
  const BOOL_FALSE: bv8 := 0x00
  const BOOL_TRUE: bv8 := 0x01
  type Bool = b: bv8 | b == BOOL_FALSE || b == BOOL_TRUE

  // adxl362_interrupt_pin_level_t
  const INTERRUPT_PIN_HIGH: bv8 := 0x00
  const INTERRUPT_PIN_LOW: bv8 := 0x01
  type PinLevel = b: bv8 | b == INTERRUPT_PIN_HIGH || b == INTERRUPT_PIN_LOW

  // adxl362_range_t
  const RANGE_2G: bv8 := 0x00
  const RANGE_4G: bv8 := 0x01
  const RANGE_8G: bv8 := 0x02
  type Range = b: bv8 | b == RANGE_2G || b == RANGE_4G || b == RANGE_8G

  // adxl362_bandwidth_t
  const BANDWIDTH_ODR_DIV_2: bv8 := 0x00
  const BANDWIDTH_ODR_DIV_4: bv8 := 0x01
  type Bandwidth = b: bv8 | b == BANDWIDTH_ODR_DIV_2 || b == BANDWIDTH_ODR_DIV_4

  // adxl362_odr_t: 12.5, 25, 50, 100, 200 and 400 Hz
  const ODR_12P5HZ: bv8 := 0x00
  const ODR_25HZ: bv8 := 0x01
  const ODR_50HZ: bv8 := 0x02
  const ODR_100HZ: bv8 := 0x03
  const ODR_200HZ: bv8 := 0x04
  const ODR_400HZ: bv8 := 0x05
  type Odr = b: bv8 | b <= ODR_400HZ

  // adxl362_noise_mode_t: the header gives all three modes the value 0x00
  const NOISE_MODE_NORMAL: bv8 := 0x00
  const NOISE_MODE_LOW_NOISE: bv8 := 0x00
  const NOISE_MODE_ULTRA_LOW_NOISE: bv8 := 0x00
  type NoiseMode = b: bv8 | b == NOISE_MODE_NORMAL || b == NOISE_MODE_LOW_NOISE || b == NOISE_MODE_ULTRA_LOW_NOISE

  // adxl362_mode_t
  const MODE_STANDBY: bv8 := 0x00
  const MODE_MEASUREMENT: bv8 := 0x02
  type ChipMode = b: bv8 | b == MODE_STANDBY || b == MODE_MEASUREMENT

  // adxl362_detect_mode_t
  const DETECT_MODE_BOTH: bv8 := 0x00
  const DETECT_MODE_LINK: bv8 := 0x01
  const DETECT_MODE_LOOP: bv8 := 0x03
  type DetectMode = b: bv8 | b == DETECT_MODE_BOTH || b == DETECT_MODE_LINK || b == DETECT_MODE_LOOP

  // adxl362_detect_trigger_t
  const DETECT_TRIGGER_ABSOLUTE: bv8 := 0x00
  const DETECT_TRIGGER_REFERENCED: bv8 := 0x01
  type DetectTrigger = b: bv8 | b == DETECT_TRIGGER_ABSOLUTE || b == DETECT_TRIGGER_REFERENCED

  // adxl362_interrupt_map_t: the values double as bit positions in INTMAP1/INTMAP2
  const INTERRUPT_MAP_AWAKE: bv8 := 6
  const INTERRUPT_MAP_INACT: bv8 := 5
  const INTERRUPT_MAP_ACT: bv8 := 4
  const INTERRUPT_MAP_FIFO_OVERRUN: bv8 := 3
  const INTERRUPT_MAP_FIFO_WATERMARK: bv8 := 2
  const INTERRUPT_MAP_FIFO_READY: bv8 := 1
  const INTERRUPT_MAP_DATA_READY: bv8 := 0
  type InterruptMap = b: bv8 | b <= INTERRUPT_MAP_AWAKE

  // adxl362_status_t: one mask per bit of the status register
  const STATUS_ERR_USER_REGS: bv8 := 1 << 7
  const STATUS_AWAKE: bv8 := 1 << 6
  const STATUS_INACT: bv8 := 1 << 5
  const STATUS_ACT: bv8 := 1 << 4
  const STATUS_FIFO_OVERRUN: bv8 := 1 << 3
  const STATUS_FIFO_WATERMARK: bv8 := 1 << 2
  const STATUS_FIFO_READY: bv8 := 1 << 1
  const STATUS_DATA_READY: bv8 := 1 << 0

  /** The status masks in the order the interrupt handler tests them. */
  const STATUS_ORDER: seq<bv8> := [STATUS_ERR_USER_REGS, STATUS_AWAKE, STATUS_INACT, STATUS_ACT,
                                   STATUS_FIFO_OVERRUN, STATUS_FIFO_WATERMARK, STATUS_FIFO_READY,
                                   STATUS_DATA_READY]

  // adxl362_fifo_mode_t
  const FIFO_MODE_DISABLE: bv8 := 0x00
  const FIFO_MODE_OLDEST_SAVED: bv8 := 0x01
  const FIFO_MODE_STREAM: bv8 := 0x02
  const FIFO_MODE_TRIGGERED: bv8 := 0x03
  type FifoMode = b: bv8 | b <= FIFO_MODE_TRIGGERED

  /** adxl362_frame_type_t: X = 0, Y = 1, Z = 2, TEMP = 3. */
  datatype FrameType = FrameX | FrameY | FrameZ | FrameTemp

  /** The numeric value of a frame type. */
  function FrameTag(t: FrameType): (tag: nat)
    ensures tag <= 3
  {
    match t
    case FrameX => 0x00
    case FrameY => 0x01
    case FrameZ => 0x02
    case FrameTemp => 0x03
  }

  /** The cast `(adxl362_frame_type_t)(type)` of a 2-bit FIFO tag. */
  function FrameTypeOf(tag: nat): (t: FrameType)
    requires tag <= 3
    ensures FrameTag(t) == tag
  {
    if tag == 0 then FrameX else if tag == 1 then FrameY else if tag == 2 then FrameZ else FrameTemp
  }

  /** adxl362_frame_t without its float `data` member: the tag and the sign-extended raw code. */
  datatype Frame = Frame(kind: FrameType, raw: int16)

  /** Size in bytes of the handle's scratch buffer `buf[512 * 2]`. */
  const FIFO_CAPACITY: nat := 512
  const BUF_SIZE: nat := FIFO_CAPACITY * 2

  /** The interrupt-map values are exactly the bit positions 0..6, all below bit 7,
      the active-level bit of the same registers. */
  lemma InterruptMapBelowLevelBit(m: InterruptMap)
    ensures m as int < 7
    ensures m in {INTERRUPT_MAP_DATA_READY, INTERRUPT_MAP_FIFO_READY, INTERRUPT_MAP_FIFO_WATERMARK,
                  INTERRUPT_MAP_FIFO_OVERRUN, INTERRUPT_MAP_ACT, INTERRUPT_MAP_INACT, INTERRUPT_MAP_AWAKE}
  {
  }

  /** The eight status masks are single bits 7 down to 0, pairwise distinct, and together
      cover the whole status byte. */
  lemma StatusMasksCoverByte()
    ensures |STATUS_ORDER| == 8
    ensures forall i :: 0 <= i < 8 ==> STATUS_ORDER[i] == (1 as bv8) << (7 - i)
    ensures forall i, j :: 0 <= i < j < 8 ==> STATUS_ORDER[i] & STATUS_ORDER[j] == 0
    ensures STATUS_ORDER[0] | STATUS_ORDER[1] | STATUS_ORDER[2] | STATUS_ORDER[3]
          | STATUS_ORDER[4] | STATUS_ORDER[5] | STATUS_ORDER[6] | STATUS_ORDER[7] == 0xFF
  {
  }

  /** The four frame tags cover all values of a 2-bit field, and the cast back is exact. */
  lemma FrameTypesCoverTag(t: FrameType, tag: nat)
    ensures tag <= 3 ==> FrameTag(FrameTypeOf(tag)) == tag
    ensures FrameTypeOf(FrameTag(t)) == t
  {
  }

  /** All three noise modes are the same value, 0. */
  lemma NoiseModesCoincide(m: NoiseMode)
    ensures m == 0
    ensures NOISE_MODE_NORMAL == NOISE_MODE_LOW_NOISE == NOISE_MODE_ULTRA_LOW_NOISE
  {
  }

  /** Every enumeration fits the width of the register field it is written into. */
  lemma EnumsFitTheirFields(b: Bool, l: PinLevel, r: Range, bw: Bandwidth, o: Odr, n: NoiseMode,
                            c: ChipMode, d: DetectMode, t: DetectTrigger, f: FifoMode)
    ensures b <= Mask(1) && l <= Mask(1) && bw <= Mask(1) && t <= Mask(1)
    ensures r <= Mask(2) && n <= Mask(2) && c <= Mask(2) && d <= Mask(2) && f <= Mask(2)
    ensures o <= Mask(3)
  {
  }

  /** The scratch buffer holds exactly the device's 512 FIFO entries of two bytes each. */
  lemma BufferHoldsWholeFifo()
    ensures BUF_SIZE == 1024 && BUF_SIZE == 2 * FIFO_CAPACITY
  {
  }
}
