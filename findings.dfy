/** Three places where the driver does not do what its interface promises, each written
    once as the driver has it and once as evidently intended, with the difference shown
    on a concrete input and the intended property proved about the corrected form. */
module Adxl362Findings {
  import opened Bits
  import opened Adxl362Types
  import opened Adxl362Registers

  // ----- FIFO sample count: bit 8 goes to the wrong register -----

  /** Bit 8 of a sample count, as a one-bit field value. */
  function SampleBit8(sample: bv16): (b: bv8)
    ensures b <= 1
  {
    ((sample >> 8) & 1) as bv8
  }

  /** The sample count as `get_fifo_sample` reads it back: FIFO_CONTROL bit 3 above the
      eight bits of FIFO_SAMPLES. */
  function LoadFifoSample(r: RegisterFile): (sample: bv16)
    ensures sample <= 511
  {
    (LoadField(r, FIFO_SAMPLE_BIT8) as bv16 << 8) | At(r, REG_FIFO_SAMPLES) as bv16
  }

  /** The registers after a successful `set_fifo_sample(sample)` as written: FIFO_CONTROL
      with bit 3 replaced by bit 8 of the count is written to FIFO_SAMPLES, and then the
      low byte overwrites it there. FIFO_CONTROL itself is never written. */
  function StoreFifoSample(r: RegisterFile, sample: bv16): RegisterFile
  {
    var first := WriteAt(r, REG_FIFO_SAMPLES, [Updated(r, FIFO_SAMPLE_BIT8, SampleBit8(sample))]);
    WriteAt(first, REG_FIFO_SAMPLES, [Lo(sample)])
  }

  /** As written, the two writes leave only the low byte behind: bit 8 is lost. */
  lemma FifoSampleDropsBit8(r: RegisterFile, sample: bv16)
    ensures StoreFifoSample(r, sample) == WriteAt(r, REG_FIFO_SAMPLES, [Lo(sample)])
    ensures LoadField(StoreFifoSample(r, sample), FIFO_SAMPLE_BIT8) == LoadField(r, FIFO_SAMPLE_BIT8)
  {
    var b := Updated(r, FIFO_SAMPLE_BIT8, SampleBit8(sample));
    WriteOne(r, REG_FIFO_SAMPLES, b);
    WriteOne(r[0x29 := b], REG_FIFO_SAMPLES, Lo(sample));
    WriteOne(r, REG_FIFO_SAMPLES, Lo(sample));
    assert r[0x29 := b][0x29 := Lo(sample)] == r[0x29 := Lo(sample)];
  }

  /** As written, a count reads back exactly when its bit 8 already agrees with
      FIFO_CONTROL bit 3. */
  lemma FifoSampleRoundTripAsWritten(r: RegisterFile, sample: bv16)
    requires sample <= 511
    ensures LoadFifoSample(StoreFifoSample(r, sample)) == sample <==> SampleBit8(sample) == LoadField(r, FIFO_SAMPLE_BIT8)
  {
    FifoSampleDropsBit8(r, sample);
    WriteOne(r, REG_FIFO_SAMPLES, Lo(sample));
    SampleFromParts(sample, LoadField(r, FIFO_SAMPLE_BIT8));
  }

  /** The count 256 on a device whose FIFO_CONTROL bit 3 is clear reads back as 0. */
  lemma FifoSample256ReadsZero(r: RegisterFile)
    requires LoadField(r, FIFO_SAMPLE_BIT8) == 0
    ensures LoadFifoSample(StoreFifoSample(r, 256)) == 0
  {
    FifoSampleDropsBit8(r, 256);
    WriteOne(r, REG_FIFO_SAMPLES, Lo(256));
  }

  /** The registers after `set_fifo_sample(sample)` as intended: bit 8 into FIFO_CONTROL
      bit 3, the low byte into FIFO_SAMPLES. */
  function StoreFifoSampleIntended(r: RegisterFile, sample: bv16): RegisterFile
  {
    WriteAt(StoreField(r, FIFO_SAMPLE_BIT8, SampleBit8(sample)), REG_FIFO_SAMPLES, [Lo(sample)])
  }

  /** As intended, every count up to 511 reads back unchanged, and FIFO_CONTROL keeps its
      temperature and mode bits. */
  lemma FifoSampleRoundTripIntended(r: RegisterFile, sample: bv16)
    requires sample <= 511
    ensures LoadFifoSample(StoreFifoSampleIntended(r, sample)) == sample
    ensures LoadField(StoreFifoSampleIntended(r, sample), FIFO_TEMPERATURE) == LoadField(r, FIFO_TEMPERATURE)
    ensures LoadField(StoreFifoSampleIntended(r, sample), FIFO_MODE) == LoadField(r, FIFO_MODE)
  {
    var r1 := StoreField(r, FIFO_SAMPLE_BIT8, SampleBit8(sample));
    LoadAfterStore(r, FIFO_SAMPLE_BIT8, SampleBit8(sample));
    StoreChangesOnly(r, FIFO_SAMPLE_BIT8, SampleBit8(sample));
    FifoControlLayout();
    assert FIFO_CONTROL_FIELDS[0] == FIFO_SAMPLE_BIT8 && FIFO_CONTROL_FIELDS[1] == FIFO_TEMPERATURE;
    assert FIFO_CONTROL_FIELDS[2] == FIFO_MODE;
    ChangesOnlyKeepsSeparate(r, r1, FIFO_SAMPLE_BIT8, FIFO_TEMPERATURE);
    ChangesOnlyKeepsSeparate(r, r1, FIFO_SAMPLE_BIT8, FIFO_MODE);
    WriteOne(r1, REG_FIFO_SAMPLES, Lo(sample));
    SampleFromParts(sample, SampleBit8(sample));
  }

  /** A count up to 511 is its bit 8 above its low byte. */
  lemma SampleFromParts(sample: bv16, bit8: bv8)
    requires sample <= 511 && bit8 <= 1
    ensures (bit8 as bv16 << 8) | Lo(sample) as bv16 == sample <==> bit8 == SampleBit8(sample)
  {
  }

  // ----- FIFO entry counter: the mask keeps one bit -----

  /** `get_fifo_counter` as written: the entry word masked with 0x200. */
  function FifoCounterAsWritten(entries: bv16): (counter: bv16)
    ensures counter == 0 || counter == 0x200
  {
    entries & 0x200
  }

  /** Five entries in the FIFO are reported as none. */
  lemma FifoCounterDropsCount()
    ensures FifoCounterAsWritten(Word(5, 0)) == 0
  {
  }

  /** `get_fifo_counter` as intended: the ten-bit entry count, masked with 0x3FF. */
  function FifoCounter(entries: bv16): (counter: bv16)
    ensures counter <= 0x3FF
  {
    entries & 0x3FF
  }

  /** As intended, every count the ten-bit register can hold is reported unchanged, and the
      upper bits of the word are ignored. */
  lemma FifoCounterKeepsCount(count: bv16, junk: bv16)
    requires count <= 0x3FF
    ensures FifoCounter(Word(Lo(count), Hi(count))) == count
    ensures FifoCounter((junk << 10) | count) == count
  {
    SplitJoin(count);
  }

  // ----- Noise modes: the header gives all three the value 0 -----

  /** As written, low-noise and ultra-low-noise mode cannot be selected: storing either
      leaves exactly what storing normal mode leaves. */
  lemma NoiseModesIndistinguishable(r: RegisterFile)
    ensures StoreField(r, NOISE_MODE, NOISE_MODE_LOW_NOISE) == StoreField(r, NOISE_MODE, NOISE_MODE_NORMAL)
    ensures StoreField(r, NOISE_MODE, NOISE_MODE_ULTRA_LOW_NOISE) == StoreField(r, NOISE_MODE, NOISE_MODE_NORMAL)
    ensures LoadField(StoreField(r, NOISE_MODE, NOISE_MODE_ULTRA_LOW_NOISE), NOISE_MODE) == 0
  {
    LoadAfterStore(r, NOISE_MODE, NOISE_MODE_NORMAL);
  }

  /** The noise modes as the ADXL362 defines them: normal 0, low noise 1, ultra-low
      noise 2. */
  const NOISE_NORMAL_INTENDED: bv8 := 0x00
  const NOISE_LOW_INTENDED: bv8 := 0x01
  const NOISE_ULTRA_LOW_INTENDED: bv8 := 0x02
  type NoiseModeIntended = b: bv8 | b == NOISE_NORMAL_INTENDED || b == NOISE_LOW_INTENDED || b == NOISE_ULTRA_LOW_INTENDED

  /** With the intended values every mode fits the field and reads back as itself, so
      different modes leave different settings. */
  lemma NoiseModesDistinguishable(r: RegisterFile, m: NoiseModeIntended, m2: NoiseModeIntended)
    ensures LoadField(StoreField(r, NOISE_MODE, m), NOISE_MODE) == m
    ensures m != m2 ==> LoadField(StoreField(r, NOISE_MODE, m), NOISE_MODE) != LoadField(StoreField(r, NOISE_MODE, m2), NOISE_MODE)
  {
    LoadAfterStore(r, NOISE_MODE, m);
    LoadAfterStore(r, NOISE_MODE, m2);
  }
}
