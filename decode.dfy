/** The pure part of the driver: decoding samples and FIFO words, the FIFO read-length
    policy, the scale and rate a conversion selects from FILTER_CTL, and the order in
    which the interrupt handler turns a status byte into callbacks. */
module Adxl362Decode {
  import opened Bits
  import opened Adxl362Types
  import opened Adxl362Registers

  // ----- Samples -----

  /** A little-endian two's-complement sample: the axis and temperature registers,
      `(int16_t)((uint16_t)hi << 8 | lo)`. */
  function Sample(lo: bv8, hi: bv8): (x: int16)
    ensures x < 0 <==> hi >= 0x80
  {
    ByteBack(hi);
    assert hi >= 0x80 <==> hi as int >= 0x80;
    Int16(WordValue(lo, hi))
  }

  /** A sample is its signed high byte times 256 plus its unsigned low byte. */
  lemma SampleValue(lo: bv8, hi: bv8)
    ensures Sample(lo, hi) == Int8(hi) * 0x100 + lo as int
  {
    ByteBack(hi);
    ByteBack(lo);
    assert hi >= 0x80 <==> hi as int >= 0x80;
  }

  /** The three axes of a six-byte burst from XDATA_L, in the order x, y, z. */
  function Axes(b: seq<bv8>): (raw: seq<int16>)
    requires |b| == 6
    ensures |raw| == 3
  {
    [Sample(b[0], b[1]), Sample(b[2], b[3]), Sample(b[4], b[5])]
  }

  /** The three axes of a three-byte burst from XDATA, each `(int8_t)` of one byte. */
  function Axes8(b: seq<bv8>): (raw: seq<int8>)
    requires |b| == 3
    ensures |raw| == 3
  {
    [Int8(b[0]), Int8(b[1]), Int8(b[2])]
  }

  // ----- FIFO words -----

  /** One FIFO entry as `read_fifo` decodes the word `buf[2i+1]:buf[2i]`: the type is
      bits 15:14, the value is bits 13:0, and when bit 12 is set bits 15:14 of the
      int16 are forced to one. */
  function DecodeWord(w: uint16): (f: Frame)
    ensures FrameTag(f.kind) == w / 0x4000
    ensures f.raw < 0 <==> (w / 0x1000) % 2 == 1
    ensures f.raw % 0x4000 == w % 0x4000
    ensures -0x3000 <= f.raw < 0x3000
  {
    WordFields(w);
    var tag := (w / 0x4000) % 4;
    var v := w % 0x4000;
    var raw := if (v / 0x1000) % 2 != 0 then Int16(v + 0xC000) else Int16(v);
    Frame(FrameTypeOf(tag), raw)
  }

  /** The bit arithmetic of a FIFO word: the tag is below 4, and bit 12 of the word is
      bit 12 of its low 14 bits, which bounds those bits. */
  lemma WordFields(w: uint16)
    ensures w / 0x4000 < 4 && (w / 0x4000) % 4 == w / 0x4000
    ensures (w / 0x1000) % 2 == ((w % 0x4000) / 0x1000) % 2
    ensures ((w % 0x4000) / 0x1000) % 2 == 1 ==> 0x1000 <= w % 0x4000
    ensures ((w % 0x4000) / 0x1000) % 2 == 0 ==> w % 0x4000 < 0x1000 || 0x2000 <= w % 0x4000 < 0x3000
  {
    var q := w / 0x4000;
    var v := w % 0x4000;
    var t := v / 0x1000;
    assert w == q * 0x4000 + v;
    assert w / 0x1000 == q * 4 + t;
    assert t < 4;
  }

  /** The FIFO word the device stores for a sample `s` of type `kind`: the tag in bits
      15:14 and `s` as a 14-bit two's-complement value, whose bits 13:12 repeat the sign. */
  function FifoWord(kind: FrameType, s: int): uint16
    requires -0x1000 <= s < 0x1000
  {
    FrameTag(kind) * 0x4000 + (if s < 0 then s + 0x4000 else s)
  }

  /** Decoding inverts the device's encoding: every type and every sample whose sign
      fills bits 13:12 comes back unchanged. */
  lemma FifoWordRoundTrip(kind: FrameType, s: int)
    requires -0x1000 <= s < 0x1000
    ensures DecodeWord(FifoWord(kind, s)) == Frame(kind, s)
  {
    var w := FifoWord(kind, s);
    var e := if s < 0 then s + 0x4000 else s;
    WordFields(w);
    assert w / 0x4000 == FrameTag(kind) && w % 0x4000 == e;
    assert s < 0 ==> e / 0x1000 == 3;
    assert s >= 0 ==> e / 0x1000 == 0;
    FrameTypesCoverTag(kind, FrameTag(kind));
  }

  /** The first `n` frames of a FIFO transfer: frame `i` from the little-endian word in
      bytes `2i` and `2i+1`. */
  function DecodeFifo(bytes: seq<bv8>, n: nat): (frames: seq<Frame>)
    requires 2 * n <= |bytes|
    ensures |frames| == n
  {
    seq(n, i requires 0 <= i < n => DecodeWord(WordValue(bytes[2 * i], bytes[2 * i + 1])))
  }

  /** `bytes` is what the device delivers for `frames`: entry `i` is the FIFO word of
      frame `i`, low byte first. */
  predicate EncodesFifo(bytes: seq<bv8>, frames: seq<Frame>)
  {
    2 * |frames| <= |bytes|
    && forall i :: 0 <= i < |frames| ==>
         -0x1000 <= frames[i].raw < 0x1000
         && WordValue(bytes[2 * i], bytes[2 * i + 1]) == FifoWord(frames[i].kind, frames[i].raw)
  }

  /** Decoding a FIFO transfer gives back every frame the device encoded into it. */
  lemma {:induction false} DecodeFifoOfEncoded(bytes: seq<bv8>, frames: seq<Frame>)
    requires EncodesFifo(bytes, frames)
    ensures DecodeFifo(bytes, |frames|) == frames
  {
    var d := DecodeFifo(bytes, |frames|);
    forall i | 0 <= i < |frames|
      ensures d[i] == frames[i]
    {
      FifoWordRoundTrip(frames[i].kind, frames[i].raw);
    }
  }

  /** Frame `i` depends only on bytes `2i` and `2i+1`: two transfers that agree there
      decode to the same frame. */
  lemma DecodeFifoLocal(b1: seq<bv8>, b2: seq<bv8>, n: nat, i: nat)
    requires 2 * n <= |b1| && 2 * n <= |b2| && i < n
    requires b1[2 * i] == b2[2 * i] && b1[2 * i + 1] == b2[2 * i + 1]
    ensures DecodeFifo(b1, n)[i] == DecodeFifo(b2, n)[i]
  {
  }

  /** Decoding fewer entries gives a prefix of the longer decoding. */
  lemma DecodeFifoPrefix(bytes: seq<bv8>, m: nat, n: nat)
    requires m <= n && 2 * n <= |bytes|
    ensures DecodeFifo(bytes, n)[..m] == DecodeFifo(bytes, m)
  {
  }

  /** The number of FIFO entries `read_fifo` transfers: the entry count clamped to 512,
      then to the caller's capacity, then rounded down to whole x/y/z(/temperature)
      sets. */
  function FifoLength(entries: uint16, withTemperature: bool, capacity: uint16): (len: nat)
    ensures len <= capacity && len <= entries && len <= FIFO_CAPACITY
    ensures 2 * len <= BUF_SIZE
    ensures withTemperature ==> len % 4 == 0 && Min3(entries, FIFO_CAPACITY, capacity) < len + 4
    ensures !withTemperature ==> len % 3 == 0 && Min3(entries, FIFO_CAPACITY, capacity) < len + 3
  {
    var clamped := if entries > FIFO_CAPACITY then FIFO_CAPACITY else entries;
    var fitted := if clamped < capacity then clamped else capacity;
    if withTemperature then (fitted / 4) * 4 else (fitted / 3) * 3
  }

  /** The least of three integers. */
  function Min3(a: int, b: int, c: int): (m: int)
    ensures m <= a && m <= b && m <= c
    ensures m == a || m == b || m == c
  {
    if a <= b && a <= c then a else if b <= c then b else c
  }

  // ----- Scale and rate selection -----

  /** Counts per g of each range, indexed by the range code. */
  const RANGE_SCALES: seq<nat> := [1000, 500, 235]

  /** Output data rates in tenths of a hertz (12.5 Hz is 125), indexed by the ODR code. */
  const ODR_RATES: seq<nat> := [125, 250, 500, 1000, 2000, 4000]

  /** The divisor a conversion selects from FILTER_CTL bits 7:6: 1000 for 2g, 500 for
      4g, and 235 for every other code. */
  function RangeScale(filter: bv8): (scale: nat)
    ensures scale == 1000 <==> GetField(filter, 6, 2) == RANGE_2G
    ensures scale == 500 <==> GetField(filter, 6, 2) == RANGE_4G
    ensures scale == 235 <==> GetField(filter, 6, 2) >= RANGE_8G
  {
    var range := GetField(filter, 6, 2);
    if range == 0 then 1000 else if range == 1 then 500 else 235
  }

  /** The rate, in tenths of a hertz, a conversion selects from FILTER_CTL bits 2:0:
      12.5 to 200 Hz for codes 0 to 4, and 400 Hz for every other code. */
  function OdrRate(filter: bv8): (hz: nat)
    ensures GetField(filter, 0, 3) <= ODR_400HZ ==> hz == ODR_RATES[GetField(filter, 0, 3)]
    ensures GetField(filter, 0, 3) > ODR_400HZ ==> hz == 4000
  {
    var odr := GetField(filter, 0, 3);
    if odr == 0 then 125
    else if odr == 1 then 250
    else if odr == 2 then 500
    else if odr == 3 then 1000
    else if odr == 4 then 2000
    else 4000
  }

  /** After `set_range(range)` every conversion selects the scale of that range. */
  lemma ScaleOfStoredRange(r: RegisterFile, range: Range)
    ensures RangeScale(At(StoreField(r, RANGE, range), REG_FILTER_CTL)) == RANGE_SCALES[range]
  {
    LoadAfterStore(r, RANGE, range);
  }

  /** After `set_odr(odr)` every time conversion selects the rate of that ODR, and the
      range scale is what it was. */
  lemma RateOfStoredOdr(r: RegisterFile, odr: Odr)
    ensures OdrRate(At(StoreField(r, ODR, odr), REG_FILTER_CTL)) == ODR_RATES[odr]
    ensures RangeScale(At(StoreField(r, ODR, odr), REG_FILTER_CTL)) == RangeScale(At(r, REG_FILTER_CTL))
  {
    LoadAfterStore(r, ODR, odr);
    StoreChangesOnly(r, ODR, odr);
    ChangesOnlyKeepsSeparate(r, StoreField(r, ODR, odr), ODR, RANGE);
  }

  // ----- Interrupt dispatch -----

  /** The masks of `masks`, in their order, whose bit is set in `status`. */
  function Asserted(status: bv8, masks: seq<bv8>): (set_: seq<bv8>)
    ensures |set_| <= |masks|
  {
    if masks == [] then []
    else (if status & masks[0] != 0 then [masks[0]] else []) + Asserted(status, masks[1..])
  }

  /** Strictly decreasing, hence free of repetitions. */
  predicate Descending(s: seq<bv8>)
  {
    forall i, j :: 0 <= i < j < |s| ==> s[i] > s[j]
  }

  /** A mask is asserted exactly when it is listed and its bit is set. */
  lemma {:induction false} AssertedMembers(status: bv8, masks: seq<bv8>)
    ensures forall m :: m in Asserted(status, masks) <==> m in masks && status & m != 0
  {
    if masks != [] {
      AssertedMembers(status, masks[1..]);
      assert masks == [masks[0]] + masks[1..];
    }
  }

  /** Filtering keeps a strictly decreasing order. */
  lemma {:induction false} AssertedDescending(status: bv8, masks: seq<bv8>)
    requires Descending(masks)
    ensures Descending(Asserted(status, masks))
  {
    if masks != [] {
      var rest := Asserted(status, masks[1..]);
      AssertedDescending(status, masks[1..]);
      AssertedBelow(status, masks[1..], masks[0]);
      if status & masks[0] != 0 {
        DescendingCons(masks[0], rest);
      } else {
        assert Asserted(status, masks) == rest;
      }
    }
  }

  /** Filtering keeps every element below a bound that all of `masks` are below. */
  lemma {:induction false} AssertedBelow(status: bv8, masks: seq<bv8>, bound: bv8)
    requires forall i :: 0 <= i < |masks| ==> masks[i] < bound
    ensures forall k :: 0 <= k < |Asserted(status, masks)| ==> Asserted(status, masks)[k] < bound
  {
    if masks != [] {
      AssertedBelow(status, masks[1..], bound);
    }
  }

  /** A head above every element of a decreasing tail gives a decreasing sequence. */
  lemma DescendingCons(x: bv8, rest: seq<bv8>)
    requires Descending(rest)
    requires forall k :: 0 <= k < |rest| ==> x > rest[k]
    ensures Descending([x] + rest)
  {
  }

  /** The single-bit mask of status bit `i`. */
  function StatusBit(i: nat): bv8
    requires i < 8
  {
    (1 as bv8) << i
  }

  /** The handler's callbacks for a status byte are one per set bit, never one for a
      clear bit, in the order bit 7 down to bit 0. */
  lemma IrqCallbackOrder(status: bv8)
    ensures Descending(Asserted(status, STATUS_ORDER))
    ensures forall i :: 0 <= i < 8 ==> (StatusBit(i) in Asserted(status, STATUS_ORDER) <==> status & StatusBit(i) != 0)
    ensures forall m :: m in Asserted(status, STATUS_ORDER) ==> m in STATUS_ORDER
  {
    StatusMasksCoverByte();
    AssertedMembers(status, STATUS_ORDER);
    AssertedDescending(status, STATUS_ORDER);
    forall i | 0 <= i < 8
      ensures StatusBit(i) in STATUS_ORDER
    {
      assert STATUS_ORDER[7 - i] == StatusBit(i);
    }
  }

  /** The events of one `if` of the handler: the callback for a set bit, preceded by the
      FIFO drain when that bit is the overrun. */
  function DispatchStep(status: bv8, m: bv8, drain: BusEvent): seq<BusEvent>
  {
    if status & m == 0 then []
    else if m == STATUS_FIFO_OVERRUN then [drain, Callback(m)]
    else [Callback(m)]
  }

  /** The events of the handler's tests over `masks`, in order. */
  function DispatchEvents(status: bv8, masks: seq<bv8>, drain: BusEvent): seq<BusEvent>
  {
    if masks == [] then [] else DispatchStep(status, masks[0], drain) + DispatchEvents(status, masks[1..], drain)
  }

  /** The callback arguments among `events`, in order. */
  function CallbackKinds(events: seq<BusEvent>): seq<bv8>
  {
    if events == [] then []
    else (if events[0].Callback? then [events[0].kind] else []) + CallbackKinds(events[1..])
  }

  /** Collecting callbacks distributes over concatenation. */
  lemma {:induction false} CallbackKindsAppend(a: seq<BusEvent>, b: seq<BusEvent>)
    ensures CallbackKinds(a + b) == CallbackKinds(a) + CallbackKinds(b)
  {
    if a != [] {
      CallbackKindsAppend(a[1..], b);
      assert (a + b)[0] == a[0] && (a + b)[1..] == a[1..] + b;
      var h := if a[0].Callback? then [a[0].kind] else [];
      assert CallbackKinds(a + b) == h + CallbackKinds(a[1..] + b);
      AppendAssoc(h, CallbackKinds(a[1..]), CallbackKinds(b));
    } else {
      assert a + b == b;
    }
  }

  /** Leaving the drain aside, dispatch passes exactly the asserted masks to the callback,
      in the order of `masks`. */
  lemma {:induction false} CallbacksOfDispatch(status: bv8, masks: seq<bv8>, drain: BusEvent)
    requires !drain.Callback?
    ensures CallbackKinds(DispatchEvents(status, masks, drain)) == Asserted(status, masks)
  {
    if masks != [] {
      var step := DispatchStep(status, masks[0], drain);
      CallbacksOfDispatch(status, masks[1..], drain);
      CallbackKindsAppend(step, DispatchEvents(status, masks[1..], drain));
      if step == [drain, Callback(masks[0])] {
        assert step == [drain] + [Callback(masks[0])];
        CallbackKindsAppend([drain], [Callback(masks[0])]);
      }
    }
  }

  /** Concatenation is associative. */
  lemma AppendAssoc<T>(a: seq<T>, b: seq<T>, c: seq<T>)
    ensures a + (b + c) == (a + b) + c
  {
  }

  /** The drain happens only for a listed, set overrun bit, and always for one. */
  lemma {:induction false} DrainOnOverrunOnly(status: bv8, masks: seq<bv8>, drain: BusEvent)
    requires !drain.Callback?
    ensures drain in DispatchEvents(status, masks, drain) <==> STATUS_FIFO_OVERRUN in masks && status & STATUS_FIFO_OVERRUN != 0
  {
    if masks != [] {
      DrainOnOverrunOnly(status, masks[1..], drain);
      assert masks == [masks[0]] + masks[1..];
    }
  }

  /** The handler's events written out test by test, bit 7 first. */
  lemma DispatchUnfold(status: bv8, drain: BusEvent)
    ensures DispatchEvents(status, STATUS_ORDER, drain) ==
      DispatchStep(status, STATUS_ERR_USER_REGS, drain) + (DispatchStep(status, STATUS_AWAKE, drain)
      + (DispatchStep(status, STATUS_INACT, drain) + (DispatchStep(status, STATUS_ACT, drain)
      + (DispatchStep(status, STATUS_FIFO_OVERRUN, drain) + (DispatchStep(status, STATUS_FIFO_WATERMARK, drain)
      + (DispatchStep(status, STATUS_FIFO_READY, drain) + DispatchStep(status, STATUS_DATA_READY, drain)))))))
  {
    var d := drain;
    var t7: seq<bv8> := [STATUS_DATA_READY];
    var t6 := [STATUS_FIFO_READY] + t7;
    var t5 := [STATUS_FIFO_WATERMARK] + t6;
    var t4 := [STATUS_FIFO_OVERRUN] + t5;
    var t3 := [STATUS_ACT] + t4;
    var t2 := [STATUS_INACT] + t3;
    var t1 := [STATUS_AWAKE] + t2;
    var t0 := [STATUS_ERR_USER_REGS] + t1;
    assert t0 == STATUS_ORDER;
    DispatchCons(status, STATUS_DATA_READY, [], d);
    DispatchCons(status, STATUS_FIFO_READY, t7, d);
    DispatchCons(status, STATUS_FIFO_WATERMARK, t6, d);
    DispatchCons(status, STATUS_FIFO_OVERRUN, t5, d);
    DispatchCons(status, STATUS_ACT, t4, d);
    DispatchCons(status, STATUS_INACT, t3, d);
    DispatchCons(status, STATUS_AWAKE, t2, d);
    DispatchCons(status, STATUS_ERR_USER_REGS, t1, d);
    assert DispatchStep(status, STATUS_DATA_READY, d) + [] == DispatchStep(status, STATUS_DATA_READY, d);
    assert [STATUS_DATA_READY] + [] == t7;
  }

  /** A handler that runs the eight tests one after another, each extending the events
      so far by that test's step, produces exactly the dispatch of `STATUS_ORDER`. */
  lemma DispatchSteps(status: bv8, drain: BusEvent, t0: seq<BusEvent>, t1: seq<BusEvent>, t2: seq<BusEvent>,
                      t3: seq<BusEvent>, t4: seq<BusEvent>, t5: seq<BusEvent>, t6: seq<BusEvent>,
                      t7: seq<BusEvent>, t8: seq<BusEvent>)
    requires t1 == t0 + DispatchStep(status, STATUS_ERR_USER_REGS, drain)
    requires t2 == t1 + DispatchStep(status, STATUS_AWAKE, drain)
    requires t3 == t2 + DispatchStep(status, STATUS_INACT, drain)
    requires t4 == t3 + DispatchStep(status, STATUS_ACT, drain)
    requires t5 == t4 + DispatchStep(status, STATUS_FIFO_OVERRUN, drain)
    requires t6 == t5 + DispatchStep(status, STATUS_FIFO_WATERMARK, drain)
    requires t7 == t6 + DispatchStep(status, STATUS_FIFO_READY, drain)
    requires t8 == t7 + DispatchStep(status, STATUS_DATA_READY, drain)
    ensures t8 == t0 + DispatchEvents(status, STATUS_ORDER, drain)
  {
    var s7 := DispatchStep(status, STATUS_DATA_READY, drain);
    var s6 := DispatchStep(status, STATUS_FIFO_READY, drain) + s7;
    var s5 := DispatchStep(status, STATUS_FIFO_WATERMARK, drain) + s6;
    var s4 := DispatchStep(status, STATUS_FIFO_OVERRUN, drain) + s5;
    var s3 := DispatchStep(status, STATUS_ACT, drain) + s4;
    var s2 := DispatchStep(status, STATUS_INACT, drain) + s3;
    var s1 := DispatchStep(status, STATUS_AWAKE, drain) + s2;
    var s0 := DispatchStep(status, STATUS_ERR_USER_REGS, drain) + s1;
    AppendAssoc(t6, DispatchStep(status, STATUS_FIFO_READY, drain), s7);
    AppendAssoc(t5, DispatchStep(status, STATUS_FIFO_WATERMARK, drain), s6);
    AppendAssoc(t4, DispatchStep(status, STATUS_FIFO_OVERRUN, drain), s5);
    AppendAssoc(t3, DispatchStep(status, STATUS_ACT, drain), s4);
    AppendAssoc(t2, DispatchStep(status, STATUS_INACT, drain), s3);
    AppendAssoc(t1, DispatchStep(status, STATUS_AWAKE, drain), s2);
    AppendAssoc(t0, DispatchStep(status, STATUS_ERR_USER_REGS, drain), s1);
    DispatchUnfold(status, drain);
  }

  /** Dispatch over a mask followed by more masks. */
  lemma DispatchCons(status: bv8, m: bv8, ms: seq<bv8>, drain: BusEvent)
    ensures DispatchEvents(status, [m] + ms, drain) == DispatchStep(status, m, drain) + DispatchEvents(status, ms, drain)
  {
    assert ([m] + ms)[1..] == ms;
  }

  /** The handler drains the FIFO exactly when the overrun bit is set, and then
      immediately before the overrun callback. */
  lemma IrqDrainPlacement(status: bv8, drain: BusEvent)
    requires !drain.Callback?
    ensures drain in DispatchEvents(status, STATUS_ORDER, drain) <==> status & STATUS_FIFO_OVERRUN != 0
    ensures status & STATUS_FIFO_OVERRUN != 0 ==>
      DispatchStep(status, STATUS_FIFO_OVERRUN, drain) == [drain, Callback(STATUS_FIFO_OVERRUN)]
    ensures forall m :: m != STATUS_FIFO_OVERRUN ==> drain !in DispatchStep(status, m, drain)
  {
    assert STATUS_ORDER[4] == STATUS_FIFO_OVERRUN;
    DrainOnOverrunOnly(status, STATUS_ORDER, drain);
  }
}
