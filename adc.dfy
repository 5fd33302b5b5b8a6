/** The ADC driver (src/ADC.c): placement of a channel in the regular
    sequence registers and of its sampling time in the sampling registers,
    the sequence length, the init-once flag, and start and stop. */
module Adc {
  import opened Bits
  import Rcc

  /** inc/ADC.h */
  const MAX_CHANNEL: bv8 := 16
  const MAX_SEQUENCE: bv8 := 16
  const ADC_SAMPLING_239_5: bv8 := 7
  /** `ADC_SAMPLING_13_5`, the default of inc/ADC.h. */
  const ADC_DEFAULT_SAMPLING_TIME: bv8 := 2
  const ADC_MODE_SINGLE: bv8 := 0
  const ADC_MODE_LOOP: bv8 := 1

  /** src/ADC.c */
  const SEQUENCE_REG_CH_COUNT: bv8 := 6
  const SEQUENCE_CH_SIZE: bv8 := 5
  const SEQUENCE_LEN_OFFSET: bv8 := 20
  const SEQUENCE_LEN_SIZE: bv8 := 4
  const SAMPLING_REG_CH_COUNT: bv8 := 10
  const SAMPLING_TIME_SIZE: bv8 := 3
  const ADC_CR2_ADON: bv8 := 0
  const ADC_CR2_CAL: bv8 := 2
  const ADC_CR1_CONT: bv8 := 1
  const ADC_CR2_SCAN: bv8 := 8
  const ADC_CR2_DMA: bv8 := 8

  /** The read-modify-write all three `set_*` helpers make:
      `*reg &= ~utils_generate_mask(start, start + span); *reg |= value << start`. */
  function FieldWrite(reg: bv32, startBit: bv8, span: bv8, value: bv32): bv32
  {
    SetMask(ClearMask(reg, GenerateMask(startBit, startBit + span)), Shl(value, startBit))
  }

  /** Below bit 31 the helper's mask is the bit after the field. */
  lemma {:induction false} FieldWriteExpand(reg: bv32, s: bv8, w: bv8, v: bv32)
    requires s < 31 && w < 8 && s + w < 31
    ensures FieldWrite(reg, s, w, v) == (reg & !(1 << (s + w + 1))) | (v << s)
  {
    FieldMask(s, w);
  }

  lemma {:induction false} FieldMask(s: bv8, w: bv8)
    requires s < 31 && w < 8 && s + w < 31
    ensures GenerateMask(s, s + w) == 1 << (s + w + 1)
  {
    GenerateMaskIsBitAfterRange(s, s + w);
  }

  lemma {:induction false} FieldWriteRaw(reg: bv32, s: bv8, w: bv8, v: bv32, j: bv8)
    requires s < 31 && w < 8 && s + w < 31 && j < 32 && v >> w == 0
    ensures BitSet((reg & !(1 << (s + w + 1))) | (v << s), j)
            <==> (BitSet(reg, j) && j != s + w + 1) || (s <= j < s + w && BitSet(v, j - s))
  {
  }

  /** The write ORs the value into the field, keeping every bit already set
      there, and clears the single bit just above the field plus one,
      which belongs to the next field: the mask helper yields that bit and
      not the field. */
  lemma {:induction false} FieldWriteBits(reg: bv32, s: bv8, w: bv8, v: bv32, j: bv8)
    requires s < 31 && w < 8 && s + w < 31 && j < 32 && v >> w == 0
    ensures BitSet(FieldWrite(reg, s, w, v), j)
            <==> (BitSet(reg, j) && j != s + w + 1) || (s <= j < s + w && BitSet(v, j - s))
  {
    FieldWriteExpand(reg, s, w, v);
    FieldWriteRaw(reg, s, w, v, j);
  }

  /** The five registers the channel configuration writes. */
  datatype ChannelRegs = ChannelRegs(smpr1: bv32, smpr2: bv32, sqr1: bv32, sqr2: bv32, sqr3: bv32)

  /** `SEQUENCE_CH_SIZE * (sequence_index % SEQUENCE_REG_CH_COUNT)`. */
  function SequenceStart(index: bv8): bv8
  {
    SEQUENCE_CH_SIZE * (index % SEQUENCE_REG_CH_COUNT)
  }

  /** `SAMPLING_TIME_SIZE * (channel % SAMPLING_REG_CH_COUNT)`. */
  function SamplingStart(channel: bv8): bv8
  {
    SAMPLING_TIME_SIZE * (channel % SAMPLING_REG_CH_COUNT)
  }

  /** `set_channel_sequence_index`: indices 0-5 go to SQR3, 6-11 to SQR2 and
      12-16 to SQR1; an out-of-range channel or index changes nothing. */
  function SetSequenceIndex(r: ChannelRegs, index: bv8, channel: bv8): ChannelRegs
  {
    if channel > MAX_CHANNEL || index > MAX_SEQUENCE then r
    else if index <= 5 then r.(sqr3 := FieldWrite(r.sqr3, SequenceStart(index), SEQUENCE_CH_SIZE, channel as bv32))
    else if index <= 11 then r.(sqr2 := FieldWrite(r.sqr2, SequenceStart(index), SEQUENCE_CH_SIZE, channel as bv32))
    else r.(sqr1 := FieldWrite(r.sqr1, SequenceStart(index), SEQUENCE_CH_SIZE, channel as bv32))
  }

  /** `set_channel_sampling_time`: channels 0-9 go to SMPR2 and 10-16 to
      SMPR1; an out-of-range channel or time changes nothing. */
  function SetSamplingTime(r: ChannelRegs, channel: bv8, time: bv8): ChannelRegs
  {
    if channel > MAX_CHANNEL || time > ADC_SAMPLING_239_5 then r
    else if channel <= 9 then r.(smpr2 := FieldWrite(r.smpr2, SamplingStart(channel), SAMPLING_TIME_SIZE, time as bv32))
    else r.(smpr1 := FieldWrite(r.smpr1, SamplingStart(channel), SAMPLING_TIME_SIZE, time as bv32))
  }

  /** `set_sequence_channel_count`: the length field of SQR1 receives
      `count - 1`; a count above 16 changes nothing. A count of 0 is not
      rejected: `-1 << 20` is written as the 32-bit word 0xFFF00000. */
  function SetSequenceCount(r: ChannelRegs, count: bv8): ChannelRegs
  {
    if count > MAX_SEQUENCE then r
    else r.(sqr1 := FieldWrite(r.sqr1, SEQUENCE_LEN_OFFSET, SEQUENCE_LEN_SIZE - 1, (count as bv32) - 1))
  }

  /** The first `n` steps of the configuration loop of `ADC_init_ex`:
      sampling time, then sequence entry, for each listed channel. */
  function ConfigureChannels(r: ChannelRegs, channels: seq<bv8>, times: seq<bv8>, n: nat): ChannelRegs
    requires n <= |channels| && n <= |times| && n <= 256
  {
    if n == 0 then r
    else
      var prev := ConfigureChannels(r, channels, times, n - 1);
      SetSequenceIndex(SetSamplingTime(prev, channels[n - 1], times[n - 1]), (n - 1) as bv8, channels[n - 1])
  }

  /** The sampling times `ADC_init` uses: the default for every channel. */
  function DefaultTimes(n: nat): seq<bv8>
  {
    seq(n, _ => ADC_DEFAULT_SAMPLING_TIME)
  }

  /** Start bit of entry `k` of a sequence register: `5 * k`, counted up
      in steps of the entry size. */
  function EntryStart(k: nat): bv8
  {
    if k == 0 then 0 else EntryStart(k - 1) + SEQUENCE_CH_SIZE
  }

  /** The start bits of the six entries and the end of the register. */
  lemma {:induction false} EntryStartValues(k: nat)
    requires k <= 6
    ensures EntryStart(k) == [0, 5, 10, 15, 20, 25, 30][k]
  {
    if k > 0 {
      EntryStartValues(k - 1);
    }
  }

  /** The regular-sequence layout of the reference manual: entry k of the
      list in bits 5k to 5k+4 of its register, every other bit clear. */
  function Packed(chs: seq<bv8>): bv32
    requires |chs| <= 6
  {
    if |chs| == 0 then 0
    else Packed(chs[..|chs| - 1]) | Shl(chs[|chs| - 1] as bv32, (5 * (|chs| - 1)) as bv8)
  }

  predicate ValidChannels(chs: seq<bv8>)
  {
    forall k :: 0 <= k < |chs| ==> chs[k] <= MAX_CHANNEL
  }

  lemma {:induction false} Widen(c: bv8)
    requires c <= 16
    ensures c as bv32 <= 16
  {
  }

  lemma {:induction false} ClearAboveRaw(reg: bv32, s: bv8)
    requires s <= 25 && reg >> s == 0
    ensures reg & !(1 << (s + 6)) == reg
  {
  }

  lemma {:induction false} EntryBoundRaw(reg: bv32, c: bv32, s: bv8)
    requires s <= 25 && c <= 16 && reg >> s == 0
    ensures (reg | (c << s)) >> (s + 5) == 0
  {
  }

  /** Into a register clear from the write position up, the sequence write
      is a plain OR. */
  lemma {:induction false} SequenceWriteIsOr(reg: bv32, s: bv8, c: bv32)
    requires s <= 25 && reg >> s == 0
    ensures FieldWrite(reg, s, SEQUENCE_CH_SIZE, c) == reg | (c << s)
  {
    GenerateMaskIsBitAfterRange(s, s + 5);
    ClearAboveRaw(reg, s);
  }

  lemma {:induction false} OffsetNext(m: nat)
    requires m <= 5
    ensures (5 * (m + 1)) as bv8 == (5 * m) as bv8 + 5 && (5 * m) as bv8 <= 25
  {
  }

  /** Every bit above the last entry of the layout is clear. */
  lemma {:induction false} PackedBound(chs: seq<bv8>)
    requires |chs| <= 6 && ValidChannels(chs)
    ensures Packed(chs) >> ((5 * |chs|) as bv8) == 0
  {
    if |chs| > 0 {
      var m := |chs| - 1;
      PackedBound(chs[..m]);
      OffsetNext(m);
      Widen(chs[m]);
      EntryBoundRaw(Packed(chs[..m]), chs[m] as bv32, (5 * m) as bv8);
    }
  }

  /** Appending an entry to a register that holds the layout of a list
      yields the layout of the longer list. */
  lemma {:induction false} PackedStep(chs: seq<bv8>, c: bv8)
    requires |chs| < 6 && ValidChannels(chs) && c <= MAX_CHANNEL
    ensures FieldWrite(Packed(chs), (5 * |chs|) as bv8, SEQUENCE_CH_SIZE, c as bv32) == Packed(chs + [c])
  {
    PackedBound(chs);
    OffsetNext(|chs|);
    SequenceWriteIsOr(Packed(chs), (5 * |chs|) as bv8, c as bv32);
    assert (chs + [c])[..|chs|] == chs;
  }

  lemma {:induction false} EntryStartIs(k: nat)
    requires k <= 6
    ensures EntryStart(k) == (5 * k) as bv8
  {
    EntryStartValues(k);
  }

  function Min(a: nat, b: nat): nat
  {
    if a < b then a else b
  }

  lemma {:induction false} ValidSlice(chs: seq<bv8>, n: nat, lo: nat, hi: nat)
    requires lo <= hi <= n <= |chs| && ValidChannels(chs[..n])
    ensures ValidChannels(chs[lo..hi])
  {
    assert forall k :: 0 <= k < hi - lo ==> chs[lo..hi][k] == chs[..n][lo + k];
  }

  lemma {:induction false} SequenceStartOf(m: nat)
    requires m <= 15
    ensures m as bv8 <= MAX_SEQUENCE
    ensures (m as bv8 <= 5 <==> m < 6) && (m as bv8 <= 11 <==> m < 12)
    ensures SequenceStart(m as bv8)
            == if m < 6 then EntryStart(m) else if m < 12 then EntryStart(m - 6) else EntryStart(m - 12)
  {
    EntryStartValues(if m < 6 then m else if m < 12 then m - 6 else m - 12);
  }

  /** The sequence registers hold, each in the reference layout, the
      entries 0-5, 6-11 and 12-15 of a list. */
  predicate HoldsSequence(r: ChannelRegs, chs: seq<bv8>, n: nat)
    requires n <= 16 && n <= |chs|
  {
    && r.sqr3 == Packed(chs[..Min(n, 6)])
    && r.sqr2 == Packed(chs[Min(n, 6)..Min(n, 12)])
    && r.sqr1 == Packed(chs[Min(n, 12)..n])
  }

  lemma {:induction false} SamplingKeepsSequence(r: ChannelRegs, c: bv8, t: bv8)
    ensures var r' := SetSamplingTime(r, c, t); r'.sqr1 == r.sqr1 && r'.sqr2 == r.sqr2 && r'.sqr3 == r.sqr3
  {
  }

  lemma {:induction false} SequenceIndexLow(r: ChannelRegs, m: nat, c: bv8)
    requires m < 6 && c <= MAX_CHANNEL
    ensures SetSequenceIndex(r, m as bv8, c) == r.(sqr3 := FieldWrite(r.sqr3, EntryStart(m), SEQUENCE_CH_SIZE, c as bv32))
  {
    SequenceStartOf(m);
  }

  lemma {:induction false} SequenceIndexMid(r: ChannelRegs, m: nat, c: bv8)
    requires 6 <= m < 12 && c <= MAX_CHANNEL
    ensures SetSequenceIndex(r, m as bv8, c) == r.(sqr2 := FieldWrite(r.sqr2, EntryStart(m - 6), SEQUENCE_CH_SIZE, c as bv32))
  {
    SequenceStartOf(m);
  }

  lemma {:induction false} SequenceIndexHigh(r: ChannelRegs, m: nat, c: bv8)
    requires 12 <= m < 16 && c <= MAX_CHANNEL
    ensures SetSequenceIndex(r, m as bv8, c) == r.(sqr1 := FieldWrite(r.sqr1, EntryStart(m - 12), SEQUENCE_CH_SIZE, c as bv32))
  {
    SequenceStartOf(m);
  }

  /** PackedStep, with the entry position given by EntryStart. */
  lemma {:induction false} EntryStep(p: seq<bv8>, c: bv8)
    requires |p| < 6 && ValidChannels(p) && c <= MAX_CHANNEL
    ensures FieldWrite(Packed(p), EntryStart(|p|), SEQUENCE_CH_SIZE, c as bv32) == Packed(p + [c])
  {
    EntryStartIs(|p|);
    PackedStep(p, c);
  }

  /** Writing entry m into a register that holds entries lo to m-1
      extends it to entries lo to m. */
  lemma {:induction false} BandExtends(reg: bv32, chs: seq<bv8>, lo: nat, m: nat)
    requires lo <= m < lo + 6 && m < |chs| && ValidChannels(chs[..m + 1]) && reg == Packed(chs[lo..m])
    ensures FieldWrite(reg, EntryStart(m - lo), SEQUENCE_CH_SIZE, chs[m] as bv32) == Packed(chs[lo..m + 1])
  {
    ValidSlice(chs, m + 1, lo, m);
    assert chs[..m + 1][m] == chs[m];
    assert chs[lo..m] + [chs[m]] == chs[lo..m + 1];
    EntryStep(chs[lo..m], chs[m]);
  }

  lemma {:induction false} TurnLow(r: ChannelRegs, m: nat, c: bv8, time: bv8)
    requires m < 6 && c <= MAX_CHANNEL
    ensures var r2 := SetSequenceIndex(SetSamplingTime(r, c, time), m as bv8, c);
            r2.sqr3 == FieldWrite(r.sqr3, EntryStart(m), SEQUENCE_CH_SIZE, c as bv32) && r2.sqr2 == r.sqr2 && r2.sqr1 == r.sqr1
  {
    SamplingKeepsSequence(r, c, time);
    SequenceIndexLow(SetSamplingTime(r, c, time), m, c);
  }

  lemma {:induction false} ExtendLow(r: ChannelRegs, chs: seq<bv8>, m: nat, time: bv8)
    requires m < 6 && m < |chs| && ValidChannels(chs[..m + 1]) && r.sqr3 == Packed(chs[..m])
    ensures var r2 := SetSequenceIndex(SetSamplingTime(r, chs[m], time), m as bv8, chs[m]);
            r2.sqr3 == Packed(chs[..m + 1]) && r2.sqr2 == r.sqr2 && r2.sqr1 == r.sqr1
  {
    TurnLow(r, m, chs[m], time);
    BandExtends(r.sqr3, chs, 0, m);
  }

  lemma {:induction false} LayoutStepLow(r: ChannelRegs, chs: seq<bv8>, m: nat, time: bv8)
    requires m < 6 && m < |chs| && ValidChannels(chs[..m + 1]) && HoldsSequence(r, chs, m)
    ensures HoldsSequence(SetSequenceIndex(SetSamplingTime(r, chs[m], time), m as bv8, chs[m]), chs, m + 1)
  {
    ExtendLow(r, chs, m, time);
    assert Min(m, 6) == m && Min(m + 1, 6) == m + 1 && Min(m, 12) == m && Min(m + 1, 12) == m + 1;
    assert chs[m..m] == chs[m + 1..m + 1];
  }

  lemma {:induction false} TurnMid(r: ChannelRegs, m: nat, c: bv8, time: bv8)
    requires 6 <= m < 12 && c <= MAX_CHANNEL
    ensures var r2 := SetSequenceIndex(SetSamplingTime(r, c, time), m as bv8, c);
            r2.sqr2 == FieldWrite(r.sqr2, EntryStart(m - 6), SEQUENCE_CH_SIZE, c as bv32) && r2.sqr3 == r.sqr3 && r2.sqr1 == r.sqr1
  {
    SamplingKeepsSequence(r, c, time);
    SequenceIndexMid(SetSamplingTime(r, c, time), m, c);
  }

  lemma {:induction false} ExtendMid(r: ChannelRegs, chs: seq<bv8>, m: nat, time: bv8)
    requires 6 <= m < 12 && m < |chs| && ValidChannels(chs[..m + 1]) && r.sqr2 == Packed(chs[6..m])
    ensures var r2 := SetSequenceIndex(SetSamplingTime(r, chs[m], time), m as bv8, chs[m]);
            r2.sqr2 == Packed(chs[6..m + 1]) && r2.sqr3 == r.sqr3 && r2.sqr1 == r.sqr1
  {
    TurnMid(r, m, chs[m], time);
    BandExtends(r.sqr2, chs, 6, m);
  }

  lemma {:induction false} LayoutStepMid(r: ChannelRegs, chs: seq<bv8>, m: nat, time: bv8)
    requires 6 <= m < 12 && m < |chs| && ValidChannels(chs[..m + 1]) && HoldsSequence(r, chs, m)
    ensures HoldsSequence(SetSequenceIndex(SetSamplingTime(r, chs[m], time), m as bv8, chs[m]), chs, m + 1)
  {
    ExtendMid(r, chs, m, time);
    assert Min(m, 6) == 6 && Min(m + 1, 6) == 6 && Min(m, 12) == m && Min(m + 1, 12) == m + 1;
    assert chs[m..m] == chs[m + 1..m + 1];
  }

  lemma {:induction false} TurnHigh(r: ChannelRegs, m: nat, c: bv8, time: bv8)
    requires 12 <= m < 16 && c <= MAX_CHANNEL
    ensures var r2 := SetSequenceIndex(SetSamplingTime(r, c, time), m as bv8, c);
            r2.sqr1 == FieldWrite(r.sqr1, EntryStart(m - 12), SEQUENCE_CH_SIZE, c as bv32) && r2.sqr3 == r.sqr3 && r2.sqr2 == r.sqr2
  {
    SamplingKeepsSequence(r, c, time);
    SequenceIndexHigh(SetSamplingTime(r, c, time), m, c);
  }

  lemma {:induction false} ExtendHigh(r: ChannelRegs, chs: seq<bv8>, m: nat, time: bv8)
    requires 12 <= m < 16 && m < |chs| && ValidChannels(chs[..m + 1]) && r.sqr1 == Packed(chs[12..m])
    ensures var r2 := SetSequenceIndex(SetSamplingTime(r, chs[m], time), m as bv8, chs[m]);
            r2.sqr1 == Packed(chs[12..m + 1]) && r2.sqr3 == r.sqr3 && r2.sqr2 == r.sqr2
  {
    TurnHigh(r, m, chs[m], time);
    BandExtends(r.sqr1, chs, 12, m);
  }

  lemma {:induction false} LayoutStepHigh(r: ChannelRegs, chs: seq<bv8>, m: nat, time: bv8)
    requires 12 <= m < 16 && m < |chs| && ValidChannels(chs[..m + 1]) && HoldsSequence(r, chs, m)
    ensures HoldsSequence(SetSequenceIndex(SetSamplingTime(r, chs[m], time), m as bv8, chs[m]), chs, m + 1)
  {
    ExtendHigh(r, chs, m, time);
    assert Min(m, 6) == 6 && Min(m + 1, 6) == 6 && Min(m, 12) == 12 && Min(m + 1, 12) == 12;
  }

  /** One turn of the loop extends the layout by the next channel. */
  lemma {:induction false} SequenceLayoutStep(r: ChannelRegs, chs: seq<bv8>, m: nat, time: bv8)
    requires m < 16 && m < |chs| && ValidChannels(chs[..m + 1]) && HoldsSequence(r, chs, m)
    ensures HoldsSequence(SetSequenceIndex(SetSamplingTime(r, chs[m], time), m as bv8, chs[m]), chs, m + 1)
  {
    if m < 6 {
      LayoutStepLow(r, chs, m, time);
    } else if m < 12 {
      LayoutStepMid(r, chs, m, time);
    } else {
      LayoutStepHigh(r, chs, m, time);
    }
  }
  /** From empty sequence registers, the configuration loop over `n` valid
      channels lays the list out in the reference layout: entries 0-5 in
      SQR3, 6-11 in SQR2 and 12-15 in SQR1, whatever the sampling times. */
  lemma {:induction false} SequenceLayout(r: ChannelRegs, chs: seq<bv8>, times: seq<bv8>, n: nat)
    requires n <= 16 && n <= |chs| && n <= |times| && ValidChannels(chs[..n])
    requires r.sqr1 == 0 && r.sqr2 == 0 && r.sqr3 == 0
    ensures HoldsSequence(ConfigureChannels(r, chs, times, n), chs, n)
  {
    if n > 0 {
      ValidSlice(chs, n, 0, n - 1);
      assert chs[..n][..n - 1] == chs[..n - 1];
      SequenceLayout(r, chs, times, n - 1);
      SequenceLayoutStep(ConfigureChannels(r, chs, times, n - 1), chs, n - 1, times[n - 1]);
    }
  }

  lemma {:induction false} OffsetAtMost(m: nat)
    requires m <= 4
    ensures (5 * m) as bv8 <= 20
  {
  }

  lemma {:induction false} ShiftFurtherRaw(x: bv32, a: bv8, b: bv8)
    requires a <= b <= 32 && x >> a == 0
    ensures x >> b == 0
  {
  }

  /** The layout of at most four entries stays below the length field. */
  lemma {:induction false} PackedBelowLength(p: seq<bv8>)
    requires |p| <= 4 && ValidChannels(p)
    ensures Packed(p) >> 20 == 0
  {
    PackedBound(p);
    OffsetAtMost(|p|);
    ShiftFurtherRaw(Packed(p), (5 * |p|) as bv8, 20);
  }

  lemma {:induction false} CountWidth(count: bv8)
    requires 1 <= count <= 16
    ensures (count as bv32) - 1 <= 15
  {
  }

  lemma {:induction false} LengthWriteRaw(reg: bv32, v: bv32)
    requires reg >> 20 == 0 && v <= 15
    ensures (reg & !(1 << 24)) | (v << 20) == reg | (v << 20)
    ensures ((reg | (v << 20)) >> 20) & 0xF == v
    ensures (reg | (v << 20)) & 0xF_FFFF == reg
  {
  }

  lemma {:induction false} LengthWrite(reg: bv32, v: bv32)
    requires reg >> 20 == 0 && v <= 15
    ensures FieldWrite(reg, SEQUENCE_LEN_OFFSET, SEQUENCE_LEN_SIZE - 1, v) == reg | (v << 20)
    ensures ((reg | (v << 20)) >> 20) & 0xF == v
    ensures (reg | (v << 20)) & 0xF_FFFF == reg
  {
    FieldWriteExpand(reg, SEQUENCE_LEN_OFFSET, SEQUENCE_LEN_SIZE - 1, v);
    LengthWriteRaw(reg, v);
  }

  /** Into an SQR1 clear from bit 20 up, the count write ORs `count - 1`
      into the length field L (bits 20-23); L then reads `count - 1` and
      bits 0-19 are kept. */
  lemma {:induction false} CountFieldWrite(reg: bv32, count: bv8)
    requires 1 <= count <= MAX_SEQUENCE && reg >> 20 == 0
    ensures FieldWrite(reg, SEQUENCE_LEN_OFFSET, SEQUENCE_LEN_SIZE - 1, (count as bv32) - 1)
            == reg | (((count as bv32) - 1) << 20)
    ensures ((reg | (((count as bv32) - 1) << 20)) >> 20) & 0xF == (count as bv32) - 1
    ensures (reg | (((count as bv32) - 1) << 20)) & 0xF_FFFF == reg
  {
    CountWidth(count);
    LengthWrite(reg, (count as bv32) - 1);
  }

  /** `set_sequence_channel_count` with a count of 1 to 16 changes SQR1
      alone, ORing `count - 1` into L. */
  lemma {:induction false} SequenceCountWrite(r: ChannelRegs, count: bv8)
    requires 1 <= count <= MAX_SEQUENCE && r.sqr1 >> 20 == 0
    ensures SetSequenceCount(r, count) == r.(sqr1 := r.sqr1 | (((count as bv32) - 1) << 20))
  {
    CountFieldWrite(r.sqr1, count);
  }

  lemma {:induction false} LengthOverRaw(reg: bv32, v: bv32)
    requires v <= 15
    ensures (((reg & !(1 << 24)) | (v << 20)) >> 20) & 0xF == ((reg >> 20) & 0xF) | v
    ensures ((reg & !(1 << 24)) | (v << 20)) & 0xF_FFFF == reg & 0xF_FFFF
    ensures ((reg & !(1 << 24)) | (v << 20)) & (1 << 24) == 0
    ensures ((reg & !(1 << 24)) | (v << 20)) >> 25 == reg >> 25
  {
  }

  /** Over an SQR1 of any value, a count of 1 to 16 is ORed into the old
      length field instead of replacing it: L becomes the old L OR
      `count - 1`, bit 24 (the helper's mask) is cleared, and bits 0-19
      and 25-31 are kept. */
  lemma {:induction false} SequenceCountOver(r: ChannelRegs, count: bv8)
    requires 1 <= count <= MAX_SEQUENCE
    ensures SetSequenceCount(r, count).sqr2 == r.sqr2 && SetSequenceCount(r, count).sqr3 == r.sqr3
    ensures SetSequenceCount(r, count).smpr1 == r.smpr1 && SetSequenceCount(r, count).smpr2 == r.smpr2
    ensures (SetSequenceCount(r, count).sqr1 >> 20) & 0xF == ((r.sqr1 >> 20) & 0xF) | ((count as bv32) - 1)
    ensures SetSequenceCount(r, count).sqr1 & 0xF_FFFF == r.sqr1 & 0xF_FFFF
    ensures SetSequenceCount(r, count).sqr1 & (1 << 24) == 0
    ensures SetSequenceCount(r, count).sqr1 >> 25 == r.sqr1 >> 25
  {
    var w := FieldWrite(r.sqr1, SEQUENCE_LEN_OFFSET, SEQUENCE_LEN_SIZE - 1, (count as bv32) - 1);
    assert SetSequenceCount(r, count) == r.(sqr1 := w);
    CountOverWrite(r.sqr1, count);
  }

  lemma {:induction false} CountOverWrite(reg: bv32, count: bv8)
    requires 1 <= count <= MAX_SEQUENCE
    ensures var w := FieldWrite(reg, SEQUENCE_LEN_OFFSET, SEQUENCE_LEN_SIZE - 1, (count as bv32) - 1);
            && (w >> 20) & 0xF == ((reg >> 20) & 0xF) | ((count as bv32) - 1)
            && w & 0xF_FFFF == reg & 0xF_FFFF && w & (1 << 24) == 0 && w >> 25 == reg >> 25
  {
    CountWidth(count);
    FieldWriteExpand(reg, SEQUENCE_LEN_OFFSET, SEQUENCE_LEN_SIZE - 1, (count as bv32) - 1);
    LengthOverRaw(reg, (count as bv32) - 1);
  }

  /** A second initialisation after a sequence of 16: the count 1 leaves
      L at 15, so the converter still runs 16 conversions. */
  lemma {:induction false} RecountKeepsLongerSequence(r: ChannelRegs)
    requires (r.sqr1 >> 20) & 0xF == 15
    ensures (SetSequenceCount(r, 1).sqr1 >> 20) & 0xF == 15
  {
    SequenceCountOver(r, 1);
  }

  /** A count of 0 is let through: `0 - 1` shifted by 20 sets bits 20-31,
      so L reads 15, a sequence of 16 conversions. */
  lemma {:induction false} SequenceCountZero(r: ChannelRegs)
    ensures SetSequenceCount(r, 0) == r.(sqr1 := (r.sqr1 & !(1 << 24)) | 0xFFF0_0000)
    ensures (SetSequenceCount(r, 0).sqr1 >> 20) & 0xF == 15
  {
    FieldWriteExpand(r.sqr1, SEQUENCE_LEN_OFFSET, SEQUENCE_LEN_SIZE - 1, 0xFFFF_FFFF);
  }

  /** The count write after the layout: SQR1 keeps the list, and L gets
      `count - 1`. */
  lemma {:induction false} CountAfterLayout(r: ChannelRegs, chs: seq<bv8>, count: bv8)
    requires 1 <= count <= MAX_SEQUENCE && count as int <= |chs| && ValidChannels(chs[..count])
    requires HoldsSequence(r, chs, count as nat)
    ensures SetSequenceCount(r, count) == r.(sqr1 := r.sqr1 | (((count as bv32) - 1) << 20))
    ensures (SetSequenceCount(r, count).sqr1 >> 20) & 0xF == (count as bv32) - 1
  {
    LayoutBelowLength(r, chs, count as nat);
    SequenceCountWrite(r, count);
    CountFieldWrite(r.sqr1, count);
  }

  lemma {:induction false} LayoutBelowLength(r: ChannelRegs, chs: seq<bv8>, n: nat)
    requires n <= 16 && n <= |chs| && ValidChannels(chs[..n]) && HoldsSequence(r, chs, n)
    ensures r.sqr1 >> 20 == 0
  {
    ValidSlice(chs, n, Min(n, 12), n);
    PackedBelowLength(chs[Min(n, 12)..n]);
  }

  /** From empty sequence registers, `ADC_init_ex` with 1 to 16 valid
      channels leaves the list in the reference layout and its length,
      minus one, in L. */
  lemma {:induction false} InitSequence(r: ChannelRegs, chs: seq<bv8>, times: seq<bv8>, count: bv8)
    requires 1 <= count <= MAX_SEQUENCE && count as int <= |chs| && count as int <= |times|
    requires ValidChannels(chs[..count]) && r.sqr1 == 0 && r.sqr2 == 0 && r.sqr3 == 0
    ensures var n := count as nat;
            var r' := SetSequenceCount(ConfigureChannels(r, chs, times, n), count);
            && r'.sqr3 == Packed(chs[..Min(n, 6)])
            && r'.sqr2 == Packed(chs[Min(n, 6)..Min(n, 12)])
            && r'.sqr1 == Packed(chs[Min(n, 12)..n]) | (((count as bv32) - 1) << 20)
            && (r'.sqr1 >> 20) & 0xF == (count as bv32) - 1
  {
    SequenceLayout(r, chs, times, count as nat);
    CountAfterLayout(ConfigureChannels(r, chs, times, count as nat), chs, count);
  }

  /** `set_channel_sequence_index` writes one register: SQR3 for indices
      0-5, SQR2 for 6-11, SQR1 for 12-16, and neither sampling register;
      an out-of-range channel or index changes nothing. */
  lemma {:induction false} SequenceIndexFrame(r: ChannelRegs, index: bv8, channel: bv8)
    ensures channel > MAX_CHANNEL || index > MAX_SEQUENCE ==> SetSequenceIndex(r, index, channel) == r
    ensures index > 5 ==> SetSequenceIndex(r, index, channel).sqr3 == r.sqr3
    ensures index <= 5 || index > 11 ==> SetSequenceIndex(r, index, channel).sqr2 == r.sqr2
    ensures index <= 11 ==> SetSequenceIndex(r, index, channel).sqr1 == r.sqr1
    ensures SetSequenceIndex(r, index, channel).smpr1 == r.smpr1 && SetSequenceIndex(r, index, channel).smpr2 == r.smpr2
  {
  }

  lemma {:induction false} EntryBits(reg: bv32, index: bv8, channel: bv8, j: bv8)
    requires channel <= MAX_CHANNEL && j < 32
    ensures var s := 5 * (index % 6);
            BitSet(FieldWrite(reg, SequenceStart(index), SEQUENCE_CH_SIZE, channel as bv32), j)
            <==> (BitSet(reg, j) && j != s + 6) || (s <= j < s + 5 && BitSet(channel as bv32, j - s))
  {
    StartBelow(index);
    ChannelWidth(channel);
    FieldWriteBits(reg, SequenceStart(index), SEQUENCE_CH_SIZE, channel as bv32, j);
  }

  /** Bit by bit, with `s` the start bit `5 * (index % 6)`: the register
      written keeps its bits, except that bit s+6 (bit 1 of the next entry)
      is cleared, and gains the channel's bits in s to s+4. The old entry is
      not cleared: the mask helper yields the single bit s+6, not the
      field. */
  lemma {:induction false} SequenceIndexBits(r: ChannelRegs, index: bv8, channel: bv8, j: bv8)
    requires index <= MAX_SEQUENCE && channel <= MAX_CHANNEL && j < 32
    ensures var s := 5 * (index % 6);
            var reg := if index <= 5 then r.sqr3 else if index <= 11 then r.sqr2 else r.sqr1;
            var r' := SetSequenceIndex(r, index, channel);
            var written := if index <= 5 then r'.sqr3 else if index <= 11 then r'.sqr2 else r'.sqr1;
            BitSet(written, j) <==> (BitSet(reg, j) && j != s + 6) || (s <= j < s + 5 && BitSet(channel as bv32, j - s))
  {
    var reg := if index <= 5 then r.sqr3 else if index <= 11 then r.sqr2 else r.sqr1;
    EntryBits(reg, index, channel, j);
  }

  lemma {:induction false} StartBelow(index: bv8)
    ensures SequenceStart(index) == 5 * (index % 6) && SequenceStart(index) <= 25
  {
  }

  lemma {:induction false} ChannelWidth(channel: bv8)
    requires channel <= MAX_CHANNEL
    ensures (channel as bv32) >> 5 == 0
  {
  }

  /** `set_channel_sampling_time` writes SMPR2 for channels 0-9 and SMPR1
      for 10-16, and no sequence register; an out-of-range channel or time
      changes nothing. */
  lemma {:induction false} SamplingTimeFrame(r: ChannelRegs, channel: bv8, time: bv8)
    ensures channel > MAX_CHANNEL || time > ADC_SAMPLING_239_5 ==> SetSamplingTime(r, channel, time) == r
    ensures channel > 9 ==> SetSamplingTime(r, channel, time).smpr2 == r.smpr2
    ensures channel <= 9 ==> SetSamplingTime(r, channel, time).smpr1 == r.smpr1
    ensures var r' := SetSamplingTime(r, channel, time); r'.sqr1 == r.sqr1 && r'.sqr2 == r.sqr2 && r'.sqr3 == r.sqr3
  {
  }

  lemma {:induction false} TimeBits(reg: bv32, channel: bv8, time: bv8, j: bv8)
    requires time <= ADC_SAMPLING_239_5 && j < 32
    ensures var s := 3 * (channel % 10);
            BitSet(FieldWrite(reg, SamplingStart(channel), SAMPLING_TIME_SIZE, time as bv32), j)
            <==> (BitSet(reg, j) && j != s + 4) || (s <= j < s + 3 && BitSet(time as bv32, j - s))
  {
    SamplingStartBelow(channel);
    TimeWidth(time);
    FieldWriteBits(reg, SamplingStart(channel), SAMPLING_TIME_SIZE, time as bv32, j);
  }

  /** Bit by bit, with `s` the start bit `3 * (channel % 10)`: the register
      written keeps its bits, except bit s+4 (bit 1 of the next channel's
      time), and gains the time's bits in s to s+2. */
  lemma {:induction false} SamplingTimeBits(r: ChannelRegs, channel: bv8, time: bv8, j: bv8)
    requires channel <= MAX_CHANNEL && time <= ADC_SAMPLING_239_5 && j < 32
    ensures var s := 3 * (channel % 10);
            var reg := if channel <= 9 then r.smpr2 else r.smpr1;
            var r' := SetSamplingTime(r, channel, time);
            var written := if channel <= 9 then r'.smpr2 else r'.smpr1;
            BitSet(written, j) <==> (BitSet(reg, j) && j != s + 4) || (s <= j < s + 3 && BitSet(time as bv32, j - s))
  {
    var reg := if channel <= 9 then r.smpr2 else r.smpr1;
    TimeBits(reg, channel, time, j);
  }

  lemma {:induction false} SamplingStartBelow(channel: bv8)
    ensures SamplingStart(channel) == 3 * (channel % 10) && SamplingStart(channel) <= 27
  {
  }

  lemma {:induction false} TimeWidth(time: bv8)
    requires time <= ADC_SAMPLING_239_5
    ensures (time as bv32) >> 3 == 0
  {
  }

  const NO_CHANNELS := ChannelRegs(0, 0, 0, 0, 0)

  /** Rewriting an entry ORs the channels: channel 1 then channel 2 at
      index 0 leaves channel 3 selected. */
  lemma {:induction false} RewriteMergesEntries()
    ensures SetSequenceIndex(SetSequenceIndex(NO_CHANNELS, 0, 1), 0, 2).sqr3 == 3
  {
  }

  /** Writing entry 0 after entry 1 loses entry 1: channel 2 there is bit 6
      of SQR3, the bit the mask clears. */
  lemma {:induction false} WriteClearsNextEntry()
    ensures SetSequenceIndex(NO_CHANNELS, 1, 2).sqr3 == 2 << 5
    ensures SetSequenceIndex(SetSequenceIndex(NO_CHANNELS, 1, 2), 0, 3).sqr3 == 3
  {
  }

  /** Setting channel 0's time after channel 1's loses channel 1's time 2,
      which is bit 4 of SMPR2. */
  lemma {:induction false} WriteClearsNextTime()
    ensures SetSamplingTime(NO_CHANNELS, 1, 2).smpr2 == 2 << 3
    ensures SetSamplingTime(SetSamplingTime(NO_CHANNELS, 1, 2), 0, 2).smpr2 == 2
  {
  }

  /** Index 16 passes the range check and lands at bit 20 of SQR1, the
      length field L. */
  lemma {:induction false} IndexSixteenHitsLength()
    ensures SetSequenceIndex(NO_CHANNELS, 16, 5).sqr1 == 5 << 20
  {
  }

  /** `ADC_start`'s write to CR2 for a known mode: loop mode sets the
      continuous bit 1 and falls through; then ADON, bit 0. */
  function StartCr2(cr2: bv32, mode: bv8): bv32
  {
    var cont := if mode == ADC_MODE_LOOP then SetMask(cr2, Bit(ADC_CR1_CONT)) else cr2;
    SetMask(cont, Bit(ADC_CR2_ADON))
  }

  /** `ADC_start`'s write to CR1: the scan bit 8. */
  function StartCr1(cr1: bv32): bv32
  {
    SetMask(cr1, Bit(ADC_CR2_SCAN))
  }

  /** `ADC_stop`: `CR2 &= ~0x1`. */
  function StopCr2(cr2: bv32): bv32
  {
    ClearMask(cr2, 0x1)
  }

  lemma {:induction false} StartRaw(cr2: bv32, loop: bool, j: bv8)
    requires j < 32
    ensures BitSet((if loop then cr2 | 2 else cr2) | 1, j) <==> BitSet(cr2, j) || j == 0 || (loop && j == 1)
  {
  }

  lemma {:induction false} StopRaw(cr2: bv32, j: bv8)
    requires j < 32
    ensures BitSet(cr2 & !1, j) <==> BitSet(cr2, j) && j != 0
  {
  }

  lemma {:induction false} StartValue(cr2: bv32, mode: bv8)
    ensures StartCr2(cr2, mode) == (if mode == ADC_MODE_LOOP then cr2 | 2 else cr2) | 1
  {
  }

  /** Start sets ADON, and CONT in loop mode, and keeps every other bit. */
  lemma {:induction false} StartBits(cr2: bv32, mode: bv8, j: bv8)
    requires j < 32
    ensures BitSet(StartCr2(cr2, mode), j) <==> BitSet(cr2, j) || j == 0 || (mode == ADC_MODE_LOOP && j == 1)
  {
    StartValue(cr2, mode);
    StartRaw(cr2, mode == ADC_MODE_LOOP, j);
  }

  /** Stop clears ADON and nothing else. */
  lemma {:induction false} StopBits(cr2: bv32, j: bv8)
    requires j < 32
    ensures BitSet(StopCr2(cr2), j) <==> BitSet(cr2, j) && j != 0
  {
    StopValue(cr2);
    StopRaw(cr2, j);
  }

  lemma {:induction false} StopValue(cr2: bv32)
    ensures StopCr2(cr2) == cr2 & !1
  {
  }

  lemma {:induction false} ContinuousStaysRaw(cr2: bv32)
    ensures ((((cr2 | 2) | 1) & !1) | 1) & 2 == 2
  {
  }

  /** Nothing clears CONT: a loop-mode start, a stop and a single-mode
      start leave the converter in continuous mode. */
  lemma {:induction false} ContinuousStays(cr2: bv32)
    ensures BitSet(StartCr2(StopCr2(StartCr2(cr2, ADC_MODE_LOOP)), ADC_MODE_SINGLE), ADC_CR1_CONT)
  {
    ContinuousStaysRaw(cr2);
  }

  /** The ADC1 register block. */
  class AdcRegs {
    var sr: bv32
    var cr1: bv32
    var cr2: bv32
    var smpr1: bv32
    var smpr2: bv32
    var sqr1: bv32
    var sqr2: bv32
    var sqr3: bv32
    var dr: bv32

    constructor ()
      ensures sr == 0 && cr1 == 0 && cr2 == 0 && dr == 0
      ensures Channels() == NO_CHANNELS
    {
      sr, cr1, cr2, dr := 0, 0, 0, 0;
      smpr1, smpr2, sqr1, sqr2, sqr3 := 0, 0, 0, 0, 0;
    }

    /** The five channel-configuration registers as one value. */
    function Channels(): ChannelRegs
      reads this
    {
      ChannelRegs(smpr1, smpr2, sqr1, sqr2, sqr3)
    }

    /** `set_channel_sequence_index` on the registers. */
    method SetChannelSequenceIndex(index: bv8, channel: bv8)
      modifies this
      ensures Channels() == SetSequenceIndex(old(Channels()), index, channel)
      ensures sr == old(sr) && cr1 == old(cr1) && cr2 == old(cr2) && dr == old(dr)
    {
      var startBit := SequenceStart(index);
      if channel > MAX_CHANNEL || index > MAX_SEQUENCE {
        return;
      }
      var mask := GenerateMask(startBit, startBit + SEQUENCE_CH_SIZE);
      var entry := Shl(channel as bv32, startBit);
      if index <= 5 {
        sqr3 := ClearMask(sqr3, mask);
        sqr3 := SetMask(sqr3, entry);
      } else if index <= 11 {
        sqr2 := ClearMask(sqr2, mask);
        sqr2 := SetMask(sqr2, entry);
      } else {
        sqr1 := ClearMask(sqr1, mask);
        sqr1 := SetMask(sqr1, entry);
      }
    }

    /** `set_channel_sampling_time` on the registers. */
    method SetChannelSamplingTime(channel: bv8, time: bv8)
      modifies this
      ensures Channels() == SetSamplingTime(old(Channels()), channel, time)
      ensures sr == old(sr) && cr1 == old(cr1) && cr2 == old(cr2) && dr == old(dr)
    {
      var startBit := SamplingStart(channel);
      if channel > MAX_CHANNEL || time > ADC_SAMPLING_239_5 {
        return;
      }
      var mask := GenerateMask(startBit, startBit + SAMPLING_TIME_SIZE);
      var entry := Shl(time as bv32, startBit);
      if channel <= 9 {
        smpr2 := ClearMask(smpr2, mask);
        smpr2 := SetMask(smpr2, entry);
      } else {
        smpr1 := ClearMask(smpr1, mask);
        smpr1 := SetMask(smpr1, entry);
      }
    }

    /** The configuration loop of `ADC_init_ex`: for each listed channel
        in turn, its sampling time, then its sequence entry at its
        position in the list. */
    method ConfigureSequence(channels: seq<bv8>, times: seq<bv8>, count: bv8)
      requires count as int <= |channels| && count as int <= |times|
      modifies this
      ensures Channels() == ConfigureChannels(old(Channels()), channels, times, count as nat)
      ensures sr == old(sr) && cr1 == old(cr1) && cr2 == old(cr2) && dr == old(dr)
    {
      var i := 0;
      while i < count as int
        invariant 0 <= i <= count as int
        invariant Channels() == ConfigureChannels(old(Channels()), channels, times, i)
        invariant sr == old(sr) && cr1 == old(cr1) && cr2 == old(cr2) && dr == old(dr)
      {
        SetChannelSamplingTime(channels[i], times[i]);
        SetChannelSequenceIndex(i as bv8, channels[i]);
        i := i + 1;
      }
    }

    /** `set_sequence_channel_count` on the registers. */
    method SetSequenceChannelCount(count: bv8)
      modifies this
      ensures Channels() == SetSequenceCount(old(Channels()), count)
      ensures sr == old(sr) && cr1 == old(cr1) && cr2 == old(cr2) && dr == old(dr)
    {
      if count > MAX_SEQUENCE {
        return;
      }
      sqr1 := ClearMask(sqr1, GenerateMask(SEQUENCE_LEN_OFFSET, SEQUENCE_LEN_OFFSET + SEQUENCE_LEN_SIZE - 1));
      sqr1 := SetMask(sqr1, Shl((count as bv32) - 1, SEQUENCE_LEN_OFFSET));
    }
  }

  /** The driver: the ADC1 registers, the clock controller, and the
      `s_adc1_init` flag. */
  class AdcDriver {
    var initialized: bool
    const adc: AdcRegs
    const rcc: Rcc.RccRegs

    constructor (a: AdcRegs, clocks: Rcc.RccRegs)
      ensures !initialized && adc == a && rcc == clocks
    {
      initialized := false;
      adc := a;
      rcc := clocks;
    }

    /** `startup_adc`: ADC1's clock on, ADON, then calibration; the wait
        ends when the hardware clears CAL, after which DMA mode is set. */
    method StartupAdc()
      modifies adc, rcc
      ensures adc.cr2 == Bit(ADC_CR2_ADON) | Bit(ADC_CR2_DMA)
      ensures adc.Channels() == old(adc.Channels())
      ensures adc.sr == old(adc.sr) && adc.cr1 == old(adc.cr1) && adc.dr == old(adc.dr)
      ensures rcc.apb2enr == Rcc.ClockEnableWrite(old(rcc.apb2enr), Rcc.ADC1, true)
      ensures rcc.ahbenr == old(rcc.ahbenr) && rcc.apb1enr == old(rcc.apb1enr)
      ensures rcc.cr == old(rcc.cr) && rcc.cfgr == old(rcc.cfgr) && rcc.cir == old(rcc.cir)
      ensures rcc.apb1rstr == old(rcc.apb1rstr) && rcc.apb2rstr == old(rcc.apb2rstr)
    {
      rcc.PeripheralSetClock(Rcc.ADC1, true);
      adc.cr2 := Bit(ADC_CR2_ADON);
      adc.cr2 := SetMask(adc.cr2, Bit(ADC_CR2_CAL));
      // End of calibration, done by the hardware.
      adc.cr2 := ClearMask(adc.cr2, Bit(ADC_CR2_CAL));
      adc.cr2 := SetMask(adc.cr2, Bit(ADC_CR2_DMA));
    }

    /** `setup_dma_channel`: DMA1's clock on; the channel set-up itself is
        the DMA driver's, and `dmaReady` is its answer. */
    method SetupDmaChannel(dmaReady: bool) returns (ok: bool)
      modifies rcc
      ensures ok == dmaReady
      ensures rcc.ahbenr == Rcc.ClockEnableWrite(old(rcc.ahbenr), Rcc.DMA1, true)
      ensures rcc.apb1enr == old(rcc.apb1enr) && rcc.apb2enr == old(rcc.apb2enr)
      ensures rcc.cr == old(rcc.cr) && rcc.cfgr == old(rcc.cfgr) && rcc.cir == old(rcc.cir)
      ensures rcc.apb1rstr == old(rcc.apb1rstr) && rcc.apb2rstr == old(rcc.apb2rstr)
    {
      rcc.PeripheralSetClock(Rcc.DMA1, true);
      ok := dmaReady;
    }

    /** `ADC_init_ex`: once initialised, nothing happens and the answer is
        false. Otherwise the converter is started up; if the DMA channel
        cannot be set up the answer is false and the flag stays clear;
        else every listed channel gets its sampling time and its sequence
        entry, the count is written and the flag is set. */
    method InitEx(channels: seq<bv8>, times: seq<bv8>, count: bv8, dmaReady: bool) returns (ok: bool)
      requires count as int <= |channels| && count as int <= |times|
      modifies this, adc, rcc
      ensures old(initialized) ==> !ok && initialized && unchanged(adc) && unchanged(rcc)
      ensures !old(initialized) ==> (ok <==> dmaReady) && initialized == ok
      ensures !old(initialized) ==> adc.cr2 == Bit(ADC_CR2_ADON) | Bit(ADC_CR2_DMA)
      ensures !old(initialized) ==> adc.sr == old(adc.sr) && adc.cr1 == old(adc.cr1) && adc.dr == old(adc.dr)
      ensures !old(initialized) && !ok ==> adc.Channels() == old(adc.Channels())
      ensures !old(initialized) && ok ==>
                adc.Channels() == SetSequenceCount(ConfigureChannels(old(adc.Channels()), channels, times, count as nat), count)
      ensures !old(initialized) ==> rcc.apb2enr == Rcc.ClockEnableWrite(old(rcc.apb2enr), Rcc.ADC1, true)
      ensures !old(initialized) ==> rcc.ahbenr == Rcc.ClockEnableWrite(old(rcc.ahbenr), Rcc.DMA1, true)
      ensures rcc.apb1enr == old(rcc.apb1enr) && rcc.cr == old(rcc.cr) && rcc.cfgr == old(rcc.cfgr)
      ensures rcc.cir == old(rcc.cir) && rcc.apb1rstr == old(rcc.apb1rstr) && rcc.apb2rstr == old(rcc.apb2rstr)
    {
      if initialized {
        return false;
      }
      StartupAdc();
      ok := SetupDmaChannel(dmaReady);
      if !ok {
        return;
      }
      adc.ConfigureSequence(channels, times, count);
      adc.SetSequenceChannelCount(count);
      initialized := true;
    }

    /** `ADC_init`: `ADC_init_ex` with the default sampling time for every
        channel. */
    method Init(channels: seq<bv8>, count: bv8, dmaReady: bool) returns (ok: bool)
      requires count as int <= |channels|
      modifies this, adc, rcc
      ensures old(initialized) ==> !ok && initialized && unchanged(adc) && unchanged(rcc)
      ensures !old(initialized) ==> (ok <==> dmaReady) && initialized == ok
      ensures !old(initialized) && ok ==>
                adc.Channels()
                == SetSequenceCount(ConfigureChannels(old(adc.Channels()), channels, DefaultTimes(count as nat), count as nat), count)
      ensures !old(initialized) ==> adc.cr2 == Bit(ADC_CR2_ADON) | Bit(ADC_CR2_DMA)
      ensures !old(initialized) ==> adc.sr == old(adc.sr) && adc.cr1 == old(adc.cr1) && adc.dr == old(adc.dr)
      ensures !old(initialized) && !ok ==> adc.Channels() == old(adc.Channels())
      ensures !old(initialized) ==> rcc.apb2enr == Rcc.ClockEnableWrite(old(rcc.apb2enr), Rcc.ADC1, true)
      ensures !old(initialized) ==> rcc.ahbenr == Rcc.ClockEnableWrite(old(rcc.ahbenr), Rcc.DMA1, true)
      ensures rcc.apb1enr == old(rcc.apb1enr) && rcc.cr == old(rcc.cr) && rcc.cfgr == old(rcc.cfgr)
      ensures rcc.cir == old(rcc.cir) && rcc.apb1rstr == old(rcc.apb1rstr) && rcc.apb2rstr == old(rcc.apb2rstr)
    {
      ok := InitEx(channels, DefaultTimes(count as nat), count, dmaReady);
    }

    /** `ADC_start`: nothing before initialisation or for an unknown mode;
        otherwise scan mode in CR1, continuous mode too for the loop mode,
        then ADON. Starting the DMA channel is the DMA driver's. */
    method Start(mode: bv8)
      modifies adc
      ensures !initialized || mode > ADC_MODE_LOOP ==> unchanged(adc)
      ensures initialized && mode <= ADC_MODE_LOOP ==>
                adc.cr1 == StartCr1(old(adc.cr1)) && adc.cr2 == StartCr2(old(adc.cr2), mode)
      ensures adc.Channels() == old(adc.Channels()) && adc.sr == old(adc.sr) && adc.dr == old(adc.dr)
    {
      if !initialized {
        return;
      }
      if mode == ADC_MODE_LOOP {
        adc.cr2 := SetMask(adc.cr2, Bit(ADC_CR1_CONT));
        adc.cr1 := SetMask(adc.cr1, Bit(ADC_CR2_SCAN));
      } else if mode == ADC_MODE_SINGLE {
        adc.cr1 := SetMask(adc.cr1, Bit(ADC_CR2_SCAN));
      } else {
        return;
      }
      adc.cr2 := SetMask(adc.cr2, Bit(ADC_CR2_ADON));
    }

    /** `ADC_stop`: ADON off once initialised. */
    method Stop()
      modifies adc
      ensures initialized ==> adc.cr2 == StopCr2(old(adc.cr2))
      ensures !initialized ==> adc.cr2 == old(adc.cr2)
      ensures adc.cr1 == old(adc.cr1) && adc.Channels() == old(adc.Channels())
      ensures adc.sr == old(adc.sr) && adc.dr == old(adc.dr)
    {
      if !initialized {
        return;
      }
      adc.cr2 := ClearMask(adc.cr2, 0x1);
    }

    /** `ADC_startup`: the flag is cleared, so the next init goes ahead. */
    method Startup()
      modifies this
      ensures !initialized
    {
      initialized := false;
    }
  }
}
