/** The bit-mask helper shared by the GPIO and ADC drivers (src/utils.c),
    and the 32-bit shift semantics every driver relies on.

    Register values are `bv32`; bit positions and the helper's `uint8_t`
    arguments are `bv8`, so that `end - start + 1` wraps modulo 256 exactly
    as the C code's `uint8_t bit_count` does. */
module Bits {

  /** `x << n` on a 32-bit word. C leaves a shift by 32 or more undefined;
      the Cortex-M3 `LSL` by register yields 0 for such amounts, and that is
      the value modelled here. */
  function Shl(x: bv32, n: bv8): bv32
  {
    if n < 32 then x << n else 0
  }

  /** The word with only bit `i` set (0 when `i` is not a bit position). */
  function Bit(i: bv8): bv32
  {
    Shl(1, i)
  }

  predicate BitSet(x: bv32, i: bv8)
  {
    i < 32 && (x >> i) & 1 == 1
  }

  lemma {:induction false} BitsMeet(k: bv8, j: bv8)
    requires k < 32 && j < 32
    ensures Bit(k) & Bit(j) != 0 <==> j == k
  {
  }

  lemma {:induction false} SetBitRaw(reg: bv32, k: bv8, j: bv8)
    requires k < 32 && j < 32
    ensures BitSet(reg | (1 << k), j) <==> BitSet(reg, j) || j == k
  {
  }

  /** Setting bit `k` changes bit `k` and no other. */
  lemma {:induction false} SetBitAt(reg: bv32, k: bv8, j: bv8)
    requires k < 32 && j < 32
    ensures BitSet(reg | Bit(k), j) <==> BitSet(reg, j) || j == k
  {
    SetBitRaw(reg, k, j);
  }

  /** `reg | mask`: the register with the mask's bits set. */
  function SetMask(reg: bv32, mask: bv32): bv32
  {
    reg | mask
  }

  /** `reg & ~mask`: the register with the mask's bits cleared. */
  function ClearMask(reg: bv32, mask: bv32): bv32
  {
    reg & !mask
  }

  /** `utils_generate_mask` exactly as written: `bit_count` is a `uint8_t`
      computed as `end - start + 1`; the whole word is special-cased and
      every other count gives `(1 << bit_count) << start_bit`. */
  function GenerateMask(startBit: bv8, endBit: bv8): bv32
  {
    var bitCount: bv8 := endBit - startBit + 1;
    if bitCount == 32 then 0xFFFF_FFFF else Shl(Shl(1, bitCount), startBit)
  }

  /** What the helper actually yields for a well-formed range: apart from
      the whole word, the single bit above the range, or nothing once that
      bit would be bit 32. */
  lemma {:induction false} GenerateMaskIsBitAfterRange(startBit: bv8, endBit: bv8)
    ensures startBit <= endBit < 31 ==> GenerateMask(startBit, endBit) == Bit(endBit + 1)
    ensures startBit == 0 && endBit == 31 ==> GenerateMask(startBit, endBit) == 0xFFFF_FFFF
    ensures startBit <= endBit == 31 && startBit != 0 ==> GenerateMask(startBit, endBit) == 0
  {
    var bitCount: bv8 := endBit - startBit + 1;
    if startBit <= endBit < 31 {
      ShiftedBit(bitCount, startBit);
    } else if startBit <= endBit == 31 && startBit != 0 {
      ShiftedOut(bitCount, startBit);
    }
  }

  /** Two left shifts are one shift by the sum, while it stays in the word. */
  lemma {:induction false} ShiftsCompose(x: bv32, c: bv8, s: bv8)
    requires c < 32 && s < 32 && c + s < 32
    ensures (x << c) << s == x << (c + s)
  {
  }

  /** Shifting bit `c` left by `s` gives bit `c + s` while it stays in the word. */
  lemma {:induction false} ShiftedBit(c: bv8, s: bv8)
    requires c < 32 && s < 32 && c + s < 32
    ensures Shl(Shl(1, c), s) == Bit(c + s)
  {
    ShiftsCompose(1, c, s);
  }

  /** Once `c + s` reaches 32 the bit has left the word. */
  lemma {:induction false} ShiftedOut(c: bv8, s: bv8)
    requires c < 32 && s < 32 && 32 <= c + s
    ensures Shl(Shl(1, c), s) == 0
  {
  }

  /** The mask the header of `utils_generate_mask` documents: every bit from
      `startBit` to `endBit`, both included. */
  function DocumentedMask(startBit: bv8, endBit: bv8): (mask: bv32)
    requires startBit <= endBit < 32
    ensures forall j: bv8 :: j < 32 ==> (BitSet(mask, j) <==> startBit <= j <= endBit)
  {
    var m := Shl(0xFFFF_FFFF, startBit) & (0xFFFF_FFFF >> (31 - endBit));
    assert forall j: bv8 :: j < 32 ==> (BitSet(m, j) <==> startBit <= j <= endBit) by {
      forall j: bv8 | j < 32 ensures BitSet(m, j) <==> startBit <= j <= endBit {
        DocumentedBit(startBit, endBit, j);
      }
    }
    m
  }

  lemma {:induction false} DocumentedBit(startBit: bv8, endBit: bv8, j: bv8)
    requires startBit <= endBit < 32 && j < 32
    ensures BitSet(Shl(0xFFFF_FFFF, startBit) & (0xFFFF_FFFF >> (31 - endBit)), j)
            <==> startBit <= j <= endBit
  {
  }

  /** The code agrees with its documentation for the whole word and for no
      other well-formed range: the documented mask always holds bit
      `startBit`, the computed one never does. */
  lemma {:induction false} MaskMatchesDocumentationOnlyForWholeWord(startBit: bv8, endBit: bv8)
    requires startBit <= endBit < 32
    ensures GenerateMask(startBit, endBit) == DocumentedMask(startBit, endBit)
            <==> startBit == 0 && endBit == 31
  {
    GenerateMaskIsBitAfterRange(startBit, endBit);
    var gen, doc := GenerateMask(startBit, endBit), DocumentedMask(startBit, endBit);
    if !(startBit == 0 && endBit == 31) {
      assert BitSet(doc, startBit);
      if endBit < 31 {
        BitsMeet(endBit + 1, startBit);
      }
      assert !BitSet(gen, startBit);
    }
  }

  /** A one-pin range: the code yields 2 where the documentation promises 1. */
  lemma SinglePinMask()
    ensures GenerateMask(0, 0) == 2 && DocumentedMask(0, 0) == 1
  {
    assert DocumentedMask(0, 0) == 1 by {
      var d := DocumentedMask(0, 0);
      assert BitSet(d, 0);
      forall j: bv8 | 0 < j < 32 ensures !BitSet(d, j) { }
      BitPattern(d);
    }
  }

  /** A word with bit 0 set and no other bit set is 1. */
  lemma {:induction false} BitPattern(d: bv32)
    requires BitSet(d, 0)
    requires forall j: bv8 :: 0 < j < 32 ==> !BitSet(d, j)
    ensures d == 1
  {
    assert !BitSet(d, 1) && !BitSet(d, 2) && !BitSet(d, 3) && !BitSet(d, 4);
    assert !BitSet(d, 5) && !BitSet(d, 6) && !BitSet(d, 7) && !BitSet(d, 8);
    assert !BitSet(d, 9) && !BitSet(d, 10) && !BitSet(d, 11) && !BitSet(d, 12);
    assert !BitSet(d, 13) && !BitSet(d, 14) && !BitSet(d, 15) && !BitSet(d, 16);
    assert !BitSet(d, 17) && !BitSet(d, 18) && !BitSet(d, 19) && !BitSet(d, 20);
    assert !BitSet(d, 21) && !BitSet(d, 22) && !BitSet(d, 23) && !BitSet(d, 24);
    assert !BitSet(d, 25) && !BitSet(d, 26) && !BitSet(d, 27) && !BitSet(d, 28);
    assert !BitSet(d, 29) && !BitSet(d, 30) && !BitSet(d, 31);
  }

  /** An end below the start wraps `bit_count` modulo 256. An end one below
      the start gives `bit_count` 0 and so the single bit `startBit`; a wrap
      that lands exactly on 32 gives the whole word; every other reversed
      range shifts the bit out of the word and gives 0. */
  lemma {:induction false} ReversedRangeWraps(startBit: bv8, endBit: bv8)
    requires endBit < startBit
    ensures GenerateMask(startBit, endBit)
            == if startBit - endBit == 225 then 0xFFFF_FFFF
               else if startBit - endBit == 1 then Bit(startBit)
               else 0
  {
    var bitCount: bv8 := endBit - startBit + 1;
    if startBit - endBit == 1 {
      assert bitCount == 0;
    } else if startBit - endBit != 225 {
      assert bitCount > 32 || startBit >= 32;
    }
  }
}
