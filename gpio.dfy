/** GPIO pin ranges (src/GPIO.c): per-port reservation of pins, encoding of
    a pin range's mode and configuration into the CRL/CRH registers (one
    4-bit field per pin), input pull set-up through ODR, and masked reads
    and writes of IDR, ODR, BSRR and BRR. */
module Gpio {
  import opened Bits
  import Rcc

  /** `GPIO_PORT_t`: ports A, B and C are 0, 1 and 2. */
  const PORT_COUNT: bv8 := 3
  type PortId = p: bv8 | p < PORT_COUNT

  const GPIO_MAX_PIN: bv8 := 15
  const GPIO_MAX_CRL: bv8 := 7

  /** The index of a port's entry in `s_reserved_pins`. */
  function Slot(port: PortId): (i: nat)
    ensures i < 3
  {
    if port == 0 then 0 else if port == 1 then 1 else 2
  }

  /** `GPIO_MODE_t` (INPUT is 0, the three output speeds 1 to 3). */
  type Mode = m: bv8 | m < 4
  const GPIO_MODE_INPUT: Mode := 0

  /** `GPIO_CONFIG_t`. Pull-down and pull-up share the value 2. */
  type Config = c: bv8 | c < 8
  const GPIO_CONFIG_INPUT_ANALOG: Config := 0
  const GPIO_CONFIG_INPUT_FLOATING: Config := 1
  const GPIO_CONFIG_INPUT_PULL_DOWN: Config := 2
  const GPIO_CONFIG_INPUT_PULL_UP: Config := 2
  const GPIO_CONFIG_OUTPUT_PUSH_PULL: Config := 4
  const GPIO_CONFIG_OUTPUT_OPEN_DRAIN: Config := 5
  const GPIO_CONFIG_OUTPUT_PUSH_PULL_ALT: Config := 6
  const GPIO_CONFIG_OUTPUT_OPEN_DRAIN_ALT: Config := 7

  /** A 4-bit field of the `GPIO_PIN_ARRAY_t` structure. */
  type Field4 = x: bv8 | x < 16

  /** The 4-bit field of pin `k` (0 to 7) in a CRL or CRH value. */
  function Nibble(x: bv32, k: bv8): bv32
    requires k < 8
  {
    (x >> (4 * k)) & 0xF
  }

  /** Truncation to `uint16_t`. A 16-bit value is held in a 32-bit word, as
      C promotes it in every expression it appears in; a `uint16_t`
      parameter is the low half of the word its caller passes. */
  function Low16(x: bv32): bv32
  {
    x & 0xFFFF
  }

  /** `mode | ((config & 2) << 2)`: the mode's own bits, with bit 1 of the
      configuration added at bit 3. For a `GPIO_MODE_t` (below 4) bit 2,
      the low configuration bit of the hardware field, is never set. */
  function PinInitValue(mode: Field4, config: Field4): bv32
  {
    (mode as bv32) | (((config as bv32) & 2) << 2)
  }

  /** The pin value fits one field; its low three bits are the mode's and
      bit 3 is set by bit 3 of the mode or bit 1 of the configuration. */
  lemma {:induction false} PinInitValueFields(mode: Field4, config: Field4)
    ensures PinInitValue(mode, config) < 16
    ensures PinInitValue(mode, config) & 7 == (mode & 7) as bv32
    ensures PinInitValue(mode, config) & 8 != 0 <==> mode & 8 != 0 || config & 2 != 0
  {
  }

  /** Only bit 1 of the configuration reaches the field, at bit 3; bit 2,
      the low configuration bit of the hardware field, is never written.
      So a floating input is encoded as an analog one, and each open-drain
      output as the matching push-pull output. */
  lemma {:induction false} ConfigLosesLowBit(mode: Mode)
    ensures PinInitValue(mode, GPIO_CONFIG_INPUT_FLOATING) == PinInitValue(mode, GPIO_CONFIG_INPUT_ANALOG)
    ensures PinInitValue(mode, GPIO_CONFIG_OUTPUT_OPEN_DRAIN) == PinInitValue(mode, GPIO_CONFIG_OUTPUT_PUSH_PULL)
    ensures PinInitValue(mode, GPIO_CONFIG_OUTPUT_OPEN_DRAIN_ALT)
            == PinInitValue(mode, GPIO_CONFIG_OUTPUT_PUSH_PULL_ALT)
    ensures forall c: Config :: PinInitValue(mode, c) & 4 == 0
  {
  }

  /** `pin & GPIO_MAX_CR`: a pin's position, 0 to 7, within its CRL or CRH
      register. */
  function CrIndex(pin: bv8): (k: bv8)
    ensures k < 8
  {
    pin & 7
  }

  /** The fields of pins `s` to `n - 1` each holding `pinInit`, all other
      fields 0: the value the loop of `config_cr_register` accumulates. */
  function FieldsBelow(pinInit: bv32, s: bv8, n: bv8): bv32
    requires n <= 8
    decreases n
  {
    if n <= s then 0 else FieldsBelow(pinInit, s, n - 1) | Shl(pinInit, 4 * (n - 1))
  }

  lemma {:induction false} NibbleOfOr(a: bv32, p: bv32, m: bv8, k: bv8)
    requires p < 16 && m < 8 && k < 8
    ensures Nibble(a | Shl(p, 4 * m), k) == Nibble(a, k) | (if k == m then p else 0)
  {
  }

  lemma {:induction false} FieldStep(p: bv32, s: bv8, n: bv8, k: bv8, a: bv32, b: bv32)
    requires p < 16 && 0 < n <= 8 && k < 8 && s < n
    requires Nibble(a, k) == (if s <= k < n - 1 then p else 0)
    requires b == a | Shl(p, 4 * (n - 1))
    ensures Nibble(b, k) == if s <= k < n then p else 0
  {
    NibbleOfOr(a, p, n - 1, k);
  }

  /** Field `k` of the accumulated value is `pinInit` inside the range and
      0 outside it. */
  lemma {:induction false} FieldsBelowNibble(pinInit: bv32, s: bv8, n: bv8, k: bv8)
    requires pinInit < 16 && n <= 8 && k < 8
    ensures Nibble(FieldsBelow(pinInit, s, n), k) == if s <= k < n then pinInit else 0
    decreases n
  {
    if n > s {
      FieldsBelowNibble(pinInit, s, n - 1, k);
      FieldStep(pinInit, s, n, k, FieldsBelow(pinInit, s, n - 1), FieldsBelow(pinInit, s, n));
    }
  }

  /** One more field: ORing pin `i`'s field into the fields of pins `s` to
      `i - 1` gives the fields of pins `s` to `i`. */
  lemma {:induction false} FieldsBelowStep(pinInit: bv32, s: bv8, i: bv8, v: bv32)
    requires s <= i < 8 && v == FieldsBelow(pinInit, s, i)
    ensures v | Shl(pinInit, 4 * i) == FieldsBelow(pinInit, s, i + 1)
  {
  }

  /** The loop of `config_cr_register`, which ORs the pin value into the
      field of every pin from `s` to `e`. */
  method AccumulatePinFields(pinInit: bv32, s: bv8, e: bv8) returns (v: bv32)
    requires s < 8 && e < 8
    ensures v == FieldsBelow(pinInit, s, e + 1)
  {
    v := 0;
    var i := s;
    while i <= e
      invariant s <= i <= 8
      invariant s <= e ==> i <= e + 1
      invariant e < s ==> i == s
      invariant v == FieldsBelow(pinInit, s, i)
    {
      FieldsBelowStep(pinInit, s, i, v);
      v := v | Shl(pinInit, 4 * i);
      i := i + 1;
    }
  }

  /** `generate_cr_mask`: the mask `config_cr_register` clears, meant to
      cover the fields of pins `s` to `e`. */
  function GenerateCrMask(s: bv8, e: bv8): bv32
    requires s < 8 && e < 8
  {
    GenerateMask(4 * s, 4 * (e + 1))
  }

  /** The helper is given `4 * (e + 1)`, one past the range's last bit, as
      its end: the mask is the single bit 1 of the mode of pin `e + 1`, and
      nothing at all for a range that ends at pin 7. */
  lemma {:induction false} CrMaskIsBitAfterRange(s: bv8, e: bv8)
    requires s <= e < 8
    ensures e < 7 ==> GenerateCrMask(s, e) == Bit(4 * e + 5)
    ensures e == 7 ==> GenerateCrMask(s, e) == 0
  {
    if e < 7 {
      GenerateMaskIsBitAfterRange(4 * s, 4 * (e + 1));
    } else {
      ShiftedOutOfWord(s);
    }
  }

  lemma {:induction false} ShiftedOutOfWord(s: bv8)
    requires s < 8
    ensures GenerateMask(4 * s, 32) == 0
  {
  }

  /** The register value `config_cr_register` writes for pins `s` to `e`
      (already reduced to 0-7): `(old & ~mask) | fields`. */
  function CrWrite(reg: bv32, s: bv8, e: bv8, mode: Field4, config: Field4): bv32
    requires s < 8 && e < 8
  {
    SetMask(ClearMask(reg, GenerateCrMask(s, e)), FieldsBelow(PinInitValue(mode, config), s, e + 1))
  }

  /** What `config_cr_register` does to each pin field, given the helper's
      single-bit mask: the fields of the range are ORed with the new value,
      not replaced; bit 1 of the next pin's mode is cleared; every other
      field is kept. */
  lemma {:induction false} CrWriteFields(reg: bv32, s: bv8, e: bv8, mode: Field4, config: Field4, k: bv8)
    requires s <= e < 8 && k < 8
    ensures Nibble(CrWrite(reg, s, e, mode, config), k)
            == if s <= k <= e then Nibble(reg, k) | PinInitValue(mode, config)
               else if k == e + 1 then Nibble(reg, k) & 0xD
               else Nibble(reg, k)
  {
    PinInitValueFields(mode, config);
    CrWriteUnion(reg, s, e, mode, config, k);
    FieldsBelowNibble(PinInitValue(mode, config), s, e + 1, k);
    ClearedCrNibble(reg, s, e, k);
  }

  lemma {:induction false} CrWriteUnion(reg: bv32, s: bv8, e: bv8, mode: Field4, config: Field4, k: bv8)
    requires s <= e < 8 && k < 8
    ensures Nibble(CrWrite(reg, s, e, mode, config), k)
            == Nibble(ClearMask(reg, GenerateCrMask(s, e)), k)
               | Nibble(FieldsBelow(PinInitValue(mode, config), s, e + 1), k)
  {
    NibbleOfUnion(ClearMask(reg, GenerateCrMask(s, e)), FieldsBelow(PinInitValue(mode, config), s, e + 1), k);
  }

  lemma {:induction false} ClearedCrNibble(reg: bv32, s: bv8, e: bv8, k: bv8)
    requires s <= e < 8 && k < 8
    ensures Nibble(ClearMask(reg, GenerateCrMask(s, e)), k)
            == if k == e + 1 then Nibble(reg, k) & 0xD else Nibble(reg, k)
  {
    CrMaskIsBitAfterRange(s, e);
    if e < 7 {
      ClearedNibble(reg, e, k);
    } else {
      assert ClearMask(reg, 0) == reg;
    }
  }

  lemma {:induction false} ClearedNibble(reg: bv32, e: bv8, k: bv8)
    requires e < 7 && k < 8
    ensures Nibble(ClearMask(reg, Bit(4 * e + 5)), k)
            == if k == e + 1 then Nibble(reg, k) & 0xD else Nibble(reg, k)
  {
  }

  lemma {:induction false} NibbleOfUnion(a: bv32, b: bv32, k: bv8)
    requires k < 8
    ensures Nibble(a | b, k) == Nibble(a, k) | Nibble(b, k)
  {
  }

  /** A reversed range (after the reduction to 0-7) writes no field: the
      register only loses the bits of the mask. */
  lemma {:induction false} CrWriteReversed(reg: bv32, s: bv8, e: bv8, mode: Field4, config: Field4)
    requires e < s < 8
    ensures CrWrite(reg, s, e, mode, config) == ClearMask(reg, GenerateCrMask(s, e))
  {
  }

  /** `crl_max`: the last pin of the range that CRL holds. */
  function CrlMax(endPin: Field4): Field4
  {
    if endPin > GPIO_MAX_CRL then GPIO_MAX_CRL else endPin
  }

  /** `crh_min`: the first pin of the range that CRH holds. */
  function CrhMin(startPin: Field4): Field4
  {
    if startPin < 8 then 8 else startPin
  }

  /** `config_pins` on the CRL value of the array's port: written for a
      range that starts at pin 7 or below, up to `min(end, 7)`. */
  function ConfigCrl(crl: bv32, startPin: Field4, endPin: Field4, mode: Field4, config: Field4): bv32
  {
    if startPin <= GPIO_MAX_CRL then CrWrite(crl, CrIndex(startPin), CrIndex(CrlMax(endPin)), mode, config)
    else crl
  }

  /** `config_pins` on the CRH value: written whenever the range ends above
      pin 0 (the code compares with `GPIO_MIN_CRL`, not `GPIO_MIN_CRH`),
      from pin `max(start, 8)` to `end`, both reduced to 0-7. */
  function ConfigCrh(crh: bv32, startPin: Field4, endPin: Field4, mode: Field4, config: Field4): bv32
  {
    if endPin > 0 then CrWrite(crh, CrIndex(CrhMin(startPin)), CrIndex(endPin), mode, config)
    else crh
  }

  /** A range inside pins 0-7 other than pin 0 alone also configures CRH:
      the fields of pins 8 to `8 + end` receive the range's value, because
      `crh_min` is 8 and both ends are reduced modulo 8. */
  lemma {:induction false} LowRangeAlsoWritesCrh(crh: bv32, startPin: Field4, endPin: Field4,
                                                mode: Field4, config: Field4, k: bv8)
    requires startPin <= endPin <= GPIO_MAX_CRL && 0 < endPin && k < 8
    ensures Nibble(ConfigCrh(crh, startPin, endPin, mode, config), k)
            == if k <= endPin then Nibble(crh, k) | PinInitValue(mode, config)
               else if k == endPin + 1 then Nibble(crh, k) & 0xD
               else Nibble(crh, k)
  {
    CrWriteFields(crh, 0, endPin, mode, config, k);
  }

  /** The mask of the array's pins as the code computes it, kept in a
      `uint16_t`. */
  function PinMask16(startPin: Field4, endPin: Field4): bv32
  {
    Low16(GenerateMask(startPin, endPin))
  }

  /** Because of the helper, an array's 16-bit mask is the single pin after
      the range, and nothing at all when the range ends at pin 15. */
  lemma {:induction false} PinMaskIsPinAfterRange(startPin: Field4, endPin: Field4)
    requires startPin <= endPin
    ensures endPin < 15 ==> PinMask16(startPin, endPin) == Bit(endPin + 1)
    ensures endPin == 15 ==> PinMask16(startPin, endPin) == 0
  {
    GenerateMaskIsBitAfterRange(startPin, endPin);
  }

  /** Pin `start + j` is one of pins 0-15, high in IDR and selected by the
      mask. */
  predicate PinSelected(idr: bv32, mask: bv32, startPin: Field4, j: bv8)
  {
    j + startPin < 16 && BitSet(idr, j + startPin) && BitSet(mask, j + startPin)
  }

  /** `read_pins` on the input register value: `(IDR & mask) >> start`, with
      the mask and the result `uint16_t`. Bit `j` of the result is pin
      `start + j` when the mask selects it, and 0 otherwise. */
  function ReadValue(idr: bv32, mask: bv32, startPin: Field4): (r: bv32)
    ensures r < 0x1_0000
    ensures forall j: bv8 :: j < 16 ==> (BitSet(r, j) <==> PinSelected(idr, mask, startPin, j))
  {
    var x := (idr & Low16(mask)) >> startPin;
    assert forall j: bv8 :: j < 16 ==> (BitSet(Low16(x), j) <==> PinSelected(idr, mask, startPin, j)) by {
      forall j: bv8 | j < 16 ensures BitSet(Low16(x), j) <==> PinSelected(idr, mask, startPin, j) {
        ReadBit(idr, mask, startPin, j);
      }
    }
    Low16(x)
  }

  lemma {:induction false} ReadBit(idr: bv32, mask: bv32, startPin: Field4, j: bv8)
    requires j < 16
    ensures BitSet(Low16((idr & Low16(mask)) >> startPin), j) <==> PinSelected(idr, mask, startPin, j)
  {
    ReadBitRaw(idr, mask, startPin, j);
  }

  lemma {:induction false} ReadBitRaw(idr: bv32, mask: bv32, s: bv8, j: bv8)
    requires s < 16 && j < 16
    ensures BitSet(((idr & (mask & 0xFFFF)) >> s) & 0xFFFF, j)
            <==> j + s < 16 && BitSet(idr, j + s) && BitSet(mask, j + s)
  {
  }

  /** `GPIO_array_read_all` therefore reports one pin only, the pin after the
      range, at bit `end + 1 - start`; for a range ending at pin 15 it is 0. */
  lemma {:induction false} ReadAllSeesPinAfterRange(idr: bv32, startPin: Field4, endPin: Field4)
    requires startPin <= endPin
    ensures endPin < 15 ==> ReadValue(idr, PinMask16(startPin, endPin), startPin)
                            == if BitSet(idr, endPin + 1) then Bit(endPin + 1 - startPin) else 0
    ensures endPin == 15 ==> ReadValue(idr, PinMask16(startPin, endPin), startPin) == 0
  {
    PinMaskIsPinAfterRange(startPin, endPin);
  }

  /** `write_value` on the output register value: the mask's bits are
      cleared and `value` is ORed in, neither shifted to the range nor
      masked by it; both are `uint16_t`, so bits 16-31 of ODR are kept. */
  function WriteValueOdr(odr: bv32, mask: bv32, value: bv32): (r: bv32)
    ensures forall j: bv8 :: j < 32 ==>
              (BitSet(r, j) <==> (j < 16 && BitSet(value, j)) || (BitSet(odr, j) && !(j < 16 && BitSet(mask, j))))
  {
    var v := SetMask(ClearMask(odr, Low16(mask)), Low16(value));
    assert forall j: bv8 :: j < 32 ==>
             (BitSet(v, j) <==> (j < 16 && BitSet(value, j)) || (BitSet(odr, j) && !(j < 16 && BitSet(mask, j)))) by {
      forall j: bv8 | j < 32
        ensures BitSet(v, j) <==> (j < 16 && BitSet(value, j)) || (BitSet(odr, j) && !(j < 16 && BitSet(mask, j)))
      {
        WriteBit(odr, mask, value, j);
      }
    }
    v
  }

  lemma {:induction false} WriteBit(odr: bv32, mask: bv32, value: bv32, j: bv8)
    requires j < 32
    ensures BitSet(SetMask(ClearMask(odr, Low16(mask)), Low16(value)), j)
            <==> (j < 16 && BitSet(value, j)) || (BitSet(odr, j) && !(j < 16 && BitSet(mask, j)))
  {
    WriteBitRaw(odr, mask, value, j);
  }

  lemma {:induction false} WriteBitRaw(odr: bv32, mask: bv32, value: bv32, j: bv8)
    requires j < 32
    ensures BitSet((odr & !(mask & 0xFFFF)) | (value & 0xFFFF), j)
            <==> (j < 16 && BitSet(value, j)) || (BitSet(odr, j) && !(j < 16 && BitSet(mask, j)))
  {
  }

  /** Every bit set in `before` is set in `after`, port by port. */
  predicate ReservationsGrow(before: seq<bv32>, after: seq<bv32>)
  {
    |before| == |after| && forall p :: 0 <= p < |before| ==> before[p] & after[p] == before[p]
  }

  /** A successful `reserve_pins` keeps every earlier reservation of every
      port and holds all the requested pins afterwards: since no function
      clears `s_reserved_pins`, reservations only ever grow. */
  lemma {:induction false} ReservationGrows(reserved: seq<bv32>, slot: nat, pinMask: bv32)
    requires slot < |reserved|
    ensures ReservationsGrow(reserved, reserved[slot := SetMask(reserved[slot], pinMask)])
    ensures reserved[slot := SetMask(reserved[slot], pinMask)][slot] & pinMask == pinMask
  {
    var after := reserved[slot := SetMask(reserved[slot], pinMask)];
    forall p | 0 <= p < |reserved| ensures reserved[p] & after[p] == reserved[p] {
      SlotGrows(reserved, slot, pinMask, p);
    }
    OrAbsorbs(pinMask, reserved[slot]);
  }

  lemma {:induction false} SlotGrows(reserved: seq<bv32>, slot: nat, pinMask: bv32, p: nat)
    requires slot < |reserved| && p < |reserved|
    ensures reserved[p] & reserved[slot := SetMask(reserved[slot], pinMask)][p] == reserved[p]
  {
    if p == slot {
      OrAbsorbs(reserved[p], pinMask);
    }
  }

  lemma {:induction false} OrAbsorbs(a: bv32, m: bv32)
    ensures a & SetMask(a, m) == a && a & SetMask(m, a) == a
  {
  }

  /** `activate_clock`: the RCC peripheral that clocks a port. Each port's
      enable bit is in APB2ENR, at bit 2 for port A, 3 for B and 4 for C. */
  function PortClock(port: PortId): (periph: Rcc.Peripheral)
    ensures Rcc.ClockDomain(periph) == Rcc.APB2
    ensures Rcc.DomainBit(periph) == port + 2
  {
    if port == 0 then Rcc.GPIOA else if port == 1 then Rcc.GPIOB else Rcc.GPIOC
  }

  /** `num_of_pins`, `end - start + 1` stored in a 4-bit field. */
  function PinCount(startPin: bv8, endPin: bv8): Field4
  {
    (endPin - startPin + 1) & 0xF
  }

  /** One port's register block. IDR is driven by the pins: it is read,
      never written, by the driver. */
  class GpioPort {
    var crl: bv32
    var crh: bv32
    var idr: bv32
    var odr: bv32
    var bsrr: bv32
    var brr: bv32

    /** `config_cr_register` on this port's CRL (`high` false) or CRH. */
    method ConfigCrRegister(high: bool, startPin: bv8, endPin: bv8, mode: Field4, config: Field4)
      returns (ok: bool)
      modifies this
      ensures ok <==> startPin <= GPIO_MAX_PIN && endPin <= GPIO_MAX_PIN
      ensures ok && !high ==> crl == CrWrite(old(crl), CrIndex(startPin), CrIndex(endPin), mode, config)
      ensures ok && high ==> crh == CrWrite(old(crh), CrIndex(startPin), CrIndex(endPin), mode, config)
      ensures !ok || high ==> crl == old(crl)
      ensures !ok || !high ==> crh == old(crh)
      ensures idr == old(idr) && odr == old(odr) && bsrr == old(bsrr) && brr == old(brr)
    {
      var pinInit := PinInitValue(mode, config);
      if startPin > GPIO_MAX_PIN || endPin > GPIO_MAX_PIN {
        return false;
      }
      var s := CrIndex(startPin);
      var e := CrIndex(endPin);
      var value := AccumulatePinFields(pinInit, s, e);
      var mask := GenerateCrMask(s, e);
      if high {
        crh := ClearMask(crh, mask);
        crh := SetMask(crh, value);
      } else {
        crl := ClearMask(crl, mask);
        crl := SetMask(crl, value);
      }
      return true;
    }
 
    /** The body of `config_pins` once the port is known: CRL for a range
        that starts at pin 7 or below, up to `min(end, 7)`; then CRH for a
        range that ends above pin 0, from `max(start, 8)`. Every pin is at
        most 15, so neither call fails. */
    method ConfigRange(startPin: Field4, endPin: Field4, mode: Field4, config: Field4)
      modifies this
      ensures crl == ConfigCrl(old(crl), startPin, endPin, mode, config)
      ensures crh == ConfigCrh(old(crh), startPin, endPin, mode, config)
      ensures idr == old(idr) && odr == old(odr) && bsrr == old(bsrr) && brr == old(brr)
    {
      var ok := true;
      if startPin <= GPIO_MAX_CRL {
        ok := ConfigCrRegister(false, startPin, CrlMax(endPin), mode, config);
      }
      if ok && endPin > 0 {
        ok := ConfigCrRegister(true, CrhMin(startPin), endPin, mode, config);
      }
    }
  }

  /** `GPIO_PIN_ARRAY_t`: a range of pins of one port, filled in by
      `GPIO_array_init`. Every field is 4 bits wide. */
  class PinArray {
    var startPin: Field4
    var endPin: Field4
    var mode: Field4
    var config: Field4
    var port: Field4
    var numOfPins: Field4

    /** The initialisation of the structure in `GPIO_array_init`; the
        number of pins, `end - start + 1`, is kept to the field's 4 bits. */
    method Fill(start: Field4, end: Field4, m: Mode, c: Config, p: PortId)
      modifies this
      ensures startPin == start && endPin == end && mode == m && config == c && port == p
      ensures numOfPins == PinCount(start, end)
    {
      startPin := start;
      endPin := end;
      mode := m;
      config := c;
      port := p;
      numOfPins := PinCount(start, end);
    }
  }

  /** The GPIO driver: the reservation table `s_reserved_pins` and the three
      ports' register blocks. */
  class GpioDriver {
    var reservedPins: seq<bv32>
    const portA: GpioPort
    const portB: GpioPort
    const portC: GpioPort
    const rcc: Rcc.RccRegs

    ghost predicate Valid()
      reads this
    {
      |reservedPins| == 3 && portA != portB && portB != portC && portA != portC
    }

    /** Start-up: no pin of any port is reserved. */
    constructor (a: GpioPort, b: GpioPort, c: GpioPort, clocks: Rcc.RccRegs)
      requires a != b && b != c && a != c
      ensures Valid()
      ensures reservedPins == [0, 0, 0]
      ensures portA == a && portB == b && portC == c && rcc == clocks
    {
      reservedPins := [0, 0, 0];
      portA, portB, portC, rcc := a, b, c, clocks;
    }

    /** `get_port`: null for an identifier past port C. */
    function GetPort(port: bv8): (p: GpioPort?)
      ensures p == null <==> port >= PORT_COUNT
    {
      if port == 0 then portA else if port == 1 then portB else if port == 2 then portC else null
    }

    /** The register blocks an operation on `port` may change. */
    function PortFrame(port: bv8): set<GpioPort>
    {
      if port < PORT_COUNT then {GetPort(port)} else {}
    }

    /** `are_pins_free`. */
    predicate ArePinsFree(port: PortId, pinMask: bv32)
      requires Valid()
      reads this
    {
      reservedPins[Slot(port)] & pinMask == 0
    }

    /** `reserve_pins`: succeeds exactly when no requested pin is reserved on
        the port, and then adds the pins to that port's reservations only;
        on failure nothing changes. */
    method ReservePins(port: PortId, pinMask: bv32) returns (ok: bool)
      requires Valid()
      modifies this
      ensures Valid()
      ensures ok <==> old(ArePinsFree(port, pinMask))
      ensures reservedPins == if ok then old(reservedPins[Slot(port) := SetMask(reservedPins[Slot(port)], pinMask)])
                              else old(reservedPins)
    {
      ok := false;
      if ArePinsFree(port, pinMask) {
        reservedPins := reservedPins[Slot(port) := SetMask(reservedPins[Slot(port)], pinMask)];
        ok := true;
      }
    }

    /** `activate_clock`: the port's clock is switched on through the RCC;
        nothing happens for a port past C. */
    method ActivateClock(port: bv8)
      modifies rcc
      ensures rcc.apb2enr == if port < PORT_COUNT then Rcc.ClockEnableWrite(old(rcc.apb2enr), PortClock(port), true)
                             else old(rcc.apb2enr)
      ensures rcc.ahbenr == old(rcc.ahbenr) && rcc.apb1enr == old(rcc.apb1enr)
      ensures rcc.cr == old(rcc.cr) && rcc.cfgr == old(rcc.cfgr) && rcc.cir == old(rcc.cir)
      ensures rcc.apb1rstr == old(rcc.apb1rstr) && rcc.apb2rstr == old(rcc.apb2rstr)
    {
      if port >= PORT_COUNT {
        return;
      }
      rcc.PeripheralSetClock(PortClock(port), true);
    }

    /** `config_pins`: nothing for a port past C; otherwise the port's CRL
        and CRH are configured by `ConfigRange`. */
    method ConfigPins(pa: PinArray) returns (ok: bool)
      requires Valid()
      modifies PortFrame(pa.port)
      ensures ok <==> pa.port < PORT_COUNT
      ensures ok ==> GetPort(pa.port).crl
                     == ConfigCrl(old(GetPort(pa.port).crl), pa.startPin, pa.endPin, pa.mode, pa.config)
      ensures ok ==> GetPort(pa.port).crh
                     == ConfigCrh(old(GetPort(pa.port).crh), pa.startPin, pa.endPin, pa.mode, pa.config)
      ensures ok ==> GetPort(pa.port).odr == old(GetPort(pa.port).odr) && GetPort(pa.port).idr == old(GetPort(pa.port).idr)
      ensures ok ==> GetPort(pa.port).bsrr == old(GetPort(pa.port).bsrr) && GetPort(pa.port).brr == old(GetPort(pa.port).brr)
    {
      var portRegs := GetPort(pa.port);
      if portRegs == null {
        return false;
      }
      portRegs.ConfigRange(pa.startPin, pa.endPin, pa.mode, pa.config);
      ok := true;
    }

    /** `activate_input_pull`: pull-up sets the array's mask bits in ODR,
        pull-down clears them. */
    method ActivateInputPull(pa: PinArray?, pullUp: bool) returns (ok: bool)
      requires Valid()
      modifies if pa != null then PortFrame(pa.port) else {}
      ensures ok <==> pa != null && pa.port < PORT_COUNT
      ensures ok ==> GetPort(pa.port).odr
                     == if pullUp then SetMask(old(GetPort(pa.port).odr), PinMask16(pa.startPin, pa.endPin))
                        else ClearMask(old(GetPort(pa.port).odr), PinMask16(pa.startPin, pa.endPin))
      ensures ok ==> GetPort(pa.port).crl == old(GetPort(pa.port).crl)
                     && GetPort(pa.port).crh == old(GetPort(pa.port).crh)
      ensures ok ==> GetPort(pa.port).bsrr == old(GetPort(pa.port).bsrr) && GetPort(pa.port).brr == old(GetPort(pa.port).brr)
                     && GetPort(pa.port).idr == old(GetPort(pa.port).idr)
    {
      if pa == null {
        return false;
      }
      var portRegs := GetPort(pa.port);
      if portRegs == null {
        return false;
      }
      var pinMask := PinMask16(pa.startPin, pa.endPin);
      if pullUp {
        portRegs.odr := SetMask(portRegs.odr, pinMask);
      } else {
        portRegs.odr := ClearMask(portRegs.odr, pinMask);
      }
      return true;
    }

    /** `GPIO_array_init`. It fails, changing nothing, for a missing array,
        a pin above 15, or a pin already reserved; otherwise it reserves the
        helper's mask for the range and sets the array up with `SetUp`. */
    method ArrayInit(pa: PinArray?, port: PortId, startPin: bv8, endPin: bv8, mode: Mode, config: Config)
      returns (ok: bool)
      requires Valid()
      modifies this, pa, PortFrame(port), rcc
      ensures Valid()
      ensures ok <==> pa != null && startPin <= GPIO_MAX_PIN && endPin <= GPIO_MAX_PIN
                      && old(ArePinsFree(port, GenerateMask(startPin, endPin)))
      ensures !ok ==> reservedPins == old(reservedPins) && unchanged(rcc) && unchanged(GetPort(port))
      ensures !ok && pa != null ==> unchanged(pa)
      ensures ok ==> reservedPins == old(reservedPins[Slot(port) := SetMask(reservedPins[Slot(port)],
                                                                            GenerateMask(startPin, endPin))])
      ensures ok ==> SetUpDone(pa, port, startPin, endPin, mode, config,
                               old(rcc.apb2enr), old(GetPort(port).crl), old(GetPort(port).crh),
                               old(GetPort(port).odr))
      ensures ok ==> rcc.ahbenr == old(rcc.ahbenr) && rcc.apb1enr == old(rcc.apb1enr)
      ensures ok ==> rcc.cr == old(rcc.cr) && rcc.cfgr == old(rcc.cfgr) && rcc.cir == old(rcc.cir)
      ensures ok ==> rcc.apb1rstr == old(rcc.apb1rstr) && rcc.apb2rstr == old(rcc.apb2rstr)
      ensures ok ==> GetPort(port).bsrr == old(GetPort(port).bsrr) && GetPort(port).brr == old(GetPort(port).brr)
                     && GetPort(port).idr == old(GetPort(port).idr)
    {
      if pa == null {
        return false;
      }
      if startPin > GPIO_MAX_PIN || endPin > GPIO_MAX_PIN {
        return false;
      }
      var reserved := ReservePins(port, GenerateMask(startPin, endPin));
      if !reserved {
        return false;
      }
      SetUp(pa, port, startPin, endPin, mode, config);
      ok := true;
    }

    /** The state `GPIO_array_init` leaves once the pins are reserved: the
        array describes the range, the port's clock is on, CRL/CRH hold the
        range's configuration, and ODR has the mask bits set for an input
        with pull configuration. */
    ghost predicate SetUpDone(pa: PinArray, port: PortId, startPin: bv8, endPin: bv8, mode: Mode, config: Config,
                              apb2enr: bv32, crl: bv32, crh: bv32, odr: bv32)
      requires startPin <= GPIO_MAX_PIN && endPin <= GPIO_MAX_PIN
      reads this, pa, rcc, GetPort(port)
    {
      && pa.startPin == startPin && pa.endPin == endPin && pa.mode == mode
      && pa.config == config && pa.port == port
      && pa.numOfPins == PinCount(startPin, endPin)
      && rcc.apb2enr == Rcc.ClockEnableWrite(apb2enr, PortClock(port), true)
      && GetPort(port).crl == ConfigCrl(crl, startPin, endPin, mode, config)
      && GetPort(port).crh == ConfigCrh(crh, startPin, endPin, mode, config)
      && GetPort(port).odr
         == if mode == GPIO_MODE_INPUT && config == GPIO_CONFIG_INPUT_PULL_UP
            then SetMask(odr, PinMask16(startPin, endPin))
            else odr
    }

    /** The rest of `GPIO_array_init` after the reservation: fill in the
        array (`num_of_pins` is `end - start + 1` kept to 4 bits), enable the
        port's clock, configure CRL/CRH, and for an input with pull
        configuration set the ODR mask bits. Pull-up and pull-down have the
        same value, so it is always pull-up. */
    method SetUp(pa: PinArray, port: PortId, startPin: bv8, endPin: bv8, mode: Mode, config: Config)
      requires Valid()
      requires startPin <= GPIO_MAX_PIN && endPin <= GPIO_MAX_PIN
      modifies pa, PortFrame(port), rcc
      ensures SetUpDone(pa, port, startPin, endPin, mode, config,
                        old(rcc.apb2enr), old(GetPort(port).crl), old(GetPort(port).crh), old(GetPort(port).odr))
      ensures rcc.ahbenr == old(rcc.ahbenr) && rcc.apb1enr == old(rcc.apb1enr)
      ensures rcc.cr == old(rcc.cr) && rcc.cfgr == old(rcc.cfgr) && rcc.cir == old(rcc.cir)
      ensures rcc.apb1rstr == old(rcc.apb1rstr) && rcc.apb2rstr == old(rcc.apb2rstr)
      ensures GetPort(port).bsrr == old(GetPort(port).bsrr) && GetPort(port).brr == old(GetPort(port).brr)
                && GetPort(port).idr == old(GetPort(port).idr)
    {
      pa.Fill(startPin, endPin, mode, config, port);
      ActivateClock(port);
      var ok := ConfigPins(pa);
      if ok && mode == GPIO_MODE_INPUT
         && (config == GPIO_CONFIG_INPUT_PULL_DOWN || config == GPIO_CONFIG_INPUT_PULL_UP) {
        ok := ActivateInputPull(pa, config == GPIO_CONFIG_INPUT_PULL_UP);
      }
    }

    /** `GPIO_array_write_pins`: sets the mask's bits in BSRR (state on) or
        BRR (state off); nothing for a missing array or an invalid port. */
    method ArrayWritePins(pa: PinArray?, pinMask: bv32, state: bool)
      requires Valid()
      modifies if pa != null then PortFrame(pa.port) else {}
      ensures pa != null && pa.port < PORT_COUNT ==>
                GetPort(pa.port).bsrr == (if state then SetMask(old(GetPort(pa.port).bsrr), Low16(pinMask))
                                          else old(GetPort(pa.port).bsrr))
                && GetPort(pa.port).brr == (if state then old(GetPort(pa.port).brr)
                                            else SetMask(old(GetPort(pa.port).brr), Low16(pinMask)))
                && GetPort(pa.port).odr == old(GetPort(pa.port).odr) && GetPort(pa.port).idr == old(GetPort(pa.port).idr)
                && GetPort(pa.port).crl == old(GetPort(pa.port).crl) && GetPort(pa.port).crh == old(GetPort(pa.port).crh)
    {
      if pa == null {
        return;
      }
      var portRegs := GetPort(pa.port);
      if portRegs == null {
        return;
      }
      if state {
        portRegs.bsrr := SetMask(portRegs.bsrr, Low16(pinMask));
      } else {
        portRegs.brr := SetMask(portRegs.brr, Low16(pinMask));
      }
    }

    /** `GPIO_array_write_all`: `write_pins` with the array's own mask. */
    method ArrayWriteAll(pa: PinArray?, state: bool)
      requires Valid()
      modifies if pa != null then PortFrame(pa.port) else {}
      ensures pa != null && pa.port < PORT_COUNT ==>
                GetPort(pa.port).bsrr == (if state then SetMask(old(GetPort(pa.port).bsrr), PinMask16(pa.startPin, pa.endPin))
                                          else old(GetPort(pa.port).bsrr))
                && GetPort(pa.port).brr == (if state then old(GetPort(pa.port).brr)
                                            else SetMask(old(GetPort(pa.port).brr), PinMask16(pa.startPin, pa.endPin)))
                && GetPort(pa.port).odr == old(GetPort(pa.port).odr) && GetPort(pa.port).idr == old(GetPort(pa.port).idr)
                && GetPort(pa.port).crl == old(GetPort(pa.port).crl) && GetPort(pa.port).crh == old(GetPort(pa.port).crh)
    {
      if pa == null {
        return;
      }
      var pinMask := GenerateMask(pa.startPin, pa.endPin);
      ArrayWritePins(pa, pinMask, state);
    }

    /** `GPIO_array_write_value`. */
    method ArrayWriteValue(pa: PinArray?, value: bv32)
      requires Valid()
      modifies if pa != null then PortFrame(pa.port) else {}
      ensures pa != null && pa.port < PORT_COUNT ==>
                GetPort(pa.port).odr
                == WriteValueOdr(old(GetPort(pa.port).odr), PinMask16(pa.startPin, pa.endPin), value)
                && GetPort(pa.port).bsrr == old(GetPort(pa.port).bsrr)
                && GetPort(pa.port).brr == old(GetPort(pa.port).brr)
                && GetPort(pa.port).crl == old(GetPort(pa.port).crl) && GetPort(pa.port).crh == old(GetPort(pa.port).crh)
                && GetPort(pa.port).idr == old(GetPort(pa.port).idr)
    {
      if pa == null {
        return;
      }
      var portRegs := GetPort(pa.port);
      if portRegs == null {
        return;
      }
      var pinMask := PinMask16(pa.startPin, pa.endPin);
      portRegs.odr := ClearMask(portRegs.odr, pinMask);
      portRegs.odr := SetMask(portRegs.odr, Low16(value));
    }

    /** `GPIO_array_read_pins`: 0 for a missing array or an invalid port. */
    method ArrayReadPins(pa: PinArray?, pinMask: bv32) returns (r: bv32)
      requires Valid()
      ensures pa == null || pa.port >= PORT_COUNT ==> r == 0
      ensures pa != null && pa.port < PORT_COUNT ==>
                r == ReadValue(GetPort(pa.port).idr, pinMask, pa.startPin)
    {
      if pa == null {
        return 0;
      }
      var portRegs := GetPort(pa.port);
      if portRegs == null {
        return 0;
      }
      r := ReadValue(portRegs.idr, pinMask, pa.startPin);
    }

    /** `GPIO_array_read_all`: `read_pins` with the array's own mask. */
    method ArrayReadAll(pa: PinArray?) returns (r: bv32)
      requires Valid()
      ensures pa == null || pa.port >= PORT_COUNT ==> r == 0
      ensures pa != null && pa.port < PORT_COUNT ==>
                r == ReadValue(GetPort(pa.port).idr, GenerateMask(pa.startPin, pa.endPin), pa.startPin)
    {
      if pa == null {
        return 0;
      }
      r := ArrayReadPins(pa, GenerateMask(pa.startPin, pa.endPin));
    }
  }
}
