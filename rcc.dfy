/** Reset and clock control (src/RCC.c): peripheral clock gating, peripheral
    reset, and the return of the clock configuration to its reset state. */
module Rcc {
  import opened Bits

  /** A peripheral identifier of `RCC_Peripherals_t` (inc/RCC.h). The
      enumeration is split into three 32-entry parts, one per clock domain;
      every enumerator is below 256, so a `bv8` holds it. */
  type Peripheral = bv8

  const DMA1: Peripheral := 0
  const UART2: Peripheral := 49
  const UART3: Peripheral := 50
  const GPIOA: Peripheral := 66
  const GPIOB: Peripheral := 67
  const GPIOC: Peripheral := 68
  const ADC1: Peripheral := 73
  const UART1: Peripheral := 78

  /** The core clock, 72 MHz: 8 MHz crystal times the PLL multiplier 9. */
  const F_CPU: nat := 72_000_000

  datatype Domain = AHB | APB1 | APB2

  /** The clock domain, and so the enable register, of a peripheral. */
  function ClockDomain(periph: Peripheral): (d: Domain)
    ensures d == AHB <==> periph < 32
    ensures d == APB2 <==> 64 <= periph
  {
    if periph < 32 then AHB else if periph < 64 then APB1 else APB2
  }

  /** The bit a peripheral owns in its domain's registers. */
  function DomainBit(periph: Peripheral): (k: bv8)
    ensures k < 32
  {
    periph & 31
  }

  /** The value `*clock_ptr |= enable << (periph % 32)` leaves in the enable
      register. */
  function ClockEnableWrite(reg: bv32, periph: Peripheral, enable: bool): bv32
  {
    reg | (if enable then Bit(DomainBit(periph)) else 0)
  }

  /** `true` sets the peripheral's bit and no other; `false` ORs in 0 and so
      changes nothing, although the header says `false` disables. */
  lemma {:induction false} ClockEnableBits(reg: bv32, periph: Peripheral, enable: bool, j: bv8)
    requires j < 32
    ensures BitSet(ClockEnableWrite(reg, periph, enable), j)
            <==> BitSet(reg, j) || (enable && j == DomainBit(periph))
  {
    var k := DomainBit(periph);
    SetBitIf(reg, k, enable, j);
  }

  lemma {:induction false} SetBitIf(reg: bv32, k: bv8, enable: bool, j: bv8)
    requires j < 32 && k < 32
    ensures BitSet(reg | (if enable then Bit(k) else 0), j) <==> BitSet(reg, j) || (enable && j == k)
  {
    if enable {
      SetBitAt(reg, k, j);
    }
  }

  /** Passing `false` leaves the register as it was: no clock is ever
      switched off. */
  lemma {:induction false} ClockDisableKeepsRegister(reg: bv32, periph: Peripheral)
    ensures ClockEnableWrite(reg, periph, false) == reg
  {
  }

  /** Enabling a clock twice is enabling it once. */
  lemma {:induction false} ClockEnableIdempotent(reg: bv32, periph: Peripheral, enable: bool)
    ensures ClockEnableWrite(ClockEnableWrite(reg, periph, enable), periph, enable)
            == ClockEnableWrite(reg, periph, enable)
  {
  }

  /** The clock control register after `RCC_reset_clock`: HSION (bit 0) set;
      HSEON (16), HSEBYP (18), CSSON (19) and PLLON (24) cleared; every other
      bit kept. */
  function ResetControl(cr: bv32): (r: bv32)
    ensures r & 0x0000_0001 == 0x0000_0001
    ensures r & 0x010D_0000 == 0
    ensures r & !0x010D_0001 == cr & !0x010D_0001
  {
    ((cr | 0x0000_0001) & 0xFEF6_FFFF) & 0xFFFB_FFFF
  }

  /** The clock configuration register after `RCC_reset_clock`: the two
      masks together keep bit 23 and bits 27 to 31 and clear all others. */
  function ResetConfiguration(cfgr: bv32): (r: bv32)
    ensures r & 0x077F_FFFF == 0
    ensures r & 0xF880_0000 == cfgr & 0xF880_0000
  {
    (cfgr & 0xF8FF_0000) & 0xFF80_FFFF
  }

  /** The interrupt register value: all clock interrupts disabled and every
      pending flag cleared. */
  const CIR_RESET: bv32 := 0x009F_0000

  /** The RCC register file. Registers are plain fields; `CR` and `CFGR`
      ready bits driven by hardware are not modelled. */
  class RccRegs {
    var cr: bv32
    var cfgr: bv32
    var cir: bv32
    var apb2rstr: bv32
    var apb1rstr: bv32
    var ahbenr: bv32
    var apb2enr: bv32
    var apb1enr: bv32

    /** `RCC_peripheral_set_clock`: the enable register of the peripheral's
        domain gets its bit; no other register changes. */
    method PeripheralSetClock(periph: Peripheral, enable: bool)
      modifies this
      ensures ahbenr == if ClockDomain(periph) == AHB
                        then ClockEnableWrite(old(ahbenr), periph, enable) else old(ahbenr)
      ensures apb1enr == if ClockDomain(periph) == APB1
                         then ClockEnableWrite(old(apb1enr), periph, enable) else old(apb1enr)
      ensures apb2enr == if ClockDomain(periph) == APB2
                         then ClockEnableWrite(old(apb2enr), periph, enable) else old(apb2enr)
      ensures cr == old(cr) && cfgr == old(cfgr) && cir == old(cir)
      ensures apb1rstr == old(apb1rstr) && apb2rstr == old(apb2rstr)
    {
      if periph < 32 {
        ahbenr := ClockEnableWrite(ahbenr, periph, enable);
      } else if periph < 64 {
        apb1enr := ClockEnableWrite(apb1enr, periph, enable);
      } else {
        apb2enr := ClockEnableWrite(apb2enr, periph, enable);
      }
    }

    /** `RCC_peripheral_reset`: an AHB peripheral has no reset bit and
        nothing happens; otherwise the peripheral's bit is set in the APB1 or
        APB2 reset register. */
    method PeripheralReset(periph: Peripheral)
      modifies this
      ensures apb1rstr == if ClockDomain(periph) == APB1
                          then old(apb1rstr) | Bit(DomainBit(periph)) else old(apb1rstr)
      ensures apb2rstr == if ClockDomain(periph) == APB2
                          then old(apb2rstr) | Bit(DomainBit(periph)) else old(apb2rstr)
      ensures cr == old(cr) && cfgr == old(cfgr) && cir == old(cir)
      ensures ahbenr == old(ahbenr) && apb1enr == old(apb1enr) && apb2enr == old(apb2enr)
    {
      if periph < 32 {
        return;
      } else if periph < 64 {
        apb1rstr := apb1rstr | Bit(DomainBit(periph));
      } else {
        apb2rstr := apb2rstr | Bit(DomainBit(periph));
      }
    }

    /** `RCC_reset_clock`, statement by statement. */
    method ResetClock()
      modifies this
      ensures cr == ResetControl(old(cr))
      ensures cfgr == ResetConfiguration(old(cfgr))
      ensures cir == CIR_RESET
      ensures apb1rstr == old(apb1rstr) && apb2rstr == old(apb2rstr)
      ensures ahbenr == old(ahbenr) && apb1enr == old(apb1enr) && apb2enr == old(apb2enr)
    {
      cr := cr | 0x0000_0001;
      cfgr := cfgr & 0xF8FF_0000;
      cr := cr & 0xFEF6_FFFF;
      cr := cr & 0xFFFB_FFFF;
      cfgr := cfgr & 0xFF80_FFFF;
      cir := 0x009F_0000;
    }
  }
}
