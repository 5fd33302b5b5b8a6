/** The USART driver (src/USART.c): validation of a configuration, the
    baud-rate register value, the split of the flag word into CR1 and CR2,
    the fixed routing of each interface to its DMA channels, and the
    register writes of initialisation, byte and buffer transmission and the
    DMA-completion handler. */
module Usart {
  import opened Bits
  import Rcc
  import Dma

  /** `USART_NUMBER_t`: USART_NO_1 to USART_NO_3 are 0 to 2; any other value
      names no interface. */
  type UsartId = bv8

  const USART_NO_1: UsartId := 0
  const USART_NO_2: UsartId := 1
  const USART_NO_3: UsartId := 2
  const USART_COUNT: UsartId := 3

  /** Configuration flags of inc/USART.h. Bits 0 to 15 land in CR1 and bits
      16 to 31 in CR2. */
  const USART_CONF_FLAG_RX_ON: bv32 := 0x04
  const USART_CONF_FLAG_TX_ON: bv32 := 0x08
  const USART_CONF_FLAG_PARITY_EVEN: bv32 := 0x200
  const USART_CONF_FLAG_PARITY_ODD: bv32 := 0x300
  const USART_CONF_FLAG_WORD_9_BIT: bv32 := 0x1000

  /** The header does not define this flag. It is taken to be the parity
      control enable bit (CR1 bit 9), the bit both parity settings share. */
  const USART_CONF_FLAG_PARITY_ON: bv32 := 0x200

  /** The header does not define this mask. It is taken to be the word
      length bit (CR1 bit 12), the only bit the word settings differ in. */
  const USART_CONF_FLAG_WORD_MASK: bv32 := 0x1000

  const USART_ON: bv32 := 0x2000
  const USART_DMA_TX: bv32 := 0x80
  const USART_DMA_RX: bv32 := 0x40

  const USART_BAUD_RATE_MAX: nat := 2_250_000

  /** The DMA header does not define this value. It is taken to be 0xFF, a
      value no channel `DMA_CH1` to `DMA_CH7` has. */
  const DMA_CH_INVALID: bv8 := 0xFF

  /** `USART_to_dma_channel`: the fixed request wiring of the DMA controller. */
  function ToDmaChannel(usart: UsartId, tx: bool): bv8
  {
    if usart == USART_NO_1 then (if tx then Dma.DMA_CH4_USART1_TX else Dma.DMA_CH5_USART1_RX)
    else if usart == USART_NO_2 then (if tx then Dma.DMA_CH7_USART2_TX else Dma.DMA_CH6_USART2_RX)
    else if usart == USART_NO_3 then (if tx then Dma.DMA_CH2_USART3_TX else Dma.DMA_CH3_USART3_RX)
    else DMA_CH_INVALID
  }

  /** A valid interface is routed to a real channel, never the ADC's
      channel 1; any other value gets `DMA_CH_INVALID`. */
  lemma {:induction false} RoutingTargetsChannels(usart: UsartId, tx: bool)
    ensures usart < USART_COUNT <==> ToDmaChannel(usart, tx) < 7
    ensures usart < USART_COUNT ==> ToDmaChannel(usart, tx) != Dma.DMA_CH1_ADC1
    ensures usart >= USART_COUNT ==> ToDmaChannel(usart, tx) == DMA_CH_INVALID
  {
  }

  /** No two of the six (interface, direction) pairs share a channel. */
  lemma {:induction false} RoutingInjective(u1: UsartId, tx1: bool, u2: UsartId, tx2: bool)
    requires u1 < USART_COUNT && u2 < USART_COUNT
    ensures ToDmaChannel(u1, tx1) == ToDmaChannel(u2, tx2) <==> u1 == u2 && tx1 == tx2
  {
  }

  /** The clock of the bus an interface sits on: USART1 is on APB2 at the
      core clock; USART2 and USART3 are on APB1 at half of it. Every value
      other than USART_NO_1 takes the half clock. */
  function PeripheralClock(usart: UsartId): nat
  {
    if usart == USART_NO_1 then Rcc.F_CPU else Rcc.F_CPU / 2
  }

  /** `calculate_baud_rate_reg_value`: the 32-bit quotient of clock and
      baud rate, returned through a `uint16_t` and so taken modulo 2^16. */
  function BaudRateValue(usart: UsartId, baud: nat): nat
    requires baud > 0
  {
    (PeripheralClock(usart) / baud) % 0x1_0000
  }

  /** When the quotient fits in 16 bits the register holds the largest
      divisor whose product with the baud rate does not exceed the clock. */
  lemma {:induction false} BaudRateRounding(usart: UsartId, baud: nat)
    requires baud > 0
    requires PeripheralClock(usart) < 0x1_0000 * baud
    ensures BaudRateValue(usart, baud) * baud <= PeripheralClock(usart)
    ensures PeripheralClock(usart) < (BaudRateValue(usart, baud) + 1) * baud
  {
    QuotientRounding(PeripheralClock(usart), baud);
  }

  lemma {:induction false} QuotientRounding(clk: nat, baud: nat)
    requires baud > 0 && clk < 0x1_0000 * baud
    ensures ((clk / baud) % 0x1_0000) * baud <= clk < ((clk / baud) % 0x1_0000 + 1) * baud
  {
    QuotientBelow(clk, baud);
    var q := clk / baud;
    assert q % 0x1_0000 == q;
    DivisionBounds(clk, baud);
  }

  lemma {:induction false} DivisionBounds(clk: nat, baud: nat)
    requires baud > 0
    ensures (clk / baud) * baud <= clk < (clk / baud + 1) * baud
  {
    var q := clk / baud;
    assert clk == q * baud + clk % baud;
    assert (q + 1) * baud == q * baud + baud;
  }

  lemma {:induction false} QuotientBelow(clk: nat, baud: nat)
    requires baud > 0 && clk < 0x1_0000 * baud
    ensures clk / baud < 0x1_0000
  {
    var q := clk / baud;
    assert q * baud <= clk;
  }

  /** The quotient fits in 16 bits, and so is not truncated, from 1099 baud
      on USART1 and from 550 baud on the others: every rate a valid
      configuration can use that high. */
  lemma {:induction false} BaudRateFitsFrom(usart: UsartId, baud: nat)
    requires baud >= (if usart == USART_NO_1 then 1099 else 550)
    ensures PeripheralClock(usart) < 0x1_0000 * baud
  {
  }

  /** Below those rates the `uint16_t` return truncates: 1000 baud on
      USART1 needs a divisor of 72000, and the register gets 6464. The
      highest accepted rate gives 32 on USART1 and 16 on the others. */
  lemma BaudRateExamples()
    ensures PeripheralClock(USART_NO_1) / 1000 == 72000
    ensures BaudRateValue(USART_NO_1, 1000) == 6464
    ensures BaudRateValue(USART_NO_1, USART_BAUD_RATE_MAX) == 32
    ensures BaudRateValue(USART_NO_2, USART_BAUD_RATE_MAX) == 16
  {
  }

  /** The checks `USART_init` makes before it writes anything. */
  predicate InitAccepted(usart: UsartId, baud: nat, flags: bv32)
  {
    && flags != 0
    && usart < USART_COUNT
    && baud <= USART_BAUD_RATE_MAX
    && !(flags & USART_CONF_FLAG_WORD_9_BIT != 0 && flags & USART_CONF_FLAG_PARITY_ON == 0)
    && !(flags & USART_CONF_FLAG_WORD_MASK == 0 && flags & USART_CONF_FLAG_PARITY_ON != 0)
  }

  /** The two word/parity checks together accept exactly 9-bit words with
      parity and 8-bit words without. */
  lemma {:induction false} AcceptedWordParity(usart: UsartId, baud: nat, flags: bv32)
    ensures InitAccepted(usart, baud, flags)
            <==> flags != 0 && usart < USART_COUNT && baud <= USART_BAUD_RATE_MAX
                 && (flags & USART_CONF_FLAG_WORD_9_BIT != 0 <==> flags & USART_CONF_FLAG_PARITY_ON != 0)
  {
  }

  /** Configurations built from the header's flags: 8-bit words without
      parity and 9-bit words with either parity are accepted; 9-bit words
      alone, 8-bit words with parity and an empty flag word are refused. */
  lemma HeaderConfigurations()
    ensures InitAccepted(USART_NO_1, 115200, USART_CONF_FLAG_TX_ON | USART_CONF_FLAG_RX_ON)
    ensures InitAccepted(USART_NO_2, 115200, USART_CONF_FLAG_TX_ON | USART_CONF_FLAG_WORD_9_BIT | USART_CONF_FLAG_PARITY_ODD)
    ensures InitAccepted(USART_NO_3, 9600, USART_CONF_FLAG_TX_ON | USART_CONF_FLAG_WORD_9_BIT | USART_CONF_FLAG_PARITY_EVEN)
    ensures !InitAccepted(USART_NO_1, 115200, USART_CONF_FLAG_TX_ON | USART_CONF_FLAG_WORD_9_BIT)
    ensures !InitAccepted(USART_NO_1, 115200, USART_CONF_FLAG_TX_ON | USART_CONF_FLAG_PARITY_EVEN)
    ensures !InitAccepted(USART_NO_1, 115200, 0)
    ensures !InitAccepted(USART_NO_1, USART_BAUD_RATE_MAX + 1, USART_CONF_FLAG_TX_ON)
  {
  }

  /** CR1 after initialisation: the low half of the flags, then USART_ON. */
  function Cr1Value(flags: bv32): bv32
  {
    SetMask(flags & 0xFFFF, USART_ON)
  }

  /** CR2 after initialisation: the high half of the flags. */
  function Cr2Value(flags: bv32): bv32
  {
    flags >> 16
  }

  lemma {:induction false} FlagsSplitRaw(flags: bv32)
    ensures ((flags >> 16) << 16) | (((flags & 0xFFFF) | 0x2000) & !0x2000) == flags & !0x2000
    ensures ((flags & 0xFFFF) | 0x2000) & 0x2000 == 0x2000
    ensures (flags & 0xFFFF) | 0x2000 < 0x1_0000 && flags >> 16 < 0x1_0000
  {
  }

  /** The two control registers hold the flag word between them, each in a
      16-bit half, with only USART_ON added, and the interface is on. */
  lemma {:induction false} FlagsSplit(flags: bv32)
    ensures (Cr2Value(flags) << 16) | ClearMask(Cr1Value(flags), USART_ON) == ClearMask(flags, USART_ON)
    ensures Cr1Value(flags) & USART_ON == USART_ON
    ensures Cr1Value(flags) < 0x1_0000 && Cr2Value(flags) < 0x1_0000
  {
    FlagsSplitRaw(flags);
  }

  /** The transmitter-enable bit of CR1. */
  predicate TxOn(cr1: bv32)
  {
    cr1 & USART_CONF_FLAG_TX_ON != 0
  }

  /** The RCC identifier whose clock an interface needs. */
  function UsartClock(usart: UsartId): Rcc.Peripheral
    requires usart < USART_COUNT
  {
    if usart == USART_NO_1 then Rcc.UART1 else if usart == USART_NO_2 then Rcc.UART2 else Rcc.UART3
  }

  /** The clock switched on for an interface is the one the baud-rate
      computation assumes: USART1 on APB2 at the core clock, the others on
      APB1 at half of it; each has its own enable bit. */
  lemma {:induction false} ClockMatchesBaudClock(usart: UsartId)
    requires usart < USART_COUNT
    ensures Rcc.ClockDomain(UsartClock(usart)) == Rcc.APB2 <==> PeripheralClock(usart) == Rcc.F_CPU
    ensures Rcc.ClockDomain(UsartClock(usart)) != Rcc.AHB
    ensures Rcc.DomainBit(UsartClock(usart)) == if usart == USART_NO_1 then 14 else if usart == USART_NO_2 then 17 else 18
  {
  }

  lemma {:induction false} DmaHandlerRaw(cr3: bv32, j: bv8)
    requires j < 32
    ensures BitSet(cr3 & !(0x80 | 0x40), j) <==> BitSet(cr3, j) && j != 6 && j != 7
  {
  }

  /** The handler's write clears the two DMA enable bits and keeps every
      other bit of CR3. */
  lemma {:induction false} DmaHandlerBits(cr3: bv32, j: bv8)
    requires j < 32
    ensures BitSet(ClearMask(cr3, USART_DMA_TX | USART_DMA_RX), j) <==> BitSet(cr3, j) && j != 6 && j != 7
  {
    DmaHandlerRaw(cr3, j);
  }

  /** The register block of one interface. `transmitted` stands for the
      wire: every write of DR hands one byte to the transmitter, appended
      here in order. The guard-time register is not modelled. */
  class UsartRegs {
    var sr: bv32
    var dr: bv32
    var brr: bv32
    var cr1: bv32
    var cr2: bv32
    var cr3: bv32
    var transmitted: seq<bv8>
  }

  /** The three interfaces and the RCC they draw their clocks from. */
  class UsartDriver {
    const usart1: UsartRegs
    const usart2: UsartRegs
    const usart3: UsartRegs
    const rcc: Rcc.RccRegs

    ghost predicate Valid()
    {
      usart1 != usart2 && usart2 != usart3 && usart1 != usart3
    }

    constructor (a: UsartRegs, b: UsartRegs, c: UsartRegs, clocks: Rcc.RccRegs)
      requires a != b && b != c && a != c
      ensures Valid()
      ensures usart1 == a && usart2 == b && usart3 == c && rcc == clocks
    {
      usart1, usart2, usart3, rcc := a, b, c, clocks;
    }

    /** `get_usart_ptr`: null for a value past USART_NO_3. */
    function GetUsart(usart: UsartId): (u: UsartRegs?)
      ensures u == null <==> usart >= USART_COUNT
    {
      if usart == USART_NO_1 then usart1
      else if usart == USART_NO_2 then usart2
      else if usart == USART_NO_3 then usart3
      else null
    }

    /** The register blocks an operation on `usart` may change. */
    function UsartFrame(usart: UsartId): set<UsartRegs>
    {
      if usart < USART_COUNT then {GetUsart(usart)} else {}
    }

    /** `activate_clock`: the interface's bus clock is switched on; nothing
        happens for a value past USART_NO_3. */
    method ActivateClock(usart: UsartId)
      modifies rcc
      ensures rcc.apb2enr == if usart == USART_NO_1
                             then Rcc.ClockEnableWrite(old(rcc.apb2enr), Rcc.UART1, true) else old(rcc.apb2enr)
      ensures rcc.apb1enr == if usart == USART_NO_2 || usart == USART_NO_3
                             then Rcc.ClockEnableWrite(old(rcc.apb1enr), UsartClock(usart), true) else old(rcc.apb1enr)
      ensures rcc.ahbenr == old(rcc.ahbenr)
      ensures rcc.cr == old(rcc.cr) && rcc.cfgr == old(rcc.cfgr) && rcc.cir == old(rcc.cir)
      ensures rcc.apb1rstr == old(rcc.apb1rstr) && rcc.apb2rstr == old(rcc.apb2rstr)
    {
      if usart >= USART_COUNT {
        return;
      }
      rcc.PeripheralSetClock(UsartClock(usart), true);
    }

    /** `USART_init`: a refused configuration changes nothing; an accepted
        one clocks the interface and writes BRR, CR1 and CR2. */
    method Init(usart: UsartId, baud: nat, flags: bv32) returns (ok: bool)
      requires Valid()
      requires baud > 0
      modifies UsartFrame(usart), rcc
      ensures ok <==> InitAccepted(usart, baud, flags)
      ensures !ok ==> unchanged(rcc) && (usart < USART_COUNT ==> unchanged(GetUsart(usart)))
      ensures ok ==> GetUsart(usart).brr == BaudRateValue(usart, baud) as bv32
      ensures ok ==> GetUsart(usart).cr1 == Cr1Value(flags) && GetUsart(usart).cr2 == Cr2Value(flags)
      ensures ok ==> GetUsart(usart).sr == old(GetUsart(usart).sr) && GetUsart(usart).dr == old(GetUsart(usart).dr)
      ensures ok ==> GetUsart(usart).cr3 == old(GetUsart(usart).cr3)
      ensures ok ==> GetUsart(usart).transmitted == old(GetUsart(usart).transmitted)
      ensures ok ==> rcc.apb2enr == if usart == USART_NO_1
                                   then Rcc.ClockEnableWrite(old(rcc.apb2enr), Rcc.UART1, true) else old(rcc.apb2enr)
      ensures ok ==> rcc.apb1enr == if usart != USART_NO_1
                                   then Rcc.ClockEnableWrite(old(rcc.apb1enr), UsartClock(usart), true) else old(rcc.apb1enr)
      ensures ok ==> rcc.ahbenr == old(rcc.ahbenr)
      ensures ok ==> rcc.cr == old(rcc.cr) && rcc.cfgr == old(rcc.cfgr) && rcc.cir == old(rcc.cir)
      ensures ok ==> rcc.apb1rstr == old(rcc.apb1rstr) && rcc.apb2rstr == old(rcc.apb2rstr)
    {
      if flags == 0 {
        return false;
      }
      var u := GetUsart(usart);
      if u == null {
        return false;
      }
      if baud > USART_BAUD_RATE_MAX {
        return false;
      }
      if flags & USART_CONF_FLAG_WORD_9_BIT != 0 && flags & USART_CONF_FLAG_PARITY_ON == 0 {
        return false;
      }
      if flags & USART_CONF_FLAG_WORD_MASK == 0 && flags & USART_CONF_FLAG_PARITY_ON != 0 {
        return false;
      }
      ActivateClock(usart);
      u.brr := BaudRateValue(usart, baud) as bv32;
      u.cr1 := flags & 0xFFFF;
      u.cr2 := Cr2Value(flags);
      u.cr1 := SetMask(u.cr1, USART_ON);
      ok := true;
    }

    /** `USART_byte_write`: with the transmitter on, the byte goes to DR and
        so to the wire; otherwise, or for an invalid interface, nothing
        changes. */
    method ByteWrite(usart: UsartId, data: bv8)
      requires Valid()
      modifies UsartFrame(usart)
      ensures usart < USART_COUNT ==>
                GetUsart(usart).transmitted
                == old(GetUsart(usart).transmitted) + (if TxOn(old(GetUsart(usart).cr1)) then [data] else [])
      ensures usart < USART_COUNT ==>
                GetUsart(usart).dr == if TxOn(old(GetUsart(usart).cr1)) then data as bv32 else old(GetUsart(usart).dr)
      ensures usart < USART_COUNT ==>
                GetUsart(usart).cr1 == old(GetUsart(usart).cr1) && GetUsart(usart).cr2 == old(GetUsart(usart).cr2)
                && GetUsart(usart).cr3 == old(GetUsart(usart).cr3) && GetUsart(usart).brr == old(GetUsart(usart).brr)
                && GetUsart(usart).sr == old(GetUsart(usart).sr)
    {
      var u := GetUsart(usart);
      if u == null {
        return;
      }
      if u.cr1 & USART_CONF_FLAG_TX_ON == 0 {
        return;
      }
      u.dr := data as bv32;
      u.transmitted := u.transmitted + [data];
    }

    /** `USART_data_write`: the buffer's bytes are written one by one in
        index order, so with the transmitter on the wire receives the whole
        buffer and DR is left holding its last byte; an empty buffer or an
        off transmitter changes nothing. */
    method DataWrite(usart: UsartId, buffer: seq<bv8>)
      requires Valid()
      modifies UsartFrame(usart)
      ensures usart < USART_COUNT ==>
                GetUsart(usart).transmitted
                == old(GetUsart(usart).transmitted) + (if TxOn(old(GetUsart(usart).cr1)) then buffer else [])
      ensures usart < USART_COUNT ==>
                GetUsart(usart).dr == if TxOn(old(GetUsart(usart).cr1)) && |buffer| > 0
                                      then buffer[|buffer| - 1] as bv32 else old(GetUsart(usart).dr)
      ensures usart < USART_COUNT ==>
                GetUsart(usart).cr1 == old(GetUsart(usart).cr1) && GetUsart(usart).cr2 == old(GetUsart(usart).cr2)
                && GetUsart(usart).cr3 == old(GetUsart(usart).cr3) && GetUsart(usart).brr == old(GetUsart(usart).brr)
                && GetUsart(usart).sr == old(GetUsart(usart).sr)
    {
      var u := GetUsart(usart);
      if u == null {
        return;
      }
      var i := 0;
      while i < |buffer|
        invariant 0 <= i <= |buffer|
        invariant u.cr1 == old(u.cr1) && u.cr2 == old(u.cr2) && u.cr3 == old(u.cr3) && u.brr == old(u.brr)
        invariant u.sr == old(u.sr)
        invariant u.transmitted == old(u.transmitted) + (if TxOn(u.cr1) then buffer[..i] else [])
        invariant u.dr == if TxOn(u.cr1) && i > 0 then buffer[i - 1] as bv32 else old(u.dr)
      {
        ByteWrite(usart, buffer[i]);
        assert buffer[..i + 1] == buffer[..i] + [buffer[i]];
        i := i + 1;
      }
      assert buffer[..|buffer|] == buffer;
    }

    /** `USART_data_write_dma`, with the outcome of the DMA driver's
        `DMA_init_channel` on the interface's transmit channel given as
        `dmaReady`: an invalid interface or a refused channel returns false
        and changes nothing; otherwise SR is cleared and CR3 becomes exactly
        the DMA transmit enable. */
    method DataWriteDma(usart: UsartId, dmaReady: bool) returns (ok: bool)
      requires Valid()
      modifies UsartFrame(usart)
      ensures ok <==> usart < USART_COUNT && dmaReady
      ensures usart < USART_COUNT && !ok ==> unchanged(GetUsart(usart))
      ensures ok ==> GetUsart(usart).sr == 0 && GetUsart(usart).cr3 == USART_DMA_TX
      ensures ok ==> GetUsart(usart).cr1 == old(GetUsart(usart).cr1) && GetUsart(usart).dr == old(GetUsart(usart).dr)
      ensures ok ==> GetUsart(usart).cr2 == old(GetUsart(usart).cr2) && GetUsart(usart).brr == old(GetUsart(usart).brr)
      ensures ok ==> GetUsart(usart).transmitted == old(GetUsart(usart).transmitted)
    {
      var u := GetUsart(usart);
      if u == null {
        return false;
      }
      if !dmaReady {
        return false;
      }
      u.sr := 0;
      u.cr3 := USART_DMA_TX;
      ok := true;
    }

    /** `USART_DMA_handler`: both DMA enable bits of CR3 are cleared and
        nothing else in the block changes. */
    method DmaHandler(usart: UsartId, tx: bool)
      requires Valid()
      modifies UsartFrame(usart)
      ensures usart < USART_COUNT ==>
                GetUsart(usart).cr3 == ClearMask(old(GetUsart(usart).cr3), USART_DMA_TX | USART_DMA_RX)
      ensures usart < USART_COUNT ==>
                GetUsart(usart).cr1 == old(GetUsart(usart).cr1) && GetUsart(usart).cr2 == old(GetUsart(usart).cr2)
                && GetUsart(usart).dr == old(GetUsart(usart).dr) && GetUsart(usart).sr == old(GetUsart(usart).sr)
                && GetUsart(usart).brr == old(GetUsart(usart).brr)
                && GetUsart(usart).transmitted == old(GetUsart(usart).transmitted)
    {
      var u := GetUsart(usart);
      if u == null {
        return;
      }
      u.cr3 := ClearMask(u.cr3, USART_DMA_TX | USART_DMA_RX);
    }
  }
}
