# STM32F1 driver layer — Dafny model

A model of the bare-metal STM32F1 driver layer of `synth-lib`. It covers
these drivers:

- the bit-mask helper `utils_generate_mask`;
- reset and clock control (RCC): peripheral clock gating, peripheral reset,
  and the reset of the clock configuration;
- DMA channel ownership: the reservation byte;
- GPIO pin ranges: per-port pin reservation, the nibble-per-pin encoding
  into CRL/CRH, the pull set-up through ODR, and the masked reads and
  writes of IDR/ODR/BSRR/BRR;
- the USART driver: configuration checks, the baud-rate register value,
  the split of the flag word into CR1/CR2, the USART-to-DMA routing table,
  byte and buffer transmission, and the DMA completion handler;
- the ADC driver: placement of sequence entries and sampling times in
  SQR1-3/SMPR1-2, the sequence length, the init-once flag, and start/stop.

Each peripheral's register block is a Dafny `class` whose `bv32` fields
the methods update in place, statement by statement as the C code does.
Every method is proved against a pure function on register values, and
the properties of the driver are lemmas about those functions. Registers
the hardware drives (IDR, SR) are inputs. Addresses, `volatile` and the
memory map are not modelled.

The model follows the code as written, including where it departs from
its own documentation. The mask helper returns `(1 << (end - start + 1)) << start`,
which is a single bit and not the documented range. That value feeds
every read-modify-write in the GPIO and ADC drivers. The lemmas state what
the drivers therefore do: a field write ORs into the old field and clears
one bit of the next field, and an array's pin mask is the single pin after
the range.

Constants the headers leave undefined are fixed in the model:

- `USART_CONF_FLAG_PARITY_ON` = 0x200, the parity-enable bit shared by
  both parity settings;
- `USART_CONF_FLAG_WORD_MASK` = 0x1000, the word-length bit;
- `DMA_CH_INVALID` = 0xFF;
- `DMA_CH3` = 2: the header declares it twice (inc/DMA.h:15 and :40), which a C compiler refuses as a redeclaration. Both declarations would give 2, since the second follows `DMA_CH2_TIM3_CH3 = DMA_CH2`, and the model uses that value.
- `USART_NUMBER_t` values are 0 to 2.

RCC identifiers take the values of `RCC_Peripherals_t` in `inc/RCC.h`:
DMA1 = 0, UART2 = 49, UART3 = 50, GPIOA = 66, GPIOB = 67, GPIOC = 68,
ADC1 = 73, UART1 = 78. `F_CPU` is 72 MHz.

`reserve_channel` calls `is_channel_used()`, which no file declares. It is
modelled as `is_channel_reserved(channel)`.

C leaves a shift by 32 or more undefined. The model gives such a shift the
value 0, as the Cortex-M3 `LSL` by register does (`Bits.Shl`).

Files: `bits.dfy` (utils.c), `rcc.dfy`, `dma.dfy`, `gpio.dfy`,
`usart.dfy`, `adc.dfy`. Each holds one module of the same name.

## Model

| member | source | states |
|---|---|---|
| Bits.GenerateMaskIsBitAfterRange | src/utils.c:3-17 | For start ≤ end < 31 the helper returns the single bit end+1. For 0..31 it returns the whole word. For a range ending at bit 31 that starts above 0 it returns 0. |
| Bits.ShiftedBit | src/utils.c:14 | `(1 << c) << s` is bit c+s while that stays in the word. |
| Bits.ShiftedOut | src/utils.c:14 | `(1 << c) << s` is 0 once c+s reaches 32. |
| Bits.DocumentedMask | inc/utils.h:6-15 | The mask the header documents has bit j set exactly when start ≤ j ≤ end. |
| Bits.MaskMatchesDocumentationOnlyForWholeWord | src/utils.c:3-17 | For a well-formed range, the helper equals the documented mask if and only if the range is the whole word 0..31. |
| Bits.SinglePinMask | src/utils.c:3-17 | mask(0,0) is 2, where the documentation promises 1. |
| Bits.ReversedRangeWraps | src/utils.c:5 | With end < start, `bit_count` wraps modulo 256. The result is the whole word when start-end is 225, bit `start` when start-end is 1, and 0 otherwise. |
| Bits.SetBitAt | src/RCC.c:105 | OR-ing bit k into a word sets bit k and changes no other bit. |
| Bits.BitsMeet | src/RCC.c:105 | Two single bits overlap exactly when their positions are equal. |
| Rcc.ClockDomain | src/RCC.c:92-103 | Peripherals below 32 use AHBENR, those from 64 use APB2ENR, and the rest use APB1ENR. |
| Rcc.DomainBit | src/RCC.c:105 | A peripheral's bit in its domain register is below 32. |
| Rcc.ClockEnableBits | src/RCC.c:105 | With enable, the peripheral's bit (id mod 32) is set and every other bit is kept. Without enable, every bit is kept. |
| Rcc.ClockDisableKeepsRegister | src/RCC.c:105 | `enable = false` ORs in 0, so no clock is ever switched off, although inc/RCC.h:44 says false disables. |
| Rcc.ClockEnableIdempotent | src/RCC.c:105 | Setting a clock twice gives the same register as setting it once. |
| Rcc.ResetControl | src/RCC.c:134-143 | After `RCC_reset_clock`, CR has HSION set and HSEON, HSEBYP, CSSON and PLLON cleared. Every other bit keeps its old value. |
| Rcc.ResetConfiguration | src/RCC.c:137-146 | After `RCC_reset_clock`, CFGR keeps bit 23 and bits 27-31 and clears every other bit. |
| Rcc.RccRegs.PeripheralSetClock | src/RCC.c:89-106 | Only the enable register of the peripheral's domain changes, to `ClockEnableWrite`. Every other RCC register is unchanged. |
| Rcc.RccRegs.PeripheralReset | src/RCC.c:108-125 | Nothing changes for an AHB peripheral. Otherwise APB1RSTR or APB2RSTR gains the peripheral's bit, and every other register is unchanged. |
| Rcc.RccRegs.ResetClock | src/RCC.c:130-150 | CR and CFGR become `ResetControl`/`ResetConfiguration` of their old values, CIR becomes 0x009F0000, and the enable and reset registers are unchanged. |
| Dma.Reserve | src/DMA.c:48-56 | Reservation succeeds exactly when the channel is free. On failure the byte is unchanged. Afterwards the channel is reserved and every other channel keeps its state. A byte with no bit above 6 keeps that property. |
| Dma.Free | src/DMA.c:63-66 | The channel becomes free, every other channel keeps its state, and no bit above 6 appears. |
| Dma.FreeIdempotent | src/DMA.c:63-66 | Freeing twice is freeing once. |
| Dma.FreeThenReserveSucceeds | src/DMA.c:48-66 | Reserving a channel that was just freed always succeeds. |
| Dma.SecondReservationFails | src/DMA.c:48-56 | A second reservation of a channel fails. ADC1 and TIM2 CH3 share DMA channel 1 (inc/DMA.h:27-28), so reserving one excludes the other. |
| Dma.DmaChannels.constructor | src/DMA.c:23 | At start-up no channel is reserved. |
| Dma.DmaChannels.IsChannelReserved | src/DMA.c:36-39 | Returns true exactly when bit c of the byte is set. |
| Dma.DmaChannels.ReserveChannel | src/DMA.c:48-56 | Result and new byte are those of `Reserve`. No bit above 6 is ever set. |
| Dma.DmaChannels.FreeChannel | src/DMA.c:63-66 | The new byte is `Free` of the old one. No bit above 6 is ever set. |
| Gpio.Slot | src/GPIO.c:36 | Each of the three ports has its own entry in the reservation table. |
| Gpio.PinInitValueFields | src/GPIO.c:145 | `mode \| ((config & 2) << 2)` fits one field. Its low three bits are the mode's, and bit 3 is set when mode bit 3 or config bit 1 is. |
| Gpio.ConfigLosesLowBit | src/GPIO.c:145 | Only configuration bit 1 reaches the field: bit 2 is never set, a floating input encodes as analog, and each open-drain output as the matching push-pull output. |
| Gpio.CrIndex | src/GPIO.c:156-157 | `pin & 7` is a position 0-7 within CRL or CRH. |
| Gpio.FieldsBelowNibble | src/GPIO.c:158-161 | Field k of the accumulated value holds the pin value when s ≤ k < n, and 0 otherwise. |
| Gpio.AccumulatePinFields | src/GPIO.c:158-161 | The loop's result is the pin value in the field of every pin s..e, with every other field 0. |
| Gpio.CrMaskIsBitAfterRange | src/GPIO.c:42-45 | `generate_cr_mask(s, e)` is the single bit 4e+5 for e < 7 and 0 for e = 7. |
| Gpio.CrWriteFields | src/GPIO.c:162-165 | Fields s..e are ORed with the pin value, not replaced. Field e+1 loses its bit 1. Every other field is kept. |
| Gpio.CrWriteReversed | src/GPIO.c:156-165 | For a range reversed after the reduction modulo 8, no field is written and only the mask's bit is cleared. |
| Gpio.LowRangeAlsoWritesCrh | src/GPIO.c:208-224 | A range inside pins 0-7 that ends above pin 0 also writes CRH fields 0..end. The code tests `end_pin > GPIO_MIN_CRL`, `crh_min` is 8, and both ends are reduced modulo 8. |
| Gpio.PinMaskIsPinAfterRange | src/GPIO.c:274-275 | An array's 16-bit pin mask is the single pin end+1, and 0 for a range ending at pin 15. |
| Gpio.ReadValue | src/GPIO.c:346 | Bit j of the result is set exactly when pin start+j is below 16, high in IDR and selected by the mask. The result fits 16 bits. |
| Gpio.ReadAllSeesPinAfterRange | src/GPIO.c:324-331 | `read_all` reports only pin end+1, at bit end+1-start, and 0 for a range ending at pin 15. |
| Gpio.WriteValueOdr | src/GPIO.c:315-317 | Bit j of the new ODR is the value's bit for j < 16 or, otherwise, the old ODR bit unless the mask clears it. The value is neither shifted nor masked. |
| Gpio.ReservationGrows | src/GPIO.c:68-77 | A successful reservation keeps every earlier reservation of every port and holds all requested pins. |
| Gpio.PortClock | src/GPIO.c:84-104 | Each port is clocked by an APB2 peripheral at bit port+2. |
| Gpio.GpioPort.ConfigCrRegister | src/GPIO.c:143-167 | Succeeds exactly when both pins are ≤ 15. On success the chosen register becomes `CrWrite` of the pins mod 8. Otherwise, and for the other register, nothing changes. |
| Gpio.GpioPort.ConfigRange | src/GPIO.c:208-225 | CRL and CRH become `ConfigCrl`/`ConfigCrh` of their old values. The other registers are unchanged. |
| Gpio.PinArray.Fill | src/GPIO.c:247-252 | The structure records the range, mode, config and port. `num_of_pins` is end-start+1 kept to 4 bits, so 0..15 records 0. |
| Gpio.GpioDriver.constructor | src/GPIO.c:36 | At start-up no pin of any port is reserved. |
| Gpio.GpioDriver.GetPort | src/GPIO.c:112-127 | Null exactly for a port past C. |
| Gpio.GpioDriver.ReservePins | src/GPIO.c:55-77 | Succeeds exactly when no requested pin is reserved on the port. The table then becomes old with `reserved[port] \| mask`. On failure nothing changes. |
| Gpio.GpioDriver.ActivateClock | src/GPIO.c:84-104 | The port's APB2 clock bit is set. Nothing happens for a port past C. |
| Gpio.GpioDriver.ConfigPins | src/GPIO.c:203-226 | Fails for a port past C. Otherwise the port's CRL/CRH become `ConfigCrl`/`ConfigCrh`, and IDR, ODR, BSRR and BRR are unchanged. |
| Gpio.GpioDriver.ActivateInputPull | src/GPIO.c:177-201 | Fails for a null array or an invalid port. Otherwise pull-up sets and pull-down clears the array's mask bits in ODR, and CRL, CRH, IDR, BSRR and BRR are unchanged. |
| Gpio.GpioDriver.ArrayInit | src/GPIO.c:228-261 | Fails with no change for a null array, a pin above 15, or a reserved pin. On success it reserves the helper's mask and leaves the state `SetUpDone` describes. The RCC registers other than APB2ENR and the port's IDR, BSRR and BRR are unchanged. |
| Gpio.GpioDriver.SetUp | src/GPIO.c:247-259 | Array filled, clock on, CRL/CRH configured. An input with pull configuration always gets pull-up, since PULL_UP == PULL_DOWN. The RCC registers other than APB2ENR and the port's IDR, BSRR and BRR are unchanged. |
| Gpio.GpioDriver.ArrayWritePins | src/GPIO.c:278-299 | The 16-bit mask is ORed into BSRR (state on) or BRR (state off), and the other of the two, CRL, CRH, IDR and ODR are unchanged. Nothing changes for a null array or an invalid port. |
| Gpio.GpioDriver.ArrayWriteAll | src/GPIO.c:267-276 | `write_pins` with the array's own (single-pin) mask: BSRR or BRR gains that pin, and CRL, CRH, IDR and ODR are unchanged. |
| Gpio.GpioDriver.ArrayWriteValue | src/GPIO.c:301-318 | ODR becomes `WriteValueOdr` of the old ODR, the array mask and the value. CRL, CRH, IDR, BSRR and BRR are unchanged. |
| Gpio.GpioDriver.ArrayReadPins | src/GPIO.c:333-347 | 0 for a null array or an invalid port, otherwise `ReadValue` of IDR. |
| Gpio.GpioDriver.ArrayReadAll | src/GPIO.c:324-331 | 0 for a null array, otherwise `read_pins` with the array's own mask. |
| Usart.RoutingTargetsChannels | src/USART.c:112-128 | A valid USART is routed to a channel below 7, never the ADC's channel 1. Any other value gives `DMA_CH_INVALID`. |
| Usart.RoutingInjective | src/USART.c:115-126 | Two valid (usart, direction) pairs share a channel only if they are equal. |
| Usart.BaudRateRounding | src/USART.c:83-106 | When the quotient fits 16 bits, BRR·baud ≤ clk < (BRR+1)·baud. |
| Usart.BaudRateFitsFrom | src/USART.c:105 | The quotient fits the `uint16_t` return from 1099 baud on USART1 and from 550 baud on the others. |
| Usart.BaudRateExamples | src/USART.c:83-106 | 1000 baud on USART1 truncates 72000 to 6464. The maximum rate gives 32 on USART1 and 16 on the others. |
| Usart.AcceptedWordParity | src/USART.c:134-159 | `USART_init` accepts a configuration exactly when flags ≠ 0, the usart is valid, baud ≤ 2250000, and 9-bit words go with parity. |
| Usart.HeaderConfigurations | inc/USART.h:23-39 | Header flag combinations: 8N and 9-bit with either parity are accepted. 9-bit without parity, 8-bit with parity, empty flags and too fast a rate are refused. |
| Usart.FlagsSplit | src/USART.c:163-165 | CR2:CR1 hold the flag word, 16 bits each, with only USART_ON added. |
| Usart.ClockMatchesBaudClock | src/USART.c:31-51 | The clock switched on is on APB2 exactly for the interface whose baud divisor uses the full core clock. Bits: 14, 17, 18. |
| Usart.DmaHandlerBits | src/USART.c:259 | CR3 loses bits 6 and 7 and keeps every other bit. |
| Usart.UsartDriver.GetUsart | src/USART.c:59-74 | Null exactly for a value past USART_NO_3. |
| Usart.UsartDriver.ActivateClock | src/USART.c:31-51 | USART1's APB2 bit or USART2/3's APB1 bit is set. Nothing happens for an invalid value. |
| Usart.UsartDriver.Init | src/USART.c:130-168 | Returns true iff `InitAccepted`. A refused configuration changes nothing. An accepted one writes BRR = `BaudRateValue`, CR1 = `(flags & 0xFFFF) \| USART_ON` and CR2 = `flags >> 16`, and clocks the interface. SR, DR, CR3, the wire log and every other RCC register are unchanged. |
| Usart.UsartDriver.ByteWrite | src/USART.c:170-184 | With TX on, DR gets the byte and the byte is appended to the wire. Otherwise, or for an invalid usart, nothing changes. |
| Usart.UsartDriver.DataWrite | src/USART.c:186-204 | With TX on, the wire receives the whole buffer in index order and DR holds its last byte. An empty buffer or TX off changes nothing. SR, BRR and CR1-CR3 are unchanged. |
| Usart.UsartDriver.DataWriteDma | src/USART.c:206-226 | Returns true iff the usart is valid and the DMA channel was set up. Then SR = 0 and CR3 = USART_DMA_TX, and CR1, CR2, BRR, DR and the wire log are unchanged. Otherwise nothing changes. |
| Usart.UsartDriver.DmaHandler | src/USART.c:248-260 | CR3 loses both DMA enable bits. SR, DR, BRR, CR1, CR2 and the wire log are unchanged. |
| Adc.FieldWriteBits | src/ADC.c:123-124 | The read-modify-write ORs the value into the field, keeping its old bits. It clears only the bit one above the field's end plus one. |
| Adc.SequenceIndexFrame | src/ADC.c:97-121 | Out-of-range channel or index (> 16) changes nothing. Indices 0-5 write only SQR3, 6-11 only SQR2, 12-16 only SQR1. No sampling register changes. |
| Adc.SequenceIndexBits | src/ADC.c:100-124 | With s = 5·(index mod 6), the register keeps its bits except s+6 and gains the channel in bits s..s+4. |
| Adc.SamplingTimeFrame | src/ADC.c:127-147 | Out-of-range channel or time changes nothing. Channels 0-9 write only SMPR2 and 10-16 only SMPR1. No sequence register changes. |
| Adc.SamplingTimeBits | src/ADC.c:131-149 | With s = 3·(channel mod 10), the register keeps its bits except s+4 and gains the time in bits s..s+2. |
| Adc.PackedStep | src/ADC.c:123-124 | Writing entry k into a register holding the layout of k entries yields the layout of k+1 entries. |
| Adc.SequenceLayoutStep | src/ADC.c:199-203 | One turn of the init loop extends the reference layout of SQR3/SQR2/SQR1 by the next channel. |
| Adc.SequenceLayout | src/ADC.c:199-203 | From empty sequence registers, n ≤ 16 valid channels end up in the reference layout: entries 0-5 in SQR3, 6-11 in SQR2, 12-15 in SQR1. |
| Adc.SequenceCountWrite | src/ADC.c:152-161 | Into an SQR1 with nothing set from bit 20 up (the precondition), a count of 1-16 writes SQR1 alone, ORing count-1 into L (bits 20-23). |
| Adc.SequenceCountOver | src/ADC.c:152-161 | For any register values and a count of 1-16, only SQR1 changes: the new L is the old L OR count-1, bit 24 is cleared, and bits 0-19 and 25-31 are kept. |
| Adc.RecountKeepsLongerSequence | src/ADC.c:152-161 | After a sequence of 16 (L = 15), a new count of 1 leaves L at 15, so 16 conversions still run. |
| Adc.SequenceCountZero | src/ADC.c:154-160 | Count 0 passes the check. `0 - 1` sets bits 20-31, so L reads 15. |
| Adc.CountAfterLayout | src/ADC.c:204 | After the layout, the count write keeps the entries and sets L to count-1. |
| Adc.InitSequence | src/ADC.c:188-207 | From empty registers, `ADC_init_ex` with 1-16 valid channels leaves the list in the reference layout and count-1 in L. |
| Adc.RewriteMergesEntries | src/ADC.c:123-124 | Writing channel 2 over channel 1 at index 0 leaves channel 3 selected. |
| Adc.WriteClearsNextEntry | src/ADC.c:123 | Writing entry 0 after entry 1 destroys entry 1 (channel 2). |
| Adc.WriteClearsNextTime | src/ADC.c:148 | Setting channel 0's time after channel 1's destroys channel 1's time 2. |
| Adc.IndexSixteenHitsLength | src/ADC.c:101-124 | Index 16 passes the check and is written into SQR1's length field. |
| Adc.StartBits | src/ADC.c:225-237 | Start sets ADON, and CONT in loop mode, and keeps every other CR2 bit. |
| Adc.StopBits | src/ADC.c:246 | Stop clears ADON and nothing else. |
| Adc.ContinuousStays | src/ADC.c:228-246 | No operation clears CONT: a loop start, a stop and a single start leave continuous mode on. |
| Adc.AdcRegs.constructor | src/ADC.c:5-27 | The register block starts at zero. |
| Adc.AdcRegs.SetChannelSequenceIndex | src/ADC.c:97-125 | The channel registers become `SetSequenceIndex` of their old values. The other registers are unchanged. |
| Adc.AdcRegs.SetChannelSamplingTime | src/ADC.c:127-150 | The channel registers become `SetSamplingTime` of their old values. |
| Adc.AdcRegs.ConfigureSequence | src/ADC.c:199-203 | The loop leaves the channel registers equal to `ConfigureChannels` of the old ones: time, then entry, per channel in order. |
| Adc.AdcRegs.SetSequenceChannelCount | src/ADC.c:152-161 | The channel registers become `SetSequenceCount` of their old values. |
| Adc.AdcDriver.constructor | src/ADC.c:55 | The init flag starts false. |
| Adc.AdcDriver.StartupAdc | src/ADC.c:61-70 | ADC1 clock on. CR2 ends as ADON \| DMA, with CAL cleared by the hardware. |
| Adc.AdcDriver.SetupDmaChannel | src/ADC.c:78-89 | DMA1 clock on. The result is the DMA driver's answer. |
| Adc.AdcDriver.InitEx | src/ADC.c:188-207 | Once initialised: false and no change. Otherwise ok iff DMA set-up succeeds, and the flag equals ok. On failure the channel registers are unchanged. On success they are `SetSequenceCount(ConfigureChannels(...))`. |
| Adc.AdcDriver.Init | src/ADC.c:167-186 | As `InitEx`, with the default sampling time (13.5 cycles) for every channel: the same init-once and DMA-failure results, CR2 = ADON \| DMA after start-up, SR/CR1/DR unchanged, the channel registers unchanged on DMA failure, the ADC1 and DMA1 clock bits set and every other RCC register unchanged. |
| Adc.AdcDriver.Start | src/ADC.c:219-238 | No change before init or for an unknown mode. Otherwise CR1 gains SCAN and CR2 becomes `StartCr2`. |
| Adc.AdcDriver.Stop | src/ADC.c:240-247 | Once initialised, CR2 loses bit 0. Otherwise nothing changes. |
| Adc.AdcDriver.Startup | src/ADC.c:249-252 | The init flag is cleared, so the next init goes ahead. |

## Left out

- `RCC_init_clock` (src/RCC.c:152-181): busy-waits on hardware ready bits and loops until the PLL is selected; the flash wait state is a different peripheral.
- `RCC_reset_system` (src/RCC.c:183-186): a call into the CMSIS `NVIC_SystemReset`.
- The DMA driver entry points `DMA_init_channel`, `DMA_start_channel`, `DMA_de_init_channel`: their bodies are not part of this model. `DMA_init_channel`'s answer is the `dmaReady` parameter of `SetupDmaChannel` and `DataWriteDma`. The start and de-init calls in `ADC_start` and `USART_DMA_handler` have no modelled effect.
- `USART_get_flag`, `USART_get_data_register`, `ADC_get_flag`, `ADC_get_data_register`: plain register reads and addresses.
- The `WAIT` polling on TX empty in `USART_data_write` and on CAL in `startup_adc`: hardware polling. The model takes the wait as ended.
- Usart.UsartDriver.Init: requires baud > 0, because the C division `periph_clock / baud_rate` is unguarded and a zero rate is undefined behaviour.
- Usart.UsartDriver.DataWriteDma: the buffer address and size go only to the DMA driver and are not parameters.
- Adc.AdcDriver.StartupAdc: the CAL bit is cleared as the hardware's end of calibration, not by the driver.
- Adc.AdcDriver.Init: the channel count and output buffer go to the DMA driver only; `output` is not a parameter.
- Adc.SequenceLayout: stated from empty sequence registers. A read-back of an entry from an arbitrary register is not proved; `Packed` is the reference layout.
- Gpio.GpioDriver.ArrayInit: the port is a `PortId` (A, B or C). For `GPIO_PORT_COUNT` or any larger port, `GPIO_array_init` passes the port on unchecked (src/GPIO.c:241), and `reserve_pins` reads and may write `s_reserved_pins[port]` past its three entries (src/GPIO.c:57, 73) before `activate_clock` and `config_pins` reject the port. That out-of-bounds access is undefined behaviour and is not modelled.
- Gpio.GpioDriver.ReservePins: takes a `PortId` for the same reason. An index past the table is undefined behaviour.
- `GPIO_array_init` is declared to return `GPIO_ERR_t` (inc/GPIO.h:90) but the definition returns `bool`; the model follows the definition.
- LCKR (GPIO), GTPR (USART) and the injected-channel ADC registers: the drivers never write them.
- src/main.c and src/sys_init.c: demo application and start-up plumbing.
- IRQ numbering, base addresses and `volatile` semantics of inc/common.h: registers are plain class fields.
