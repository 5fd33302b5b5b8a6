/** DMA channel ownership (src/DMA.c): a byte whose bit `c` records that
    channel `c` of the seven-channel controller is reserved. */
module Dma {

  /** `DMA_CHANNELS_t`: DMA_CH1 to DMA_CH7 are numbered 0 to 6. */
  type Channel = c: bv8 | c < 7

  const DMA_CH1: Channel := 0
  const DMA_CH2: Channel := 1
  const DMA_CH3: Channel := 2
  const DMA_CH4: Channel := 3
  const DMA_CH5: Channel := 4
  const DMA_CH6: Channel := 5
  const DMA_CH7: Channel := 6

  /** `DMA_CH_PERIPHERALS_t` names a request source by the channel it is
      wired to, so two sources of one channel are the same value. These are
      the sources the ADC and USART drivers use, and one that shares the
      ADC's channel. */
  const DMA_CH1_ADC1: Channel := DMA_CH1
  const DMA_CH1_TIM2_CH3: Channel := DMA_CH1
  const DMA_CH2_USART3_TX: Channel := DMA_CH2
  const DMA_CH3_USART3_RX: Channel := DMA_CH3
  const DMA_CH4_USART1_TX: Channel := DMA_CH4
  const DMA_CH5_USART1_RX: Channel := DMA_CH5
  const DMA_CH6_USART2_RX: Channel := DMA_CH6
  const DMA_CH7_USART2_TX: Channel := DMA_CH7

  function ChannelBit(c: Channel): bv8
  {
    1 << c
  }

  /** `is_channel_reserved` on the ownership byte `mask`. */
  predicate Reserved(mask: bv8, c: Channel)
  {
    mask & ChannelBit(c) != 0
  }

  /** No bit above bit 6 is set: every set bit names a channel. */
  predicate WellFormed(mask: bv8)
  {
    mask < 0x80
  }

  datatype Reservation = Reservation(ok: bool, mask: bv8)

  /** `reserve_channel` on the ownership byte: it fails, leaving the byte as
      it was, when the channel is already reserved; otherwise it succeeds and
      the channel becomes reserved while every other channel keeps its state. */
  function Reserve(mask: bv8, c: Channel): (r: Reservation)
    ensures r.ok <==> !Reserved(mask, c)
    ensures !r.ok ==> r.mask == mask
    ensures forall d: Channel :: Reserved(r.mask, d) <==> Reserved(mask, d) || d == c
    ensures WellFormed(mask) ==> WellFormed(r.mask)
  {
    if Reserved(mask, c) then Reservation(false, mask)
    else Reservation(true, mask | ChannelBit(c))
  }

  /** `free_channel` on the ownership byte: the channel becomes free and every
      other channel keeps its state. */
  function Free(mask: bv8, c: Channel): (m: bv8)
    ensures forall d: Channel :: Reserved(m, d) <==> Reserved(mask, d) && d != c
    ensures WellFormed(mask) ==> WellFormed(m)
  {
    mask & !ChannelBit(c)
  }

  /** Freeing is idempotent: a second free changes nothing. */
  lemma {:induction false} FreeIdempotent(mask: bv8, c: Channel)
    ensures Free(Free(mask, c), c) == Free(mask, c)
  {
  }

  /** A freed channel can always be reserved again, whatever its state was. */
  lemma {:induction false} FreeThenReserveSucceeds(mask: bv8, c: Channel)
    ensures Reserve(Free(mask, c), c).ok
  {
  }

  /** A second reservation of a channel fails until it is freed; sources that
      share a channel, such as ADC1 and TIM2 channel 3, exclude each other. */
  lemma {:induction false} SecondReservationFails(mask: bv8, c: Channel)
    ensures Reserve(mask, c).ok ==> !Reserve(Reserve(mask, c).mask, c).ok
    ensures !Reserve(Reserve(mask, DMA_CH1_ADC1).mask, DMA_CH1_TIM2_CH3).ok
  {
  }

  /** The ownership byte `s_reserved_channels`, 0 at start-up. */
  class DmaChannels {
    var reservedChannels: bv8

    ghost predicate Valid()
      reads this
    {
      WellFormed(reservedChannels)
    }

    constructor ()
      ensures Valid()
      ensures forall c: Channel :: !Reserved(reservedChannels, c)
    {
      reservedChannels := 0;
    }

    /** `is_channel_reserved`. */
    method IsChannelReserved(c: Channel) returns (r: bool)
      ensures r <==> Reserved(reservedChannels, c)
    {
      r := reservedChannels & (1 << c) != 0;
    }

    /** `reserve_channel`; the undeclared `is_channel_used()` it calls is taken
        to be `is_channel_reserved(channel)`. */
    method ReserveChannel(c: Channel) returns (ok: bool)
      requires Valid()
      modifies this
      ensures Valid()
      ensures Reservation(ok, reservedChannels) == Reserve(old(reservedChannels), c)
    {
      var used := IsChannelReserved(c);
      if used {
        return false;
      }
      reservedChannels := reservedChannels | (1 << c);
      return true;
    }

    /** `free_channel`. */
    method FreeChannel(c: Channel)
      requires Valid()
      modifies this
      ensures Valid()
      ensures reservedChannels == Free(old(reservedChannels), c)
    {
      reservedChannels := reservedChannels & !(1 << c);
    }
  }
}
