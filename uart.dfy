/*
 * AM335x UART: configuration arithmetic (divisor rounding, FIFO_CONFIG and
 * FCR packing, trigger-level split) and the register read-modify-write
 * sequences of the low-level driver.
 *
 * Registers are 32-bit words (`bv32`) held as fields of `UartRegs`.  The
 * LCR-mode dependent address decoding of the real device (EFR only visible in
 * configuration mode B, DLL/DLH in configuration modes) is not modelled: each
 * register is its own field, and only the LCR value written by each mode
 * switch is tracked.
 */
module Uart {

  import opened Word32

  function Abs(x: int): nat { if x < 0 then -x else x }

  // ---------------------------------------------------------------------
  // Register field access (HW_WR_FIELD32 / HW_RD_FIELD32)
  // ---------------------------------------------------------------------

  /** Writes `v` into the field `mask` (starting at bit `shift`) of `reg`. */
  function WriteField(reg: bv32, mask: bv32, shift: bv32, v: bv32): bv32
    requires shift < 32
  {
    (reg & !mask) | ((v << shift) & mask)
  }

  function ReadField(reg: bv32, mask: bv32, shift: bv32): bv32
    requires shift < 32
  {
    (reg & mask) >> shift
  }

  // ---------------------------------------------------------------------
  // Constants of uart.h / hw_uart.h
  // ---------------------------------------------------------------------

  const REG_CONFIG_MODE_A: bv32 := 0x80
  const REG_CONFIG_MODE_B: bv32 := 0xBF
  const REG_OPERATIONAL_MODE: bv32 := 0x7F

  const LCR_CHAR_LENGTH_MASK: bv32 := 0x03
  const LCR_NB_STOP_MASK: bv32 := 0x04
  const LCR_PARITY_EN_MASK: bv32 := 0x08
  const LCR_PARITY_TYPE1_MASK: bv32 := 0x10
  const LCR_PARITY_TYPE2_MASK: bv32 := 0x20
  const LCR_PARITY_MASK: bv32 := 0x38
  const LCR_DIV_EN_MASK: bv32 := 0x80

  const EFR_ENHANCED_EN_MASK: bv32 := 0x10
  const EFR_ENHANCED_EN_SHIFT: bv32 := 4
  const IER_SLEEP_MODE_MASK: bv32 := 0x10
  const IER_SLEEP_MODE_SHIFT: bv32 := 4
  const MCR_TCR_TLR_MASK: bv32 := 0x40
  const MCR_TCR_TLR_SHIFT: bv32 := 6
  const MCR_MODEM_MASK: bv32 := 0x0F   // CD_STS_CH | RI_STS_CH | RTS | DTR
  const WER_EVENTS_MASK: bv32 := 0xFF  // EVENT_0 .. EVENT_7
  const TCR_HALT_MASK: bv32 := 0x0F
  const TCR_START_MASK: bv32 := 0xF0
  const MDR1_MODE_SELECT_MASK: bv32 := 0x07

  const FCR_FIFO_EN_MASK: bv32 := 0x01
  const FCR_RX_FIFO_CLEAR_SHIFT: bv32 := 1
  const FCR_TX_FIFO_CLEAR_SHIFT: bv32 := 2
  const FCR_DMA_MODE_MASK: bv32 := 0x08
  const FCR_DMA_MODE_SHIFT: bv32 := 3
  const FCR_TX_FIFO_TRIG_MASK: bv32 := 0x30
  const FCR_TX_FIFO_TRIG_SHIFT: bv32 := 4
  const FCR_RX_FIFO_TRIG_MASK: bv32 := 0xC0
  const FCR_RX_FIFO_TRIG_SHIFT: bv32 := 6

  const SCR_DMA_MODE_CTL_MASK: bv32 := 0x01
  const SCR_DMA_MODE_2_MASK: bv32 := 0x06
  const SCR_DMA_MODE_2_SHIFT: bv32 := 1
  const SCR_TX_TRIG_GRANU1_MASK: bv32 := 0x40
  const SCR_TX_TRIG_GRANU1_SHIFT: bv32 := 6
  const SCR_RX_TRIG_GRANU1_MASK: bv32 := 0x80
  const SCR_RX_TRIG_GRANU1_SHIFT: bv32 := 7

  const TLR_TX_FIFO_TRIG_DMA_MASK: bv32 := 0x0F
  const TLR_RX_FIFO_TRIG_DMA_MASK: bv32 := 0xF0
  const TLR_RX_FIFO_TRIG_DMA_SHIFT: bv32 := 4

  const TRIG_LVL_GRANULARITY_1: bv32 := 1
  const DMA_EN_PATH_FCR: bv32 := 0

  /** The FCR trigger encodings accepted directly with granularity 4. */
  predicate IsFcrRxTrigLevel(t: bv32) { t == 0x00 || t == 0x40 || t == 0x80 || t == 0xC0 }
  predicate IsFcrTxTrigLevel(t: bv32) { t == 0x00 || t == 0x10 || t == 0x20 || t == 0x30 }

  // ---------------------------------------------------------------------
  // Line characteristics flags
  // ---------------------------------------------------------------------

  datatype Parity = ParityNone | ParityOdd | ParityEven | ParityForced1 | ParityForced0

  /** UART_PARITY_* flags. */
  function ParityFlag(p: Parity): (f: bv32)
    ensures f & !LCR_PARITY_MASK == 0
    ensures (f & LCR_PARITY_EN_MASK != 0) <==> p != ParityNone
    ensures (f & LCR_PARITY_TYPE2_MASK != 0) <==> (p == ParityForced1 || p == ParityForced0)
    ensures (f & LCR_PARITY_TYPE1_MASK != 0) <==> (p == ParityEven || p == ParityForced0)
  {
    match p
    case ParityNone => 0
    case ParityOdd => LCR_PARITY_EN_MASK
    case ParityEven => LCR_PARITY_TYPE1_MASK | LCR_PARITY_EN_MASK
    case ParityForced1 => LCR_PARITY_TYPE2_MASK | LCR_PARITY_EN_MASK
    case ParityForced0 => LCR_PARITY_TYPE2_MASK | LCR_PARITY_TYPE1_MASK | LCR_PARITY_EN_MASK
  }

  /** UART_FRAME_WORD_LENGTH_5 .. _8. */
  function WordLengthFlag(bits: nat): (f: bv32)
    requires 5 <= bits <= 8
    ensures f & !LCR_CHAR_LENGTH_MASK == 0
    ensures f as int + 5 == bits
  {
    if bits == 5 then 0 else if bits == 6 then 1 else if bits == 7 then 2 else 3
  }

  /** UART_FRAME_NUM_STB_1 (false) and UART_FRAME_NUM_STB_1_5_2 (true). */
  function StopBitsFlag(longStop: bool): (f: bv32)
    ensures f & !LCR_NB_STOP_MASK == 0
    ensures (f != 0) <==> longStop
  {
    if longStop then 1 << 2 else 0
  }

  lemma RegisterModeConstants()
    ensures REG_CONFIG_MODE_A & 0x80 != 0 && REG_CONFIG_MODE_A != REG_CONFIG_MODE_B
    ensures REG_CONFIG_MODE_B == 0xBF
    ensures REG_OPERATIONAL_MODE & 0x80 == 0
  {
  }

  // ---------------------------------------------------------------------
  // Baud-rate divisor
  // ---------------------------------------------------------------------

  /** UARTDivideRoundCloset: (dividend + divisor/2) / divisor in uint32. */
  function DivideRoundClosest(dividend: int, divisor: int): (r: int)
    requires IsU32(dividend) && IsU32(divisor) && divisor != 0
    ensures IsU32(r)
    ensures r * divisor <= Wrap32(dividend + divisor / 2)
  {
    var s := Wrap32(dividend + divisor / 2);
    QuotientBounds(s, divisor);
    s / divisor
  }

  lemma QuotientBounds(s: int, d: int)
    requires 0 <= s && d > 0
    ensures 0 <= s / d <= s && (s / d) * d <= s
  {
    var q := s / d;
    assert s == q * d + s % d && 0 <= s % d < d;
    MulGe(q, d);
  }

  /** q * d >= q for a non-negative q and a positive d. */
  lemma {:induction false} MulGe(q: int, d: int)
    requires q >= 0 && d >= 1
    ensures q * d >= q
    decreases d
  {
    if d > 1 {
      MulGe(q, d - 1);
      assert q * d == q * (d - 1) + q;
    }
  }

  /** A multiple k != 0 of d moved from a remainder e in [-(d/2), d - d/2) is no closer to zero. */
  lemma ShiftedRemainder(e: int, k: int, d: int)
    requires d > 0 && -(d / 2) <= e < d - d / 2 && k != 0
    ensures Abs(e) <= Abs(e + k * d)
  {
    if k > 0 {
      MulGe(d, k);
      assert d * k == k * d;
    } else {
      MulGe(d, -k);
      assert d * (-k) == -(k * d);
    }
  }

  /** Without uint32 overflow the rounded quotient leaves a remainder in [-(d/2), d - d/2). */
  lemma RoundClosestRemainder(a: int, d: int)
    requires IsU32(a) && IsU32(d) && d != 0 && a + d / 2 < U32_LIMIT
    ensures -(d / 2) <= a - DivideRoundClosest(a, d) * d < d - d / 2
  {
    var s := a + d / 2;
    var r := DivideRoundClosest(a, d);
    assert r == s / d;
    assert s == r * d + s % d && 0 <= s % d < d;
  }

  /**
   * Without uint32 overflow the rounded quotient is a nearest multiple:
   * its distance to the dividend is at most half the divisor, and no other
   * multiple of the divisor is closer.
   */
  lemma RoundClosestIsNearest(a: int, d: int, q: int)
    requires IsU32(a) && IsU32(d) && d != 0 && a + d / 2 < U32_LIMIT
    ensures 2 * Abs(a - DivideRoundClosest(a, d) * d) <= d
    ensures Abs(a - DivideRoundClosest(a, d) * d) <= Abs(a - q * d)
  {
    var r := DivideRoundClosest(a, d);
    RoundClosestRemainder(a, d);
    var e := a - r * d;
    if q != r {
      ShiftedRemainder(e, r - q, d);
      assert (r - q) * d == r * d - q * d;
    }
  }

  /** Oversampling factor of UARTDivisorValCompute for the MDR1 mode. */
  function Oversampling(modeFlag: bv32, mirOverSampRate: int): int
  {
    var m := modeFlag & MDR1_MODE_SELECT_MASK;
    if m == 0 || m == 1 then 16        // UART16x, SIR
    else if m == 3 then 13             // UART13x
    else if m == 4 then mirOverSampRate // MIR
    else 0                              // FIR, and every other mode
  }

  /** The C divisor `factor * baudRate` is a non-zero uint32 for the modes that divide. */
  predicate DivisorDefined(baudRate: int, modeFlag: bv32, mirOverSampRate: int)
  {
    Oversampling(modeFlag, mirOverSampRate) != 0 ==>
      Wrap32(Oversampling(modeFlag, mirOverSampRate) * baudRate) != 0
  }

  /** UARTDivisorValCompute. */
  function DivisorValCompute(moduleClk: int, baudRate: int, modeFlag: bv32, mirOverSampRate: int): (r: int)
    requires IsU32(moduleClk) && IsU32(baudRate) && IsU32(mirOverSampRate)
    requires DivisorDefined(baudRate, modeFlag, mirOverSampRate)
    ensures IsU32(r)
    ensures Oversampling(modeFlag, mirOverSampRate) == 0 ==> r == 0
  {
    var factor := Oversampling(modeFlag, mirOverSampRate);
    if factor == 0 then 0
    else DivideRoundClosest(moduleClk, Wrap32(factor * baudRate))
  }

  /**
   * For the dividing modes and inputs that do not overflow, the divisor is
   * moduleClk / (factor * baudRate) rounded to the nearest integer.
   */
  lemma DivisorValIsNearest(moduleClk: int, baudRate: int, modeFlag: bv32, mirOverSampRate: int, q: int)
    requires IsU32(moduleClk) && IsU32(baudRate) && IsU32(mirOverSampRate)
    requires Oversampling(modeFlag, mirOverSampRate) * baudRate > 0
    requires moduleClk + Oversampling(modeFlag, mirOverSampRate) * baudRate < U32_LIMIT
    ensures DivisorDefined(baudRate, modeFlag, mirOverSampRate)
    ensures var d := Oversampling(modeFlag, mirOverSampRate) * baudRate;
            var r := DivisorValCompute(moduleClk, baudRate, modeFlag, mirOverSampRate);
            2 * Abs(moduleClk - r * d) <= d && Abs(moduleClk - r * d) <= Abs(moduleClk - q * d)
  {
    var d := Oversampling(modeFlag, mirOverSampRate) * baudRate;
    assert IsU32(d);
    RoundClosestIsNearest(moduleClk, d, q);
  }

  // ---------------------------------------------------------------------
  // FIFO configuration word (UART_FIFO_CONFIG) and FCR word (UART_FCR_PROGRAM)
  // ---------------------------------------------------------------------

  datatype FifoConfig = FifoConfig(
    txGra: bv32, rxGra: bv32, txTrig: bv32, rxTrig: bv32,
    txClr: bv32, rxClr: bv32, dmaEnPath: bv32, dmaMode: bv32)

  const FIFO_CONFIG_TXGRA: bv32 := 0xF << 26
  const FIFO_CONFIG_RXGRA: bv32 := 0xF << 22
  const FIFO_CONFIG_TXTRIG: bv32 := 0xFF << 14
  const FIFO_CONFIG_RXTRIG: bv32 := 0xFF << 6
  const FIFO_CONFIG_TXCLR: bv32 := 0x1 << 5
  const FIFO_CONFIG_RXCLR: bv32 := 0x1 << 4
  const FIFO_CONFIG_DMAENPATH: bv32 := 0x1 << 3
  const FIFO_CONFIG_DMAMODE: bv32 := 0x7

  /** Each field reduced to the width the packing macro keeps. */
  function Masked(c: FifoConfig): FifoConfig
  {
    FifoConfig(c.txGra & 0xF, c.rxGra & 0xF, c.txTrig & 0xFF, c.rxTrig & 0xFF,
               c.txClr & 1, c.rxClr & 1, c.dmaEnPath & 1, c.dmaMode & 7)
  }

  /** The field extraction at the top of UARTFIFOConfig. */
  function FifoConfigDecode(w: bv32): (c: FifoConfig)
    ensures Masked(c) == c
  {
    FifoConfig((w & FIFO_CONFIG_TXGRA) >> 26, (w & FIFO_CONFIG_RXGRA) >> 22,
               (w & FIFO_CONFIG_TXTRIG) >> 14, (w & FIFO_CONFIG_RXTRIG) >> 6,
               (w & FIFO_CONFIG_TXCLR) >> 5, (w & FIFO_CONFIG_RXCLR) >> 4,
               (w & FIFO_CONFIG_DMAENPATH) >> 3, w & FIFO_CONFIG_DMAMODE)
  }

  /** UART_FIFO_CONFIG: decoding the packed word gives back every masked field. */
  function FifoConfigPack(c: FifoConfig): (w: bv32)
    ensures FifoConfigDecode(w) == Masked(c)
    ensures w & 0xC000_0000 == 0
  {
    ((c.txGra & 0xF) << 26) | ((c.rxGra & 0xF) << 22) |
    ((c.txTrig & 0xFF) << 14) | ((c.rxTrig & 0xFF) << 6) |
    ((c.txClr & 1) << 5) | ((c.rxClr & 1) << 4) |
    ((c.dmaEnPath & 1) << 3) | (c.dmaMode & 7)
  }

  /** The field masks are pairwise disjoint and cover bits 0..29. */
  lemma FifoConfigMasksDisjoint()
    ensures FIFO_CONFIG_TXGRA & FIFO_CONFIG_RXGRA == 0
    ensures (FIFO_CONFIG_TXGRA | FIFO_CONFIG_RXGRA) & FIFO_CONFIG_TXTRIG == 0
    ensures (FIFO_CONFIG_TXGRA | FIFO_CONFIG_RXGRA | FIFO_CONFIG_TXTRIG) & FIFO_CONFIG_RXTRIG == 0
    ensures (FIFO_CONFIG_TXGRA | FIFO_CONFIG_RXGRA | FIFO_CONFIG_TXTRIG | FIFO_CONFIG_RXTRIG)
            & (FIFO_CONFIG_TXCLR | FIFO_CONFIG_RXCLR | FIFO_CONFIG_DMAENPATH | FIFO_CONFIG_DMAMODE) == 0
    ensures FIFO_CONFIG_TXCLR & (FIFO_CONFIG_RXCLR | FIFO_CONFIG_DMAENPATH | FIFO_CONFIG_DMAMODE) == 0
    ensures FIFO_CONFIG_RXCLR & (FIFO_CONFIG_DMAENPATH | FIFO_CONFIG_DMAMODE) == 0
    ensures FIFO_CONFIG_DMAENPATH & FIFO_CONFIG_DMAMODE == 0
    ensures FIFO_CONFIG_TXGRA | FIFO_CONFIG_RXGRA | FIFO_CONFIG_TXTRIG | FIFO_CONFIG_RXTRIG |
            FIFO_CONFIG_TXCLR | FIFO_CONFIG_RXCLR | FIFO_CONFIG_DMAENPATH | FIFO_CONFIG_DMAMODE == 0x3FFF_FFFF
  {
  }

  /** Decoding then packing keeps every bit the masks cover. */
  lemma DecodeThenPack(w: bv32)
    ensures FifoConfigPack(FifoConfigDecode(w)) == w & 0x3FFF_FFFF
  {
  }

  /** UART_FCR_PROGRAM. */
  function FcrProgram(rxFifoTrig: bv32, txFifoTrig: bv32, dmaMode: bv32,
                      txClr: bv32, rxClr: bv32, fifoEn: bv32): (r: bv32)
    ensures r & !0xFF == 0
    ensures (r >> 6) & 3 == rxFifoTrig & 3 && (r >> 4) & 3 == txFifoTrig & 3
    ensures (r >> 3) & 1 == dmaMode & 1 && (r >> 2) & 1 == txClr & 1
    ensures (r >> 1) & 1 == rxClr & 1 && r & 1 == fifoEn & 1
  {
    ((rxFifoTrig & 3) << 6) | ((txFifoTrig & 3) << 4) | ((dmaMode & 1) << 3) |
    ((txClr & 1) << 2) | ((rxClr & 1) << 1) | (fifoEn & 1)
  }

  /**
   * Granularity-1 trigger split of UARTFIFOConfig: the six-bit level goes
   * to the TLR field (upper four bits) and the FCR trigger field (lower two).
   */
  function GranularityOneSplit(trig: bv32): (r: (bv32, bv32))
    ensures r.0 < 16 && r.1 < 4
    ensures (r.0 << 2) | r.1 == trig & 0x3F
  {
    var t := trig & 0x3F;
    ((t & 0x3C) >> 2, t & 0x3)
  }

  // ---------------------------------------------------------------------
  // Modem-control, wake-up and flow-control register values
  // ---------------------------------------------------------------------

  /** MCR after UARTModemControlSet. */
  function ModemControlSetValue(mcr: bv32, modeFlag: bv32): (r: bv32)
    ensures r & !MCR_MODEM_MASK == mcr & !MCR_MODEM_MASK
    ensures r & (modeFlag & MCR_MODEM_MASK) == modeFlag & MCR_MODEM_MASK
    ensures r & MCR_MODEM_MASK & !modeFlag == mcr & MCR_MODEM_MASK & !modeFlag
  {
    mcr | (modeFlag & MCR_MODEM_MASK)
  }

  /** MCR after UARTModemControlClear. */
  function ModemControlClearValue(mcr: bv32, modeFlag: bv32): (r: bv32)
    ensures r & (modeFlag & MCR_MODEM_MASK) == 0
    ensures r & !(modeFlag & MCR_MODEM_MASK) == mcr & !(modeFlag & MCR_MODEM_MASK)
  {
    mcr & !(modeFlag & MCR_MODEM_MASK)
  }

  /** Set then clear of the same flag removes exactly the masked bits of the flag. */
  lemma ModemControlSetThenClear(mcr: bv32, modeFlag: bv32)
    ensures ModemControlClearValue(ModemControlSetValue(mcr, modeFlag), modeFlag)
            == mcr & !(modeFlag & MCR_MODEM_MASK)
  {
  }

  /** WER after UARTWakeUpEventsEnable. */
  function WakeUpEnableValue(wer: bv32, wakeUpFlag: bv32): (r: bv32)
    ensures r & (wakeUpFlag & WER_EVENTS_MASK) == wakeUpFlag & WER_EVENTS_MASK
    ensures r & !(wakeUpFlag & WER_EVENTS_MASK) == wer & !(wakeUpFlag & WER_EVENTS_MASK)
  {
    wer | (wakeUpFlag & WER_EVENTS_MASK)
  }

  /** WER after UARTWakeUpEventsDisable. */
  function WakeUpDisableValue(wer: bv32, wakeUpFlag: bv32): (r: bv32)
    ensures r & (wakeUpFlag & WER_EVENTS_MASK) == 0
    ensures r & !(wakeUpFlag & WER_EVENTS_MASK) == wer & !(wakeUpFlag & WER_EVENTS_MASK)
  {
    wer & !(wakeUpFlag & WER_EVENTS_MASK)
  }

  lemma WakeUpEnableThenDisable(wer: bv32, wakeUpFlag: bv32)
    ensures WakeUpDisableValue(WakeUpEnableValue(wer, wakeUpFlag), wakeUpFlag)
            == wer & !(wakeUpFlag & WER_EVENTS_MASK)
  {
  }

  /** TCR value of UARTFlowCtrlTrigLvlConfig. */
  function FlowCtrlTcrValue(rtsHaltFlag: bv32, rtsStartFlag: bv32): (r: bv32)
    ensures r & !0xFF == 0
    ensures r & TCR_HALT_MASK == rtsHaltFlag & 0xF
    ensures r >> 4 == rtsStartFlag & 0xF
  {
    (rtsHaltFlag & TCR_HALT_MASK) | ((rtsStartFlag << 4) & TCR_START_MASK)
  }

  // ---------------------------------------------------------------------
  // TCR_TLR save/restore of UARTFIFOConfig
  // ---------------------------------------------------------------------

  /** UARTSubConfigTCRTLRModeEn returns MCR & TCR_TLR_MASK, unshifted. */
  function SavedTcrTlr(mcr: bv32): bv32 { mcr & MCR_TCR_TLR_MASK }

  /**
   * UARTTCRTLRBitValRestore as written: the saved value is already in bit
   * position 6 but is shifted by 6 once more, so the bit always ends clear.
   */
  function TcrTlrRestoreAsWritten(mcr: bv32, saved: bv32): bv32
  {
    WriteField(mcr, MCR_TCR_TLR_MASK, MCR_TCR_TLR_SHIFT, saved)
  }

  lemma TcrTlrRestoreAsWrittenLosesBit()
    ensures SavedTcrTlr(0x40) == 0x40
    ensures TcrTlrRestoreAsWritten(0x40, SavedTcrTlr(0x40)) == 0
  {
  }

  /** Restore that brings the saved bit back to its field position. */
  function TcrTlrRestore(mcr: bv32, saved: bv32): (r: bv32)
    ensures r & !MCR_TCR_TLR_MASK == mcr & !MCR_TCR_TLR_MASK
    ensures r & MCR_TCR_TLR_MASK == saved & MCR_TCR_TLR_MASK
  {
    WriteField(mcr, MCR_TCR_TLR_MASK, MCR_TCR_TLR_SHIFT, saved >> MCR_TCR_TLR_SHIFT)
  }

  /** Saving and then restoring (corrected) gives MCR's TCR_TLR bit back. */
  lemma TcrTlrSaveRestore(before: bv32, during: bv32)
    ensures TcrTlrRestore(during, SavedTcrTlr(before)) & MCR_TCR_TLR_MASK == before & MCR_TCR_TLR_MASK
  {
  }

  // ---------------------------------------------------------------------
  // What UARTFIFOConfig leaves in FCR, SCR and TLR
  // ---------------------------------------------------------------------

  /**
   * Receive trigger: with granularity 1 the six-bit level is split between
   * TLR[7:4] and FCR[7:6] and SCR[7] is set; otherwise SCR[7] is clear and a
   * level that is one of the four FCR encodings goes to FCR, any other to TLR.
   */
  predicate RxTriggerApplied(rxGra: bv32, rxTrig: bv32, fcrV: bv32, scrV: bv32, tlrV: bv32)
  {
    if rxGra == TRIG_LVL_GRANULARITY_1 then
      scrV & SCR_RX_TRIG_GRANU1_MASK != 0 &&
      (((tlrV & TLR_RX_FIFO_TRIG_DMA_MASK) >> 4) << 2) | ((fcrV & FCR_RX_FIFO_TRIG_MASK) >> 6) == rxTrig & 0x3F
    else
      scrV & SCR_RX_TRIG_GRANU1_MASK == 0 &&
      if IsFcrRxTrigLevel(rxTrig)
      then fcrV & FCR_RX_FIFO_TRIG_MASK == rxTrig && tlrV & TLR_RX_FIFO_TRIG_DMA_MASK == 0
      else fcrV & FCR_RX_FIFO_TRIG_MASK == 0 && tlrV & TLR_RX_FIFO_TRIG_DMA_MASK == (rxTrig << 4) & 0xF0
  }

  /** Transmit trigger: as for receive, with SCR[6], TLR[3:0] and FCR[5:4]. */
  predicate TxTriggerApplied(txGra: bv32, txTrig: bv32, fcrV: bv32, scrV: bv32, tlrV: bv32)
  {
    if txGra == TRIG_LVL_GRANULARITY_1 then
      scrV & SCR_TX_TRIG_GRANU1_MASK != 0 &&
      ((tlrV & TLR_TX_FIFO_TRIG_DMA_MASK) << 2) | ((fcrV & FCR_TX_FIFO_TRIG_MASK) >> 4) == txTrig & 0x3F
    else
      scrV & SCR_TX_TRIG_GRANU1_MASK == 0 &&
      if IsFcrTxTrigLevel(txTrig)
      then fcrV & FCR_TX_FIFO_TRIG_MASK == txTrig && tlrV & TLR_TX_FIFO_TRIG_DMA_MASK == 0
      else fcrV & FCR_TX_FIFO_TRIG_MASK == 0 && tlrV & TLR_TX_FIFO_TRIG_DMA_MASK == txTrig & 0xF
  }

  /** DMA mode: through FCR[3] (SCR[0] clear) or through SCR[2:1] (SCR[0] set, FCR[3] left clear). */
  predicate DmaModeApplied(dmaEnPath: bv32, dmaMode: bv32, fcrV: bv32, scrV: bv32)
  {
    if dmaEnPath == DMA_EN_PATH_FCR then
      scrV & SCR_DMA_MODE_CTL_MASK == 0 && (fcrV & FCR_DMA_MODE_MASK) >> 3 == dmaMode & 1
    else
      scrV & SCR_DMA_MODE_CTL_MASK == 1 && (scrV & SCR_DMA_MODE_2_MASK) >> 1 == dmaMode & 3
      && fcrV & FCR_DMA_MODE_MASK == 0
  }

  /** The SCR bits the DMA-mode writes own: SCR[0] on the FCR path, SCR[2:0] on the SCR path. */
  function DmaScrOwned(dmaEnPath: bv32): bv32
  {
    if dmaEnPath == DMA_EN_PATH_FCR then SCR_DMA_MODE_CTL_MASK else 0x07
  }

  lemma ScrOwnedSplit(dmaEnPath: bv32)
    ensures DmaScrOwned(dmaEnPath) & !0x07 == 0
    ensures ScrOwned(dmaEnPath) == DmaScrOwned(dmaEnPath) | 0xC0
  {
  }

  /** The SCR bits UARTFIFOConfig owns: both granularity bits and the DMA-mode bits. */
  function ScrOwned(dmaEnPath: bv32): bv32
  {
    DmaScrOwned(dmaEnPath) | SCR_RX_TRIG_GRANU1_MASK | SCR_TX_TRIG_GRANU1_MASK
  }

  // Each register UARTFIFOConfig writes is computed on its own: the FCR value
  // it builds in a local, and the SCR and TLR fields it rewrites in place.
  // The writes to different registers do not interact, so each register's
  // final value is the composition of that register's writes in source order.

  /** Receive trigger's contribution to the FCR value. */
  function RxTrigFcr(rxGra: bv32, rxTrig: bv32, fcr: bv32): bv32
  {
    (if rxGra != TRIG_LVL_GRANULARITY_1 then fcr & !FCR_RX_FIFO_TRIG_MASK else fcr)
      | ((if rxGra != TRIG_LVL_GRANULARITY_1 then (if IsFcrRxTrigLevel(rxTrig) then rxTrig else 0)
          else GranularityOneSplit(rxTrig).1 << FCR_RX_FIFO_TRIG_SHIFT) & FCR_RX_FIFO_TRIG_MASK)
  }

  /** Receive trigger's write of SCR[7]: set with granularity 1, cleared otherwise. */
  function RxTrigScr(rxGra: bv32, scr: bv32): bv32
  {
    WriteField(scr, SCR_RX_TRIG_GRANU1_MASK, SCR_RX_TRIG_GRANU1_SHIFT, if rxGra != TRIG_LVL_GRANULARITY_1 then 0 else 1)
  }

  /**
   * Receive trigger's writes of TLR[7:4]. Outside granularity 1 the source
   * clears the field and then, for a level FCR cannot hold, writes it; the
   * two writes are folded into one (TlrClearThenWrite shows they agree).
   */
  function RxTrigTlr(rxGra: bv32, rxTrig: bv32, tlr: bv32): bv32
  {
    WriteField(tlr, TLR_RX_FIFO_TRIG_DMA_MASK, TLR_RX_FIFO_TRIG_DMA_SHIFT,
               if rxGra == TRIG_LVL_GRANULARITY_1 then GranularityOneSplit(rxTrig).0
               else if IsFcrRxTrigLevel(rxTrig) then 0 else rxTrig)
  }

  /** Clearing a TLR field and then writing it leaves what the write alone leaves. */
  lemma TlrClearThenWrite(tlr: bv32, v: bv32)
    ensures WriteField(WriteField(tlr, TLR_RX_FIFO_TRIG_DMA_MASK, TLR_RX_FIFO_TRIG_DMA_SHIFT, 0), TLR_RX_FIFO_TRIG_DMA_MASK, TLR_RX_FIFO_TRIG_DMA_SHIFT, v)
         == WriteField(tlr, TLR_RX_FIFO_TRIG_DMA_MASK, TLR_RX_FIFO_TRIG_DMA_SHIFT, v)
    ensures WriteField(WriteField(tlr, TLR_TX_FIFO_TRIG_DMA_MASK, 0, 0), TLR_TX_FIFO_TRIG_DMA_MASK, 0, v)
         == WriteField(tlr, TLR_TX_FIFO_TRIG_DMA_MASK, 0, v)
  {
  }

  /** Transmit trigger's contribution to the FCR value. */
  function TxTrigFcr(txGra: bv32, txTrig: bv32, fcr: bv32): bv32
  {
    (if txGra != TRIG_LVL_GRANULARITY_1 then fcr & !FCR_TX_FIFO_TRIG_MASK else fcr)
      | ((if txGra != TRIG_LVL_GRANULARITY_1 then (if IsFcrTxTrigLevel(txTrig) then txTrig else 0)
          else GranularityOneSplit(txTrig).1 << FCR_TX_FIFO_TRIG_SHIFT) & FCR_TX_FIFO_TRIG_MASK)
  }

  /** Transmit trigger's write of SCR[6]: set with granularity 1, cleared otherwise. */
  function TxTrigScr(txGra: bv32, scr: bv32): bv32
  {
    WriteField(scr, SCR_TX_TRIG_GRANU1_MASK, SCR_TX_TRIG_GRANU1_SHIFT, if txGra != TRIG_LVL_GRANULARITY_1 then 0 else 1)
  }

  /** Transmit trigger's writes of TLR[3:0], folded as for the receive trigger. */
  function TxTrigTlr(txGra: bv32, txTrig: bv32, tlr: bv32): bv32
  {
    WriteField(tlr, TLR_TX_FIFO_TRIG_DMA_MASK, 0,
               if txGra == TRIG_LVL_GRANULARITY_1 then GranularityOneSplit(txTrig).0
               else if IsFcrTxTrigLevel(txTrig) then 0 else txTrig)
  }

  /** DMA mode's contribution to the FCR value (FCR path only). */
  function DmaFcr(dmaEnPath: bv32, dmaMode: bv32, fcr: bv32): bv32
  {
    if dmaEnPath == DMA_EN_PATH_FCR then (fcr & !FCR_DMA_MODE_MASK) | ((dmaMode & 1) << FCR_DMA_MODE_SHIFT)
    else fcr
  }

  /** DMA mode's writes of SCR[0] and, on the SCR path, SCR[2:1]. */
  function DmaScr(dmaEnPath: bv32, dmaMode: bv32, scr: bv32): bv32
  {
    if dmaEnPath == DMA_EN_PATH_FCR then WriteField(scr, SCR_DMA_MODE_CTL_MASK, 0, 0)
    else WriteField(WriteField(scr, SCR_DMA_MODE_CTL_MASK, 0, 1), SCR_DMA_MODE_2_MASK, SCR_DMA_MODE_2_SHIFT, dmaMode & 3)
  }

  /** FCR, SCR and TLR as UARTFIFOConfig leaves them. */
  datatype FifoRegs = FifoRegs(fcr: bv32, scr: bv32, tlr: bv32)

  /** The FCR value UARTFIFOConfig builds: FIFO_EN, the triggers, the DMA mode, then the clear bits. */
  function FifoConfigFcr(c: FifoConfig): bv32
  {
    var fcr := DmaFcr(c.dmaEnPath, c.dmaMode, TxTrigFcr(c.txGra, c.txTrig, RxTrigFcr(c.rxGra, c.rxTrig, FCR_FIFO_EN_MASK)));
    fcr | (c.rxClr << FCR_RX_FIFO_CLEAR_SHIFT) | (c.txClr << FCR_TX_FIFO_CLEAR_SHIFT)
  }

  /** SCR after UARTFIFOConfig's three SCR writes. */
  function FifoConfigScr(c: FifoConfig, scr: bv32): bv32
  {
    DmaScr(c.dmaEnPath, c.dmaMode, TxTrigScr(c.txGra, RxTrigScr(c.rxGra, scr)))
  }

  /** TLR after UARTFIFOConfig's TLR writes. */
  function FifoConfigTlr(c: FifoConfig, tlr: bv32): bv32
  {
    TxTrigTlr(c.txGra, c.txTrig, RxTrigTlr(c.rxGra, c.rxTrig, tlr))
  }

  /** The FCR value UARTFIFOConfig computes and the SCR and TLR it leaves, from the old SCR and TLR. */
  function FifoConfigRegs(c: FifoConfig, scr: bv32, tlr: bv32): FifoRegs
  {
    FifoRegs(FifoConfigFcr(c), FifoConfigScr(c, scr), FifoConfigTlr(c, tlr))
  }

  // Frames: each write touches only its own field.

  lemma RxTrigFcrFrame(rxGra: bv32, rxTrig: bv32, fcr: bv32)
    ensures RxTrigFcr(rxGra, rxTrig, fcr) & !FCR_RX_FIFO_TRIG_MASK == fcr & !FCR_RX_FIFO_TRIG_MASK
  {
    if rxGra != TRIG_LVL_GRANULARITY_1 { } else { }
  }

  lemma TxTrigFcrFrame(txGra: bv32, txTrig: bv32, fcr: bv32)
    ensures TxTrigFcr(txGra, txTrig, fcr) & !FCR_TX_FIFO_TRIG_MASK == fcr & !FCR_TX_FIFO_TRIG_MASK
  {
    if txGra != TRIG_LVL_GRANULARITY_1 { } else { }
  }

  lemma DmaFcrFrame(dmaEnPath: bv32, dmaMode: bv32, fcr: bv32)
    ensures DmaFcr(dmaEnPath, dmaMode, fcr) & !FCR_DMA_MODE_MASK == fcr & !FCR_DMA_MODE_MASK
  {
    if dmaEnPath == DMA_EN_PATH_FCR { } else { }
  }

  lemma RxTrigScrFrame(rxGra: bv32, scr: bv32)
    ensures RxTrigScr(rxGra, scr) & !SCR_RX_TRIG_GRANU1_MASK == scr & !SCR_RX_TRIG_GRANU1_MASK
  {
  }

  lemma TxTrigScrFrame(txGra: bv32, scr: bv32)
    ensures TxTrigScr(txGra, scr) & !SCR_TX_TRIG_GRANU1_MASK == scr & !SCR_TX_TRIG_GRANU1_MASK
  {
  }

  lemma DmaScrFrame(dmaEnPath: bv32, dmaMode: bv32, scr: bv32)
    ensures DmaScr(dmaEnPath, dmaMode, scr) & !DmaScrOwned(dmaEnPath) == scr & !DmaScrOwned(dmaEnPath)
  {
    if dmaEnPath == DMA_EN_PATH_FCR { } else { }
  }

  lemma RxTrigTlrFrame(rxGra: bv32, rxTrig: bv32, tlr: bv32)
    ensures RxTrigTlr(rxGra, rxTrig, tlr) & !TLR_RX_FIFO_TRIG_DMA_MASK == tlr & !TLR_RX_FIFO_TRIG_DMA_MASK
  {
  }

  lemma TxTrigTlrFrame(txGra: bv32, txTrig: bv32, tlr: bv32)
    ensures TxTrigTlr(txGra, txTrig, tlr) & !TLR_TX_FIFO_TRIG_DMA_MASK == tlr & !TLR_TX_FIFO_TRIG_DMA_MASK
  {
  }

  // What each trigger path places in its fields.

  lemma RxTriggerPlaced(rxGra: bv32, rxTrig: bv32, fcr: bv32, scr: bv32, tlr: bv32)
    requires fcr & FCR_RX_FIFO_TRIG_MASK == 0
    ensures RxTriggerApplied(rxGra, rxTrig, RxTrigFcr(rxGra, rxTrig, fcr), RxTrigScr(rxGra, scr), RxTrigTlr(rxGra, rxTrig, tlr))
  {
    if rxGra == TRIG_LVL_GRANULARITY_1 { } else if IsFcrRxTrigLevel(rxTrig) { } else { }
  }

  lemma TxTriggerPlaced(txGra: bv32, txTrig: bv32, fcr: bv32, scr: bv32, tlr: bv32)
    requires fcr & FCR_TX_FIFO_TRIG_MASK == 0
    ensures TxTriggerApplied(txGra, txTrig, TxTrigFcr(txGra, txTrig, fcr), TxTrigScr(txGra, scr), TxTrigTlr(txGra, txTrig, tlr))
  {
    if txGra == TRIG_LVL_GRANULARITY_1 { } else if IsFcrTxTrigLevel(txTrig) { } else { }
  }

  lemma DmaModePlaced(dmaEnPath: bv32, dmaMode: bv32, fcr: bv32, scr: bv32)
    requires fcr & FCR_DMA_MODE_MASK == 0
    ensures DmaModeApplied(dmaEnPath, dmaMode, DmaFcr(dmaEnPath, dmaMode, fcr), DmaScr(dmaEnPath, dmaMode, scr))
  {
  }

  /**
   * UARTFIFOConfig's result: FIFO_EN always set, FCR within its eight bits,
   * both triggers and the DMA mode placed as the granularity and DMA path
   * select, the clear bits in FCR[2:1]; SCR and TLR change only in the
   * fields the configuration owns.
   */
  predicate FifoConfigApplied(c: FifoConfig, r: FifoRegs, scr: bv32, tlr: bv32)
  {
    && r.fcr & FCR_FIFO_EN_MASK == FCR_FIFO_EN_MASK && r.fcr & !0xFF == 0
    && (r.fcr >> FCR_RX_FIFO_CLEAR_SHIFT) & 1 == c.rxClr
    && (r.fcr >> FCR_TX_FIFO_CLEAR_SHIFT) & 1 == c.txClr
    && RxTriggerApplied(c.rxGra, c.rxTrig, r.fcr, r.scr, r.tlr)
    && TxTriggerApplied(c.txGra, c.txTrig, r.fcr, r.scr, r.tlr)
    && DmaModeApplied(c.dmaEnPath, c.dmaMode, r.fcr, r.scr)
    && r.scr & !ScrOwned(c.dmaEnPath) == scr & !ScrOwned(c.dmaEnPath) && r.tlr & !0xFF == tlr & !0xFF
  }

  // Composition over plain register values.

  lemma RxTriggerKept(rxGra: bv32, rxTrig: bv32, f: bv32, s: bv32, t: bv32, f': bv32, s': bv32, t': bv32)
    requires RxTriggerApplied(rxGra, rxTrig, f, s, t)
    requires f' & FCR_RX_FIFO_TRIG_MASK == f & FCR_RX_FIFO_TRIG_MASK
    requires s' & SCR_RX_TRIG_GRANU1_MASK == s & SCR_RX_TRIG_GRANU1_MASK
    requires t' & TLR_RX_FIFO_TRIG_DMA_MASK == t & TLR_RX_FIFO_TRIG_DMA_MASK
    ensures RxTriggerApplied(rxGra, rxTrig, f', s', t')
  {
  }

  lemma TxTriggerKept(txGra: bv32, txTrig: bv32, f: bv32, s: bv32, t: bv32, f': bv32, s': bv32, t': bv32)
    requires TxTriggerApplied(txGra, txTrig, f, s, t)
    requires f' & FCR_TX_FIFO_TRIG_MASK == f & FCR_TX_FIFO_TRIG_MASK
    requires s' & SCR_TX_TRIG_GRANU1_MASK == s & SCR_TX_TRIG_GRANU1_MASK
    requires t' & TLR_TX_FIFO_TRIG_DMA_MASK == t & TLR_TX_FIFO_TRIG_DMA_MASK
    ensures TxTriggerApplied(txGra, txTrig, f', s', t')
  {
  }

  /** The FCR value through its four stages: FIFO_EN, receive, transmit, DMA, clear bits. */
  lemma FcrStages(rxClr: bv32, txClr: bv32, f1: bv32, f2: bv32, f3: bv32, f: bv32)
    requires rxClr <= 1 && txClr <= 1
    requires f1 & !FCR_RX_FIFO_TRIG_MASK == FCR_FIFO_EN_MASK
    requires f2 & !FCR_TX_FIFO_TRIG_MASK == f1 & !FCR_TX_FIFO_TRIG_MASK
    requires f3 & !FCR_DMA_MODE_MASK == f2 & !FCR_DMA_MODE_MASK
    requires f == f3 | (rxClr << FCR_RX_FIFO_CLEAR_SHIFT) | (txClr << FCR_TX_FIFO_CLEAR_SHIFT)
    ensures f1 & FCR_TX_FIFO_TRIG_MASK == 0 && f2 & FCR_DMA_MODE_MASK == 0
    ensures f & FCR_RX_FIFO_TRIG_MASK == f1 & FCR_RX_FIFO_TRIG_MASK
    ensures f & FCR_TX_FIFO_TRIG_MASK == f2 & FCR_TX_FIFO_TRIG_MASK
    ensures f & FCR_DMA_MODE_MASK == f3 & FCR_DMA_MODE_MASK
    ensures f & FCR_FIFO_EN_MASK == FCR_FIFO_EN_MASK && f & !0xFF == 0
    ensures (f >> FCR_RX_FIFO_CLEAR_SHIFT) & 1 == rxClr && (f >> FCR_TX_FIFO_CLEAR_SHIFT) & 1 == txClr
  {
  }

  /** SCR through its three stages. */
  lemma ScrStages(s0: bv32, s1: bv32, s2: bv32, s3: bv32, owned: bv32)
    requires s1 & !SCR_RX_TRIG_GRANU1_MASK == s0 & !SCR_RX_TRIG_GRANU1_MASK
    requires s2 & !SCR_TX_TRIG_GRANU1_MASK == s1 & !SCR_TX_TRIG_GRANU1_MASK
    requires s3 & !owned == s2 & !owned && owned & !0x07 == 0
    ensures s3 & !(owned | 0xC0) == s0 & !(owned | 0xC0)
    ensures s3 & SCR_RX_TRIG_GRANU1_MASK == s1 & SCR_RX_TRIG_GRANU1_MASK
    ensures s3 & SCR_TX_TRIG_GRANU1_MASK == s2 & SCR_TX_TRIG_GRANU1_MASK
  {
  }

  /** TLR through its two stages. */
  lemma TlrStages(t0: bv32, t1: bv32, t2: bv32)
    requires t1 & !TLR_RX_FIFO_TRIG_DMA_MASK == t0 & !TLR_RX_FIFO_TRIG_DMA_MASK
    requires t2 & !TLR_TX_FIFO_TRIG_DMA_MASK == t1 & !TLR_TX_FIFO_TRIG_DMA_MASK
    ensures t2 & !0xFF == t0 & !0xFF
    ensures t2 & TLR_RX_FIFO_TRIG_DMA_MASK == t1 & TLR_RX_FIFO_TRIG_DMA_MASK
  {
  }

  /** UARTFIFOConfig's register values satisfy FifoConfigApplied for every decoded configuration word. */
  lemma {:induction false} FifoConfigRegsSpec(fifoConfig: bv32, scr: bv32, tlr: bv32)
    ensures var c := FifoConfigDecode(fifoConfig);
      FifoConfigApplied(c, FifoConfigRegs(c, scr, tlr), scr, tlr)
  {
    var c := FifoConfigDecode(fifoConfig);
    assert c.rxClr == c.rxClr & 1 && c.txClr == c.txClr & 1;
    FifoConfigRegsCompose(c, scr, tlr);
  }

  /** FCR: FIFO_EN set, eight bits wide, the clear bits in FCR[2:1], FCR[3] clear on the SCR DMA path. */
  lemma {:induction false} FifoConfigFcrBits(c: FifoConfig)
    requires c.rxClr <= 1 && c.txClr <= 1
    ensures var f := FifoConfigFcr(c);
      && f & FCR_FIFO_EN_MASK == FCR_FIFO_EN_MASK && f & !0xFF == 0
      && (f >> FCR_RX_FIFO_CLEAR_SHIFT) & 1 == c.rxClr && (f >> FCR_TX_FIFO_CLEAR_SHIFT) & 1 == c.txClr
  {
    var f1 := RxTrigFcr(c.rxGra, c.rxTrig, FCR_FIFO_EN_MASK);
    var f2 := TxTrigFcr(c.txGra, c.txTrig, f1);
    var f3 := DmaFcr(c.dmaEnPath, c.dmaMode, f2);
    RxTrigFcrFrame(c.rxGra, c.rxTrig, FCR_FIFO_EN_MASK);
    TxTrigFcrFrame(c.txGra, c.txTrig, f1);
    DmaFcrFrame(c.dmaEnPath, c.dmaMode, f2);
    FcrStages(c.rxClr, c.txClr, f1, f2, f3, FifoConfigFcr(c));
  }

  /** SCR keeps every bit outside the fields UARTFIFOConfig owns. */
  lemma FifoConfigScrFrame(c: FifoConfig, scr: bv32)
    ensures FifoConfigScr(c, scr) & !ScrOwned(c.dmaEnPath) == scr & !ScrOwned(c.dmaEnPath)
  {
    if c.dmaEnPath == DMA_EN_PATH_FCR { } else { }
  }

  /** TLR keeps every bit above its two trigger fields. */
  lemma FifoConfigTlrFrame(c: FifoConfig, tlr: bv32)
    ensures FifoConfigTlr(c, tlr) & !0xFF == tlr & !0xFF
  {
  }

  /** The trigger fields of FCR are those the trigger writes left. */
  lemma {:induction false} FifoConfigFcrTriggers(c: FifoConfig)
    requires c.rxClr <= 1 && c.txClr <= 1
    ensures var f1 := RxTrigFcr(c.rxGra, c.rxTrig, FCR_FIFO_EN_MASK);
      && f1 & FCR_TX_FIFO_TRIG_MASK == 0
      && FifoConfigFcr(c) & FCR_RX_FIFO_TRIG_MASK == f1 & FCR_RX_FIFO_TRIG_MASK
      && FifoConfigFcr(c) & FCR_TX_FIFO_TRIG_MASK == TxTrigFcr(c.txGra, c.txTrig, f1) & FCR_TX_FIFO_TRIG_MASK
  {
    var f1 := RxTrigFcr(c.rxGra, c.rxTrig, FCR_FIFO_EN_MASK);
    var f2 := TxTrigFcr(c.txGra, c.txTrig, f1);
    var f3 := DmaFcr(c.dmaEnPath, c.dmaMode, f2);
    RxTrigFcrFrame(c.rxGra, c.rxTrig, FCR_FIFO_EN_MASK);
    TxTrigFcrFrame(c.txGra, c.txTrig, f1);
    DmaFcrFrame(c.dmaEnPath, c.dmaMode, f2);
    FcrStages(c.rxClr, c.txClr, f1, f2, f3, FifoConfigFcr(c));
  }

  /** SCR's receive granularity bit is the one the receive write left. */
  lemma FifoConfigScrRxBit(c: FifoConfig, scr: bv32)
    ensures FifoConfigScr(c, scr) & SCR_RX_TRIG_GRANU1_MASK == RxTrigScr(c.rxGra, scr) & SCR_RX_TRIG_GRANU1_MASK
  {
  }

  /** SCR's transmit granularity bit is the one the transmit write left. */
  lemma {:induction false} FifoConfigScrTxBit(c: FifoConfig, scr: bv32)
    ensures var s2 := TxTrigScr(c.txGra, RxTrigScr(c.rxGra, scr));
      FifoConfigScr(c, scr) & SCR_TX_TRIG_GRANU1_MASK == s2 & SCR_TX_TRIG_GRANU1_MASK
  {
    var s2 := TxTrigScr(c.txGra, RxTrigScr(c.rxGra, scr));
    DmaScrFrame(c.dmaEnPath, c.dmaMode, s2);
  }

  /** The receive field of TLR survives the transmit write. */
  lemma {:induction false} FifoConfigTlrTriggers(c: FifoConfig, tlr: bv32)
    ensures FifoConfigTlr(c, tlr) & TLR_RX_FIFO_TRIG_DMA_MASK == RxTrigTlr(c.rxGra, c.rxTrig, tlr) & TLR_RX_FIFO_TRIG_DMA_MASK
  {
    var t1 := RxTrigTlr(c.rxGra, c.rxTrig, tlr);
    RxTrigTlrFrame(c.rxGra, c.rxTrig, tlr);
    TxTrigTlrFrame(c.txGra, c.txTrig, t1);
    TlrStages(tlr, t1, FifoConfigTlr(c, tlr));
  }

  /** The receive trigger survives the later writes. */
  lemma {:induction false} FifoConfigRxPlaced(c: FifoConfig, scr: bv32, tlr: bv32)
    requires c.rxClr <= 1 && c.txClr <= 1
    ensures RxTriggerApplied(c.rxGra, c.rxTrig, FifoConfigFcr(c), FifoConfigScr(c, scr), FifoConfigTlr(c, tlr))
  {
    if c.rxGra == TRIG_LVL_GRANULARITY_1 { } else if IsFcrRxTrigLevel(c.rxTrig) { } else { }
    FifoConfigFcrTriggers(c);
    FifoConfigScrRxBit(c, scr);
    FifoConfigTlrTriggers(c, tlr);
    RxTriggerPlaced(c.rxGra, c.rxTrig, FCR_FIFO_EN_MASK, scr, tlr);
    RxTriggerKept(c.rxGra, c.rxTrig, RxTrigFcr(c.rxGra, c.rxTrig, FCR_FIFO_EN_MASK), RxTrigScr(c.rxGra, scr),
                  RxTrigTlr(c.rxGra, c.rxTrig, tlr), FifoConfigFcr(c), FifoConfigScr(c, scr), FifoConfigTlr(c, tlr));
  }

  /** The transmit trigger survives the later writes. */
  lemma {:induction false} FifoConfigTxPlaced(c: FifoConfig, scr: bv32, tlr: bv32)
    requires c.rxClr <= 1 && c.txClr <= 1
    ensures TxTriggerApplied(c.txGra, c.txTrig, FifoConfigFcr(c), FifoConfigScr(c, scr), FifoConfigTlr(c, tlr))
  {
    FifoConfigFcrTriggers(c);
    FifoConfigScrTxBit(c, scr);
    var f1 := RxTrigFcr(c.rxGra, c.rxTrig, FCR_FIFO_EN_MASK);
    var s1 := RxTrigScr(c.rxGra, scr);
    var t1 := RxTrigTlr(c.rxGra, c.rxTrig, tlr);
    TxTriggerPlaced(c.txGra, c.txTrig, f1, s1, t1);
    TxTriggerKept(c.txGra, c.txTrig, TxTrigFcr(c.txGra, c.txTrig, f1), TxTrigScr(c.txGra, s1), FifoConfigTlr(c, tlr),
                  FifoConfigFcr(c), FifoConfigScr(c, scr), FifoConfigTlr(c, tlr));
  }

  /** The DMA mode survives the clear bits. */
  lemma {:induction false} FifoConfigDmaPlaced(c: FifoConfig, scr: bv32)
    requires c.rxClr <= 1 && c.txClr <= 1
    ensures DmaModeApplied(c.dmaEnPath, c.dmaMode, FifoConfigFcr(c), FifoConfigScr(c, scr))
  {
    var f1 := RxTrigFcr(c.rxGra, c.rxTrig, FCR_FIFO_EN_MASK);
    var f2 := TxTrigFcr(c.txGra, c.txTrig, f1);
    var f3 := DmaFcr(c.dmaEnPath, c.dmaMode, f2);
    RxTrigFcrFrame(c.rxGra, c.rxTrig, FCR_FIFO_EN_MASK);
    TxTrigFcrFrame(c.txGra, c.txTrig, f1);
    DmaFcrFrame(c.dmaEnPath, c.dmaMode, f2);
    FcrStages(c.rxClr, c.txClr, f1, f2, f3, FifoConfigFcr(c));
    var s2 := TxTrigScr(c.txGra, RxTrigScr(c.rxGra, scr));
    DmaModePlaced(c.dmaEnPath, c.dmaMode, f2, s2);
  }

  lemma FifoConfigRegsCompose(c: FifoConfig, scr: bv32, tlr: bv32)
    requires c.rxClr <= 1 && c.txClr <= 1
    ensures FifoConfigApplied(c, FifoConfigRegs(c, scr, tlr), scr, tlr)
  {
    FifoConfigFcrBits(c);
    FifoConfigScrFrame(c, scr);
    FifoConfigTlrFrame(c, tlr);
    FifoConfigRxPlaced(c, scr, tlr);
    FifoConfigTxPlaced(c, scr, tlr);
    FifoConfigDmaPlaced(c, scr);
  }

  /** MCR[6] set for the configuration and restored (corrected) gives MCR back. */
  lemma McrSaveRestore(mcr: bv32)
    ensures TcrTlrRestore(mcr | MCR_TCR_TLR_MASK, SavedTcrTlr(mcr)) == mcr
  {
  }

  /** Bit 4 (EFR[4], IER[4]) overwritten and then written back with its saved value gives the register back. */
  lemma Bit4SaveRestore(reg: bv32, v: bv32)
    ensures WriteField(WriteField(reg, 0x10, 4, v), 0x10, 4, ReadField(reg, 0x10, 4)) == reg
  {
  }

  /** EFR[4] set for the configuration and restored gives EFR back. */
  lemma EfrSaveRestore(efr: bv32)
    ensures WriteField(efr | EFR_ENHANCED_EN_MASK, EFR_ENHANCED_EN_MASK, EFR_ENHANCED_EN_SHIFT,
                       (efr & EFR_ENHANCED_EN_MASK) >> EFR_ENHANCED_EN_SHIFT) == efr
  {
  }

  // ---------------------------------------------------------------------
  // The register file and the driver's read-modify-write sequences
  // ---------------------------------------------------------------------

  class UartRegs {
    var lcr: bv32
    var efr: bv32
    var ier: bv32
    var mcr: bv32
    var fcr: bv32
    var scr: bv32
    var tlr: bv32
    var tcr: bv32
    var wer: bv32
    var dll: bv32
    var dlh: bv32
    var mdr1: bv32

    constructor (lcr0: bv32, efr0: bv32, ier0: bv32, mcr0: bv32, mdr10: bv32)
      ensures lcr == lcr0 && efr == efr0 && ier == ier0 && mcr == mcr0 && mdr1 == mdr10
      ensures fcr == 0 && scr == 0 && tlr == 0 && tcr == 0 && wer == 0 && dll == 0 && dlh == 0
    {
      lcr, efr, ier, mcr, mdr1 := lcr0, efr0, ier0, mcr0, mdr10;
      fcr, scr, tlr, tcr, wer, dll, dlh := 0, 0, 0, 0, 0, 0, 0;
    }

    /** The 14-bit divisor held in DLL/DLH. */
    function LatchedDivisor(): (d: bv32)
      reads this
      ensures d & !0x3FFF == 0
    {
      (dll & 0xFF) | ((dlh & 0x3F) << 8)
    }

    /** UARTParityModeGet. */
    function ParityModeGet(): (p: bv32)
      reads this
      ensures p & !LCR_PARITY_MASK == 0
      ensures p == lcr & (LCR_PARITY_TYPE2_MASK | LCR_PARITY_TYPE1_MASK | LCR_PARITY_EN_MASK)
    {
      lcr & LCR_PARITY_MASK
    }

    /** UARTOperatingModeSelect: returns the old mode and sets MDR1[2:0]. */
    method OperatingModeSelect(modeFlag: bv32) returns (operMode: bv32)
      modifies this`mdr1
      ensures operMode == old(mdr1) & MDR1_MODE_SELECT_MASK
      ensures mdr1 == WriteField(old(mdr1), MDR1_MODE_SELECT_MASK, 0, modeFlag)
    {
      operMode := mdr1 & MDR1_MODE_SELECT_MASK;
      mdr1 := WriteField(mdr1, MDR1_MODE_SELECT_MASK, 0, modeFlag);
    }

    /**
     * UARTRegConfigModeEnable: returns the LCR value from before the call.
     * Modes A and B write the flag's low byte, operational mode keeps only
     * LCR[6:0]; any other flag leaves LCR alone.
     */
    method RegConfigModeEnable(modeFlag: bv32) returns (lcrRegValue: bv32)
      modifies this`lcr
      ensures lcrRegValue == old(lcr)
      ensures modeFlag == REG_CONFIG_MODE_A || modeFlag == REG_CONFIG_MODE_B ==> lcr == modeFlag & 0xFF
      ensures modeFlag == REG_OPERATIONAL_MODE ==> lcr == old(lcr) & 0x7F && lcr & LCR_DIV_EN_MASK == 0
      ensures (modeFlag != REG_CONFIG_MODE_A && modeFlag != REG_CONFIG_MODE_B &&
               modeFlag != REG_OPERATIONAL_MODE) ==> lcr == old(lcr)
    {
      lcrRegValue := lcr;
      if modeFlag == REG_CONFIG_MODE_A || modeFlag == REG_CONFIG_MODE_B {
        lcr := modeFlag & 0xFF;
      } else if modeFlag == REG_OPERATIONAL_MODE {
        lcr := lcr & 0x7F;
      }
    }

    /** UARTLineCharacConfig: replaces only CHAR_LENGTH, NB_STOP and the parity bits. */
    method LineCharacConfig(wLenStbFlag: bv32, parityFlag: bv32)
      modifies this`lcr
      ensures lcr & !0x3F == old(lcr) & !0x3F
      ensures lcr & (LCR_NB_STOP_MASK | LCR_CHAR_LENGTH_MASK) == wLenStbFlag & (LCR_NB_STOP_MASK | LCR_CHAR_LENGTH_MASK)
      ensures ParityModeGet() == parityFlag & LCR_PARITY_MASK
    {
      var v := lcr;
      v := v & !(LCR_NB_STOP_MASK | LCR_CHAR_LENGTH_MASK);
      v := v | (wLenStbFlag & (LCR_NB_STOP_MASK | LCR_CHAR_LENGTH_MASK));
      v := v & !(LCR_PARITY_TYPE2_MASK | LCR_PARITY_TYPE1_MASK | LCR_PARITY_EN_MASK);
      v := v | (parityFlag & (LCR_PARITY_TYPE2_MASK | LCR_PARITY_TYPE1_MASK | LCR_PARITY_EN_MASK));
      lcr := v;
    }

    /** UARTParityModeSet: only the three parity bits change; Get returns them. */
    method ParityModeSet(parityFlag: bv32)
      modifies this`lcr
      ensures lcr & !LCR_PARITY_MASK == old(lcr) & !LCR_PARITY_MASK
      ensures ParityModeGet() == parityFlag & LCR_PARITY_MASK
    {
      var v := lcr & !(LCR_PARITY_TYPE2_MASK | LCR_PARITY_TYPE1_MASK | LCR_PARITY_EN_MASK);
      v := v | (parityFlag & (LCR_PARITY_TYPE2_MASK | LCR_PARITY_TYPE1_MASK | LCR_PARITY_EN_MASK));
      lcr := v;
    }

    /** UARTEnhanFuncEnable: sets EFR[4], returns its old (masked) value, keeps LCR. */
    method EnhanFuncEnable() returns (enhanFnBitVal: bv32)
      modifies this`lcr, this`efr
      ensures enhanFnBitVal == old(efr) & EFR_ENHANCED_EN_MASK
      ensures efr == old(efr) | EFR_ENHANCED_EN_MASK
      ensures lcr == old(lcr)
    {
      var lcrRegValue := RegConfigModeEnable(REG_CONFIG_MODE_B);
      enhanFnBitVal := efr & EFR_ENHANCED_EN_MASK;
      efr := WriteField(efr, EFR_ENHANCED_EN_MASK, EFR_ENHANCED_EN_SHIFT, 1);
      lcr := lcrRegValue;
    }

    /** UARTEnhanFuncBitValRestore, given the masked value EnhanFuncEnable returned. */
    method EnhanFuncBitValRestore(enhanFnBitVal: bv32)
      modifies this`lcr, this`efr
      ensures efr == WriteField(old(efr), EFR_ENHANCED_EN_MASK, EFR_ENHANCED_EN_SHIFT, enhanFnBitVal >> EFR_ENHANCED_EN_SHIFT)
      ensures efr & EFR_ENHANCED_EN_MASK == enhanFnBitVal & EFR_ENHANCED_EN_MASK
      ensures lcr == old(lcr)
    {
      var lcrRegValue := RegConfigModeEnable(REG_CONFIG_MODE_B);
      efr := WriteField(efr, EFR_ENHANCED_EN_MASK, EFR_ENHANCED_EN_SHIFT, enhanFnBitVal >> EFR_ENHANCED_EN_SHIFT);
      lcr := lcrRegValue;
    }

    /** UARTSubConfigTCRTLRModeEn: sets MCR[6] and returns its old value unshifted. */
    method SubConfigTcrTlrModeEn() returns (tcrTlrValue: bv32)
      modifies this`lcr, this`efr, this`mcr
      ensures tcrTlrValue == SavedTcrTlr(old(mcr))
      ensures mcr == old(mcr) | MCR_TCR_TLR_MASK
      ensures lcr == old(lcr) && efr == old(efr)
    {
      var lcrRegValue := RegConfigModeEnable(REG_CONFIG_MODE_B);
      var enhanFnBitVal := ReadField(efr, EFR_ENHANCED_EN_MASK, EFR_ENHANCED_EN_SHIFT);
      efr := WriteField(efr, EFR_ENHANCED_EN_MASK, EFR_ENHANCED_EN_SHIFT, 1);
      lcr := lcrRegValue;
      lcrRegValue := RegConfigModeEnable(REG_CONFIG_MODE_A);
      tcrTlrValue := mcr & MCR_TCR_TLR_MASK;
      mcr := WriteField(mcr, MCR_TCR_TLR_MASK, MCR_TCR_TLR_SHIFT, 1);
      lcr := lcrRegValue;
      lcrRegValue := RegConfigModeEnable(REG_CONFIG_MODE_B);
      efr := WriteField(efr, EFR_ENHANCED_EN_MASK, EFR_ENHANCED_EN_SHIFT, enhanFnBitVal);
      lcr := lcrRegValue;
    }

    /** UARTTCRTLRBitValRestore exactly as written (see TcrTlrRestoreAsWritten). */
    method TcrTlrBitValRestoreAsWritten(tcrTlrBitVal: bv32)
      modifies this`lcr, this`efr, this`mcr
      ensures mcr == TcrTlrRestoreAsWritten(old(mcr), tcrTlrBitVal)
      ensures tcrTlrBitVal == SavedTcrTlr(tcrTlrBitVal) ==> mcr & MCR_TCR_TLR_MASK == 0
      ensures lcr == old(lcr) && efr == old(efr)
    {
      var lcrRegValue := RegConfigModeEnable(REG_CONFIG_MODE_B);
      var enhanFnBitVal := ReadField(efr, EFR_ENHANCED_EN_MASK, EFR_ENHANCED_EN_SHIFT);
      efr := WriteField(efr, EFR_ENHANCED_EN_MASK, EFR_ENHANCED_EN_SHIFT, 1);
      lcr := lcrRegValue;
      lcrRegValue := RegConfigModeEnable(REG_CONFIG_MODE_A);
      mcr := WriteField(mcr, MCR_TCR_TLR_MASK, MCR_TCR_TLR_SHIFT, tcrTlrBitVal);
      lcr := lcrRegValue;
      lcrRegValue := RegConfigModeEnable(REG_CONFIG_MODE_B);
      efr := WriteField(efr, EFR_ENHANCED_EN_MASK, EFR_ENHANCED_EN_SHIFT, enhanFnBitVal);
      lcr := lcrRegValue;
    }

    /** UARTTCRTLRBitValRestore with the saved value shifted back into place. */
    method TcrTlrBitValRestore(tcrTlrBitVal: bv32)
      modifies this`lcr, this`efr, this`mcr
      ensures mcr == TcrTlrRestore(old(mcr), tcrTlrBitVal)
      ensures lcr == old(lcr) && efr == old(efr)
    {
      var lcrRegValue := RegConfigModeEnable(REG_CONFIG_MODE_B);
      var enhanFnBitVal := ReadField(efr, EFR_ENHANCED_EN_MASK, EFR_ENHANCED_EN_SHIFT);
      efr := WriteField(efr, EFR_ENHANCED_EN_MASK, EFR_ENHANCED_EN_SHIFT, 1);
      lcr := lcrRegValue;
      lcrRegValue := RegConfigModeEnable(REG_CONFIG_MODE_A);
      mcr := WriteField(mcr, MCR_TCR_TLR_MASK, MCR_TCR_TLR_SHIFT, tcrTlrBitVal >> MCR_TCR_TLR_SHIFT);
      lcr := lcrRegValue;
      lcrRegValue := RegConfigModeEnable(REG_CONFIG_MODE_B);
      efr := WriteField(efr, EFR_ENHANCED_EN_MASK, EFR_ENHANCED_EN_SHIFT, enhanFnBitVal);
      lcr := lcrRegValue;
    }

    /**
     * UARTDivisorLatchWrite: DLL = d & 0xFF, DLH = (d & 0x3F00) >> 8; returns
     * the previous 14-bit divisor and restores LCR, EFR[4], IER sleep bit and
     * the MDR1 mode.
     */
    method DivisorLatchWrite(divisorValue: bv32) returns (divRegVal: bv32)
      modifies this`lcr, this`efr, this`ier, this`mdr1, this`dll, this`dlh
      ensures divRegVal == old(LatchedDivisor())
      ensures dll == divisorValue & 0xFF && dlh == (divisorValue & 0x3F00) >> 8
      ensures LatchedDivisor() == divisorValue & 0x3FFF
      ensures lcr == old(lcr) && efr == old(efr) && ier == old(ier) && mdr1 == old(mdr1)
    {
      var lcrRegValue := RegConfigModeEnable(REG_CONFIG_MODE_B);
      var enhanFnBitVal := ReadField(efr, EFR_ENHANCED_EN_MASK, EFR_ENHANCED_EN_SHIFT);
      efr := WriteField(efr, EFR_ENHANCED_EN_MASK, EFR_ENHANCED_EN_SHIFT, 1);
      lcr := lcrRegValue;
      divRegVal := DivisorLatchSleepOff(divisorValue);
      lcrRegValue := RegConfigModeEnable(REG_CONFIG_MODE_B);
      efr := WriteField(efr, EFR_ENHANCED_EN_MASK, EFR_ENHANCED_EN_SHIFT, enhanFnBitVal);
      lcr := lcrRegValue;
      Bit4SaveRestore(old(efr), 1);
    }

    /** UARTDivisorLatchWrite's middle part: IER[4] (sleep mode) cleared around the latch write and then restored. */
    method DivisorLatchSleepOff(divisorValue: bv32) returns (divRegVal: bv32)
      modifies this`lcr, this`ier, this`mdr1, this`dll, this`dlh
      ensures divRegVal == old(LatchedDivisor())
      ensures dll == divisorValue & 0xFF && dlh == (divisorValue & 0x3F00) >> 8
      ensures lcr == old(lcr) && ier == old(ier) && mdr1 == old(mdr1)
    {
      var lcrRegValue := RegConfigModeEnable(REG_OPERATIONAL_MODE);
      var sleepMdBitVal := ReadField(ier, IER_SLEEP_MODE_MASK, IER_SLEEP_MODE_SHIFT);
      ier := WriteField(ier, IER_SLEEP_MODE_MASK, IER_SLEEP_MODE_SHIFT, 0);
      lcr := lcrRegValue;
      divRegVal := DivisorLatchProgram(divisorValue);
      lcrRegValue := RegConfigModeEnable(REG_OPERATIONAL_MODE);
      ier := WriteField(ier, IER_SLEEP_MODE_MASK, IER_SLEEP_MODE_SHIFT, sleepMdBitVal);
      lcr := lcrRegValue;
      Bit4SaveRestore(old(ier), 0);
    }

    /** UARTDivisorLatchWrite's core: in configuration mode B with the UART disabled, read DLL/DLH and write them. */
    method DivisorLatchProgram(divisorValue: bv32) returns (divRegVal: bv32)
      modifies this`lcr, this`mdr1, this`dll, this`dlh
      ensures divRegVal == old(LatchedDivisor())
      ensures dll == divisorValue & 0xFF && dlh == (divisorValue & 0x3F00) >> 8
      ensures lcr == old(lcr) && mdr1 == old(mdr1)
    {
      var lcrRegValue := RegConfigModeEnable(REG_CONFIG_MODE_B);
      divRegVal := dll & 0xFF;
      divRegVal := divRegVal | ((dlh & 0x3F) << 8);
      var operMode := OperatingModeSelect(MDR1_MODE_SELECT_MASK);
      dll := divisorValue & 0xFF;
      dlh := (divisorValue & 0x3F00) >> 8;
      var _ := OperatingModeSelect(operMode);
      lcr := lcrRegValue;
    }

    /**
     * UARTFIFORegisterWrite: writes FCR with the divisor latch temporarily
     * zeroed; the divisor is written back through DivisorLatchWrite, which
     * keeps only its 14 bits.
     */
    method FifoRegisterWrite(fcrValue: bv32)
      modifies this`lcr, this`efr, this`ier, this`mdr1, this`dll, this`dlh, this`fcr
      ensures fcr == fcrValue
      ensures dll == old(dll) & 0xFF && dlh == old(dlh) & 0x3F
      ensures lcr == old(lcr) && efr == old(efr) && ier == old(ier) && mdr1 == old(mdr1)
    {
      var lcrRegValue := RegConfigModeEnable(REG_CONFIG_MODE_A);
      var divLatchRegVal := DivisorLatchWrite(0);
      var enhanFnBitVal := EnhanFuncEnable();
      fcr := fcrValue;
      EnhanFuncBitValRestore(enhanFnBitVal);
      var _ := DivisorLatchWrite(divLatchRegVal);
      lcr := lcrRegValue;
    }

    /**
     * UARTFIFOConfig.  The FCR value and the new SCR and TLR are those
     * FifoConfigRegs computes from the decoded word and the old SCR and TLR
     * (SCR and TLR are not touched before the trigger writes, so computing
     * them first changes nothing); FifoConfigRegsWrite then performs the
     * writes in the source's order.
     */
    method FifoConfigWrite(fifoConfig: bv32) returns (fcrValue: bv32)
      modifies this`lcr, this`efr, this`ier, this`mdr1, this`dll, this`dlh, this`fcr,
               this`mcr, this`scr, this`tlr
      ensures FifoRegs(fcrValue, scr, tlr) == FifoConfigRegs(FifoConfigDecode(fifoConfig), old(scr), old(tlr))
      ensures fcr == fcrValue
      ensures mcr == old(mcr) && lcr == old(lcr) && efr == old(efr) && ier == old(ier) && mdr1 == old(mdr1)
      ensures dll == old(dll) & 0xFF && dlh == old(dlh) & 0x3F
    {
      var regs := FifoConfigRegs(FifoConfigDecode(fifoConfig), scr, tlr);
      fcrValue := regs.fcr;
      FifoConfigRegsWrite(regs.fcr, regs.scr, regs.tlr);
    }

    /** UARTFIFOConfig's register traffic: EFR[4] set around the writes, then restored. */
    method FifoConfigRegsWrite(fcrValue: bv32, scrValue: bv32, tlrValue: bv32)
      modifies this`lcr, this`efr, this`ier, this`mdr1, this`dll, this`dlh, this`fcr,
               this`mcr, this`scr, this`tlr
      ensures fcr == fcrValue && scr == scrValue && tlr == tlrValue
      ensures mcr == old(mcr) && lcr == old(lcr) && efr == old(efr) && ier == old(ier) && mdr1 == old(mdr1)
      ensures dll == old(dll) & 0xFF && dlh == old(dlh) & 0x3F
    {
      var enhanFnBitVal := EnhanFuncEnable();
      FifoTcrTlrModeWrite(fcrValue, scrValue, tlrValue);
      EnhanFuncBitValRestore(enhanFnBitVal);
      EfrSaveRestore(old(efr));
    }

    /** The writes UARTFIFOConfig makes with MCR[6] set: SCR, TLR, then FCR through UARTFIFORegisterWrite. */
    method FifoTcrTlrModeWrite(fcrValue: bv32, scrValue: bv32, tlrValue: bv32)
      modifies this`lcr, this`efr, this`ier, this`mdr1, this`dll, this`dlh, this`fcr,
               this`mcr, this`scr, this`tlr
      ensures fcr == fcrValue && scr == scrValue && tlr == tlrValue
      ensures mcr == old(mcr) && lcr == old(lcr) && efr == old(efr) && ier == old(ier) && mdr1 == old(mdr1)
      ensures dll == old(dll) & 0xFF && dlh == old(dlh) & 0x3F
    {
      var tcrTlrBitVal := SubConfigTcrTlrModeEn();
      scr, tlr := scrValue, tlrValue;
      FifoRegisterWrite(fcrValue);
      TcrTlrBitValRestore(tcrTlrBitVal);
      McrSaveRestore(old(mcr));
    }

    /**
     * UARTIntEnable: with any of bits 4..7 in the flag, IER is first
     * overwritten with those bits (under EFR[4] enabled, restored after);
     * the low nibble is then ORed in.
     */
    method IntEnable(intFlag: bv32)
      modifies this`lcr, this`efr, this`ier
      ensures ier == (if intFlag & 0xF0 != 0 then intFlag & 0xF0 else old(ier)) | (intFlag & 0x0F)
      ensures lcr == old(lcr) && efr == old(efr)
    {
      if intFlag & 0xF0 > 0 {
        var lcrRegValue := RegConfigModeEnable(REG_CONFIG_MODE_B);
        var enhanFnBitVal := ReadField(efr, EFR_ENHANCED_EN_MASK, EFR_ENHANCED_EN_SHIFT);
        efr := WriteField(efr, EFR_ENHANCED_EN_MASK, EFR_ENHANCED_EN_SHIFT, 1);
        lcr := lcrRegValue;
        lcrRegValue := RegConfigModeEnable(REG_OPERATIONAL_MODE);
        ier := intFlag & 0xF0;
        lcr := lcrRegValue;
        lcrRegValue := RegConfigModeEnable(REG_CONFIG_MODE_B);
        efr := WriteField(efr, EFR_ENHANCED_EN_MASK, EFR_ENHANCED_EN_SHIFT, enhanFnBitVal);
        lcr := lcrRegValue;
      }
      ier := ier | (intFlag & 0x0F);
    }

    /** UARTIntDisable: clears exactly intFlag & 0xFF in IER. */
    method IntDisable(intFlag: bv32)
      modifies this`lcr, this`efr, this`ier
      ensures ier == old(ier) & !(intFlag & 0xFF)
      ensures lcr == old(lcr) && efr == old(efr)
    {
      var enhanFnBitVal: bv32 := 0;
      var lcrRegValue: bv32;
      if intFlag & 0xF0 > 0 {
        lcrRegValue := RegConfigModeEnable(REG_CONFIG_MODE_B);
        enhanFnBitVal := ReadField(efr, EFR_ENHANCED_EN_MASK, EFR_ENHANCED_EN_SHIFT);
        efr := WriteField(efr, EFR_ENHANCED_EN_MASK, EFR_ENHANCED_EN_SHIFT, 1);
        lcr := lcrRegValue;
      }
      lcrRegValue := RegConfigModeEnable(REG_OPERATIONAL_MODE);
      ier := ier & !(intFlag & 0xFF);
      lcr := lcrRegValue;
      if intFlag & 0xF0 > 0 {
        lcrRegValue := RegConfigModeEnable(REG_CONFIG_MODE_B);
        efr := WriteField(efr, EFR_ENHANCED_EN_MASK, EFR_ENHANCED_EN_SHIFT, enhanFnBitVal);
        lcr := lcrRegValue;
      }
    }

    /** UARTFlowCtrlTrigLvlConfig. */
    method FlowCtrlTrigLvlConfig(rtsHaltFlag: bv32, rtsStartFlag: bv32)
      modifies this`tcr
      ensures tcr == FlowCtrlTcrValue(rtsHaltFlag, rtsStartFlag)
    {
      var tcrValue := rtsHaltFlag & TCR_HALT_MASK;
      tcrValue := tcrValue | ((rtsStartFlag << 4) & TCR_START_MASK);
      tcr := tcrValue;
    }

    /** UARTModemControlSet. */
    method ModemControlSet(modeFlag: bv32)
      modifies this`mcr
      ensures mcr == ModemControlSetValue(old(mcr), modeFlag)
    {
      mcr := mcr | (modeFlag & MCR_MODEM_MASK);
    }

    /** UARTModemControlClear. */
    method ModemControlClear(modeFlag: bv32)
      modifies this`mcr
      ensures mcr == ModemControlClearValue(old(mcr), modeFlag)
    {
      mcr := mcr & !(modeFlag & MCR_MODEM_MASK);
    }

    /** UARTWakeUpEventsEnable. */
    method WakeUpEventsEnable(wakeUpFlag: bv32)
      modifies this`wer
      ensures wer == WakeUpEnableValue(old(wer), wakeUpFlag)
    {
      var werRegValue := wer;
      werRegValue := werRegValue | (wakeUpFlag & WER_EVENTS_MASK);
      wer := werRegValue;
    }

    /** UARTWakeUpEventsDisable. */
    method WakeUpEventsDisable(wakeUpFlag: bv32)
      modifies this`wer
      ensures wer == WakeUpDisableValue(old(wer), wakeUpFlag)
    {
      var werRegValue := wer;
      werRegValue := werRegValue & !(wakeUpFlag & WER_EVENTS_MASK);
      wer := werRegValue;
    }
  }
}
