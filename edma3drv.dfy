/*
 * EDMA3 driver: the state the driver works on and the bit layout of the
 * PaRAM words it reads and rewrites.
 *
 * The driver sits on top of the resource manager (module Edma3Rm): it
 * asks it for DMA / QDMA channels, PaRAM sets and TCCs, and keeps its own
 * per-logical-channel bookkeeping (edma3DrvChBoundRes: the PaRAM set, the
 * TCC and the trigger mode of each channel). The controller's PaRAM is
 * 512 sets of 8 32-bit words; the event-queue registers DMAQNUM (8 words,
 * one 4-bit slot per DMA channel) and QDMAQNUM (one word, one slot per
 * QDMA channel) are kept as well. One controller is modelled.
 */
module Edma3Drv {

  import opened Word32
  import opened Bitmap
  import opened Edma3Rm

  // ---------------------------------------------------------------------
  // Constants of edma3_drv.h

  /** Words per PaRAM set, and words of the whole PaRAM. */
  const SET_WORDS: nat := 8
  const PARAM_WORDS: nat := MAX_PARAM_SETS * SET_WORDS

  /** EDMA3_DRV_PaRAMEntry: the word index inside a PaRAM set. */
  const ENTRY_OPT: nat := 0
  const ENTRY_SRC: nat := 1
  const ENTRY_ACNT_BCNT: nat := 2
  const ENTRY_DST: nat := 3
  const ENTRY_SRC_DST_BIDX: nat := 4
  const ENTRY_LINK_BCNTRLD: nat := 5
  const ENTRY_SRC_DST_CIDX: nat := 6
  const ENTRY_CCNT: nat := 7

  /** EDMA3_DRV_PaRAMField. */
  const FIELD_OPT: int := 0
  const FIELD_SRCADDR: int := 1
  const FIELD_ACNT: int := 2
  const FIELD_BCNT: int := 3
  const FIELD_DESTADDR: int := 4
  const FIELD_SRCBIDX: int := 5
  const FIELD_DESTBIDX: int := 6
  const FIELD_LINKADDR: int := 7
  const FIELD_BCNTRELOAD: int := 8
  const FIELD_SRCCIDX: int := 9
  const FIELD_DESTCIDX: int := 10
  const FIELD_CCNT: int := 11

  /** Special logical channel and TCC numbers of requestChannel. */
  const DRV_DMA_CHANNEL_ANY: nat := 1002
  const DRV_QDMA_CHANNEL_ANY: nat := 1003
  const DRV_TCC_ANY: nat := 1004
  const DRV_LINK_CHANNEL: nat := 1005
  const DRV_LINK_CHANNEL_WITH_TCC: nat := 1006
  const DRV_QDMA_CHANNEL_0: nat := MAX_DMA_CH + MAX_PARAM_SETS
  const DRV_QDMA_CHANNEL_7: nat := DRV_QDMA_CHANNEL_0 + 7

  /** EDMA3_DRV_TrigMode. */
  const TRIG_MODE_MANUAL: nat := 0
  const TRIG_MODE_QDMA: nat := 1
  const TRIG_MODE_EVENT: nat := 2
  const TRIG_MODE_NONE: nat := 3

  /** EDMA3_DRV_AddrMode and EDMA3_DRV_FifoWidth (W8BIT .. W256BIT). */
  const ADDR_MODE_INCR: int := 0
  const ADDR_MODE_FIFO: int := 1
  const FIFO_WIDTH_MAX: int := 5

  /** getChannelStatus flags. */
  const CHANNEL_EVENT_PENDING: bv32 := 0x1
  const CHANNEL_XFER_COMPLETE: bv32 := 0x2
  const CHANNEL_ERR: bv32 := 0x4

  /** EDMA3_LLD_DRV_VERSION_ID. */
  const DRV_VERSION_ID: bv32 := 0x020C0118

  /**
   * Sizes the header does not show, as assumed here: 8 event queues and
   * 8 transfer controllers (EDMA3_MAX_EVT_QUE, EDMA3_MAX_TC), 8 DMAQNUM
   * words (8 channels each for 64 channels), 2 words of the hardware
   * event map.
   */
  const MAX_EVT_QUE: nat := 8
  const MAX_TC: nat := 8
  const DMAQNUM_WORDS: nat := 8
  const HW_EVT_WORDS: nat := 2

  /**
   * Limits of the index and count arguments (EDMA3_DRV_*_MAX_VAL /
   * _MIN_VAL), not shown by the header; assumed to be the ranges of the
   * 16-bit hardware fields: signed for the indices, unsigned for counts.
   */
  const IDX_MIN: int := -32768
  const IDX_MAX: int := 32767
  const CNT_MAX: nat := 0xFFFF

  // ---------------------------------------------------------------------
  // Results

  /** EDMA3_DRV_Result: the driver's own codes, or a code passed up from the resource manager. */
  datatype DrvStatus =
    | DrvOk
    | DmaChannelUnavail
    | QdmaChannelUnavail
    | TccUnavail
    | TccRegisterFail
    | AddressNotAligned
    | DrvInvalidParam
    | FifoWidthNotSupported
    | InstNotOpened
    | RmError(rmStatus: Status)
  {
    /** The numeric code: EDMA3_DRV_SOK is 0, the driver's errors count down from -128. */
    function Code(): (c: int)
      ensures this != DrvOk && !this.RmError? ==> -144 <= c <= -132
      ensures this == DrvOk ==> c == 0
    {
      match this
      case DrvOk => 0
      case DmaChannelUnavail => -132
      case QdmaChannelUnavail => -133
      case TccUnavail => -135
      case TccRegisterFail => -136
      case AddressNotAligned => -138
      case DrvInvalidParam => -139
      case FifoWidthNotSupported => -142
      case InstNotOpened => -144
      case RmError(s) => s.Code()
    }
  }

  /** A resource-manager result as the driver returns it. */
  function OfRm(s: Status): (r: DrvStatus)
    ensures (r == DrvOk) == (s == Ok)
    ensures r.Code() == s.Code()
  {
    if s == Ok then DrvOk else RmError(s)
  }

  // ---------------------------------------------------------------------
  // The driver state

  /**
   * The driver's part of EDMA3_DRV_GblConfigParams: the number of event
   * queues, the default burst size of each transfer controller, the
   * DMA channels tied to a hardware event (one bit per channel), and the
   * address of PaRAM set 0 (the link field holds the low half of a set's
   * address).
   */
  datatype DrvConfig = DrvConfig(numEvtQueue: nat, burstSize: seq<nat>, hwEvtMap: seq<bv32>, paramAddr: bv32)
  {
    predicate Valid()
    {
      numEvtQueue <= MAX_EVT_QUE && |burstSize| == MAX_TC && |hwEvtMap| == HW_EVT_WORDS
    }
  }

  /** One entry of edma3DrvChBoundRes; paRAMId -1 and tcc MAX_TCC mean none. */
  datatype DrvBinding = DrvBinding(paRAMId: int, tcc: nat, trigMode: nat)

  /**
   * The driver instance: the resource manager it calls and its handle
   * there, the channel bookkeeping, the PaRAM words, the event-queue
   * registers and the configuration. The resource manager's configuration
   * (counts, channel ranges, register block) is the controller's.
   */
  datatype Drv = Drv(
    rm: Rm, h: int, bound: seq<DrvBinding>, paRAM: seq<bv32>,
    dmaQNum: seq<bv32>, qdmaQNum: bv32, cfg: DrvConfig)
  {
    predicate WF()
    {
      rm.WF() && -1 <= h < MAX_RM_INSTANCES && |bound| == MAX_LOGICAL_CH &&
      |paRAM| == PARAM_WORDS && |dmaQNum| == DMAQNUM_WORDS && cfg.Valid()
    }

    /** The controller's register block exists (the channel ranges are then the computed ones). */
    predicate Regs()
    {
      rm.ctrl.cfg.hasGlobalRegs
    }

    /** Word `e` of PaRAM set `p`. */
    function Word(p: nat, e: nat): bv32
      requires WF() && p < MAX_PARAM_SETS && e < SET_WORDS
    {
      paRAM[SET_WORDS * p + e]
    }

    /** The state with word `e` of PaRAM set `p` replaced by `v`. */
    function WithWord(p: nat, e: nat, v: bv32): (r: Drv)
      requires WF() && p < MAX_PARAM_SETS && e < SET_WORDS
      ensures r.WF() && r.paRAM == paRAM[SET_WORDS * p + e := v]
      ensures r == this.(paRAM := r.paRAM)
    {
      this.(paRAM := paRAM[SET_WORDS * p + e := v])
    }
  }

  /** The index in the PaRAM of word `e` of set `p`. */
  function Slot(p: nat, e: nat): nat
  {
    SET_WORDS * p + e
  }

  /** `e` has the PaRAM words of `d` except possibly those at the indices in `changed`. */
  predicate PaRAMSameExcept(d: Drv, e: Drv, changed: set<nat>)
    requires d.WF() && e.WF()
  {
    forall i :: 0 <= i < PARAM_WORDS && i !in changed ==> e.paRAM[i] == d.paRAM[i]
  }

  /** Distinct (set, entry) pairs are distinct PaRAM indices. */
  lemma SlotsDiffer(p: nat, e: nat, q: nat, f: nat)
    requires e < SET_WORDS && f < SET_WORDS && (p != q || e != f)
    ensures Slot(p, e) != Slot(q, f)
  {
    if p < q {
      assert SET_WORDS * p + SET_WORDS <= SET_WORDS * q;
    } else if q < p {
      assert SET_WORDS * q + SET_WORDS <= SET_WORDS * p;
    }
  }

  /** Reading a PaRAM word after writing one: the written value at the same word, the old value elsewhere. */
  lemma WordAfterWrite(d: Drv, p: nat, e: nat, v: bv32, q: nat, f: nat)
    requires d.WF() && p < MAX_PARAM_SETS && e < SET_WORDS && q < MAX_PARAM_SETS && f < SET_WORDS
    ensures d.WithWord(p, e, v).Word(q, f) == if p == q && e == f then v else d.Word(q, f)
  {
    if p != q || e != f {
      SlotsDiffer(p, e, q, f);
    }
  }

  /** Result of an operation that changes the driver: new state and status. */
  datatype Change = Change(d: Drv, status: DrvStatus)

  /** Result of a read: status and the value written to the caller's variable (0 when not written). */
  datatype Read = Read(status: DrvStatus, value: bv32)

  /** A valid configuration keeps every channel range inside the bookkeeping table. */
  lemma RangesFit(d: Drv)
    requires d.WF() && d.Regs()
    ensures var g := d.rm.ctrl.ranges;
      g.dmaMax < MAX_DMA_CH && g.linkMin == g.dmaMax + 1 && g.qdmaMin == g.linkMax + 1 &&
      g.linkMax < DRV_QDMA_CHANNEL_0 && g.logMax == g.qdmaMax &&
      g.qdmaMax + 1 == g.qdmaMin + d.rm.ctrl.cfg.numQdma && g.logMax < MAX_LOGICAL_CH &&
      d.rm.ctrl.cfg.numParam <= MAX_PARAM_SETS && d.rm.ctrl.cfg.numTcc <= MAX_TCC
  {
    RangesContiguous(d.rm.ctrl.cfg);
  }

  /**
   * The PaRAM set bound to logical channel `lCh` can be used: the
   * register block exists, the channel is at most the highest logical
   * channel, and its bound paRAMId is a set below numPaRAMSets.
   */
  predicate HasSet(d: Drv, lCh: nat)
    requires d.WF()
  {
    d.Regs() && lCh <= d.rm.ctrl.ranges.logMax && lCh < MAX_LOGICAL_CH &&
    0 <= d.bound[lCh].paRAMId < d.rm.ctrl.cfg.numParam
  }

  /** The PaRAM set of a usable channel. */
  function SetOf(d: Drv, lCh: nat): (p: nat)
    requires d.WF() && HasSet(d, lCh)
    ensures p < d.rm.ctrl.cfg.numParam && p < MAX_PARAM_SETS
    ensures p == d.bound[lCh].paRAMId
  {
    RangesFit(d);
    d.bound[lCh].paRAMId
  }

  // ---------------------------------------------------------------------
  // Half-words of a PaRAM word

  function Low(w: bv32): bv32 { w & 0xFFFF }
  function High(w: bv32): bv32 { w >> 16 }

  /** The word with its low half replaced by the low 16 bits of `v`. */
  function WithLow(w: bv32, v: bv32): bv32
  {
    (w & 0xFFFF_0000) | (v & 0xFFFF)
  }

  /** The word with its high half replaced by the low 16 bits of `v`. */
  function WithHigh(w: bv32, v: bv32): bv32
  {
    (w & 0xFFFF) | (v << 16)
  }

  /** Each half-word write puts the low 16 bits of `v` in its half and keeps the other half. */
  lemma HalfWrites(w: bv32, v: bv32)
    ensures Low(WithLow(w, v)) == Low(v) && High(WithLow(w, v)) == High(w)
    ensures High(WithHigh(w, v)) == Low(v) && Low(WithHigh(w, v)) == Low(w)
  {
  }

  /** A word is given by its two halves. */
  lemma HalvesDetermine(a: bv32, b: bv32)
    requires Low(a) == Low(b) && High(a) == High(b)
    ensures a == b
  {
  }

  /** A C `int32_t` argument as the `uint32_t` it is cast to (two's complement). */
  function U32Of(x: int): bv32
    requires -0x8000_0000 <= x < 0x8000_0000
  {
    if x >= 0 then x as bv32 else (x + 0x1_0000_0000) as bv32
  }

  // ---------------------------------------------------------------------
  // OPT fields (bit positions of the EDMA3 channel controller's OPT word:
  // SAM bit 0, DAM bit 1, SYNCDIM bit 2, FWID bits 8-10, TCC bits 12-17,
  // TCINTEN 20, ITCINTEN 21, TCCHEN 22, ITCCHEN 23; the EDMA3_DRV_OPT_*
  // masks are not shown and are assumed to follow this layout)

  const OPT_SAM: bv32 := 0x1
  const OPT_DAM: bv32 := 0x2
  const OPT_SYNCDIM: bv32 := 0x4
  const OPT_FWID: bv32 := 0x700
  const OPT_TCC: bv32 := 0x3_F000
  const OPT_TCINTEN: bv32 := 0x10_0000
  const OPT_ITCINTEN: bv32 := 0x20_0000
  const OPT_TCCHEN: bv32 := 0x40_0000
  const OPT_ITCCHEN: bv32 := 0x80_0000

  /** EDMA3_DRV_OPT_TCC_GET_MASK. */
  function OptTcc(opt: bv32): bv32
  {
    (opt & OPT_TCC) >> 12
  }

  /** OPT with its TCC field set to the low 6 bits of `tcc`; no other bit changes. */
  function WithTcc(opt: bv32, tcc: bv32): bv32
  {
    (opt & !OPT_TCC) | ((tcc & 0x3F) << 12)
  }

  /** Writing the TCC field and reading it back gives the low 6 bits; the rest of OPT is kept. */
  lemma TccField(opt: bv32, tcc: bv32)
    ensures OptTcc(WithTcc(opt, tcc)) == tcc & 0x3F
    ensures WithTcc(opt, tcc) & !OPT_TCC == opt & !OPT_TCC
  {
  }

  /** The TCC field read from OPT is a 6-bit value. */
  lemma OptTccFits(opt: bv32)
    ensures OptTcc(opt) & 0x3F == OptTcc(opt)
    ensures OptTcc(opt) < 64
  {
  }

  /** OPT with the bits of `mask` set when `on`, cleared otherwise. */
  function WithFlag(opt: bv32, mask: bv32, on: bool): bv32
  {
    if on then opt | mask else opt & !mask
  }

  /** The masked bits end up all set or all clear; the others are kept. */
  lemma FlagField(opt: bv32, mask: bv32, on: bool)
    ensures WithFlag(opt, mask, on) & mask == (if on then mask else 0)
    ensures WithFlag(opt, mask, on) & !mask == opt & !mask
  {
  }

  // ---------------------------------------------------------------------
  // Event-queue registers: 3-bit queue numbers in 4-bit slots

  /** The queue number in slot `k` of a DMAQNUM / QDMAQNUM word. */
  function QueueIn(w: bv32, k: nat): bv32
    requires k < 8
  {
    (w & (7 << (4 * k))) >> (4 * k)
  }

  /** The word with slot `k` set to the low 3 bits of `q` (CLR_MASK then SET_MASK). */
  function WithQueue(w: bv32, k: nat, q: bv32): (r: bv32)
    requires k < 8
  {
    (w & !(7 << (4 * k))) | ((q & 7) << (4 * k))
  }

  /** The word with slot `k` cleared (CLR_MASK only). */
  function ClearQueue(w: bv32, k: nat): bv32
    requires k < 8
  {
    w & !(7 << (4 * k))
  }

  /** Setting a slot and reading it back gives the queue's low 3 bits. */
  lemma QueueRoundTrip(w: bv32, k: nat, q: bv32)
    requires k < 8
    ensures QueueIn(WithQueue(w, k, q), k) == q & 7
  {
  }

  /**
   * Setting a slot changes no bit outside that slot's 3-bit field: with
   * the slot cleared, the word is the old word with the slot cleared.
   * Clearing a slot leaves queue 0 in it.
   */
  lemma QueueKeepsOthers(w: bv32, k: nat, q: bv32)
    requires k < 8
    ensures ClearQueue(WithQueue(w, k, q), k) == ClearQueue(w, k)
    ensures QueueIn(ClearQueue(w, k), k) == 0
  {
  }

  /** Bit `k` of a 32-bit word. */
  predicate Bit(w: bv32, k: nat)
    requires k < 32
  {
    w & (1 << k) != 0
  }

  /** Bit `k` of a register pair covering 64 channels or TCCs (low word, then the "H" word). */
  predicate Bit64(lo: bv32, hi: bv32, k: nat)
    requires k < 64
  {
    if k < 32 then Bit(lo, k) else Bit(hi, k - 32)
  }
}
