/*
 * The basic driver calls of edma3_drv_basic.c: setting up a transfer on a
 * channel's PaRAM set (source / destination parameters, indices, counts),
 * and starting and stopping it. Requesting and freeing logical channels
 * are in edma3drvrequest.dfy.
 */
module Edma3DrvBasic {

  import opened Edma3Rm
  import opened Edma3Drv
  import opened Edma3DrvAdv

  // ---------------------------------------------------------------------
  // setSrcParams / setDestParams

  /** The queue slot read back as a number: a 3-bit value. */
  lemma QueueInFits(w: bv32, k: nat)
    requires k < 8
    ensures QueueIn(w, k) < 8
  {
  }

  /**
   * The event queue (and so the transfer controller) that serves a FIFO
   * transfer on lCh: the queue of a DMA or QDMA channel, queue 0 for any
   * other channel. This is the reading the code intends; see
   * FifoQueueAsWritten for the QDMA reading as written.
   */
  function FifoQueue(d: Drv, lCh: nat): (q: nat)
    requires d.WF() && d.Regs()
    ensures q < MAX_TC
  {
    var g := d.rm.ctrl.ranges;
    if lCh <= g.dmaMax || g.qdmaMin <= lCh <= g.qdmaMax then
      RangesFit(d);
      var k := if lCh <= g.dmaMax then lCh % 8 else lCh - g.qdmaMin;
      var w := if lCh <= g.dmaMax then d.dmaQNum[lCh / 8] else d.qdmaQNum;
      QueueInFits(w, k);
      MappedQueue(d, lCh) as nat
    else 0
  }

  /**
   * The QDMA reading as written: slot k is masked in place and then
   * shifted right by lCh * 4 bits instead of by 4 * k. For a QDMA channel
   * that shift is past the slot, and from 32 bits on C leaves it
   * undefined; it is taken here as a shift that moves every bit out.
   * Either way every QDMA channel reads queue 0 as written.
   */
  function FifoQueueAsWritten(d: Drv, lCh: nat): (q: nat)
    requires d.WF() && d.Regs()
    ensures d.rm.ctrl.ranges.qdmaMin <= lCh <= d.rm.ctrl.ranges.qdmaMax ==> q == 0
  {
    var g := d.rm.ctrl.ranges;
    RangesFit(d);
    if lCh <= g.dmaMax || !(g.qdmaMin <= lCh <= g.qdmaMax) then FifoQueue(d, lCh)
    else
      MaskedSlotShifted(d.qdmaQNum, lCh - g.qdmaMin, 4 * lCh) as nat
  }

  /**
   * Slot k of w masked in place and shifted right by n bits (0 once n
   * reaches 32); shifted past its own position it is 0.
   */
  function MaskedSlotShifted(w: bv32, k: nat, n: nat): (r: bv32)
    requires k < 8
    ensures 4 * k + 4 <= n ==> r == 0
  {
    if n < 32 then (w & (7 << (4 * k))) >> n else 0
  }

  /** Hence as written a QDMA channel mapped to a queue other than 0 has its FIFO width checked against the wrong queue. */
  lemma FifoQueueAsWrittenMisreads(d: Drv, lCh: nat)
    requires d.WF() && d.Regs()
    requires d.rm.ctrl.ranges.qdmaMin <= lCh <= d.rm.ctrl.ranges.qdmaMax
    requires MappedQueue(d, lCh) != 0
    ensures FifoQueueAsWritten(d, lCh) != FifoQueue(d, lCh)
  {
    FifoQueueIsMapped(d, lCh);
    var q := FifoQueue(d, lCh);
    assert q as bv32 != 0;
  }

  /** For a DMA or QDMA channel the FIFO width check reads the queue the channel is mapped to. */
  lemma FifoQueueIsMapped(d: Drv, lCh: nat)
    requires d.WF() && d.Regs()
    requires lCh <= d.rm.ctrl.ranges.dmaMax || d.rm.ctrl.ranges.qdmaMin <= lCh <= d.rm.ctrl.ranges.qdmaMax
    ensures FifoQueue(d, lCh) as bv32 == MappedQueue(d, lCh)
  {
  }

  /** The FIFO width check reads the queue the channel was last mapped to. */
  lemma FifoQueueAfterMap(d: Drv, ch: nat, q: nat)
    requires d.WF() && MapChToEvtQ(d, ch, q).status == DrvOk
    ensures var r := MapChToEvtQ(d, ch, q).d;
      r.Regs() && FifoQueue(r, ch) == q
  {
    var r := MapChToEvtQ(d, ch, q).d;
    MapChToEvtQMaps(d, ch, q);
    FifoQueueIsMapped(r, ch);
    SmallSame(FifoQueue(r, ch), q);
  }

  /** Two numbers below 8 with the same 32-bit pattern are equal. */
  lemma SmallSame(x: nat, y: nat)
    requires x < 8 && y < 8 && x as bv32 == y as bv32
    ensures x == y
  {
  }

  /** The OPT bit of the source (SAM) or destination (DAM) addressing mode. */
  function ModeBit(dest: bool): bv32
  {
    if dest then OPT_DAM else OPT_SAM
  }

  /**
   * OPT with the addressing-mode bit of one side set to `mode` and FWID
   * set to `width` (the CLR_MASK / SET_MASK pairs of setSrcParams and
   * setDestParams).
   */
  function AddrModeOpt(opt: bv32, dest: bool, mode: bv32, width: bv32): bv32
  {
    var bits := if dest then (mode << 1) & OPT_DAM else mode & OPT_SAM;
    var o := (opt & !ModeBit(dest)) | bits;
    (o & !OPT_FWID) | ((width << 8) & OPT_FWID)
  }

  /** The source side: SAM holds the mode, FWID the width, and no other OPT bit changes. */
  lemma SrcModeOptFields(opt: bv32, mode: bv32, width: bv32)
    requires mode < 2 && width < 8
    ensures var r := AddrModeOpt(opt, false, mode, width);
      (r & OPT_SAM != 0) == (mode == 1) && (r & OPT_FWID) >> 8 == width &&
      r & !(OPT_SAM | OPT_FWID) == opt & !(OPT_SAM | OPT_FWID)
  {
  }

  /** The destination side: DAM holds the mode, FWID the width, and no other OPT bit changes. */
  lemma DestModeOptFields(opt: bv32, mode: bv32, width: bv32)
    requires mode < 2 && width < 8
    ensures var r := AddrModeOpt(opt, true, mode, width);
      (r & OPT_DAM != 0) == (mode == 1) && (r & OPT_FWID) >> 8 == width &&
      r & !(OPT_DAM | OPT_FWID) == opt & !(OPT_DAM | OPT_FWID)
  {
  }

  /** 1 << w: the default burst size, in bytes, that FIFO width w asks of the transfer controller. */
  function BurstBytes(w: nat): nat
    requires w <= FIFO_WIDTH_MAX
  {
    [1, 2, 4, 8, 16, 32][w]
  }

  /** The arguments setSrcParams / setDestParams accept: a known addressing mode and FIFO width. */
  predicate AddrArgsValid(addrMode: int, fifoWidth: int)
  {
    ADDR_MODE_INCR <= addrMode <= ADDR_MODE_FIFO && 0 <= fifoWidth <= FIFO_WIDTH_MAX
  }

  /** A FIFO-mode address must be 32-byte aligned. */
  predicate Misaligned(addr: bv32, addrMode: int)
  {
    addrMode == ADDR_MODE_FIFO && addr & 0x1F != 0
  }

  /**
   * EDMA3_DRV_setSrcParams (dest false) and EDMA3_DRV_setDestParams
   * (dest true), which differ only in the PaRAM word and the OPT bit
   * they write. A misaligned FIFO address is reported before any other
   * check; in FIFO mode the width's burst must not exceed the default
   * burst size of the transfer controller behind the channel's queue.
   * On success the SRC (DST) word becomes the address and OPT takes the
   * mode and the width.
   */
  function SetAddrParams(d: Drv, lCh: nat, dest: bool, addr: bv32, addrMode: int, fifoWidth: int): (r: Change)
    requires d.WF()
    ensures r.d.WF() && r.d.rm == d.rm && r.d.bound == d.bound && r.d.dmaQNum == d.dmaQNum &&
      r.d.qdmaQNum == d.qdmaQNum && r.d.cfg == d.cfg
    ensures Misaligned(addr, addrMode) ==> r == Change(d, AddressNotAligned)
    ensures (r.status == DrvOk) ==
      (AddrArgsValid(addrMode, fifoWidth) && !Misaligned(addr, addrMode) && HasSet(d, lCh) &&
       (addrMode == ADDR_MODE_FIFO ==> BurstBytes(fifoWidth) <= d.cfg.burstSize[FifoQueue(d, lCh)]))
    ensures r.status != DrvOk ==> r.d == d
    ensures r.status == FifoWidthNotSupported ==> addrMode == ADDR_MODE_FIFO
  {
    if Misaligned(addr, addrMode) then Change(d, AddressNotAligned)
    else if !AddrArgsValid(addrMode, fifoWidth) || !HasSet(d, lCh) then Change(d, DrvInvalidParam)
    else if addrMode == ADDR_MODE_FIFO && BurstBytes(fifoWidth) > d.cfg.burstSize[FifoQueue(d, lCh)] then
      Change(d, FifoWidthNotSupported)
    else
      var p := SetOf(d, lCh);
      var d1 := d.WithWord(p, if dest then ENTRY_DST else ENTRY_SRC, addr);
      var opt := AddrModeOpt(d1.Word(p, ENTRY_OPT), dest, addrMode as bv32, fifoWidth as bv32);
      Change(d1.WithWord(p, ENTRY_OPT, opt), DrvOk)
  }

  /** A successful call writes the address word and OPT of the channel's set and no other PaRAM word. */
  lemma SetAddrParamsWords(d: Drv, lCh: nat, dest: bool, addr: bv32, addrMode: int, fifoWidth: int)
    requires d.WF() && SetAddrParams(d, lCh, dest, addr, addrMode, fifoWidth).status == DrvOk
    ensures var r := SetAddrParams(d, lCh, dest, addr, addrMode, fifoWidth).d;
      var p := SetOf(d, lCh);
      var e := if dest then ENTRY_DST else ENTRY_SRC;
      0 <= addrMode < 2 && 0 <= fifoWidth < 8 &&
      r.Word(p, e) == addr &&
      r.Word(p, ENTRY_OPT) == AddrModeOpt(d.Word(p, ENTRY_OPT), dest, addrMode as bv32, fifoWidth as bv32) &&
      PaRAMSameExcept(d, r, {Slot(p, e), Slot(p, ENTRY_OPT)})
  {
  }

  /** The mode and width arguments as the bit-vectors written into OPT. */
  lemma SmallArgs(addrMode: int, fifoWidth: int)
    requires 0 <= addrMode < 2 && 0 <= fifoWidth < 8
    ensures (addrMode as bv32 < 2) && (fifoWidth as bv32 < 8)
    ensures (addrMode as bv32 == 1) == (addrMode == ADDR_MODE_FIFO)
  {
  }

  /**
   * setSrcParams: SRC holds the address, SAM is set exactly in FIFO
   * mode, FWID holds the width, and every other OPT bit is kept.
   */
  lemma SetSrcParamsWrites(d: Drv, lCh: nat, addr: bv32, addrMode: int, fifoWidth: int)
    requires d.WF() && SetAddrParams(d, lCh, false, addr, addrMode, fifoWidth).status == DrvOk
    ensures var r := SetAddrParams(d, lCh, false, addr, addrMode, fifoWidth).d;
      var p := SetOf(d, lCh);
      var opt := r.Word(p, ENTRY_OPT);
      r.Word(p, ENTRY_SRC) == addr &&
      (opt & OPT_SAM != 0) == (addrMode == ADDR_MODE_FIFO) &&
      (opt & OPT_FWID) >> 8 == fifoWidth as bv32 &&
      opt & !(OPT_SAM | OPT_FWID) == d.Word(p, ENTRY_OPT) & !(OPT_SAM | OPT_FWID)
  {
    SetAddrParamsWords(d, lCh, false, addr, addrMode, fifoWidth);
    SmallArgs(addrMode, fifoWidth);
    SrcModeOptFields(d.Word(SetOf(d, lCh), ENTRY_OPT), addrMode as bv32, fifoWidth as bv32);
  }

  /**
   * setDestParams: DST holds the address, DAM is set exactly in FIFO
   * mode, FWID holds the width, and every other OPT bit is kept.
   */
  lemma SetDestParamsWrites(d: Drv, lCh: nat, addr: bv32, addrMode: int, fifoWidth: int)
    requires d.WF() && SetAddrParams(d, lCh, true, addr, addrMode, fifoWidth).status == DrvOk
    ensures var r := SetAddrParams(d, lCh, true, addr, addrMode, fifoWidth).d;
      var p := SetOf(d, lCh);
      var opt := r.Word(p, ENTRY_OPT);
      r.Word(p, ENTRY_DST) == addr &&
      (opt & OPT_DAM != 0) == (addrMode == ADDR_MODE_FIFO) &&
      (opt & OPT_FWID) >> 8 == fifoWidth as bv32 &&
      opt & !(OPT_DAM | OPT_FWID) == d.Word(p, ENTRY_OPT) & !(OPT_DAM | OPT_FWID)
  {
    SetAddrParamsWords(d, lCh, true, addr, addrMode, fifoWidth);
    SmallArgs(addrMode, fifoWidth);
    DestModeOptFields(d.Word(SetOf(d, lCh), ENTRY_OPT), addrMode as bv32, fifoWidth as bv32);
  }

  // ---------------------------------------------------------------------
  // setSrcIndex / setDestIndex

  /** An index argument inside the 16-bit signed range of the BIDX / CIDX halves. */
  predicate IndexInRange(x: int)
  {
    IDX_MIN <= x <= IDX_MAX
  }

  /** The half-word write of one side: the low half for the source, the high half for the destination. */
  function WithSide(w: bv32, dest: bool, x: int): bv32
    requires IndexInRange(x)
  {
    if dest then WithHigh(w, U32Of(x)) else WithLow(w, U32Of(x))
  }

  /**
   * EDMA3_DRV_setSrcIndex (dest false) and EDMA3_DRV_setDestIndex (dest
   * true): out-of-range indices are rejected; otherwise the B and C
   * indices go into that side's half of SRC_DST_BIDX and SRC_DST_CIDX.
   */
  function SetIndex(d: Drv, lCh: nat, dest: bool, bIdx: int, cIdx: int): (r: Change)
    requires d.WF()
    ensures r.d.WF() && r.d.rm == d.rm && r.d.bound == d.bound && r.d.dmaQNum == d.dmaQNum &&
      r.d.qdmaQNum == d.qdmaQNum && r.d.cfg == d.cfg
    ensures (r.status == DrvOk) == (IndexInRange(bIdx) && IndexInRange(cIdx) && HasSet(d, lCh))
    ensures r.status != DrvOk ==> r == Change(d, DrvInvalidParam)
  {
    if !IndexInRange(bIdx) || !IndexInRange(cIdx) || !HasSet(d, lCh) then Change(d, DrvInvalidParam)
    else
      var p := SetOf(d, lCh);
      var d1 := d.WithWord(p, ENTRY_SRC_DST_BIDX, WithSide(d.Word(p, ENTRY_SRC_DST_BIDX), dest, bIdx));
      Change(d1.WithWord(p, ENTRY_SRC_DST_CIDX, WithSide(d1.Word(p, ENTRY_SRC_DST_CIDX), dest, cIdx)), DrvOk)
  }

  /** A successful call rewrites the BIDX and CIDX words of the channel's set and no other PaRAM word. */
  lemma SetIndexWords(d: Drv, lCh: nat, dest: bool, bIdx: int, cIdx: int)
    requires d.WF() && SetIndex(d, lCh, dest, bIdx, cIdx).status == DrvOk
    ensures var r := SetIndex(d, lCh, dest, bIdx, cIdx).d;
      var p := SetOf(d, lCh);
      r.Word(p, ENTRY_SRC_DST_BIDX) == WithSide(d.Word(p, ENTRY_SRC_DST_BIDX), dest, bIdx) &&
      r.Word(p, ENTRY_SRC_DST_CIDX) == WithSide(d.Word(p, ENTRY_SRC_DST_CIDX), dest, cIdx) &&
      PaRAMSameExcept(d, r, {Slot(p, ENTRY_SRC_DST_BIDX), Slot(p, ENTRY_SRC_DST_CIDX)})
  {
  }

  /**
   * setSrcIndex puts the low 16 bits of each two's-complement index in
   * the low half of BIDX / CIDX and keeps the destination's high halves.
   */
  lemma SetSrcIndexWrites(d: Drv, lCh: nat, bIdx: int, cIdx: int)
    requires d.WF() && SetIndex(d, lCh, false, bIdx, cIdx).status == DrvOk
    ensures var r := SetIndex(d, lCh, false, bIdx, cIdx).d;
      var p := SetOf(d, lCh);
      Low(r.Word(p, ENTRY_SRC_DST_BIDX)) == Low(U32Of(bIdx)) &&
      High(r.Word(p, ENTRY_SRC_DST_BIDX)) == High(d.Word(p, ENTRY_SRC_DST_BIDX)) &&
      Low(r.Word(p, ENTRY_SRC_DST_CIDX)) == Low(U32Of(cIdx)) &&
      High(r.Word(p, ENTRY_SRC_DST_CIDX)) == High(d.Word(p, ENTRY_SRC_DST_CIDX))
  {
    SetIndexWords(d, lCh, false, bIdx, cIdx);
    var p := SetOf(d, lCh);
    HalfWrites(d.Word(p, ENTRY_SRC_DST_BIDX), U32Of(bIdx));
    HalfWrites(d.Word(p, ENTRY_SRC_DST_CIDX), U32Of(cIdx));
  }

  /**
   * setDestIndex puts the low 16 bits of each two's-complement index in
   * the high half of BIDX / CIDX and keeps the source's low halves.
   */
  lemma SetDestIndexWrites(d: Drv, lCh: nat, bIdx: int, cIdx: int)
    requires d.WF() && SetIndex(d, lCh, true, bIdx, cIdx).status == DrvOk
    ensures var r := SetIndex(d, lCh, true, bIdx, cIdx).d;
      var p := SetOf(d, lCh);
      High(r.Word(p, ENTRY_SRC_DST_BIDX)) == Low(U32Of(bIdx)) &&
      Low(r.Word(p, ENTRY_SRC_DST_BIDX)) == Low(d.Word(p, ENTRY_SRC_DST_BIDX)) &&
      High(r.Word(p, ENTRY_SRC_DST_CIDX)) == Low(U32Of(cIdx)) &&
      Low(r.Word(p, ENTRY_SRC_DST_CIDX)) == Low(d.Word(p, ENTRY_SRC_DST_CIDX))
  {
    SetIndexWords(d, lCh, true, bIdx, cIdx);
    var p := SetOf(d, lCh);
    HalfWrites(d.Word(p, ENTRY_SRC_DST_BIDX), U32Of(bIdx));
    HalfWrites(d.Word(p, ENTRY_SRC_DST_CIDX), U32Of(cIdx));
  }

  /**
   * The two sides do not disturb each other: after setSrcIndex and then
   * setDestIndex on the same channel, BIDX holds both B indices and CIDX
   * both C indices.
   */
  lemma SrcThenDestIndex(d: Drv, lCh: nat, sb: int, sc: int, db: int, dc: int)
    requires d.WF() && SetIndex(d, lCh, false, sb, sc).status == DrvOk
    requires IndexInRange(db) && IndexInRange(dc)
    ensures var r1 := SetIndex(d, lCh, false, sb, sc).d;
      var r2 := SetIndex(r1, lCh, true, db, dc);
      var p := SetOf(d, lCh);
      r2.status == DrvOk &&
      Low(r2.d.Word(p, ENTRY_SRC_DST_BIDX)) == Low(U32Of(sb)) &&
      High(r2.d.Word(p, ENTRY_SRC_DST_BIDX)) == Low(U32Of(db)) &&
      Low(r2.d.Word(p, ENTRY_SRC_DST_CIDX)) == Low(U32Of(sc)) &&
      High(r2.d.Word(p, ENTRY_SRC_DST_CIDX)) == Low(U32Of(dc))
  {
    var r1 := SetIndex(d, lCh, false, sb, sc).d;
    SetSrcIndexWrites(d, lCh, sb, sc);
    assert HasSet(r1, lCh) && SetOf(r1, lCh) == SetOf(d, lCh);
    SetDestIndexWrites(r1, lCh, db, dc);
  }

  // ---------------------------------------------------------------------
  // setTransferParams

  /** EDMA3_DRV_SyncType: A-synchronized (0) or AB-synchronized (1). */
  predicate IsSyncType(syncType: int)
  {
    syncType == 0 || syncType == 1
  }

  /** OPT with SYNCDIM set for AB-synchronized transfers and cleared for A-synchronized ones. */
  function SyncOpt(opt: bv32, syncType: int): bv32
  {
    WithFlag(opt, OPT_SYNCDIM, syncType == 1)
  }

  /** ACNT in the low half, the low 16 bits of BCNT in the high half. */
  function AbCnt(aCnt: bv32, bCnt: bv32): bv32
  {
    aCnt | ((bCnt & 0xFFFF) << 16)
  }

  /** LINK_BCNTRLD with the reload ORed into the high half; the old reload bits are not cleared. */
  function OrReload(w: bv32, bCntReload: bv32): bv32
  {
    w | ((bCntReload & 0xFFFF) << 16)
  }

  /**
   * EDMA3_DRV_setTransferParams: the counts must fit their 16-bit fields
   * and the sync type be A or AB; then ACNT_BCNT, CCNT, the reload half
   * of LINK_BCNTRLD and SYNCDIM of OPT are written.
   */
  function SetTransferParams(d: Drv, lCh: nat, aCnt: bv32, bCnt: bv32, cCnt: bv32, bCntReload: bv32,
                             syncType: int): (r: Change)
    requires d.WF()
    ensures r.d.WF() && r.d.rm == d.rm && r.d.bound == d.bound && r.d.dmaQNum == d.dmaQNum &&
      r.d.qdmaQNum == d.qdmaQNum && r.d.cfg == d.cfg
    ensures (r.status == DrvOk) ==
      (aCnt <= 0xFFFF && bCnt <= 0xFFFF && cCnt <= 0xFFFF && bCntReload <= 0xFFFF &&
       IsSyncType(syncType) && HasSet(d, lCh))
    ensures r.status != DrvOk ==> r == Change(d, DrvInvalidParam)
  {
    if aCnt > 0xFFFF || bCnt > 0xFFFF || cCnt > 0xFFFF || bCntReload > 0xFFFF || !IsSyncType(syncType) ||
       !HasSet(d, lCh) then
      Change(d, DrvInvalidParam)
    else
      var p := SetOf(d, lCh);
      var d1 := d.WithWord(p, ENTRY_ACNT_BCNT, AbCnt(aCnt, bCnt));
      var d2 := d1.WithWord(p, ENTRY_CCNT, cCnt);
      var d3 := d2.WithWord(p, ENTRY_LINK_BCNTRLD, OrReload(d2.Word(p, ENTRY_LINK_BCNTRLD), bCntReload));
      Change(d3.WithWord(p, ENTRY_OPT, SyncOpt(d3.Word(p, ENTRY_OPT), syncType)), DrvOk)
  }

  /** A successful call rewrites OPT, ACNT_BCNT, LINK_BCNTRLD and CCNT of the channel's set and nothing else. */
  lemma SetTransferParamsWords(d: Drv, lCh: nat, aCnt: bv32, bCnt: bv32, cCnt: bv32, bCntReload: bv32,
                               syncType: int)
    requires d.WF() && SetTransferParams(d, lCh, aCnt, bCnt, cCnt, bCntReload, syncType).status == DrvOk
    ensures var r := SetTransferParams(d, lCh, aCnt, bCnt, cCnt, bCntReload, syncType).d;
      var p := SetOf(d, lCh);
      r.Word(p, ENTRY_ACNT_BCNT) == AbCnt(aCnt, bCnt) && r.Word(p, ENTRY_CCNT) == cCnt &&
      r.Word(p, ENTRY_LINK_BCNTRLD) == OrReload(d.Word(p, ENTRY_LINK_BCNTRLD), bCntReload) &&
      r.Word(p, ENTRY_OPT) == SyncOpt(d.Word(p, ENTRY_OPT), syncType) &&
      PaRAMSameExcept(d, r, {Slot(p, ENTRY_OPT), Slot(p, ENTRY_ACNT_BCNT), Slot(p, ENTRY_LINK_BCNTRLD),
                             Slot(p, ENTRY_CCNT)})
  {
  }

  /** The count fields: ACNT and BCNT read back from their halves. */
  lemma AbCntFields(aCnt: bv32, bCnt: bv32)
    requires aCnt <= 0xFFFF && bCnt <= 0xFFFF
    ensures Low(AbCnt(aCnt, bCnt)) == aCnt && High(AbCnt(aCnt, bCnt)) == bCnt
  {
  }

  /** The reload write keeps the link half and ORs into the reload half. */
  lemma OrReloadFields(w: bv32, bCntReload: bv32)
    requires bCntReload <= 0xFFFF
    ensures Low(OrReload(w, bCntReload)) == Low(w)
    ensures High(OrReload(w, bCntReload)) == High(w) | bCntReload
  {
  }

  /** SYNCDIM is set exactly for AB-synchronized transfers; no other OPT bit changes. */
  lemma SyncOptFields(opt: bv32, syncType: int)
    ensures (SyncOpt(opt, syncType) & OPT_SYNCDIM != 0) == (syncType == 1)
    ensures SyncOpt(opt, syncType) & !OPT_SYNCDIM == opt & !OPT_SYNCDIM
  {
    FlagField(opt, OPT_SYNCDIM, syncType == 1);
  }

  /**
   * setTransferParams: ACNT, BCNT and CCNT read back as given, the link
   * address is kept, the reload half is the old reload ORed with the
   * new one, and SYNCDIM follows the sync type.
   */
  lemma SetTransferParamsWrites(d: Drv, lCh: nat, aCnt: bv32, bCnt: bv32, cCnt: bv32, bCntReload: bv32,
                                syncType: int)
    requires d.WF() && SetTransferParams(d, lCh, aCnt, bCnt, cCnt, bCntReload, syncType).status == DrvOk
    ensures var r := SetTransferParams(d, lCh, aCnt, bCnt, cCnt, bCntReload, syncType).d;
      var p := SetOf(d, lCh);
      Low(r.Word(p, ENTRY_ACNT_BCNT)) == aCnt && High(r.Word(p, ENTRY_ACNT_BCNT)) == bCnt &&
      r.Word(p, ENTRY_CCNT) == cCnt &&
      Low(r.Word(p, ENTRY_LINK_BCNTRLD)) == Low(d.Word(p, ENTRY_LINK_BCNTRLD)) &&
      High(r.Word(p, ENTRY_LINK_BCNTRLD)) == High(d.Word(p, ENTRY_LINK_BCNTRLD)) | bCntReload &&
      (r.Word(p, ENTRY_OPT) & OPT_SYNCDIM != 0) == (syncType == 1)
  {
    SetTransferParamsWords(d, lCh, aCnt, bCnt, cCnt, bCntReload, syncType);
    var p := SetOf(d, lCh);
    AbCntFields(aCnt, bCnt);
    OrReloadFields(d.Word(p, ENTRY_LINK_BCNTRLD), bCntReload);
    SyncOptFields(d.Word(p, ENTRY_OPT), syncType);
  }

  /** Two reload writes leave the OR of both reloads (and the old half) in the high half. */
  lemma OrReloadTwice(w: bv32, r1: bv32, r2: bv32)
    requires r1 <= 0xFFFF && r2 <= 0xFFFF
    ensures High(OrReload(OrReload(w, r1), r2)) == High(w) | r1 | r2
  {
    OrReloadFields(w, r1);
    OrReloadFields(OrReload(w, r1), r2);
  }

  /**
   * The reload half only gains bits: after a second successful call the
   * link word is the old word with both reload values ORed into its high
   * half (OrReloadTwice), so a smaller reload cannot replace a larger one
   * unless the half was cleared in between.
   */
  lemma ReloadsAccumulate(d: Drv, lCh: nat, a: bv32, b: bv32, c: bv32, r1: bv32, r2: bv32, s: int)
    requires d.WF() && SetTransferParams(d, lCh, a, b, c, r1, s).status == DrvOk && r2 <= 0xFFFF
    ensures var e1 := SetTransferParams(d, lCh, a, b, c, r1, s).d;
      var e2 := SetTransferParams(e1, lCh, a, b, c, r2, s);
      var p := SetOf(d, lCh);
      e2.status == DrvOk &&
      e2.d.Word(p, ENTRY_LINK_BCNTRLD) == OrReload(OrReload(d.Word(p, ENTRY_LINK_BCNTRLD), r1), r2)
  {
    var e1 := SetTransferParams(d, lCh, a, b, c, r1, s).d;
    SetTransferParamsWords(d, lCh, a, b, c, r1, s);
    assert HasSet(e1, lCh) && SetOf(e1, lCh) == SetOf(d, lCh);
    SetTransferParamsWords(e1, lCh, a, b, c, r2, s);
  }

  // ---------------------------------------------------------------------
  // enableTransfer / disableTransfer

  /** The DMA channel's bit in dmaChannelHwEvtMap: it is tied to a hardware event. */
  predicate HasHwEvent(d: Drv, lCh: nat)
    requires d.WF() && lCh < MAX_DMA_CH
  {
    Bit64(d.cfg.hwEvtMap[0], d.cfg.hwEvtMap[1], lCh)
  }

  /**
   * The checks enableTransfer and disableTransfer make, as written: the
   * channel exists; MANUAL only on a DMA channel; QDMA only on a QDMA
   * channel; EVENT refused on a channel below 64 without a hardware
   * event; and the mode is MANUAL, QDMA or EVENT (the switch's default).
   * Channels from 64 on are not checked for EVENT.
   */
  predicate TriggerAllowedAsWritten(d: Drv, lCh: nat, mode: nat)
    requires d.WF()
  {
    var g := d.rm.ctrl.ranges;
    d.Regs() && lCh <= g.logMax &&
    !(mode == TRIG_MODE_MANUAL && lCh > g.dmaMax) &&
    !(mode == TRIG_MODE_QDMA && (lCh < g.qdmaMin || lCh > g.qdmaMax)) &&
    !(lCh < MAX_DMA_CH && mode == TRIG_MODE_EVENT && !HasHwEvent(d, lCh)) &&
    mode <= TRIG_MODE_EVENT
  }

  /** The checks as intended: EVENT mode only on a channel below 64 whose hardware event exists. */
  predicate TriggerAllowed(d: Drv, lCh: nat, mode: nat)
    requires d.WF()
  {
    TriggerAllowedAsWritten(d, lCh, mode) && (mode == TRIG_MODE_EVENT ==> lCh < MAX_DMA_CH)
  }

  /** The bookkeeping with the trigger mode of lCh recorded. */
  function WithTrigMode(d: Drv, lCh: nat, mode: nat): (r: Drv)
    requires d.WF() && lCh < MAX_LOGICAL_CH
    ensures r.WF() && r.bound[lCh].trigMode == mode
  {
    d.(bound := d.bound[lCh := d.bound[lCh].(trigMode := mode)])
  }

  /**
   * EDMA3_DRV_enableTransfer as written: after its checks it records the
   * trigger mode (the event-enable and set register writes are not
   * modelled). For EVENT on a channel from 64 on it then shifts by
   * lCh - 32 >= 32 bits.
   */
  function EnableTransferAsWritten(d: Drv, lCh: nat, mode: nat): (r: Change)
    requires d.WF()
    ensures r.d.WF()
    ensures (r.status == DrvOk) == TriggerAllowedAsWritten(d, lCh, mode)
  {
    if !TriggerAllowedAsWritten(d, lCh, mode) then Change(d, DrvInvalidParam)
    else
      RangesFit(d);
      Change(WithTrigMode(d, lCh, mode), DrvOk)
  }

  /** As written, EVENT mode is accepted on any channel from 64 up to the last logical channel. */
  lemma EventBeyondDmaAsWritten(d: Drv, lCh: nat)
    requires d.WF() && d.Regs() && MAX_DMA_CH <= lCh <= d.rm.ctrl.ranges.logMax
    ensures EnableTransferAsWritten(d, lCh, TRIG_MODE_EVENT).status == DrvOk
    ensures EnableTransfer(d, lCh, TRIG_MODE_EVENT).status == DrvInvalidParam
  {
    RangesFit(d);
  }

  /**
   * EDMA3_DRV_enableTransfer with EVENT mode refused from channel 64 on:
   * on success the channel's bookkeeping records the mode, nothing else
   * changes; otherwise INVALID_PARAM and no change.
   */
  function EnableTransfer(d: Drv, lCh: nat, mode: nat): (r: Change)
    requires d.WF()
    ensures r.d.WF()
    ensures (r.status == DrvOk) == TriggerAllowed(d, lCh, mode)
    ensures r.status != DrvOk ==> r == Change(d, DrvInvalidParam)
    ensures r.status == DrvOk ==>
      lCh < MAX_LOGICAL_CH && r.d == d.(bound := d.bound[lCh := d.bound[lCh].(trigMode := mode)])
  {
    if !TriggerAllowed(d, lCh, mode) then Change(d, DrvInvalidParam)
    else
      RangesFit(d);
      Change(WithTrigMode(d, lCh, mode), DrvOk)
  }

  /**
   * What each mode demands of the channel: MANUAL a DMA channel, QDMA a
   * QDMA channel, EVENT a DMA-numbered channel with a hardware event.
   */
  lemma EnableTransferModes(d: Drv, lCh: nat, mode: nat)
    requires d.WF() && EnableTransfer(d, lCh, mode).status == DrvOk
    ensures mode <= TRIG_MODE_EVENT
    ensures mode == TRIG_MODE_MANUAL ==> lCh <= d.rm.ctrl.ranges.dmaMax
    ensures mode == TRIG_MODE_QDMA ==> d.rm.ctrl.ranges.qdmaMin <= lCh <= d.rm.ctrl.ranges.qdmaMax
    ensures mode == TRIG_MODE_EVENT ==> lCh < MAX_DMA_CH && HasHwEvent(d, lCh)
  {
  }

  /**
   * EDMA3_DRV_disableTransfer: the same checks as written; the register
   * writes that stop the transfer are not modelled and the bookkeeping's
   * trigger mode is left as it is.
   */
  function DisableTransfer(d: Drv, lCh: nat, mode: nat): (s: DrvStatus)
    requires d.WF()
    ensures (s == DrvOk) == TriggerAllowedAsWritten(d, lCh, mode)
    ensures s != DrvOk ==> s == DrvInvalidParam
  {
    if TriggerAllowedAsWritten(d, lCh, mode) then DrvOk else DrvInvalidParam
  }

  /** A transfer enabled in some mode can be disabled in that mode, which freeChannel relies on. */
  lemma EnableThenDisable(d: Drv, lCh: nat, mode: nat)
    requires d.WF() && EnableTransfer(d, lCh, mode).status == DrvOk
    ensures var r := EnableTransfer(d, lCh, mode).d;
      r.bound[lCh].trigMode == mode && DisableTransfer(r, lCh, mode) == DrvOk
  {
  }

  // ---------------------------------------------------------------------
  // getVersion

  /** EDMA3_DRV_getVersion: the version id, one byte per part (major, minor, patch, build). */
  function GetVersion(): (v: bv32)
    ensures v >> 24 == 2 && (v >> 16) & 0xFF == 12 && (v >> 8) & 0xFF == 1 && v & 0xFF == 24
  {
    DRV_VERSION_ID
  }
}
