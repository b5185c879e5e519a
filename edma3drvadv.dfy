/*
 * The advanced driver calls of edma3_drv_adv.c as functions on the driver
 * state: linking and chaining logical channels, reading and writing PaRAM
 * words and fields, mapping channels to event queues, binding a TCC to a
 * link channel, the instance lookup and the channel status read.
 *
 * Every call first checks that the controller's register block exists,
 * that the channel is at most the highest logical channel and that the
 * PaRAM set bound to it is one of the controller's (predicate HasSet);
 * a call that fails a check returns EDMA3_DRV_E_INVALID_PARAM and leaves
 * everything as it was.
 */
module Edma3DrvAdv {

  import opened Edma3Rm
  import opened Edma3Drv

  // ---------------------------------------------------------------------
  // linkChannel / unlinkChannel

  /** The CPU address of PaRAM set `p`: the sets are 32 bytes apart from paramAddr on. */
  function SetAddr(d: Drv, p: nat): bv32
    requires p < MAX_PARAM_SETS
  {
    d.cfg.paramAddr + (p as bv32) * 32
  }

  /**
   * EDMA3_DRV_linkChannel: the LINK half of lCh1's LINK_BCNTRLD word gets
   * the low 16 bits of the address of lCh2's PaRAM set; when lCh2 has no
   * TCC of its own (bound tcc EDMA3_MAX_TCC), lCh2's OPT takes lCh1's TCC.
   */
  function LinkChannel(d: Drv, lCh1: nat, lCh2: nat): (r: Change)
    requires d.WF()
    ensures r.d.WF() && r.d.rm == d.rm && r.d.bound == d.bound
    ensures r.d.dmaQNum == d.dmaQNum && r.d.qdmaQNum == d.qdmaQNum
    ensures (r.status == DrvOk) == (HasSet(d, lCh1) && HasSet(d, lCh2))
    ensures r.status != DrvOk ==> r == Change(d, DrvInvalidParam)
  {
    if !HasSet(d, lCh1) || !HasSet(d, lCh2) then Change(d, DrvInvalidParam)
    else
      var p1 := SetOf(d, lCh1);
      var p2 := SetOf(d, lCh2);
      var linked := d.WithWord(p1, ENTRY_LINK_BCNTRLD, WithLow(d.Word(p1, ENTRY_LINK_BCNTRLD), SetAddr(d, p2)));
      if d.bound[lCh2].tcc == MAX_TCC then
        var opt := WithTcc(linked.Word(p2, ENTRY_OPT), OptTcc(linked.Word(p1, ENTRY_OPT)));
        Change(linked.WithWord(p2, ENTRY_OPT, opt), DrvOk)
      else
        Change(linked, DrvOk)
  }

  /**
   * A successful link rewrites lCh1's LINK_BCNTRLD word and, when lCh2 has
   * no TCC bound, lCh2's OPT word; no other PaRAM word changes.
   */
  lemma LinkChannelWords(d: Drv, lCh1: nat, lCh2: nat)
    requires d.WF() && HasSet(d, lCh1) && HasSet(d, lCh2)
    ensures var r := LinkChannel(d, lCh1, lCh2).d;
      var p1 := SetOf(d, lCh1);
      var p2 := SetOf(d, lCh2);
      r.Word(p1, ENTRY_LINK_BCNTRLD) == WithLow(d.Word(p1, ENTRY_LINK_BCNTRLD), SetAddr(d, p2)) &&
      r.Word(p2, ENTRY_OPT) ==
        (if d.bound[lCh2].tcc == MAX_TCC then WithTcc(d.Word(p2, ENTRY_OPT), OptTcc(d.Word(p1, ENTRY_OPT)))
         else d.Word(p2, ENTRY_OPT)) &&
      PaRAMSameExcept(d, r, {Slot(p1, ENTRY_LINK_BCNTRLD), Slot(p2, ENTRY_OPT)})
  {
    var p1 := SetOf(d, lCh1);
    var p2 := SetOf(d, lCh2);
    var w := WithLow(d.Word(p1, ENTRY_LINK_BCNTRLD), SetAddr(d, p2));
    LinkedWords(d, p1, p2, w);
    LinkKeepsOtherWords(d, lCh1, lCh2);
    if d.bound[lCh2].tcc == MAX_TCC {
      var linked := d.WithWord(p1, ENTRY_LINK_BCNTRLD, w);
      var opt := WithTcc(linked.Word(p2, ENTRY_OPT), OptTcc(linked.Word(p1, ENTRY_OPT)));
      WordAfterWrite(linked, p2, ENTRY_OPT, opt, p1, ENTRY_LINK_BCNTRLD);
    }
  }

  /** A successful link writes no PaRAM word but lCh1's LINK_BCNTRLD and lCh2's OPT. */
  lemma LinkKeepsOtherWords(d: Drv, lCh1: nat, lCh2: nat)
    requires d.WF() && HasSet(d, lCh1) && HasSet(d, lCh2)
    ensures PaRAMSameExcept(d, LinkChannel(d, lCh1, lCh2).d,
                            {Slot(SetOf(d, lCh1), ENTRY_LINK_BCNTRLD), Slot(SetOf(d, lCh2), ENTRY_OPT)})
  {
  }

  /** After the LINK write, lCh2's OPT and lCh1's OPT read as before (they are other words). */
  lemma LinkedWords(d: Drv, p1: nat, p2: nat, w: bv32)
    requires d.WF() && p1 < MAX_PARAM_SETS && p2 < MAX_PARAM_SETS
    ensures var linked := d.WithWord(p1, ENTRY_LINK_BCNTRLD, w);
      linked.Word(p1, ENTRY_LINK_BCNTRLD) == w &&
      linked.Word(p1, ENTRY_OPT) == d.Word(p1, ENTRY_OPT) && linked.Word(p2, ENTRY_OPT) == d.Word(p2, ENTRY_OPT)
  {
    WordAfterWrite(d, p1, ENTRY_LINK_BCNTRLD, w, p1, ENTRY_OPT);
    WordAfterWrite(d, p1, ENTRY_LINK_BCNTRLD, w, p2, ENTRY_OPT);
  }

  /**
   * A successful link points lCh1's LINK field at lCh2's set and keeps the
   * BCNTRLD half; lCh2's OPT carries lCh1's TCC exactly when lCh2 had no
   * TCC bound, with every other OPT bit kept.
   */
  lemma LinkChannelWrites(d: Drv, lCh1: nat, lCh2: nat)
    requires d.WF() && HasSet(d, lCh1) && HasSet(d, lCh2)
    ensures var r := LinkChannel(d, lCh1, lCh2).d;
      var p1 := SetOf(d, lCh1);
      var p2 := SetOf(d, lCh2);
      Low(r.Word(p1, ENTRY_LINK_BCNTRLD)) == Low(SetAddr(d, p2)) &&
      High(r.Word(p1, ENTRY_LINK_BCNTRLD)) == High(d.Word(p1, ENTRY_LINK_BCNTRLD)) &&
      (d.bound[lCh2].tcc == MAX_TCC ==>
        OptTcc(r.Word(p2, ENTRY_OPT)) == OptTcc(d.Word(p1, ENTRY_OPT)) &&
        r.Word(p2, ENTRY_OPT) & !OPT_TCC == d.Word(p2, ENTRY_OPT) & !OPT_TCC) &&
      (d.bound[lCh2].tcc != MAX_TCC ==> r.Word(p2, ENTRY_OPT) == d.Word(p2, ENTRY_OPT))
  {
    LinkChannelWords(d, lCh1, lCh2);
    var p1 := SetOf(d, lCh1);
    var p2 := SetOf(d, lCh2);
    HalfWrites(d.Word(p1, ENTRY_LINK_BCNTRLD), SetAddr(d, p2));
    TccField(d.Word(p2, ENTRY_OPT), OptTcc(d.Word(p1, ENTRY_OPT)));
    OptTccFits(d.Word(p1, ENTRY_OPT));
  }

  /** EDMA3_DRV_unlinkChannel: the LINK half of the channel's LINK_BCNTRLD word becomes 0xFFFF (no link). */
  function UnlinkChannel(d: Drv, lCh: nat): (r: Change)
    requires d.WF()
    ensures r.d.WF() && r.d.rm == d.rm && r.d.bound == d.bound
    ensures r.d.dmaQNum == d.dmaQNum && r.d.qdmaQNum == d.qdmaQNum
    ensures (r.status == DrvOk) == HasSet(d, lCh)
    ensures r.status != DrvOk ==> r == Change(d, DrvInvalidParam)
  {
    if !HasSet(d, lCh) then Change(d, DrvInvalidParam)
    else
      var p := SetOf(d, lCh);
      Change(d.WithWord(p, ENTRY_LINK_BCNTRLD, d.Word(p, ENTRY_LINK_BCNTRLD) | 0xFFFF), DrvOk)
  }

  /** Unlinking sets the LINK half to 0xFFFF, keeps the BCNTRLD half and touches no other word. */
  lemma UnlinkChannelWrites(d: Drv, lCh: nat)
    requires d.WF() && HasSet(d, lCh)
    ensures var r := UnlinkChannel(d, lCh).d;
      var p := SetOf(d, lCh);
      Low(r.Word(p, ENTRY_LINK_BCNTRLD)) == 0xFFFF &&
      High(r.Word(p, ENTRY_LINK_BCNTRLD)) == High(d.Word(p, ENTRY_LINK_BCNTRLD)) &&
      PaRAMSameExcept(d, r, {Slot(p, ENTRY_LINK_BCNTRLD)})
  {
  }

  /**
   * Unlinking undoes a link: after linkChannel(lCh1, lCh2) and
   * unlinkChannel(lCh1), lCh1's LINK half is 0xFFFF again and its BCNTRLD
   * half is the one it had before the link.
   */
  lemma LinkThenUnlink(d: Drv, lCh1: nat, lCh2: nat)
    requires d.WF() && HasSet(d, lCh1) && HasSet(d, lCh2)
    ensures var l := LinkChannel(d, lCh1, lCh2).d;
      var u := UnlinkChannel(l, lCh1);
      var p1 := SetOf(d, lCh1);
      u.status == DrvOk &&
      Low(u.d.Word(p1, ENTRY_LINK_BCNTRLD)) == 0xFFFF &&
      High(u.d.Word(p1, ENTRY_LINK_BCNTRLD)) == High(d.Word(p1, ENTRY_LINK_BCNTRLD))
  {
    LinkChannelWrites(d, lCh1, lCh2);
    UnlinkChannelWrites(LinkChannel(d, lCh1, lCh2).d, lCh1);
  }

  // ---------------------------------------------------------------------
  // chainChannel / unchainChannel

  /** EDMA3_DRV_ChainOptions: each field is true when it is the _EN value. */
  datatype ChainOptions = ChainOptions(tcchEn: bool, itcchEn: bool, tcintEn: bool, itcintEn: bool)

  /** The four chaining and interrupt enable bits of OPT. */
  const CHAIN_FLAGS: bv32 := OPT_TCCHEN | OPT_ITCCHEN | OPT_TCINTEN | OPT_ITCINTEN

  /** OPT with TCCHEN, ITCCHEN, TCINTEN and ITCINTEN set or cleared as given. */
  function ChainFlags(opt: bv32, tcch: bool, itcch: bool, tcint: bool, itcint: bool): bv32
  {
    WithFlag(WithFlag(WithFlag(WithFlag(opt, OPT_TCCHEN, tcch), OPT_ITCCHEN, itcch), OPT_TCINTEN, tcint), OPT_ITCINTEN, itcint)
  }

  /** lCh1's OPT after chaining: the enables as the options say, then the TCC field set to `tcc`. */
  function ChainOpt(opt: bv32, o: ChainOptions, tcc: bv32): bv32
  {
    WithTcc(ChainFlags(opt, o.tcchEn, o.itcchEn, o.tcintEn, o.itcintEn), tcc)
  }

  /** The chained OPT's TCC field is the chained-to channel. */
  lemma ChainOptTcc(opt: bv32, o: ChainOptions, tcc: bv32)
    requires tcc < 64
    ensures OptTcc(ChainOpt(opt, o, tcc)) == tcc
  {
    TccField(ChainFlags(opt, o.tcchEn, o.itcchEn, o.tcintEn, o.itcintEn), tcc);
  }

  /** The chained OPT has each enable on exactly when the options ask for it. */
  lemma ChainOptFlags(opt: bv32, o: ChainOptions, tcc: bv32)
    ensures var c := ChainOpt(opt, o, tcc);
      (c & OPT_TCCHEN != 0 <==> o.tcchEn) && (c & OPT_ITCCHEN != 0 <==> o.itcchEn) &&
      (c & OPT_TCINTEN != 0 <==> o.tcintEn) && (c & OPT_ITCINTEN != 0 <==> o.itcintEn)
  {
    ChainFlagsSet(opt, o.tcchEn, o.itcchEn, o.tcintEn, o.itcintEn, tcc);
  }

  /** The four enables as asked for, one at a time, whatever the TCC field is set to. */
  lemma ChainFlagsSet(opt: bv32, tcch: bool, itcch: bool, tcint: bool, itcint: bool, tcc: bv32)
    ensures var c := WithTcc(ChainFlags(opt, tcch, itcch, tcint, itcint), tcc);
      (c & OPT_TCCHEN != 0 <==> tcch) && (c & OPT_ITCCHEN != 0 <==> itcch) &&
      (c & OPT_TCINTEN != 0 <==> tcint) && (c & OPT_ITCINTEN != 0 <==> itcint)
  {
  }

  /** Chaining keeps every OPT bit outside the four enables and the TCC field. */
  lemma ChainOptKeeps(opt: bv32, o: ChainOptions, tcc: bv32)
    ensures ChainOpt(opt, o, tcc) & !(CHAIN_FLAGS | OPT_TCC) == opt & !(CHAIN_FLAGS | OPT_TCC)
  {
    ChainFlagsKeep(opt, o.tcchEn, o.itcchEn, o.tcintEn, o.itcintEn, tcc);
  }

  /** The bits outside the enables and the TCC field, for each choice of the enables. */
  lemma ChainFlagsKeep(opt: bv32, tcch: bool, itcch: bool, tcint: bool, itcint: bool, tcc: bv32)
    ensures WithTcc(ChainFlags(opt, tcch, itcch, tcint, itcint), tcc) & !(CHAIN_FLAGS | OPT_TCC) ==
      opt & !(CHAIN_FLAGS | OPT_TCC)
  {
  }

  /**
   * EDMA3_DRV_chainChannel: lCh1's OPT gets the chaining options and TCC
   * lCh2 (a DMA channel), and lCh2 takes over lCh1's trigger mode.
   */
  function ChainChannel(d: Drv, lCh1: nat, lCh2: nat, o: ChainOptions): (r: Change)
    requires d.WF()
    ensures r.d.WF() && r.d.rm == d.rm
    ensures r.d.dmaQNum == d.dmaQNum && r.d.qdmaQNum == d.qdmaQNum
    ensures (r.status == DrvOk) == (HasSet(d, lCh1) && lCh2 <= d.rm.ctrl.ranges.dmaMax)
    ensures r.status != DrvOk ==> r == Change(d, DrvInvalidParam)
  {
    if !HasSet(d, lCh1) || lCh2 > d.rm.ctrl.ranges.dmaMax then Change(d, DrvInvalidParam)
    else
      RangesFit(d);
      var p := SetOf(d, lCh1);
      var written := d.WithWord(p, ENTRY_OPT, ChainOpt(d.Word(p, ENTRY_OPT), o, lCh2 as bv32));
      var b := d.bound[lCh2].(trigMode := d.bound[lCh1].trigMode);
      Change(written.(bound := d.bound[lCh2 := b]), DrvOk)
  }

  /** A successful chain writes only lCh1's OPT, and only lCh2's trigger mode changes in the bookkeeping. */
  lemma ChainChannelWrites(d: Drv, lCh1: nat, lCh2: nat, o: ChainOptions)
    requires d.WF() && HasSet(d, lCh1) && lCh2 <= d.rm.ctrl.ranges.dmaMax
    ensures var r := ChainChannel(d, lCh1, lCh2, o).d;
      var p := SetOf(d, lCh1);
      lCh2 < MAX_DMA_CH && (lCh2 as bv32) < 64 &&
      r.Word(p, ENTRY_OPT) == ChainOpt(d.Word(p, ENTRY_OPT), o, lCh2 as bv32) &&
      PaRAMSameExcept(d, r, {Slot(p, ENTRY_OPT)}) &&
      r.bound[lCh2].trigMode == d.bound[lCh1].trigMode &&
      r.bound[lCh2].paRAMId == d.bound[lCh2].paRAMId && r.bound[lCh2].tcc == d.bound[lCh2].tcc &&
      (forall c :: 0 <= c < MAX_LOGICAL_CH && c != lCh2 ==> r.bound[c] == d.bound[c])
  {
    RangesFit(d);
  }

  /** OPT with TCCHEN and ITCCHEN cleared. */
  function UnchainOpt(opt: bv32): bv32
  {
    opt & !OPT_TCCHEN & !OPT_ITCCHEN
  }

  /** Unchaining clears the two chaining enables and keeps every other OPT bit. */
  lemma UnchainOptFields(opt: bv32)
    ensures UnchainOpt(opt) & (OPT_TCCHEN | OPT_ITCCHEN) == 0
    ensures UnchainOpt(opt) & !(OPT_TCCHEN | OPT_ITCCHEN) == opt & !(OPT_TCCHEN | OPT_ITCCHEN)
  {
  }

  /** EDMA3_DRV_unchainChannel: TCCHEN and ITCCHEN of the channel's OPT are cleared. */
  function UnchainChannel(d: Drv, lCh: nat): (r: Change)
    requires d.WF()
    ensures r.d.WF() && r.d.rm == d.rm && r.d.bound == d.bound
    ensures r.d.dmaQNum == d.dmaQNum && r.d.qdmaQNum == d.qdmaQNum
    ensures (r.status == DrvOk) == HasSet(d, lCh)
    ensures r.status != DrvOk ==> r == Change(d, DrvInvalidParam)
  {
    if !HasSet(d, lCh) then Change(d, DrvInvalidParam)
    else
      var p := SetOf(d, lCh);
      Change(d.WithWord(p, ENTRY_OPT, UnchainOpt(d.Word(p, ENTRY_OPT))), DrvOk)
  }

  /**
   * Unchaining after chaining: the chaining enables are off, the
   * interrupt enables stay as the chain set them, and the TCC is still lCh2.
   */
  lemma ChainThenUnchain(d: Drv, lCh1: nat, lCh2: nat, o: ChainOptions)
    requires d.WF() && HasSet(d, lCh1) && lCh2 <= d.rm.ctrl.ranges.dmaMax
    ensures var c := ChainChannel(d, lCh1, lCh2, o).d;
      var u := UnchainChannel(c, lCh1);
      var p := SetOf(d, lCh1);
      var opt := u.d.Word(p, ENTRY_OPT);
      u.status == DrvOk && lCh2 < MAX_DMA_CH &&
      opt & (OPT_TCCHEN | OPT_ITCCHEN) == 0 &&
      opt & !(OPT_TCCHEN | OPT_ITCCHEN) == ChainOpt(d.Word(p, ENTRY_OPT), o, lCh2 as bv32) & !(OPT_TCCHEN | OPT_ITCCHEN)
  {
    ChainChannelWrites(d, lCh1, lCh2, o);
    var c := ChainChannel(d, lCh1, lCh2, o).d;
    assert HasSet(c, lCh1);
    UnchainOptFields(c.Word(SetOf(d, lCh1), ENTRY_OPT));
  }

  // ---------------------------------------------------------------------
  // setPaRAMEntry / getPaRAMEntry

  /** An EDMA3_DRV_PaRAMEntry value: OPT (0) to CCNT (7). */
  predicate IsEntry(e: int)
  {
    ENTRY_OPT as int <= e <= ENTRY_CCNT as int
  }

  /** EDMA3_DRV_setPaRAMEntry: word `e` of the channel's PaRAM set becomes `v`. */
  function SetPaRAMEntry(d: Drv, lCh: nat, e: int, v: bv32): (r: Change)
    requires d.WF()
    ensures r.d.WF() && r.d.rm == d.rm && r.d.bound == d.bound
    ensures r.d.dmaQNum == d.dmaQNum && r.d.qdmaQNum == d.qdmaQNum
    ensures (r.status == DrvOk) == (IsEntry(e) && HasSet(d, lCh))
    ensures r.status != DrvOk ==> r == Change(d, DrvInvalidParam)
  {
    if !IsEntry(e) || !HasSet(d, lCh) then Change(d, DrvInvalidParam)
    else Change(d.WithWord(SetOf(d, lCh), e, v), DrvOk)
  }

  /** EDMA3_DRV_getPaRAMEntry: word `e` of the channel's PaRAM set. */
  function GetPaRAMEntry(d: Drv, lCh: nat, e: int): (r: Read)
    requires d.WF()
    ensures (r.status == DrvOk) == (IsEntry(e) && HasSet(d, lCh))
    ensures r.status != DrvOk ==> r == Read(DrvInvalidParam, 0)
  {
    if !IsEntry(e) || !HasSet(d, lCh) then Read(DrvInvalidParam, 0)
    else Read(DrvOk, d.Word(SetOf(d, lCh), e))
  }

  /**
   * Reading back an entry gives what was written, and the write touches
   * no other word; reading another entry of the same set gives its old value.
   */
  lemma EntryRoundTrip(d: Drv, lCh: nat, e: int, v: bv32, e2: int)
    requires d.WF() && IsEntry(e) && HasSet(d, lCh)
    ensures var r := SetPaRAMEntry(d, lCh, e, v).d;
      GetPaRAMEntry(r, lCh, e) == Read(DrvOk, v) &&
      (e2 != e ==> GetPaRAMEntry(r, lCh, e2) == GetPaRAMEntry(d, lCh, e2)) &&
      PaRAMSameExcept(d, r, {Slot(SetOf(d, lCh), e as nat)})
  {
    var r := SetPaRAMEntry(d, lCh, e, v).d;
    assert HasSet(r, lCh);
  }

  // ---------------------------------------------------------------------
  // setPaRAMField / getPaRAMField

  /** An EDMA3_DRV_PaRAMField value: OPT (0) to CCNT (11). */
  predicate IsField(f: int)
  {
    FIELD_OPT <= f <= FIELD_CCNT
  }

  /** The fields that are a whole word: OPT, SRC and DST. */
  predicate WholeField(f: int)
  {
    f == FIELD_OPT || f == FIELD_SRCADDR || f == FIELD_DESTADDR
  }

  /** The fields in the low half of their word: ACNT, SRCBIDX, LINK, SRCCIDX. */
  predicate LowField(f: int)
  {
    f == FIELD_ACNT || f == FIELD_SRCBIDX || f == FIELD_LINKADDR || f == FIELD_SRCCIDX
  }

  /** The fields in the high half of their word: BCNT, DSTBIDX, BCNTRLD, DSTCIDX. */
  predicate HighField(f: int)
  {
    f == FIELD_BCNT || f == FIELD_DESTBIDX || f == FIELD_BCNTRELOAD || f == FIELD_DESTCIDX
  }

  /** The PaRAM entry that holds field `f`. */
  function FieldEntry(f: int): (e: nat)
    requires IsField(f)
    ensures e < SET_WORDS
  {
    if f == FIELD_OPT then ENTRY_OPT
    else if f == FIELD_SRCADDR then ENTRY_SRC
    else if f == FIELD_ACNT || f == FIELD_BCNT then ENTRY_ACNT_BCNT
    else if f == FIELD_DESTADDR then ENTRY_DST
    else if f == FIELD_SRCBIDX || f == FIELD_DESTBIDX then ENTRY_SRC_DST_BIDX
    else if f == FIELD_LINKADDR || f == FIELD_BCNTRELOAD then ENTRY_LINK_BCNTRLD
    else if f == FIELD_SRCCIDX || f == FIELD_DESTCIDX then ENTRY_SRC_DST_CIDX
    else ENTRY_CCNT
  }

  /** The word that holds field `f` after writing `v` into it (CCNT: the low 16 bits of `v` as the whole word). */
  function FieldWrite(w: bv32, f: int, v: bv32): bv32
    requires IsField(f)
  {
    if WholeField(f) then v
    else if LowField(f) then WithLow(w, v)
    else if HighField(f) then WithHigh(w, v)
    else Low(v)
  }

  /** Field `f` read from the word that holds it (CCNT: the whole word). */
  function FieldRead(w: bv32, f: int): bv32
    requires IsField(f)
  {
    if LowField(f) then Low(w)
    else if HighField(f) then High(w)
    else w
  }

  /**
   * Reading a field back gives the value written, masked to 16 bits
   * unless the field is a whole word; a half-word field leaves the other
   * half of its word as it was.
   */
  lemma FieldWriteRead(w: bv32, f: int, v: bv32)
    requires IsField(f)
    ensures FieldRead(FieldWrite(w, f, v), f) == if WholeField(f) then v else Low(v)
    ensures LowField(f) ==> High(FieldWrite(w, f, v)) == High(w)
    ensures HighField(f) ==> Low(FieldWrite(w, f, v)) == Low(w)
  {
    HalfWrites(w, v);
    if !WholeField(f) && !LowField(f) && !HighField(f) {
      LowIsLow(v);
    }
  }

  /** The low half of a word is its own low half. */
  lemma LowIsLow(v: bv32)
    ensures Low(Low(v)) == Low(v)
  {
  }

  /**
   * The check at edma3_drv_adv.c:1051 meant to keep QDMA channels out of
   * setPaRAMField, as written: lCh <= qdmaMin && lCh >= qdmaMax.
   */
  predicate QdmaRejected(d: Drv, lCh: nat)
  {
    lCh <= d.rm.ctrl.ranges.qdmaMin && lCh >= d.rm.ctrl.ranges.qdmaMax
  }

  /**
   * What that check rejects: a QDMA channel only when the controller has
   * exactly one, and with no QDMA channels the last link channel; with
   * two or more QDMA channels it rejects none of them.
   */
  lemma QdmaRejectedCases(d: Drv, lCh: nat)
    requires d.WF() && d.Regs()
    ensures var g := d.rm.ctrl.ranges;
      var n := d.rm.ctrl.cfg.numQdma;
      (g.qdmaMin <= lCh <= g.qdmaMax ==> (QdmaRejected(d, lCh) <==> n == 1)) &&
      (n == 0 ==> (QdmaRejected(d, lCh) <==> lCh == g.linkMax || lCh == g.qdmaMin)) &&
      (n >= 2 ==> !QdmaRejected(d, lCh))
  {
    RangesFit(d);
  }

  /** EDMA3_DRV_setPaRAMField: field `f` of the channel's PaRAM set becomes `v`. */
  function SetPaRAMField(d: Drv, lCh: nat, f: int, v: bv32): (r: Change)
    requires d.WF()
    ensures r.d.WF() && r.d.rm == d.rm && r.d.bound == d.bound
    ensures r.d.dmaQNum == d.dmaQNum && r.d.qdmaQNum == d.qdmaQNum
    ensures (r.status == DrvOk) == (IsField(f) && HasSet(d, lCh) && !QdmaRejected(d, lCh))
    ensures r.status != DrvOk ==> r == Change(d, DrvInvalidParam)
  {
    if !IsField(f) || !HasSet(d, lCh) || QdmaRejected(d, lCh) then Change(d, DrvInvalidParam)
    else
      var p := SetOf(d, lCh);
      var e := FieldEntry(f);
      Change(d.WithWord(p, e, FieldWrite(d.Word(p, e), f, v)), DrvOk)
  }

  /** EDMA3_DRV_getPaRAMField: field `f` of the channel's PaRAM set. */
  function GetPaRAMField(d: Drv, lCh: nat, f: int): (r: Read)
    requires d.WF()
    ensures (r.status == DrvOk) == (IsField(f) && HasSet(d, lCh))
    ensures r.status != DrvOk ==> r == Read(DrvInvalidParam, 0)
  {
    if !IsField(f) || !HasSet(d, lCh) then Read(DrvInvalidParam, 0)
    else
      var p := SetOf(d, lCh);
      Read(DrvOk, FieldRead(d.Word(p, FieldEntry(f)), f))
  }

  /**
   * getPaRAMField after setPaRAMField on the same field returns the new
   * value, masked to 16 bits for the half-word fields and CCNT.
   */
  lemma FieldRoundTrip(d: Drv, lCh: nat, f: int, v: bv32)
    requires d.WF() && IsField(f) && HasSet(d, lCh) && !QdmaRejected(d, lCh)
    ensures var r := SetPaRAMField(d, lCh, f, v).d;
      GetPaRAMField(r, lCh, f) == Read(DrvOk, if WholeField(f) then v else Low(v))
  {
    var p := SetOf(d, lCh);
    FieldWriteRead(d.Word(p, FieldEntry(f)), f, v);
    assert HasSet(SetPaRAMField(d, lCh, f, v).d, lCh);
  }

  /**
   * A field write changes only the word holding the field, and for a
   * half-word field only its half: the other half reads as before.
   */
  lemma FieldWriteFrame(d: Drv, lCh: nat, f: int, v: bv32)
    requires d.WF() && IsField(f) && HasSet(d, lCh) && !QdmaRejected(d, lCh)
    ensures var r := SetPaRAMField(d, lCh, f, v).d;
      var p := SetOf(d, lCh);
      var e := FieldEntry(f);
      PaRAMSameExcept(d, r, {Slot(p, e)}) &&
      (LowField(f) ==> High(r.Word(p, e)) == High(d.Word(p, e))) &&
      (HighField(f) ==> Low(r.Word(p, e)) == Low(d.Word(p, e)))
  {
    var p := SetOf(d, lCh);
    FieldWriteRead(d.Word(p, FieldEntry(f)), f, v);
  }

  /** On a whole-word field, setPaRAMField is setPaRAMEntry on the field's entry. */
  lemma WholeFieldIsEntry(d: Drv, lCh: nat, f: int, v: bv32)
    requires d.WF() && IsField(f) && WholeField(f) && !QdmaRejected(d, lCh)
    ensures SetPaRAMField(d, lCh, f, v) == SetPaRAMEntry(d, lCh, FieldEntry(f), v)
  {
  }

  // ---------------------------------------------------------------------
  // mapChToEvtQ

  /** The slot of a DMA or QDMA channel in its queue register: the queue it is mapped to. */
  function MappedQueue(d: Drv, ch: nat): (q: bv32)
    requires d.WF() && d.Regs()
    requires ch <= d.rm.ctrl.ranges.dmaMax ||
      d.rm.ctrl.ranges.qdmaMin <= ch <= d.rm.ctrl.ranges.qdmaMax
  {
    RangesFit(d);
    QueueSlot(d.dmaQNum, d.qdmaQNum, d.rm.ctrl.ranges, ch)
  }

  /** The slot of channel `ch` in DMAQNUM (a DMA channel) or QDMAQNUM (a QDMA channel). */
  function QueueSlot(dmaQNum: seq<bv32>, qdmaQNum: bv32, g: Ranges, ch: nat): bv32
    requires ch <= g.dmaMax ==> ch / 8 < |dmaQNum|
    requires g.dmaMax < ch ==> g.qdmaMin <= ch < g.qdmaMin + 8
  {
    if ch <= g.dmaMax then QueueIn(dmaQNum[ch / 8], ch % 8)
    else QueueIn(qdmaQNum, ch - g.qdmaMin)
  }

  /**
   * EDMA3_DRV_mapChToEvtQ: the slot of a DMA channel in DMAQNUM, or of a
   * QDMA channel in QDMAQNUM, is set to the event queue.
   */
  function MapChToEvtQ(d: Drv, ch: nat, q: nat): (r: Change)
    requires d.WF()
    ensures r.d.WF() && r.d.rm == d.rm && r.d.bound == d.bound && r.d.paRAM == d.paRAM
    ensures (r.status == DrvOk) ==
      (d.Regs() && ch <= d.rm.ctrl.ranges.logMax && q < d.cfg.numEvtQueue &&
       (ch <= d.rm.ctrl.ranges.dmaMax || d.rm.ctrl.ranges.qdmaMin <= ch <= d.rm.ctrl.ranges.qdmaMax))
    ensures r.status != DrvOk ==> r == Change(d, DrvInvalidParam)
  {
    if !d.Regs() || ch > d.rm.ctrl.ranges.logMax || q >= d.cfg.numEvtQueue then Change(d, DrvInvalidParam)
    else
      RangesFit(d);
      var g := d.rm.ctrl.ranges;
      if ch <= g.dmaMax then
        var k := ch / 8;
        Change(d.(dmaQNum := d.dmaQNum[k := WithQueue(d.dmaQNum[k], ch % 8, q as bv32)]), DrvOk)
      else if g.qdmaMin <= ch <= g.qdmaMax then
        Change(d.(qdmaQNum := WithQueue(d.qdmaQNum, ch - g.qdmaMin, q as bv32)), DrvOk)
      else
        Change(d, DrvInvalidParam)
  }

  /** A queue number below 8 fits its 3-bit slot. */
  lemma QueueFits(q: nat)
    requires q < MAX_EVT_QUE
    ensures (q as bv32) & 7 == q as bv32
  {
  }

  /** A successful mapping of a DMA channel rewrites its slot in DMAQNUM word ch / 8 and no other register word. */
  lemma MapDmaChWords(d: Drv, ch: nat, q: nat)
    requires d.WF() && MapChToEvtQ(d, ch, q).status == DrvOk && ch <= d.rm.ctrl.ranges.dmaMax
    ensures var r := MapChToEvtQ(d, ch, q).d;
      q < MAX_EVT_QUE && r.Regs() && ch / 8 < DMAQNUM_WORDS && r.qdmaQNum == d.qdmaQNum &&
      r.dmaQNum == d.dmaQNum[ch / 8 := WithQueue(d.dmaQNum[ch / 8], ch % 8, q as bv32)]
  {
    RangesFit(d);
  }

  /** A successful mapping of any other channel is of a QDMA channel and rewrites its slot in QDMAQNUM only. */
  lemma MapQdmaChWords(d: Drv, ch: nat, q: nat)
    requires d.WF() && MapChToEvtQ(d, ch, q).status == DrvOk && ch > d.rm.ctrl.ranges.dmaMax
    ensures var r := MapChToEvtQ(d, ch, q).d;
      var g := d.rm.ctrl.ranges;
      q < MAX_EVT_QUE && r.Regs() &&
      g.qdmaMin <= ch <= g.qdmaMax && ch - g.qdmaMin < 8 && r.dmaQNum == d.dmaQNum &&
      r.qdmaQNum == WithQueue(d.qdmaQNum, ch - g.qdmaMin, q as bv32)
  {
    RangesFit(d);
  }

  /** After a successful mapping the channel's queue reads back as the queue asked for. */
  lemma MapChToEvtQMaps(d: Drv, ch: nat, q: nat)
    requires d.WF() && MapChToEvtQ(d, ch, q).status == DrvOk
    ensures var r := MapChToEvtQ(d, ch, q).d;
      r.Regs() && MappedQueue(r, ch) == q as bv32
  {
    var g := d.rm.ctrl.ranges;
    if ch <= g.dmaMax {
      MapDmaChWords(d, ch, q);
      QueueFits(q);
      QueueRoundTrip(d.dmaQNum[ch / 8], ch % 8, q as bv32);
    } else {
      MapQdmaChWords(d, ch, q);
      QueueFits(q);
      QueueRoundTrip(d.qdmaQNum, ch - g.qdmaMin, q as bv32);
    }
  }

  /**
   * Mapping a DMA channel changes no bit of the queue registers outside
   * its slot: QDMAQNUM and the other DMAQNUM words are kept (MapDmaChWords),
   * and in its own word every bit outside its 3-bit slot.
   */
  lemma MapDmaChKeeps(d: Drv, ch: nat, q: nat)
    requires d.WF() && MapChToEvtQ(d, ch, q).status == DrvOk && ch <= d.rm.ctrl.ranges.dmaMax
    ensures var r := MapChToEvtQ(d, ch, q).d;
      ch / 8 < DMAQNUM_WORDS &&
      ClearQueue(r.dmaQNum[ch / 8], ch % 8) == ClearQueue(d.dmaQNum[ch / 8], ch % 8)
  {
    MapDmaChWords(d, ch, q);
    QueueKeepsOthers(d.dmaQNum[ch / 8], ch % 8, q as bv32);
  }

  /**
   * Mapping a QDMA channel changes no bit of the queue registers outside
   * its slot: DMAQNUM is kept, and in QDMAQNUM every bit outside its slot.
   */
  lemma MapQdmaChKeeps(d: Drv, ch: nat, q: nat)
    requires d.WF() && MapChToEvtQ(d, ch, q).status == DrvOk && ch > d.rm.ctrl.ranges.dmaMax
    ensures var r := MapChToEvtQ(d, ch, q).d;
      var k := ch - d.rm.ctrl.ranges.qdmaMin;
      0 <= k < 8 && r.dmaQNum == d.dmaQNum &&
      ClearQueue(r.qdmaQNum, k) == ClearQueue(d.qdmaQNum, k)
  {
    MapQdmaChWords(d, ch, q);
    QueueKeepsOthers(d.qdmaQNum, ch - d.rm.ctrl.ranges.qdmaMin, q as bv32);
  }

  // ---------------------------------------------------------------------
  // mapTccLinkCh

  /** linkCh is in the link channel range. */
  predicate IsLinkChannel(d: Drv, lCh: nat)
  {
    d.rm.ctrl.ranges.linkMin <= lCh <= d.rm.ctrl.ranges.linkMax
  }

  /**
   * EDMA3_DRV_mapTccLinkCh: a link channel gets a TCC, in the OPT of its
   * PaRAM set and in the bookkeeping.
   */
  function MapTccLinkCh(d: Drv, linkCh: nat, tcc: nat): (r: Change)
    requires d.WF()
    ensures r.d.WF() && r.d.rm == d.rm
    ensures r.d.dmaQNum == d.dmaQNum && r.d.qdmaQNum == d.qdmaQNum
    ensures (r.status == DrvOk) ==
      (d.Regs() && IsLinkChannel(d, linkCh) && tcc < d.rm.ctrl.cfg.numTcc && HasSet(d, linkCh))
    ensures r.status != DrvOk ==> r == Change(d, DrvInvalidParam)
  {
    if !d.Regs() || !IsLinkChannel(d, linkCh) || tcc >= d.rm.ctrl.cfg.numTcc || !HasSet(d, linkCh) then
      Change(d, DrvInvalidParam)
    else
      RangesFit(d);
      var p := SetOf(d, linkCh);
      var written := d.WithWord(p, ENTRY_OPT, WithTcc(d.Word(p, ENTRY_OPT), tcc as bv32));
      Change(written.(bound := d.bound[linkCh := d.bound[linkCh].(tcc := tcc)]), DrvOk)
  }

  /**
   * A successful mapTccLinkCh rewrites the OPT word of the link channel's
   * set and the channel's bookkeeping tcc, and nothing else.
   */
  lemma MapTccLinkChWords(d: Drv, linkCh: nat, tcc: nat)
    requires d.WF() && MapTccLinkCh(d, linkCh, tcc).status == DrvOk
    ensures var r := MapTccLinkCh(d, linkCh, tcc).d;
      var p := SetOf(d, linkCh);
      tcc < MAX_TCC &&
      r.Word(p, ENTRY_OPT) == WithTcc(d.Word(p, ENTRY_OPT), tcc as bv32) &&
      PaRAMSameExcept(d, r, {Slot(p, ENTRY_OPT)}) &&
      r.bound[linkCh] == d.bound[linkCh].(tcc := tcc) &&
      (forall c :: 0 <= c < MAX_LOGICAL_CH && c != linkCh ==> r.bound[c] == d.bound[c])
  {
    RangesFit(d);
  }

  /** A TCC below 64 fits the 6-bit TCC field. */
  lemma TccFits(tcc: nat)
    requires tcc < MAX_TCC
    ensures (tcc as bv32) & 0x3F == tcc as bv32
  {
  }

  /**
   * A successful mapTccLinkCh records the TCC in the bookkeeping of the
   * link channel and in the TCC field of its OPT, keeping the other OPT bits.
   */
  lemma MapTccLinkChBinds(d: Drv, linkCh: nat, tcc: nat)
    requires d.WF() && MapTccLinkCh(d, linkCh, tcc).status == DrvOk
    ensures var r := MapTccLinkCh(d, linkCh, tcc).d;
      var p := SetOf(d, linkCh);
      r.bound[linkCh].tcc == tcc && r.bound[linkCh].paRAMId == d.bound[linkCh].paRAMId &&
      OptTcc(r.Word(p, ENTRY_OPT)) == tcc as bv32 &&
      r.Word(p, ENTRY_OPT) & !OPT_TCC == d.Word(p, ENTRY_OPT) & !OPT_TCC
  {
    MapTccLinkChWords(d, linkCh, tcc);
    var p := SetOf(d, linkCh);
    TccFits(tcc);
    TccField(d.Word(p, ENTRY_OPT), tcc as bv32);
  }

  /** Once a link channel has a TCC of its own, linking to it no longer changes its OPT. */
  lemma LinkAfterMapTccKeepsOpt(d: Drv, lCh1: nat, linkCh: nat, tcc: nat)
    requires d.WF() && MapTccLinkCh(d, linkCh, tcc).status == DrvOk
    requires var m := MapTccLinkCh(d, linkCh, tcc).d; HasSet(m, lCh1)
    ensures var m := MapTccLinkCh(d, linkCh, tcc).d;
      var p := SetOf(m, linkCh);
      LinkChannel(m, lCh1, linkCh).d.Word(p, ENTRY_OPT) == m.Word(p, ENTRY_OPT)
  {
    MapTccLinkChWords(d, linkCh, tcc);
    var m := MapTccLinkCh(d, linkCh, tcc).d;
    assert HasSet(m, linkCh);
    LinkChannelWrites(m, lCh1, linkCh);
  }

  // ---------------------------------------------------------------------
  // Checks on an unusable PaRAM binding

  /**
   * A channel whose bound paRAMId is negative or not below numPaRAMSets:
   * every call that writes its PaRAM set returns INVALID_PARAM and
   * changes nothing.
   */
  lemma BadBindingWritesNothing(d: Drv, lCh: nat, other: nat, e: int, f: int, v: bv32, o: ChainOptions, tcc: nat)
    requires d.WF() && lCh < MAX_LOGICAL_CH
    requires d.bound[lCh].paRAMId < 0 || d.bound[lCh].paRAMId >= d.rm.ctrl.cfg.numParam
    ensures LinkChannel(d, lCh, other) == Change(d, DrvInvalidParam)
    ensures LinkChannel(d, other, lCh) == Change(d, DrvInvalidParam)
    ensures UnlinkChannel(d, lCh) == Change(d, DrvInvalidParam)
    ensures ChainChannel(d, lCh, other, o) == Change(d, DrvInvalidParam)
    ensures UnchainChannel(d, lCh) == Change(d, DrvInvalidParam)
    ensures SetPaRAMEntry(d, lCh, e, v) == Change(d, DrvInvalidParam)
    ensures SetPaRAMField(d, lCh, f, v) == Change(d, DrvInvalidParam)
    ensures MapTccLinkCh(d, lCh, tcc) == Change(d, DrvInvalidParam)
  {
  }

  // ---------------------------------------------------------------------
  // getInstHandle

  /** The handle getInstHandle returns: the driver instance of a controller and region, or NULL. */
  datatype InstHandle = NoHandle | Handle(phy: nat, region: nat)

  /**
   * The driver instances: isOpen[phy][region] says whether the instance of
   * that controller and region was opened, numRegions[phy] is the
   * controller's region count; there are |isOpen| controllers
   * (EDMA3_MAX_EDMA3_INSTANCES).
   */
  datatype Instances = Instances(isOpen: seq<seq<bool>>, numRegions: seq<nat>)
  {
    predicate Valid()
    {
      |numRegions| == |isOpen| &&
      forall i :: 0 <= i < |isOpen| ==> |isOpen[i]| == MAX_REGIONS && numRegions[i] <= MAX_REGIONS
    }
  }

  /** The result of getInstHandle: the handle and the error code written to *errorCode. */
  datatype Lookup = Lookup(status: DrvStatus, handle: InstHandle)

  /** EDMA3_DRV_getInstHandle. */
  function GetInstHandle(t: Instances, phy: nat, region: nat): (r: Lookup)
    requires t.Valid()
  {
    if phy >= |t.isOpen| || region >= t.numRegions[phy] then Lookup(DrvInvalidParam, NoHandle)
    else if !t.isOpen[phy][region] then Lookup(InstNotOpened, NoHandle)
    else Lookup(DrvOk, Handle(phy, region))
  }

  /**
   * The lookup returns the instance of that controller and region exactly
   * when it was opened; an unopened instance of a valid region is
   * INST_NOT_OPENED, anything out of range INVALID_PARAM, and neither
   * gives a handle.
   */
  lemma GetInstHandleFinds(t: Instances, phy: nat, region: nat)
    requires t.Valid()
    ensures var r := GetInstHandle(t, phy, region);
      var inRange := phy < |t.isOpen| && region < t.numRegions[phy];
      (r.handle != NoHandle <==> inRange && t.isOpen[phy][region]) &&
      (r.handle != NoHandle ==> r.handle == Handle(phy, region)) &&
      (r.status == DrvOk <==> r.handle != NoHandle) &&
      (r.status == InstNotOpened <==> inRange && !t.isOpen[phy][region]) &&
      (r.status == DrvInvalidParam <==> !inRange)
  {
  }

  // ---------------------------------------------------------------------
  // getChannelStatus

  /**
   * The controller registers getChannelStatus reads: the event missed
   * registers EMR/EMRH and QEMR, and of the caller's shadow region the
   * event registers ER/ERH and the interrupt pending registers IPR/IPRH.
   */
  datatype StatusRegs = StatusRegs(emr: bv32, emrh: bv32, qemr: bv32, er: bv32, erh: bv32, ipr: bv32, iprh: bv32)

  /** The status word with the error, event-pending and transfer-complete flags as given. */
  function StatusWord(err: bool, pending: bool, done: bool): bv32
  {
    (if err then CHANNEL_ERR else 0) | (if pending then CHANNEL_EVENT_PENDING else 0) |
    (if done then CHANNEL_XFER_COMPLETE else 0)
  }

  /** Each flag of the status word is set exactly when asked for, and no other bit is. */
  lemma StatusWordFlags(err: bool, pending: bool, done: bool)
    ensures var w := StatusWord(err, pending, done);
      (w & CHANNEL_ERR != 0 <==> err) && (w & CHANNEL_EVENT_PENDING != 0 <==> pending) &&
      (w & CHANNEL_XFER_COMPLETE != 0 <==> done) && w & !7 == 0
  {
  }

  /** The channel may be asked for its status: a DMA or QDMA channel with a TCC below numTccs. */
  predicate StatusAllowed(d: Drv, lCh: nat)
    requires d.WF()
  {
    d.Regs() && lCh <= d.rm.ctrl.ranges.logMax && lCh < MAX_LOGICAL_CH && !IsLinkChannel(d, lCh) &&
    d.bound[lCh].tcc < d.rm.ctrl.cfg.numTcc
  }

  /**
   * The error flag's source: the channel's event-missed bit, in EMR/EMRH
   * for a DMA channel or in QEMR for a QDMA channel.
   */
  predicate ChannelErr(d: Drv, lCh: nat, regs: StatusRegs)
    requires d.WF() && StatusAllowed(d, lCh)
  {
    RangesFit(d);
    var g := d.rm.ctrl.ranges;
    (lCh <= g.dmaMax && Bit64(regs.emr, regs.emrh, lCh)) ||
    (g.qdmaMin <= lCh <= g.qdmaMax && Bit(regs.qemr, lCh - g.qdmaMin))
  }

  /** The event-pending flag's source: a DMA channel's bit in ER/ERH. */
  predicate ChannelPending(d: Drv, lCh: nat, regs: StatusRegs)
    requires d.WF() && StatusAllowed(d, lCh)
  {
    RangesFit(d);
    lCh <= d.rm.ctrl.ranges.dmaMax && Bit64(regs.er, regs.erh, lCh)
  }

  /** The transfer-complete flag's source: the bit of the channel's TCC in IPR/IPRH. */
  predicate ChannelDone(d: Drv, lCh: nat, regs: StatusRegs)
    requires d.WF() && StatusAllowed(d, lCh)
  {
    RangesFit(d);
    Bit64(regs.ipr, regs.iprh, d.bound[lCh].tcc)
  }

  /** EDMA3_DRV_getChannelStatus. */
  function ChannelStatus(d: Drv, lCh: nat, regs: StatusRegs): (r: Read)
    requires d.WF()
    ensures (r.status == DrvOk) == StatusAllowed(d, lCh)
    ensures r.status != DrvOk ==> r == Read(DrvInvalidParam, 0)
  {
    if !StatusAllowed(d, lCh) then Read(DrvInvalidParam, 0)
    else Read(DrvOk, StatusWord(ChannelErr(d, lCh, regs), ChannelPending(d, lCh, regs), ChannelDone(d, lCh, regs)))
  }

  /**
   * The status flags: an error when the channel's event-missed bit is
   * set (EMR/EMRH for a DMA channel, QEMR for a QDMA channel), an event
   * pending when a DMA channel's ER/ERH bit is set, a completed transfer
   * when the IPR/IPRH bit of the channel's TCC is set; nothing else.
   */
  lemma ChannelStatusFlags(d: Drv, lCh: nat, regs: StatusRegs)
    requires d.WF() && StatusAllowed(d, lCh)
    ensures var w := ChannelStatus(d, lCh, regs).value;
      (w & CHANNEL_ERR != 0 <==> ChannelErr(d, lCh, regs)) &&
      (w & CHANNEL_EVENT_PENDING != 0 <==> ChannelPending(d, lCh, regs)) &&
      (w & CHANNEL_XFER_COMPLETE != 0 <==> ChannelDone(d, lCh, regs)) &&
      w & !7 == 0
  {
    StatusWordFlags(ChannelErr(d, lCh, regs), ChannelPending(d, lCh, regs), ChannelDone(d, lCh, regs));
  }
}
