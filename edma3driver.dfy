/*
 * The EDMA3 driver instance as an object: the PaRAM, the DMAQNUM
 * registers and the channel bookkeeping edma3DrvChBoundRes are arrays the
 * calls update in place, word by word and entry by entry, as
 * edma3_drv_adv.c and edma3_drv_basic.c do. Every method ensures that the
 * new state is the step of the same call in Edma3DrvAdv, Edma3DrvBasic or
 * Edma3DrvRequest on the old state, so the lemmas proved there hold of
 * the object.
 */
module Edma3Driver {

  import opened Edma3Rm
  import opened Edma3Drv
  import opened Edma3DrvAdv
  import opened Edma3DrvBasic
  import Edma3DrvRequest

  class Driver {
    /** The resource manager the driver calls, and the driver's handle there. */
    var rm: Rm
    var h: int
    /** edma3DrvChBoundRes: the PaRAM set, TCC and trigger mode of each logical channel. */
    const bound: array<DrvBinding>
    /** The PaRAM, set after set, eight words each. */
    const paRAM: array<bv32>
    /** The DMAQNUM registers and QDMAQNUM. */
    const dmaQNum: array<bv32>
    var qdmaQNum: bv32
    var cfg: DrvConfig

    ghost predicate Valid()
      reads this, bound, paRAM, dmaQNum
    {
      bound.Length == MAX_LOGICAL_CH && paRAM.Length == PARAM_WORDS && dmaQNum.Length == DMAQNUM_WORDS &&
      paRAM != dmaQNum && State().WF()
    }

    function State(): Drv
      reads this, bound, paRAM, dmaQNum
    {
      Drv(rm, h, bound[..], paRAM[..], dmaQNum[..], qdmaQNum, cfg)
    }

    /** A driver instance whose state is `d`. */
    constructor (d: Drv)
      requires d.WF()
      ensures Valid() && State() == d
    {
      rm, h, qdmaQNum, cfg := d.rm, d.h, d.qdmaQNum, d.cfg;
      bound := new DrvBinding[MAX_LOGICAL_CH](i => if 0 <= i < |d.bound| then d.bound[i] else DrvBinding(-1, 0, 0));
      paRAM := new bv32[PARAM_WORDS](i => if 0 <= i < |d.paRAM| then d.paRAM[i] else 0);
      dmaQNum := new bv32[DMAQNUM_WORDS](i => if 0 <= i < |d.dmaQNum| then d.dmaQNum[i] else 0);
      new;
      assert bound[..] == d.bound;
      assert paRAM[..] == d.paRAM;
      assert dmaQNum[..] == d.dmaQNum;
    }

    /** Word `e` of PaRAM set `p`, read from the PaRAM. */
    method ReadWord(p: nat, e: nat) returns (w: bv32)
      requires Valid() && p < MAX_PARAM_SETS && e < SET_WORDS
      ensures w == State().Word(p, e)
    {
      w := paRAM[SET_WORDS * p + e];
    }

    /** Word `e` of PaRAM set `p` becomes `v`; nothing else changes. */
    method WriteWord(p: nat, e: nat, v: bv32)
      requires Valid() && p < MAX_PARAM_SETS && e < SET_WORDS
      modifies paRAM
      ensures Valid() && State() == old(State()).WithWord(p, e, v)
    {
      paRAM[SET_WORDS * p + e] := v;
    }

    // -------------------------------------------------------------------
    // PaRAM entries and fields

    /** EDMA3_DRV_setPaRAMEntry. */
    method SetPaRAMEntry(lCh: nat, e: int, v: bv32) returns (status: DrvStatus)
      requires Valid()
      modifies paRAM
      ensures Valid()
      ensures var r := Edma3DrvAdv.SetPaRAMEntry(old(State()), lCh, e, v); State() == r.d && status == r.status
    {
      var d := State();
      if !IsEntry(e) || !HasSet(d, lCh) {
        return DrvInvalidParam;
      }
      WriteWord(SetOf(d, lCh), e, v);
      status := DrvOk;
    }

    /** EDMA3_DRV_getPaRAMEntry. */
    method GetPaRAMEntry(lCh: nat, e: int) returns (status: DrvStatus, value: bv32)
      requires Valid()
      ensures Read(status, value) == Edma3DrvAdv.GetPaRAMEntry(State(), lCh, e)
    {
      var d := State();
      if !IsEntry(e) || !HasSet(d, lCh) {
        return DrvInvalidParam, 0;
      }
      value := ReadWord(SetOf(d, lCh), e);
      status := DrvOk;
    }

    /** EDMA3_DRV_setPaRAMField: a read-modify-write of the field's word. */
    method SetPaRAMField(lCh: nat, f: int, v: bv32) returns (status: DrvStatus)
      requires Valid()
      modifies paRAM
      ensures Valid()
      ensures var r := Edma3DrvAdv.SetPaRAMField(old(State()), lCh, f, v); State() == r.d && status == r.status
    {
      var d := State();
      if !IsField(f) || !HasSet(d, lCh) || QdmaRejected(d, lCh) {
        return DrvInvalidParam;
      }
      var p, e := SetOf(d, lCh), FieldEntry(f);
      var w := ReadWord(p, e);
      WriteWord(p, e, FieldWrite(w, f, v));
      status := DrvOk;
    }

    /** EDMA3_DRV_getPaRAMField. */
    method GetPaRAMField(lCh: nat, f: int) returns (status: DrvStatus, value: bv32)
      requires Valid()
      ensures Read(status, value) == Edma3DrvAdv.GetPaRAMField(State(), lCh, f)
    {
      var d := State();
      if !IsField(f) || !HasSet(d, lCh) {
        return DrvInvalidParam, 0;
      }
      var w := ReadWord(SetOf(d, lCh), FieldEntry(f));
      value := FieldRead(w, f);
      status := DrvOk;
    }

    // -------------------------------------------------------------------
    // link / unlink / chain / unchain

    /** EDMA3_DRV_linkChannel. */
    method LinkChannel(lCh1: nat, lCh2: nat) returns (status: DrvStatus)
      requires Valid()
      modifies paRAM
      ensures Valid()
      ensures var r := Edma3DrvAdv.LinkChannel(old(State()), lCh1, lCh2); State() == r.d && status == r.status
    {
      var d := State();
      if !HasSet(d, lCh1) || !HasSet(d, lCh2) {
        return DrvInvalidParam;
      }
      var p1, p2 := SetOf(d, lCh1), SetOf(d, lCh2);
      var link := ReadWord(p1, ENTRY_LINK_BCNTRLD);
      WriteWord(p1, ENTRY_LINK_BCNTRLD, WithLow(link, SetAddr(d, p2)));
      if bound[lCh2].tcc == MAX_TCC {
        var opt1 := ReadWord(p1, ENTRY_OPT);
        var opt2 := ReadWord(p2, ENTRY_OPT);
        WriteWord(p2, ENTRY_OPT, WithTcc(opt2, OptTcc(opt1)));
      }
      status := DrvOk;
    }

    /** EDMA3_DRV_unlinkChannel. */
    method UnlinkChannel(lCh: nat) returns (status: DrvStatus)
      requires Valid()
      modifies paRAM
      ensures Valid()
      ensures var r := Edma3DrvAdv.UnlinkChannel(old(State()), lCh); State() == r.d && status == r.status
    {
      var d := State();
      if !HasSet(d, lCh) {
        return DrvInvalidParam;
      }
      var p := SetOf(d, lCh);
      var link := ReadWord(p, ENTRY_LINK_BCNTRLD);
      WriteWord(p, ENTRY_LINK_BCNTRLD, link | 0xFFFF);
      status := DrvOk;
    }

    /** EDMA3_DRV_chainChannel: lCh1's OPT, then lCh2's bookkeeping entry. */
    method ChainChannel(lCh1: nat, lCh2: nat, o: ChainOptions) returns (status: DrvStatus)
      requires Valid()
      modifies paRAM, bound
      ensures Valid()
      ensures var r := Edma3DrvAdv.ChainChannel(old(State()), lCh1, lCh2, o); State() == r.d && status == r.status
    {
      var d := State();
      if !HasSet(d, lCh1) || lCh2 > d.rm.ctrl.ranges.dmaMax {
        return DrvInvalidParam;
      }
      RangesFit(d);
      var p := SetOf(d, lCh1);
      var opt := ReadWord(p, ENTRY_OPT);
      WriteWord(p, ENTRY_OPT, ChainOpt(opt, o, lCh2 as bv32));
      bound[lCh2] := bound[lCh2].(trigMode := bound[lCh1].trigMode);
      status := DrvOk;
    }

    /** EDMA3_DRV_unchainChannel. */
    method UnchainChannel(lCh: nat) returns (status: DrvStatus)
      requires Valid()
      modifies paRAM
      ensures Valid()
      ensures var r := Edma3DrvAdv.UnchainChannel(old(State()), lCh); State() == r.d && status == r.status
    {
      var d := State();
      if !HasSet(d, lCh) {
        return DrvInvalidParam;
      }
      var p := SetOf(d, lCh);
      var opt := ReadWord(p, ENTRY_OPT);
      WriteWord(p, ENTRY_OPT, UnchainOpt(opt));
      status := DrvOk;
    }

    // -------------------------------------------------------------------
    // event queues and link-channel TCCs

    /** EDMA3_DRV_mapChToEvtQ: the channel's slot in DMAQNUM or QDMAQNUM. */
    method MapChToEvtQ(ch: nat, q: nat) returns (status: DrvStatus)
      requires Valid()
      modifies this, dmaQNum
      ensures Valid()
      ensures var r := Edma3DrvAdv.MapChToEvtQ(old(State()), ch, q); State() == r.d && status == r.status
    {
      var d := State();
      if !d.Regs() || ch > d.rm.ctrl.ranges.logMax || q >= d.cfg.numEvtQueue {
        return DrvInvalidParam;
      }
      RangesFit(d);
      var g := d.rm.ctrl.ranges;
      if ch <= g.dmaMax {
        MapDmaChWords(d, ch, q);
        WriteDmaQueue(ch / 8, ch % 8, q as bv32);
      } else if g.qdmaMin <= ch <= g.qdmaMax {
        MapQdmaChWords(d, ch, q);
        WriteQdmaQueue(ch - g.qdmaMin, q as bv32);
      } else {
        return DrvInvalidParam;
      }
      status := DrvOk;
    }

    /** Slot `k` of DMAQNUM word `w` takes queue `q`. */
    method WriteDmaQueue(w: nat, k: nat, q: bv32)
      requires Valid() && w < DMAQNUM_WORDS && k < 8
      modifies dmaQNum
      ensures Valid()
      ensures State() == old(State()).(dmaQNum := old(State()).dmaQNum[w := WithQueue(old(State()).dmaQNum[w], k, q)])
    {
      dmaQNum[w] := WithQueue(dmaQNum[w], k, q);
    }

    /** Slot `k` of QDMAQNUM takes queue `q`. */
    method WriteQdmaQueue(k: nat, q: bv32)
      requires Valid() && k < 8
      modifies this
      ensures Valid()
      ensures State() == old(State()).(qdmaQNum := WithQueue(old(State()).qdmaQNum, k, q))
    {
      qdmaQNum := WithQueue(qdmaQNum, k, q);
    }

    /** EDMA3_DRV_mapTccLinkCh: the link channel's OPT, then its bookkeeping tcc. */
    method MapTccLinkCh(linkCh: nat, tcc: nat) returns (status: DrvStatus)
      requires Valid()
      modifies paRAM, bound
      ensures Valid()
      ensures var r := Edma3DrvAdv.MapTccLinkCh(old(State()), linkCh, tcc); State() == r.d && status == r.status
    {
      var d := State();
      if !d.Regs() || !IsLinkChannel(d, linkCh) || tcc >= d.rm.ctrl.cfg.numTcc || !HasSet(d, linkCh) {
        return DrvInvalidParam;
      }
      RangesFit(d);
      var p := SetOf(d, linkCh);
      var opt := ReadWord(p, ENTRY_OPT);
      WriteWord(p, ENTRY_OPT, WithTcc(opt, tcc as bv32));
      bound[linkCh] := bound[linkCh].(tcc := tcc);
      status := DrvOk;
    }
    // -------------------------------------------------------------------
    // The transfer parameters (edma3_drv_basic.c)

    /** EDMA3_DRV_setSrcParams (dest false) and EDMA3_DRV_setDestParams (dest true): the address word, then OPT. */
    method SetAddrParams(lCh: nat, dest: bool, addr: bv32, addrMode: int, fifoWidth: int) returns (status: DrvStatus)
      requires Valid()
      modifies paRAM
      ensures Valid()
      ensures var r := Edma3DrvBasic.SetAddrParams(old(State()), lCh, dest, addr, addrMode, fifoWidth);
        State() == r.d && status == r.status
    {
      var d := State();
      ghost var r := Edma3DrvBasic.SetAddrParams(d, lCh, dest, addr, addrMode, fifoWidth);
      if Misaligned(addr, addrMode) {
        return AddressNotAligned;
      }
      if !AddrArgsValid(addrMode, fifoWidth) || !HasSet(d, lCh) {
        return DrvInvalidParam;
      }
      if addrMode == ADDR_MODE_FIFO && BurstBytes(fifoWidth) > cfg.burstSize[FifoQueue(d, lCh)] {
        return FifoWidthNotSupported;
      }
      assert r.status == DrvOk;
      WriteAddr(SetOf(d, lCh), dest, addr, addrMode as bv32, fifoWidth as bv32);
      status := DrvOk;
    }

    /** The address word of set `p`, then its OPT with the address mode and FIFO width. */
    method WriteAddr(p: nat, dest: bool, addr: bv32, addrMode: bv32, fifoWidth: bv32)
      requires Valid() && p < MAX_PARAM_SETS
      modifies paRAM
      ensures Valid()
      ensures var d1 := old(State()).WithWord(p, if dest then ENTRY_DST else ENTRY_SRC, addr);
        State() == d1.WithWord(p, ENTRY_OPT, AddrModeOpt(d1.Word(p, ENTRY_OPT), dest, addrMode, fifoWidth))
    {
      WriteWord(p, if dest then ENTRY_DST else ENTRY_SRC, addr);
      var opt := ReadWord(p, ENTRY_OPT);
      WriteWord(p, ENTRY_OPT, AddrModeOpt(opt, dest, addrMode, fifoWidth));
    }

    /** EDMA3_DRV_setSrcIndex (dest false) and EDMA3_DRV_setDestIndex (dest true): BIDX, then CIDX. */
    method SetIndex(lCh: nat, dest: bool, bIdx: int, cIdx: int) returns (status: DrvStatus)
      requires Valid()
      modifies paRAM
      ensures Valid()
      ensures var r := Edma3DrvBasic.SetIndex(old(State()), lCh, dest, bIdx, cIdx); State() == r.d && status == r.status
    {
      var d := State();
      if !IndexInRange(bIdx) || !IndexInRange(cIdx) || !HasSet(d, lCh) {
        return DrvInvalidParam;
      }
      var p := SetOf(d, lCh);
      var b := ReadWord(p, ENTRY_SRC_DST_BIDX);
      WriteWord(p, ENTRY_SRC_DST_BIDX, WithSide(b, dest, bIdx));
      var c := ReadWord(p, ENTRY_SRC_DST_CIDX);
      WriteWord(p, ENTRY_SRC_DST_CIDX, WithSide(c, dest, cIdx));
      status := DrvOk;
    }

    /** EDMA3_DRV_setTransferParams: ACNT/BCNT, CCNT, BCNTRLD, then the sync type in OPT. */
    method SetTransferParams(lCh: nat, aCnt: bv32, bCnt: bv32, cCnt: bv32, bCntReload: bv32, syncType: int)
      returns (status: DrvStatus)
      requires Valid()
      modifies paRAM
      ensures Valid()
      ensures var r := Edma3DrvBasic.SetTransferParams(old(State()), lCh, aCnt, bCnt, cCnt, bCntReload, syncType);
        State() == r.d && status == r.status
    {
      var d := State();
      if aCnt > 0xFFFF || bCnt > 0xFFFF || cCnt > 0xFFFF || bCntReload > 0xFFFF || !IsSyncType(syncType) ||
         !HasSet(d, lCh) {
        return DrvInvalidParam;
      }
      WriteCounts(SetOf(d, lCh), aCnt, bCnt, cCnt, bCntReload);
      var opt := ReadWord(SetOf(d, lCh), ENTRY_OPT);
      WriteWord(SetOf(d, lCh), ENTRY_OPT, SyncOpt(opt, syncType));
      status := DrvOk;
    }

    /** The counts of set `p`: ACNT/BCNT, CCNT, then BCNTRLD beside LINK. */
    method WriteCounts(p: nat, aCnt: bv32, bCnt: bv32, cCnt: bv32, bCntReload: bv32)
      requires Valid() && p < MAX_PARAM_SETS
      modifies paRAM
      ensures Valid()
      ensures var d2 := old(State()).WithWord(p, ENTRY_ACNT_BCNT, AbCnt(aCnt, bCnt)).WithWord(p, ENTRY_CCNT, cCnt);
        State() == d2.WithWord(p, ENTRY_LINK_BCNTRLD, OrReload(d2.Word(p, ENTRY_LINK_BCNTRLD), bCntReload))
    {
      WriteWord(p, ENTRY_ACNT_BCNT, AbCnt(aCnt, bCnt));
      WriteWord(p, ENTRY_CCNT, cCnt);
      var link := ReadWord(p, ENTRY_LINK_BCNTRLD);
      WriteWord(p, ENTRY_LINK_BCNTRLD, OrReload(link, bCntReload));
    }

    // -------------------------------------------------------------------
    // enable / disable

    /** EDMA3_DRV_enableTransfer: the checks, then the trigger mode in the channel's bookkeeping entry. */
    method EnableTransfer(lCh: nat, mode: nat) returns (status: DrvStatus)
      requires Valid()
      modifies bound
      ensures Valid()
      ensures var r := Edma3DrvBasic.EnableTransfer(old(State()), lCh, mode); State() == r.d && status == r.status
    {
      if !TriggerAllowed(State(), lCh, mode) {
        return DrvInvalidParam;
      }
      RangesFit(State());
      bound[lCh] := bound[lCh].(trigMode := mode);
      status := DrvOk;
    }

    /** EDMA3_DRV_disableTransfer: the same checks as written; nothing the model keeps changes. */
    method DisableTransfer(lCh: nat, mode: nat) returns (status: DrvStatus)
      requires Valid()
      ensures status == Edma3DrvBasic.DisableTransfer(State(), lCh, mode)
    {
      status := if TriggerAllowedAsWritten(State(), lCh, mode) then DrvOk else DrvInvalidParam;
    }

    // -------------------------------------------------------------------
    // request / free

    /** The object takes state `n`: each bookkeeping entry and each register word is copied in turn. */
    method Store(n: Drv)
      requires Valid() && n.WF()
      modifies this, bound, paRAM, dmaQNum
      ensures Valid() && State() == n
    {
      for i := 0 to bound.Length
        modifies bound
        invariant bound[..i] == n.bound[..i]
      {
        bound[i] := n.bound[i];
      }
      CopyWords(paRAM, n.paRAM);
      CopyWords(dmaQNum, n.dmaQNum);
      rm, h, qdmaQNum, cfg := n.rm, n.h, n.qdmaQNum, n.cfg;
      assert bound[..] == bound[..bound.Length];
    }

    /** Register words `a` take the values `w`, one after the other. */
    static method CopyWords(a: array<bv32>, w: seq<bv32>)
      requires a.Length == |w|
      modifies a
      ensures a[..] == w
    {
      for i := 0 to a.Length
        invariant a[..i] == w[..i]
      {
        a[i] := w[i];
      }
      assert a[..] == a[..a.Length];
    }

    /** EDMA3_DRV_requestChannel: the channel number and TCC handed back, and the driver's new state. */
    method RequestChannel(lCh: nat, pTcc: Edma3DrvRequest.PtrArg, evtQ: nat, cb: nat) returns (status: DrvStatus, ch: nat, tcc: Edma3DrvRequest.PtrArg)
      requires Valid()
      modifies this, bound, paRAM, dmaQNum
      ensures Valid()
      ensures var r := Edma3DrvRequest.RequestChannel(old(State()), lCh, pTcc, evtQ, cb);
        State() == r.d && status == r.status && ch == r.lCh && tcc == r.pTcc
    {
      var r := Edma3DrvRequest.RequestChannel(State(), lCh, pTcc, evtQ, cb);
      Store(r.d);
      status, ch, tcc := r.status, r.lCh, r.pTcc;
    }

    /** EDMA3_DRV_freeChannel. */
    method FreeChannel(ch: nat) returns (status: DrvStatus)
      requires Valid()
      modifies this, bound, paRAM, dmaQNum
      ensures Valid()
      ensures var r := Edma3DrvRequest.FreeChannel(old(State()), ch); State() == r.d && status == r.status
    {
      var r := Edma3DrvRequest.FreeChannel(State(), ch);
      Store(r.d);
      status := r.status;
    }
  }
}
