/*
 * Requesting and freeing logical channels in the EDMA3 driver
 * (EDMA3_DRV_requestChannel and EDMA3_DRV_freeChannel of
 * edma3_drv_basic.c): the driver asks the resource manager for a DMA or
 * QDMA channel, a PaRAM set and a TCC in that order, handing back what it
 * took when a later step fails, and records what it got in its own
 * per-channel bookkeeping and in the PaRAM and event-queue registers.
 */
module Edma3DrvRequest {

  import opened Word32
  import opened Edma3Rm
  import opened Edma3RmChannel
  import opened Edma3Drv
  import opened Edma3DrvAdv
  import opened Edma3DrvBasic

  /** A `uint32_t *` argument that may be NULL. */
  datatype PtrArg = Null | Val(v: nat)

  /** EDMA3_DRV_ChannelType (NONE is a refused request). */
  datatype ChType = ChDma | ChLink | ChLinkTcc | ChQdma

  /**
   * What the argument check of requestChannel decides: refused, or the
   * channel type with the id to ask of the resource manager for a DMA or
   * QDMA channel and the PaRAM set to ask for (RES_ANY for any).
   */
  datatype Plan = Refused | Accepted(chType: ChType, chReq: nat, paramReq: nat)

  /** The result of requestChannel: new state, status, and what *pLCh and *pTcc hold afterwards. */
  datatype Request = Request(d: Drv, status: DrvStatus, lCh: nat, pTcc: PtrArg)

  // ---------------------------------------------------------------------
  // The argument check

  /** *pLCh names a DMA channel: a specific one, or DMA_CHANNEL_ANY. */
  predicate DmaRequest(d: Drv, lCh: nat)
  {
    lCh <= d.rm.ctrl.ranges.dmaMax || lCh == DRV_DMA_CHANNEL_ANY
  }

  /** *pLCh names a QDMA channel: QDMA_CHANNEL_0 .. QDMA_CHANNEL_7, or QDMA_CHANNEL_ANY. */
  predicate QdmaRequest(lCh: nat)
  {
    DRV_QDMA_CHANNEL_0 <= lCh <= DRV_QDMA_CHANNEL_7 || lCh == DRV_QDMA_CHANNEL_ANY
  }

  /** *pLCh names a link channel: a specific one, LINK_CHANNEL or LINK_CHANNEL_WITH_TCC. */
  predicate LinkRequest(d: Drv, lCh: nat)
  {
    d.rm.ctrl.ranges.linkMin <= lCh <= d.rm.ctrl.ranges.linkMax ||
    lCh == DRV_LINK_CHANNEL || lCh == DRV_LINK_CHANNEL_WITH_TCC
  }

  /** The TCC argument of a link request is usable: NULL, or a TCC below numTccs. */
  predicate LinkTccFits(d: Drv, pTcc: PtrArg)
  {
    pTcc.Val? ==> pTcc.v < d.rm.ctrl.cfg.numTcc
  }

  /**
   * The argument check of requestChannel. The source tests the kinds one
   * after another; for a controller with a register block their ranges
   * are disjoint, so at most one test matches.
   */
  function Classify(d: Drv, lCh: nat, pTcc: PtrArg, evtQ: nat): (r: Plan)
    requires d.WF()
    ensures r.Accepted? <==>
      d.Regs() &&
      (((DmaRequest(d, lCh) || QdmaRequest(lCh)) && evtQ < d.cfg.numEvtQueue && pTcc.Val?) ||
       (LinkRequest(d, lCh) &&
        (lCh == DRV_LINK_CHANNEL || (LinkTccFits(d, pTcc) && (lCh == DRV_LINK_CHANNEL_WITH_TCC ==> pTcc.Val?)))))
    ensures r.Accepted? ==>
      (r.chType == ChDma <==> DmaRequest(d, lCh)) &&
      (r.chType == ChQdma <==> QdmaRequest(lCh)) &&
      (r.chType == ChLinkTcc <==> LinkRequest(d, lCh) && lCh != DRV_LINK_CHANNEL && pTcc.Val?)
    ensures r.Accepted? && (r.chType == ChDma || r.chType == ChQdma) ==>
      pTcc.Val? && evtQ < d.cfg.numEvtQueue
    ensures r.Accepted? && r.chType == ChDma ==>
      r.chReq == (if lCh == DRV_DMA_CHANNEL_ANY then RES_ANY else lCh) && r.paramReq == RES_ANY
    ensures r.Accepted? && r.chType == ChQdma ==>
      r.chReq == (if lCh == DRV_QDMA_CHANNEL_ANY then RES_ANY else lCh - DRV_QDMA_CHANNEL_0) &&
      r.paramReq == RES_ANY
    ensures r.Accepted? && (r.chType == ChLink || r.chType == ChLinkTcc) ==>
      r.paramReq == (if lCh == DRV_LINK_CHANNEL || lCh == DRV_LINK_CHANNEL_WITH_TCC then RES_ANY else lCh)
  {
    if !d.Regs() then Refused
    else
      RangesFit(d);
      var g := d.rm.ctrl.ranges;
      var queueOk := evtQ < d.cfg.numEvtQueue && pTcc.Val?;
      if lCh <= g.dmaMax then (if queueOk then Accepted(ChDma, lCh, RES_ANY) else Refused)
      else if lCh == DRV_DMA_CHANNEL_ANY then (if queueOk then Accepted(ChDma, RES_ANY, RES_ANY) else Refused)
      else if g.linkMin <= lCh <= g.linkMax then
        (if pTcc.Null? then Accepted(ChLink, 0, lCh)
         else if LinkTccFits(d, pTcc) then Accepted(ChLinkTcc, 0, lCh)
         else Refused)
      else if lCh == DRV_LINK_CHANNEL then Accepted(ChLink, 0, RES_ANY)
      else if lCh == DRV_LINK_CHANNEL_WITH_TCC then
        (if pTcc.Val? && LinkTccFits(d, pTcc) then Accepted(ChLinkTcc, 0, RES_ANY) else Refused)
      else if DRV_QDMA_CHANNEL_0 <= lCh <= DRV_QDMA_CHANNEL_7 then
        (if queueOk then Accepted(ChQdma, lCh - DRV_QDMA_CHANNEL_0, RES_ANY) else Refused)
      else if lCh == DRV_QDMA_CHANNEL_ANY then (if queueOk then Accepted(ChQdma, RES_ANY, RES_ANY) else Refused)
      else Refused
  }

  // ---------------------------------------------------------------------
  // Link channels: a PaRAM set only

  /**
   * requestChannel for a link channel: the PaRAM set is allocated and the
   * logical channel number becomes its id; the channel's bookkeeping
   * records the set and trigger mode NONE and, with a TCC, the TCC, which
   * is also written to the set's OPT.
   */
  function RequestLink(d: Drv, plan: Plan, lCh: nat, pTcc: PtrArg): (r: Request)
    requires d.WF() && plan.Accepted? && (plan.chType == ChLink || plan.chType == ChLinkTcc)
    requires plan.chType == ChLinkTcc ==> pTcc.Val? && pTcc.v < d.rm.ctrl.cfg.numTcc
    ensures r.d.WF() && r.pTcc == pTcc && r.d.dmaQNum == d.dmaQNum && r.d.qdmaQNum == d.qdmaQNum
    ensures var a := AllocResource(d.rm, d.h, ParamSet, plan.paramReq);
      r.d.rm == a.rm && r.status == OfRm(a.status) &&
      (a.status != Ok ==> r == Request(d, r.status, lCh, pTcc)) &&
      (a.status == Ok ==>
        r.lCh == a.id && r.lCh < MAX_LOGICAL_CH &&
        r.d.bound == d.bound[r.lCh := DrvBinding(a.id,
          if plan.chType == ChLinkTcc then pTcc.v else d.bound[r.lCh].tcc, TRIG_MODE_NONE)])
  {
    var a := AllocResource(d.rm, d.h, ParamSet, plan.paramReq);
    if a.status != Ok then Request(d, OfRm(a.status), lCh, pTcc)
    else
      assert d.rm.Live(d.h);
      CountFits(d.rm.ctrl.cfg, ParamSet);
      var p := a.id;
      var b := d.bound[p];
      var d1 := d.(rm := a.rm);
      if plan.chType == ChLink then
        Request(d1.(bound := d.bound[p := b.(paRAMId := p, trigMode := TRIG_MODE_NONE)]), DrvOk, p, pTcc)
      else
        var d2 := d1.(bound := d.bound[p := DrvBinding(p, pTcc.v, TRIG_MODE_NONE)]);
        Request(d2.WithWord(p, ENTRY_OPT, WithTcc(d2.Word(p, ENTRY_OPT), pTcc.v as bv32)), DrvOk, p, pTcc)
  }

  // ---------------------------------------------------------------------
  // DMA and QDMA channels: channel, PaRAM set, TCC

  /**
   * requestChannel between its steps: the state, the status so far, the
   * logical channel (*pLCh), the channel as the resource manager knows it,
   * the PaRAM set and TCC to ask for, and the PaRAM set and TCC taken.
   */
  datatype Progress = Progress(
    d: Drv, status: DrvStatus, lCh: nat, chanType: ResType, chanId: nat,
    paramReq: nat, tccReq: nat, p: nat, c: nat)

  /** The resource type of a DMA or QDMA plan. */
  function ChannelType(chType: ChType): ResType
  {
    if chType == ChDma then DmaChannel else QdmaChannel
  }

  /** A successful allocation on the resource manager returns an id in range, on a live handle. */
  lemma AllocInRange(rm: Rm, h: int, t: ResType, resId: nat)
    requires rm.WF() && -1 <= h < MAX_RM_INSTANCES
    ensures var a := AllocResource(rm, h, t, resId);
      a.status == Ok ==> rm.Live(h) && t != OtherType && a.id < rm.ctrl.cfg.Count(t) && a.id < PoolSize(t)
  {
    var a := AllocResource(rm, h, t, resId);
    if a.status == Ok {
      CountFits(rm.ctrl.cfg, t);
    }
  }

  /**
   * The PaRAM set asked for a DMA channel: its entry in the channel to
   * PaRAM map unless that says none, else the request's.
   */
  function DmaParamReq(d: Drv, ch: nat, paramReq: nat): nat
    requires d.WF() && d.Regs() && ch < MAX_DMA_CH
  {
    var m := d.rm.ctrl.cfg.paramMap[ch];
    if m != CH_NO_PARAM_MAP then m else paramReq
  }

  /**
   * The TCC asked for: for TCC_ANY the DMA channel's mapped TCC (any if
   * it has none) or any for a QDMA channel; otherwise *pTcc.
   */
  function TccReq(d: Drv, t: ResType, ch: nat, tcc: nat): nat
    requires d.WF() && d.Regs() && (t == DmaChannel || t == QdmaChannel) && (t == DmaChannel ==> ch < MAX_DMA_CH)
  {
    if tcc != DRV_TCC_ANY then tcc
    else if t == QdmaChannel then RES_ANY
    else
      var m := d.rm.ctrl.cfg.tccMap[ch];
      if m == CH_NO_TCC_MAP then RES_ANY else m
  }

  /** What holds of a DMA or QDMA request after step 1. */
  predicate ChannelTaken(pr: Progress)
  {
    pr.d.WF() && pr.d.Regs() && pr.d.rm.Live(pr.d.h) && pr.status == DrvOk &&
    (pr.chanType == DmaChannel || pr.chanType == QdmaChannel) &&
    pr.chanId < pr.d.rm.ctrl.cfg.Count(pr.chanType) && pr.lCh < MAX_LOGICAL_CH &&
    (pr.chanType == DmaChannel ==> pr.lCh == pr.chanId && pr.lCh <= pr.d.rm.ctrl.ranges.dmaMax) &&
    (pr.chanType == QdmaChannel ==>
      pr.lCh == pr.chanId + pr.d.rm.ctrl.ranges.qdmaMin &&
      pr.d.rm.ctrl.ranges.qdmaMin <= pr.lCh <= pr.d.rm.ctrl.ranges.qdmaMax)
  }

  /**
   * Step 1: allocate the DMA or QDMA channel. A failure changes nothing
   * and is DMA_CHANNEL_UNAVAIL or QDMA_CHANNEL_UNAVAIL; on success *pLCh
   * is the channel (a QDMA channel offset by the first QDMA logical
   * channel).
   */
  function AllocChannel(d: Drv, plan: Plan, tcc: nat): (r: Progress)
    requires d.WF() && d.Regs() && plan.Accepted? && (plan.chType == ChDma || plan.chType == ChQdma)
    ensures r.d.WF() && r.d == d.(rm := r.d.rm) && r.chanType == ChannelType(plan.chType)
    ensures var a := AllocResource(d.rm, d.h, r.chanType, plan.chReq);
      (r.status != DrvOk <==> a.status != Ok) &&
      (r.status != DrvOk ==>
        r.d == d &&
        r.status == (if plan.chType == ChDma then DmaChannelUnavail else QdmaChannelUnavail)) &&
      (r.status == DrvOk ==> r.d.rm == a.rm && r.chanId == a.id)
    ensures r.status == DrvOk ==> ChannelTaken(r)
    ensures r.status == DrvOk && r.chanType == DmaChannel ==>
      r.lCh == r.chanId && r.lCh <= d.rm.ctrl.ranges.dmaMax
    ensures r.status == DrvOk && r.chanType == QdmaChannel ==>
      r.lCh == r.chanId + d.rm.ctrl.ranges.qdmaMin &&
      d.rm.ctrl.ranges.qdmaMin <= r.lCh <= d.rm.ctrl.ranges.qdmaMax
  {
    var t := ChannelType(plan.chType);
    var a := AllocResource(d.rm, d.h, t, plan.chReq);
    AllocInRange(d.rm, d.h, t, plan.chReq);
    RangesFit(d);
    if a.status != Ok then
      Progress(d, if plan.chType == ChDma then DmaChannelUnavail else QdmaChannelUnavail, 0, t, 0, 0, 0, 0, 0)
    else if t == DmaChannel then
      Progress(d.(rm := a.rm), DrvOk, a.id, t, a.id, DmaParamReq(d, a.id, plan.paramReq),
               TccReq(d, t, a.id, tcc), 0, 0)
    else
      Progress(d.(rm := a.rm), DrvOk, a.id + d.rm.ctrl.ranges.qdmaMin, t, a.id, plan.paramReq,
               TccReq(d, t, a.id, tcc), 0, 0)
  }

  /**
   * Step 2: allocate the PaRAM set. A failure frees the channel again
   * and passes the resource manager's status up.
   */
  function ParamStage(pr: Progress): (r: Progress)
    requires ChannelTaken(pr)
    ensures r.d.WF() && r.d == pr.d.(rm := r.d.rm) && r.lCh == pr.lCh
    ensures r.chanType == pr.chanType && r.chanId == pr.chanId && r.tccReq == pr.tccReq
    ensures r.status == DrvOk ==> ChannelTaken(r)
    ensures var a := AllocResource(pr.d.rm, pr.d.h, ParamSet, pr.paramReq);
      (r.status == DrvOk <==> a.status == Ok) &&
      (a.status != Ok ==>
        r.status == RmError(a.status) &&
        r.d.rm == FreeResource(pr.d.rm, pr.d.h, pr.chanType, pr.chanId).rm) &&
      (a.status == Ok ==> r.d.rm == a.rm && r.p == a.id && r.p < pr.d.rm.ctrl.cfg.numParam)
  {
    var a := AllocResource(pr.d.rm, pr.d.h, ParamSet, pr.paramReq);
    AllocInRange(pr.d.rm, pr.d.h, ParamSet, pr.paramReq);
    if a.status != Ok then
      pr.(d := pr.d.(rm := FreeResource(pr.d.rm, pr.d.h, pr.chanType, pr.chanId).rm), status := OfRm(a.status))
    else pr.(d := pr.d.(rm := a.rm), p := a.id)
  }

  /**
   * Step 3: allocate the TCC. A failure frees the PaRAM set and the
   * channel and is TCC_UNAVAIL; on success the channel's bookkeeping
   * records the PaRAM set and the TCC.
   */
  function TccStage(pr: Progress): (r: Progress)
    requires ChannelTaken(pr) && pr.p < pr.d.rm.ctrl.cfg.numParam
    ensures r.d.WF() && r.lCh == pr.lCh && r.chanType == pr.chanType && r.chanId == pr.chanId && r.p == pr.p
    ensures r.status == DrvOk ==> ChannelTaken(r)
    ensures var a := AllocResource(pr.d.rm, pr.d.h, Tcc, pr.tccReq);
      (r.status == DrvOk <==> a.status == Ok) &&
      (a.status != Ok ==>
        r.status == TccUnavail &&
        r.d == pr.d.(rm := FreeResource(FreeResource(pr.d.rm, pr.d.h, ParamSet, pr.p).rm, pr.d.h,
                                        pr.chanType, pr.chanId).rm)) &&
      (a.status == Ok ==>
        r.c == a.id && r.c < pr.d.rm.ctrl.cfg.numTcc &&
        r.d == pr.d.(rm := a.rm, bound := pr.d.bound[pr.lCh := pr.d.bound[pr.lCh].(paRAMId := pr.p, tcc := a.id)]))
  {
    var a := AllocResource(pr.d.rm, pr.d.h, Tcc, pr.tccReq);
    AllocInRange(pr.d.rm, pr.d.h, Tcc, pr.tccReq);
    if a.status != Ok then
      var f := FreeResource(pr.d.rm, pr.d.h, ParamSet, pr.p);
      pr.(d := pr.d.(rm := FreeResource(f.rm, pr.d.h, pr.chanType, pr.chanId).rm), status := TccUnavail)
    else
      var b := pr.d.bound[pr.lCh];
      pr.(d := pr.d.(rm := a.rm, bound := pr.d.bound[pr.lCh := b.(paRAMId := pr.p, tcc := a.id)]), c := a.id)
  }

  /** Step 7: the TCC is written to the TCC field of the PaRAM set's OPT word. */
  function SetOptTcc(d: Drv, p: nat, c: nat): (r: Drv)
    requires d.WF() && p < MAX_PARAM_SETS && c < MAX_TCC
    ensures r.WF() && r == d.(paRAM := r.paRAM)
    ensures OptTcc(r.Word(p, ENTRY_OPT)) == c as bv32
  {
    var w := c as bv32;
    assert w & 0x3F == w;
    TccField(d.Word(p, ENTRY_OPT), w);
    d.WithWord(p, ENTRY_OPT, WithTcc(d.Word(p, ENTRY_OPT), w))
  }

  /**
   * Steps 5 to 7 for a channel that holds its PaRAM set and TCC: the
   * channel is mapped to the event queue (the register writes of
   * mapChToEvtQ), the TCC goes to the PaRAM set's OPT, and the trigger
   * mode becomes NONE (QDMA for a QDMA channel).
   */
  function ProgramChannel(pr: Progress, evtQ: nat): (r: Drv)
    requires ChannelTaken(pr) && pr.p < pr.d.rm.ctrl.cfg.numParam && pr.c < pr.d.rm.ctrl.cfg.numTcc
    requires evtQ < pr.d.cfg.numEvtQueue
    ensures r.WF() && r.rm == pr.d.rm && r.h == pr.d.h
    ensures r.bound == pr.d.bound[pr.lCh := pr.d.bound[pr.lCh].(trigMode :=
      if pr.chanType == DmaChannel then TRIG_MODE_NONE else TRIG_MODE_QDMA)]
  {
    RangesFit(pr.d);
    var d1 := MapChToEvtQ(pr.d, pr.lCh, evtQ).d;
    var d2 := SetOptTcc(d1, pr.p, pr.c);
    var mode := if pr.chanType == DmaChannel then TRIG_MODE_NONE else TRIG_MODE_QDMA;
    d2.(bound := d2.bound[pr.lCh := d2.bound[pr.lCh].(trigMode := mode)])
  }

  /** The queue a channel is mapped to depends only on the queue registers and the ranges. */
  lemma MappedQueueFrame(d1: Drv, d2: Drv, ch: nat)
    requires d1.WF() && d2.WF() && d1.Regs() && d1.rm.ctrl == d2.rm.ctrl
    requires d1.dmaQNum == d2.dmaQNum && d1.qdmaQNum == d2.qdmaQNum
    requires ch <= d1.rm.ctrl.ranges.dmaMax || d1.rm.ctrl.ranges.qdmaMin <= ch <= d1.rm.ctrl.ranges.qdmaMax
    ensures MappedQueue(d1, ch) == MappedQueue(d2, ch)
  {
  }

  /** After steps 5 to 7 the channel's queue reads back as evtQ. */
  lemma ProgramChannelQueue(pr: Progress, evtQ: nat)
    requires ChannelTaken(pr) && pr.p < pr.d.rm.ctrl.cfg.numParam && pr.c < pr.d.rm.ctrl.cfg.numTcc
    requires evtQ < pr.d.cfg.numEvtQueue
    ensures var r := ProgramChannel(pr, evtQ);
      r.Regs() && MappedQueue(r, pr.lCh) == evtQ as bv32
  {
    var d1 := MapChToEvtQ(pr.d, pr.lCh, evtQ).d;
    MapChToEvtQMaps(pr.d, pr.lCh, evtQ);
    MappedQueueFrame(d1, ProgramChannel(pr, evtQ), pr.lCh);
  }

  /** After steps 5 to 7 the TCC field of the set's OPT is the channel's TCC. */
  lemma ProgramChannelOpt(pr: Progress, evtQ: nat)
    requires ChannelTaken(pr) && pr.p < pr.d.rm.ctrl.cfg.numParam && pr.c < pr.d.rm.ctrl.cfg.numTcc
    requires evtQ < pr.d.cfg.numEvtQueue
    ensures OptTcc(ProgramChannel(pr, evtQ).Word(pr.p, ENTRY_OPT)) == pr.c as bv32
  {
    RangesFit(pr.d);
    var d2 := SetOptTcc(MapChToEvtQ(pr.d, pr.lCh, evtQ).d, pr.p, pr.c);
    assert ProgramChannel(pr, evtQ).paRAM == d2.paRAM;
  }

  /** Step 4 when it succeeds: the TCC's callback is registered through the channel (nothing for a NULL callback). */
  function Registered(pr: Progress, cb: nat): (r: Progress)
    requires ChannelTaken(pr)
    ensures ChannelTaken(r) && r == pr.(d := r.d) && r.d == pr.d.(rm := r.d.rm)
    ensures r.d.rm.slots == pr.d.rm.slots && r.d.rm.ctrl == pr.d.rm.ctrl
  {
    if cb == 0 then pr
    else pr.(d := pr.d.(rm := RegisterTccCb(pr.d.rm, pr.d.h, pr.chanType, pr.chanId, pr.c, cb).rm))
  }

  /**
   * Step 4 and the rest: with a callback (cb != 0) the TCC's callback is
   * registered; if that fails the channel is freed through freeChannel
   * and the result is TCC_REGISTER_FAIL. Otherwise the channel is
   * programmed.
   */
  function FinishChannel(pr: Progress, evtQ: nat, cb: nat): (r: Change)
    requires ChannelTaken(pr) && pr.p < pr.d.rm.ctrl.cfg.numParam && pr.c < pr.d.rm.ctrl.cfg.numTcc
    requires evtQ < pr.d.cfg.numEvtQueue
    ensures r.d.WF()
    ensures r.status == DrvOk || r.status == TccRegisterFail
    ensures var g := RegisterTccCb(pr.d.rm, pr.d.h, pr.chanType, pr.chanId, pr.c, cb);
      (r.status == DrvOk <==> cb == 0 || g.status == Ok) &&
      (r.status == DrvOk ==> r.d == ProgramChannel(Registered(pr, cb), evtQ)) &&
      (r.status != DrvOk ==> r.d == FreeChannel(pr.d, pr.lCh).d)
  {
    if cb == 0 then Change(ProgramChannel(Registered(pr, cb), evtQ), DrvOk)
    else
      var g := RegisterTccCb(pr.d.rm, pr.d.h, pr.chanType, pr.chanId, pr.c, cb);
      if g.status != Ok then Change(FreeChannel(pr.d, pr.lCh).d, TccRegisterFail)
      else Change(ProgramChannel(Registered(pr, cb), evtQ), DrvOk)
  }

  /** Steps 2 to 7 for a DMA or QDMA channel taken in step 1. */
  function BindDrvChannel(pr: Progress, pTcc: PtrArg, evtQ: nat, cb: nat): (r: Request)
    requires ChannelTaken(pr) && evtQ < pr.d.cfg.numEvtQueue
    ensures r.d.WF() && r.lCh == pr.lCh
    ensures r.status == DrvOk || r.status == TccRegisterFail ==>
      ParamStage(pr).status == DrvOk && TccStage(ParamStage(pr)).status == DrvOk &&
      var s3 := TccStage(ParamStage(pr));
      r.pTcc == Val(s3.c) &&
      (r.status == DrvOk ==> r.d == ProgramChannel(Registered(s3, cb), evtQ)) &&
      (r.status == TccRegisterFail ==> r.d == FreeChannel(s3.d, s3.lCh).d)
  {
    var s2 := ParamStage(pr);
    if s2.status != DrvOk then Request(s2.d, s2.status, pr.lCh, pTcc)
    else
      var s3 := TccStage(s2);
      if s3.status != DrvOk then Request(s3.d, s3.status, pr.lCh, pTcc)
      else
        var f := FinishChannel(s3, evtQ, cb);
        Request(f.d, f.status, pr.lCh, Val(s3.c))
  }

  /**
   * EDMA3_DRV_requestChannel. `lCh` is *pLCh, `pTcc` the TCC argument,
   * `cb` the callback (0 for NULL). The crossbar event mapping is not
   * modelled.
   */
  function RequestChannel(d: Drv, lCh: nat, pTcc: PtrArg, evtQ: nat, cb: nat): (r: Request)
    requires d.WF()
    ensures r.d.WF()
    ensures r.status == DrvOk ==> Classify(d, lCh, pTcc, evtQ).Accepted? && r.lCh < MAX_LOGICAL_CH
    ensures Classify(d, lCh, pTcc, evtQ).Refused? ==> r == Request(d, DrvInvalidParam, lCh, pTcc)
  {
    var plan := Classify(d, lCh, pTcc, evtQ);
    if plan.Refused? then Request(d, DrvInvalidParam, lCh, pTcc)
    else if plan.chType == ChLink || plan.chType == ChLinkTcc then RequestLink(d, plan, lCh, pTcc)
    else RequestDmaChannel(d, plan, lCh, pTcc.v, evtQ, cb)
  }

  /**
   * requestChannel for an accepted DMA or QDMA request: step 1 takes the
   * channel (an unavailable channel is the only failure that leaves
   * nothing to hand back), steps 2 to 7 the rest (BindDrvChannel).
   */
  function RequestDmaChannel(d: Drv, plan: Plan, lCh: nat, tcc: nat, evtQ: nat, cb: nat): (r: Request)
    requires d.WF() && d.Regs() && plan.Accepted? && (plan.chType == ChDma || plan.chType == ChQdma)
    requires evtQ < d.cfg.numEvtQueue
    ensures r.d.WF()
    ensures r.status == DrvOk ==> r.lCh < MAX_LOGICAL_CH
  {
    var a := AllocChannel(d, plan, tcc);
    if a.status != DrvOk then Request(a.d, a.status, lCh, Val(tcc))
    else BindDrvChannel(a, Val(tcc), evtQ, cb)
  }

  /** An accepted DMA or QDMA request is RequestDmaChannel on its plan. */
  lemma RequestDispatchesDma(d: Drv, lCh: nat, pTcc: PtrArg, evtQ: nat, cb: nat)
    requires d.WF()
    ensures var plan := Classify(d, lCh, pTcc, evtQ);
      plan.Accepted? && (plan.chType == ChDma || plan.chType == ChQdma) ==>
        d.Regs() && evtQ < d.cfg.numEvtQueue && pTcc.Val? &&
        RequestChannel(d, lCh, pTcc, evtQ, cb) == RequestDmaChannel(d, plan, lCh, pTcc.v, evtQ, cb)
  {
  }

  /** An accepted link request is RequestLink on its plan. */
  lemma RequestDispatchesLink(d: Drv, lCh: nat, pTcc: PtrArg, evtQ: nat, cb: nat)
    requires d.WF()
    ensures var plan := Classify(d, lCh, pTcc, evtQ);
      plan.Accepted? && (plan.chType == ChLink || plan.chType == ChLinkTcc) ==>
        (plan.chType == ChLinkTcc ==> pTcc.Val? && pTcc.v < d.rm.ctrl.cfg.numTcc) &&
        RequestChannel(d, lCh, pTcc, evtQ, cb) == RequestLink(d, plan, lCh, pTcc)
  {
  }

  // ---------------------------------------------------------------------
  // freeChannel

  /**
   * edma3RemoveMapping for a DMA or QDMA channel: stop a transfer that
   * has a trigger mode (disableTransfer), unregister the TCC callback
   * through the channel, and clear the channel's event-queue slot. The
   * DCHMAP / QCHMAP writes are not modelled.
   */
  function RemoveMapping(d: Drv, ch: nat): (r: Change)
    requires d.WF() && ch < MAX_LOGICAL_CH
    requires d.Regs() ==>
      ch <= d.rm.ctrl.ranges.dmaMax || d.rm.ctrl.ranges.qdmaMin <= ch <= d.rm.ctrl.ranges.qdmaMax
    ensures r.d.WF() && r.d.bound == d.bound && r.d.paRAM == d.paRAM && r.d.rm.slots == d.rm.slots
    ensures r.d.rm.ctrl == d.rm.ctrl
    ensures r.status != DrvOk ==> r.d == d
    ensures r.status == DrvOk ==> d.Regs()
  {
    var mode := d.bound[ch].trigMode;
    if !d.Regs() then Change(d, DrvInvalidParam)
    else if mode != TRIG_MODE_NONE && DisableTransfer(d, ch, mode) != DrvOk then Change(d, DisableTransfer(d, ch, mode))
    else
      RangesFit(d);
      var g := d.rm.ctrl.ranges;
      var isDma := ch < d.rm.ctrl.cfg.numDma;
      var u := UnregisterTccCb(d.rm, d.h, if isDma then DmaChannel else QdmaChannel,
                               if isDma then ch else ch - g.qdmaMin);
      if u.status != Ok then Change(d, OfRm(u.status))
      else
        var d1 := d.(rm := u.rm);
        if ch <= g.dmaMax then
          Change(d1.(dmaQNum := d1.dmaQNum[ch / 8 := ClearQueue(d1.dmaQNum[ch / 8], ch % 8)]), DrvOk)
        else
          Change(d1.(qdmaQNum := ClearQueue(d1.qdmaQNum, ch - g.qdmaMin)), DrvOk)
  }

  /**
   * The last part of freeChannel for a DMA or QDMA channel: free the
   * PaRAM set (and mark it unbound), the TCC (and mark it unbound), then
   * the channel; the first failure stops it and its status is returned.
   */
  function ReleaseChannel(d: Drv, ch: nat, t: ResType, id: nat, p: nat, c: nat): (r: Change)
    requires d.WF() && ch < MAX_LOGICAL_CH
    ensures r.d.WF() && r.d.paRAM == d.paRAM && r.d.dmaQNum == d.dmaQNum && r.d.qdmaQNum == d.qdmaQNum
    ensures r.d.rm.ctrl == d.rm.ctrl && r.d.rm.tables == d.rm.tables
    ensures r.d.bound == d.bound[ch := r.d.bound[ch]] && r.d.bound[ch].trigMode == d.bound[ch].trigMode
  {
    var b := d.bound[ch];
    var f1 := FreeResource(d.rm, d.h, ParamSet, p);
    if f1.status != Ok then Change(d, OfRm(f1.status))
    else
      var d1 := d.(rm := f1.rm, bound := d.bound[ch := b.(paRAMId := -1)]);
      var f2 := FreeResource(d1.rm, d.h, Tcc, c);
      if f2.status != Ok then Change(d1, OfRm(f2.status))
      else
        var d2 := d1.(rm := f2.rm, bound := d.bound[ch := b.(paRAMId := -1, tcc := MAX_TCC)]);
        var f3 := FreeResource(d2.rm, d.h, t, id);
        Change(d2.(rm := f3.rm), OfRm(f3.status))
  }

  /**
   * EDMA3_DRV_freeChannel. The channel's kind is decided by the ranges
   * (QDMA over link over DMA, as the tests are made in that order); a
   * link channel frees the PaRAM set its bookkeeping names (as a uint32)
   * and marks it unbound. A DMA or QDMA channel needs a bound PaRAM set
   * below numPaRAMSets and a TCC below numTccs, then loses its mappings
   * and frees PaRAM set, TCC and channel. A channel number from
   * MAX_LOGICAL_CH on that got past the range tests is not acted on.
   */
  function FreeChannel(d: Drv, ch: nat): (r: Change)
    requires d.WF()
    ensures r.d.WF() && r.d.paRAM == d.paRAM && r.d.rm.ctrl == d.rm.ctrl
  {
    var g := d.rm.ctrl.ranges;
    var isQdma := g.qdmaMin <= ch <= g.qdmaMax;
    var isLink := !isQdma && g.linkMin <= ch <= g.linkMax;
    var isDma := !isQdma && !isLink && ch <= g.dmaMax;
    if !(isQdma || isLink || isDma) then Change(d, DrvInvalidParam)
    else if ch >= MAX_LOGICAL_CH then Change(d, DrvOk)
    else if isLink then
      var f := FreeResource(d.rm, d.h, ParamSet, Wrap32(d.bound[ch].paRAMId));
      if f.status != Ok then Change(d, OfRm(f.status))
      else Change(d.(rm := f.rm, bound := d.bound[ch := d.bound[ch].(paRAMId := -1)]), DrvOk)
    else
      var b := d.bound[ch];
      if b.paRAMId < 0 || b.paRAMId >= d.rm.ctrl.cfg.numParam || b.tcc >= d.rm.ctrl.cfg.numTcc then
        Change(d, DrvInvalidParam)
      else
        var m := RemoveMapping(d, ch);
        if m.status != DrvOk then m
        else
          var t := if isQdma then QdmaChannel else DmaChannel;
          ReleaseChannel(m.d, ch, t, if isQdma then ch - g.qdmaMin else ch, b.paRAMId, b.tcc)
  }

  // ---------------------------------------------------------------------
  // Rollback: a request that fails before its callback changes nothing

  /** A PaRAM allocation that fails after the channel was taken frees the channel: the state is as before. */
  lemma ParamFailRestores(d: Drv, plan: Plan, tcc: nat)
    requires d.WF() && d.Regs() && plan.Accepted? && (plan.chType == ChDma || plan.chType == ChQdma)
    ensures var a := AllocChannel(d, plan, tcc);
      a.status == DrvOk ==> ParamStage(a).status != DrvOk ==> ParamStage(a).d == d
  {
    var a := AllocChannel(d, plan, tcc);
    if a.status == DrvOk {
      AllocThenFree(d.rm, d.h, a.chanType, plan.chReq);
      var s2 := ParamStage(a);
      if s2.status != DrvOk {
        assert s2.d.rm == d.rm;
      }
    }
  }

  /**
   * A TCC allocation that fails after the channel and the PaRAM set were
   * taken frees both: the state is as before.
   */
  lemma TccFailRestores(d: Drv, plan: Plan, tcc: nat)
    requires d.WF() && d.Regs() && plan.Accepted? && (plan.chType == ChDma || plan.chType == ChQdma)
    ensures var a := AllocChannel(d, plan, tcc);
      a.status == DrvOk ==> ParamStage(a).status == DrvOk ==>
        TccStage(ParamStage(a)).status != DrvOk ==> TccStage(ParamStage(a)).d == d
  {
    var a := AllocChannel(d, plan, tcc);
    if a.status == DrvOk {
      TccFailFreesParam(a);
      AllocThenFree(d.rm, d.h, a.chanType, plan.chReq);
      assert FreeResource(a.d.rm, d.h, a.chanType, a.chanId).rm == d.rm;
    }
  }

  /** Step 3 failing after step 2 succeeded gives the PaRAM set back: only the channel is still to be freed. */
  lemma TccFailFreesParam(pr: Progress)
    requires ChannelTaken(pr)
    ensures var s2 := ParamStage(pr);
      s2.status == DrvOk ==> TccStage(s2).status != DrvOk ==>
        TccStage(s2).d == pr.d.(rm := FreeResource(pr.d.rm, pr.d.h, pr.chanType, pr.chanId).rm)
  {
    var s2 := ParamStage(pr);
    if s2.status == DrvOk {
      AllocThenFree(pr.d.rm, pr.d.h, ParamSet, pr.paramReq);
      assert FreeResource(s2.d.rm, pr.d.h, ParamSet, s2.p).rm == pr.d.rm;
    }
  }

  /**
   * Whatever requestChannel refuses or fails to allocate, it leaves the
   * driver and the resource manager as they were; only a failed callback
   * registration goes through freeChannel instead (RegisterFailFrees).
   */
  lemma RequestRollsBack(d: Drv, lCh: nat, pTcc: PtrArg, evtQ: nat, cb: nat)
    requires d.WF()
    ensures var r := RequestChannel(d, lCh, pTcc, evtQ, cb);
      r.status != DrvOk && r.status != TccRegisterFail ==> r.d == d
  {
    var plan := Classify(d, lCh, pTcc, evtQ);
    if plan.Accepted? && (plan.chType == ChDma || plan.chType == ChQdma) {
      RequestDispatchesDma(d, lCh, pTcc, evtQ, cb);
      DmaRollsBack(d, plan, lCh, pTcc.v, evtQ, cb);
    }
  }

  /** RequestRollsBack for the DMA and QDMA path. */
  lemma DmaRollsBack(d: Drv, plan: Plan, lCh: nat, tcc: nat, evtQ: nat, cb: nat)
    requires d.WF() && d.Regs() && plan.Accepted? && (plan.chType == ChDma || plan.chType == ChQdma)
    requires evtQ < d.cfg.numEvtQueue
    ensures var r := RequestDmaChannel(d, plan, lCh, tcc, evtQ, cb);
      r.status != DrvOk && r.status != TccRegisterFail ==> r.d == d
  {
    ParamFailRestores(d, plan, tcc);
    TccFailRestores(d, plan, tcc);
  }

  // ---------------------------------------------------------------------
  // What a granted DMA or QDMA channel holds, and freeing it

  /** The channel number the resource manager knows a DMA or QDMA logical channel by. */
  function ChanId(d: Drv, t: ResType, lCh: nat): nat
  {
    if t == DmaChannel || lCh < d.rm.ctrl.ranges.qdmaMin then lCh else lCh - d.rm.ctrl.ranges.qdmaMin
  }

  /**
   * `d1` is `d0` with logical channel `lCh`, a DMA or QDMA channel of type
   * `t`, holding the PaRAM set and TCC its bookkeeping names: the three
   * were taken from the driver's resource-manager instance (Took) and no
   * other instance changed.
   */
  ghost predicate Holding(d0: Drv, d1: Drv, lCh: nat, t: ResType)
    requires d0.WF() && d1.WF()
  {
    d0.Regs() && d0.rm.Live(d0.h) && d1.h == d0.h && d1.rm.ctrl == d0.rm.ctrl && d1.cfg == d0.cfg &&
    (t == DmaChannel || t == QdmaChannel) && lCh < MAX_LOGICAL_CH &&
    (t == DmaChannel ==> lCh <= d0.rm.ctrl.ranges.dmaMax) &&
    (t == QdmaChannel ==> d0.rm.ctrl.ranges.qdmaMin <= lCh <= d0.rm.ctrl.ranges.qdmaMax) &&
    d1.bound[lCh].paRAMId >= 0 &&
    Took(d0.rm.slots[d0.h], d1.rm.slots[d0.h], d0.rm.ctrl.cfg, t, ChanId(d0, t, lCh),
         d1.bound[lCh].paRAMId, d1.bound[lCh].tcc) &&
    d1.rm.slots == d0.rm.slots[d0.h := d1.rm.slots[d0.h]]
  }

  /** Replacing an element twice is replacing it once with the second value. */
  lemma UpdateTwice<T>(s: seq<T>, k: nat, x: T, y: T)
    requires k < |s|
    ensures s[k := x][k := y] == s[k := y]
  {
  }

  /** Step 1 on the instance: the channel is an allocation on the driver's instance. */
  lemma AllocChannelSlot(d: Drv, plan: Plan, tcc: nat)
    requires d.WF() && d.Regs() && plan.Accepted? && (plan.chType == ChDma || plan.chType == ChQdma)
    ensures var a := AllocChannel(d, plan, tcc);
      a.status == DrvOk ==>
        d.rm.Live(d.h) &&
        var o := AllocIn(d.rm.slots[d.h], d.rm.ctrl.cfg, a.chanType, plan.chReq);
        o.status == Ok && a.d.rm.slots == d.rm.slots[d.h := o.inst] && a.chanId == o.id
  {
  }

  /** Step 2 on the instance: the PaRAM set is an allocation on the driver's instance. */
  lemma ParamStageSlot(pr: Progress)
    requires ChannelTaken(pr)
    ensures var s2 := ParamStage(pr);
      s2.status == DrvOk ==>
        var o := AllocIn(pr.d.rm.slots[pr.d.h], pr.d.rm.ctrl.cfg, ParamSet, pr.paramReq);
        o.status == Ok && s2.d.rm.slots == pr.d.rm.slots[pr.d.h := o.inst] && s2.p == o.id
  {
  }

  /** Step 3 on the instance: the TCC is an allocation on the driver's instance. */
  lemma TccStageSlot(pr: Progress)
    requires ChannelTaken(pr) && pr.p < pr.d.rm.ctrl.cfg.numParam
    ensures var s3 := TccStage(pr);
      s3.status == DrvOk ==>
        var o := AllocIn(pr.d.rm.slots[pr.d.h], pr.d.rm.ctrl.cfg, Tcc, pr.tccReq);
        o.status == Ok && s3.d.rm.slots == pr.d.rm.slots[pr.d.h := o.inst] && s3.c == o.id
  {
  }

  /**
   * Steps 1 to 3 together: the channel, its PaRAM set and its TCC, or
   * the progress of the first step that failed.
   */
  ghost function TakeResources(d: Drv, plan: Plan, tcc: nat): (r: Progress)
    requires d.WF() && d.Regs() && plan.Accepted? && (plan.chType == ChDma || plan.chType == ChQdma)
    ensures r.status == DrvOk ==>
      ChannelTaken(r) && r.p < r.d.rm.ctrl.cfg.numParam && r.c < r.d.rm.ctrl.cfg.numTcc &&
      r.chanType == ChannelType(plan.chType)
  {
    var a := AllocChannel(d, plan, tcc);
    if a.status != DrvOk then a
    else
      var s2 := ParamStage(a);
      if s2.status != DrvOk then s2 else TccStage(s2)
  }

  /**
   * What steps 1 to 3 leave behind on success: the channel holds its
   * PaRAM set and TCC, and its bookkeeping records them and nothing else.
   */
  ghost predicate Staged(d: Drv, s3: Progress)
  {
    d.WF() && ChannelTaken(s3) && s3.p < s3.d.rm.ctrl.cfg.numParam && s3.c < s3.d.rm.ctrl.cfg.numTcc &&
    Holding(d, s3.d, s3.lCh, s3.chanType) &&
    s3.d.bound == d.bound[s3.lCh := d.bound[s3.lCh].(paRAMId := s3.p, tcc := s3.c)]
  }

  /** After steps 1 to 3 the channel holds its PaRAM set and TCC, recorded in its bookkeeping. */
  lemma StagesHold(d: Drv, plan: Plan, tcc: nat)
    requires d.WF() && d.Regs() && plan.Accepted? && (plan.chType == ChDma || plan.chType == ChQdma)
    ensures var s3 := TakeResources(d, plan, tcc);
      s3.status == DrvOk ==>
          Staged(d, s3) && ChanId(d, s3.chanType, s3.lCh) == s3.chanId
  {
    StagesTake(d, plan, tcc);
  }

  /** Steps 1 to 3 take the channel, the PaRAM set and the TCC from the driver's instance. */
  lemma StagesTake(d: Drv, plan: Plan, tcc: nat)
    requires d.WF() && d.Regs() && plan.Accepted? && (plan.chType == ChDma || plan.chType == ChQdma)
    ensures var s3 := TakeResources(d, plan, tcc);
      s3.status == DrvOk ==>
          Holding(d, s3.d, s3.lCh, s3.chanType) && ChanId(d, s3.chanType, s3.lCh) == s3.chanId
  {
    var s3 := TakeResources(d, plan, tcc);
    if s3.status == DrvOk {
      StagesSlots(d, plan, tcc);
      TakenHolds(d, s3);
    }
  }

  /** A channel taken from the driver's instance together with the PaRAM set and TCC its bookkeeping names is Holding them. */
  lemma TakenHolds(d: Drv, s3: Progress)
    requires d.WF() && d.Regs() && ChannelTaken(s3)
    requires s3.d.h == d.h && s3.d.cfg == d.cfg && s3.d.rm.ctrl == d.rm.ctrl
    requires s3.d.bound[s3.lCh].paRAMId == s3.p && s3.d.bound[s3.lCh].tcc == s3.c
    requires d.rm.Live(d.h) &&
      Took(d.rm.slots[d.h], s3.d.rm.slots[d.h], d.rm.ctrl.cfg, s3.chanType, s3.chanId, s3.p, s3.c) &&
      s3.d.rm.slots == d.rm.slots[d.h := s3.d.rm.slots[d.h]]
    ensures Holding(d, s3.d, s3.lCh, s3.chanType) && ChanId(d, s3.chanType, s3.lCh) == s3.chanId
  {
  }

  /** Steps 1 to 3 on the instances: the driver's instance gives up the three resources, no other changes. */
  lemma StagesSlots(d: Drv, plan: Plan, tcc: nat)
    requires d.WF() && d.Regs() && plan.Accepted? && (plan.chType == ChDma || plan.chType == ChQdma)
    ensures var s3 := TakeResources(d, plan, tcc);
      s3.status == DrvOk ==>
          d.rm.Live(d.h) &&
          Took(d.rm.slots[d.h], s3.d.rm.slots[d.h], d.rm.ctrl.cfg, s3.chanType, s3.chanId, s3.p, s3.c) &&
          s3.d.rm.slots == d.rm.slots[d.h := s3.d.rm.slots[d.h]]
  {
    var a := AllocChannel(d, plan, tcc);
    if a.status == DrvOk {
      var s2 := ParamStage(a);
      if s2.status == DrvOk {
        var s3 := TccStage(s2);
        if s3.status == DrvOk {
          var h, cfg := d.h, d.rm.ctrl.cfg;
          AllocChannelSlot(d, plan, tcc);
          ParamStageSlot(a);
          TccStageSlot(s2);
          var o1 := AllocIn(d.rm.slots[h], cfg, a.chanType, plan.chReq);
          var o2 := AllocIn(o1.inst, cfg, ParamSet, a.paramReq);
          var o3 := AllocIn(o2.inst, cfg, Tcc, a.tccReq);
          UpdateTwice(d.rm.slots, h, o1.inst, o2.inst);
          UpdateTwice(d.rm.slots, h, o2.inst, o3.inst);
          AllocsTake(d.rm.slots[h], cfg, a.chanType, plan.chReq, a.paramReq, a.tccReq);
          assert s3.d.rm.slots[h] == o3.inst;
        }
      }
    }
  }

  /** A DMA or QDMA request that is granted, or whose callback registration fails, went through steps 1 to 3. */
  lemma DmaStages(d: Drv, plan: Plan, lCh: nat, tcc: nat, evtQ: nat, cb: nat)
    requires d.WF() && d.Regs() && plan.Accepted? && (plan.chType == ChDma || plan.chType == ChQdma)
    requires evtQ < d.cfg.numEvtQueue
    ensures var r := RequestDmaChannel(d, plan, lCh, tcc, evtQ, cb);
      r.status == DrvOk || r.status == TccRegisterFail ==>
        var s3 := TakeResources(d, plan, tcc);
        s3.status == DrvOk && r.lCh == s3.lCh && r.pTcc == Val(s3.c) &&
        (r.status == DrvOk ==> r.d == ProgramChannel(Registered(s3, cb), evtQ)) &&
        (r.status == TccRegisterFail ==> r.d == FreeChannel(s3.d, s3.lCh).d)
  {
  }

  /** The three frees at the end of freeChannel, on resources that free back to `i0`. */
  lemma ReleaseFreesBack(d: Drv, ch: nat, t: ResType, id: nat, p: nat, c: nat, i0: Instance)
    requires d.WF() && ch < MAX_LOGICAL_CH && d.rm.Live(d.h) && d.rm.ctrl.cfg.Valid()
    requires FreesBackTo(d.rm.slots[d.h], i0, d.rm.ctrl.cfg, t, id, p, c)
    ensures var r := ReleaseChannel(d, ch, t, id, p, c);
      r.status == DrvOk && r.d.rm.slots == d.rm.slots[d.h := i0] &&
      r.d.bound == d.bound[ch := d.bound[ch].(paRAMId := -1, tcc := MAX_TCC)]
  {
    var h, cfg := d.h, d.rm.ctrl.cfg;
    var g1 := FreeIn(d.rm.slots[h], cfg, ParamSet, p);
    var g2 := FreeIn(g1.inst, cfg, Tcc, c);
    var f1 := FreeResource(d.rm, h, ParamSet, p);
    assert f1.rm.slots == d.rm.slots[h := g1.inst];
    var f2 := FreeResource(f1.rm, h, Tcc, c);
    assert f2.rm.slots == d.rm.slots[h := g2.inst];
    var f3 := FreeResource(f2.rm, h, t, id);
    assert f3.rm.slots == d.rm.slots[h := i0];
  }

  /** The channel's recorded trigger mode is NONE, or one disableTransfer accepts for it. */
  predicate ModeDisables(d: Drv, lCh: nat)
    requires d.WF() && lCh < MAX_LOGICAL_CH
  {
    d.bound[lCh].trigMode == TRIG_MODE_NONE || DisableTransfer(d, lCh, d.bound[lCh].trigMode) == DrvOk
  }

  /** removeMapping on a channel that holds its resources succeeds and keeps bookkeeping and instances. */
  lemma RemoveMappingHolding(d0: Drv, d1: Drv, lCh: nat, t: ResType)
    requires d0.WF() && d1.WF() && Holding(d0, d1, lCh, t) && ModeDisables(d1, lCh)
    ensures var m := RemoveMapping(d1, lCh);
      m.status == DrvOk && m.d.rm.slots == d1.rm.slots && m.d.bound == d1.bound && m.d.h == d1.h &&
      m.d.rm.Live(m.d.h)
  {
    RangesContiguous(d0.rm.ctrl.cfg);
    var h := d0.h;
    var i0 := d0.rm.slots[h];
    var b := d1.bound[lCh];
    assert d1.rm.slots[h].claimed == i0.claimed;
  }

  /**
   * freeChannel of a DMA or QDMA channel with a bound PaRAM set and TCC
   * in range, whose mappings can be removed, is the three frees on the
   * state removeMapping leaves.
   */
  lemma FreeChannelReleases(d0: Drv, d1: Drv, lCh: nat, t: ResType)
    requires d0.WF() && d1.WF() && Holding(d0, d1, lCh, t) && ModeDisables(d1, lCh)
    ensures var b := d1.bound[lCh];
      var m := RemoveMapping(d1, lCh);
      m.status == DrvOk &&
      FreeChannel(d1, lCh) == ReleaseChannel(m.d, lCh, t, ChanId(d0, t, lCh), b.paRAMId, b.tcc)
  {
    RangesContiguous(d0.rm.ctrl.cfg);
    CountFits(d0.rm.ctrl.cfg, ParamSet);
    RemoveMappingHolding(d0, d1, lCh, t);
  }

  /** After removeMapping, the channel's PaRAM set, TCC and channel still free back to the instance before the request. */
  lemma HoldingFreesBack(d0: Drv, d1: Drv, lCh: nat, t: ResType)
    requires d0.WF() && d1.WF() && Holding(d0, d1, lCh, t) && ModeDisables(d1, lCh)
    ensures var m := RemoveMapping(d1, lCh);
      var b := d1.bound[lCh];
      m.status == DrvOk && m.d.rm.Live(m.d.h) && m.d.rm.ctrl.cfg.Valid() && m.d.h == d0.h &&
      m.d.bound == d1.bound && m.d.rm.slots == d1.rm.slots &&
      FreesBackTo(m.d.rm.slots[m.d.h], d0.rm.slots[d0.h], d0.rm.ctrl.cfg, t, ChanId(d0, t, lCh), b.paRAMId, b.tcc)
  {
    var b := d1.bound[lCh];
    FreeTaken(d0.rm.slots[d0.h], d1.rm.slots[d0.h], d0.rm.ctrl.cfg, t, ChanId(d0, t, lCh), b.paRAMId, b.tcc);
    RemoveMappingHolding(d0, d1, lCh, t);
  }

  /** Replacing an element and putting the old one back gives the sequence back. */
  lemma UpdateBack<T>(s: seq<T>, k: nat, x: T)
    requires k < |s|
    ensures s[k := x][k := s[k]] == s
  {
  }

  /** The three frees that end freeChannel succeed and give the instance back as it was before the request. */
  lemma ReleaseHolding(d0: Drv, d1: Drv, lCh: nat, t: ResType)
    requires d0.WF() && d1.WF() && Holding(d0, d1, lCh, t) && ModeDisables(d1, lCh)
    ensures var m := RemoveMapping(d1, lCh);
      var b := d1.bound[lCh];
      var f := ReleaseChannel(m.d, lCh, t, ChanId(d0, t, lCh), b.paRAMId, b.tcc);
      f.status == DrvOk && f.d.rm.slots == d0.rm.slots &&
      f.d.bound == d1.bound[lCh := b.(paRAMId := -1, tcc := MAX_TCC)]
  {
    var h := d0.h;
    var b := d1.bound[lCh];
    HoldingFreesBack(d0, d1, lCh, t);
    var m := RemoveMapping(d1, lCh);
    ReleaseFreesBack(m.d, lCh, t, ChanId(d0, t, lCh), b.paRAMId, b.tcc, d0.rm.slots[h]);
    UpdateBack(d0.rm.slots, h, d1.rm.slots[h]);
  }

  /**
   * freeChannel of `lCh` on `d1` succeeds, leaves every instance as in
   * `d0` and marks the channel's PaRAM set unbound (and, with `tcc`, its
   * TCC too).
   */
  predicate FreeRestores(d0: Drv, d1: Drv, lCh: nat, tcc: bool)
    requires d0.WF() && d1.WF()
  {
    lCh < MAX_LOGICAL_CH &&
    var f := FreeChannel(d1, lCh);
    f.status == DrvOk && f.d.rm.slots == d0.rm.slots && f.d.bound[lCh].paRAMId == -1 &&
    (tcc ==> f.d.bound[lCh].tcc == MAX_TCC)
  }

  /**
   * freeChannel on a channel that holds its resources (and whose trigger
   * mode, if any, can be disabled) succeeds, hands the channel, its PaRAM
   * set and its TCC back, and marks the bookkeeping unbound.
   */
  lemma FreeHolding(d0: Drv, d1: Drv, lCh: nat, t: ResType)
    requires d0.WF() && d1.WF() && Holding(d0, d1, lCh, t) && ModeDisables(d1, lCh)
    ensures FreeRestores(d0, d1, lCh, true)
    ensures FreeChannel(d1, lCh).d.bound == d1.bound[lCh := d1.bound[lCh].(paRAMId := -1, tcc := MAX_TCC)]
  {
    FreeChannelReleases(d0, d1, lCh, t);
    ReleaseHolding(d0, d1, lCh, t);
  }

  /** Holding survives a change that keeps the instances and the channel's PaRAM set and TCC. */
  lemma HoldingFrame(d0: Drv, d1: Drv, d2: Drv, lCh: nat, t: ResType)
    requires d0.WF() && d1.WF() && d2.WF() && Holding(d0, d1, lCh, t)
    requires d2.h == d1.h && d2.rm.ctrl == d1.rm.ctrl && d2.cfg == d1.cfg && d2.rm.slots == d1.rm.slots
    requires d2.bound[lCh].paRAMId == d1.bound[lCh].paRAMId && d2.bound[lCh].tcc == d1.bound[lCh].tcc
    ensures Holding(d0, d2, lCh, t)
  {
  }

  /** Steps 4 to 7 keep what steps 1 to 3 took, and the bookkeeping gains the trigger mode. */
  lemma ProgramHolds(d: Drv, s3: Progress, evtQ: nat, cb: nat)
    requires Staged(d, s3) && evtQ < s3.d.cfg.numEvtQueue
    ensures var r := ProgramChannel(Registered(s3, cb), evtQ);
      var b := r.bound[s3.lCh];
      Holding(d, r, s3.lCh, s3.chanType) && b.tcc == s3.c &&
      r.bound == d.bound[s3.lCh := DrvBinding(b.paRAMId, b.tcc,
        if s3.chanType == DmaChannel then TRIG_MODE_NONE else TRIG_MODE_QDMA)]
  {
    var r := ProgramChannel(Registered(s3, cb), evtQ);
    HoldingFrame(d, s3.d, r, s3.lCh, s3.chanType);
    var mode := if s3.chanType == DmaChannel then TRIG_MODE_NONE else TRIG_MODE_QDMA;
    var x := d.bound[s3.lCh].(paRAMId := s3.p, tcc := s3.c);
    UpdateTwice(d.bound, s3.lCh, x, x.(trigMode := mode));
    assert r.bound[s3.lCh] == DrvBinding(s3.p, s3.c, mode);
  }

  /**
   * A granted DMA or QDMA channel: it holds its PaRAM set and TCC (taken
   * from the instance, Holding), which its bookkeeping records with
   * trigger mode NONE (QDMA for a QDMA channel); *pTcc is the TCC; no
   * other channel's bookkeeping changed.
   */
  lemma RequestBinds(d: Drv, lCh: nat, pTcc: PtrArg, evtQ: nat, cb: nat)
    requires d.WF()
    ensures var plan := Classify(d, lCh, pTcc, evtQ);
      var r := RequestChannel(d, lCh, pTcc, evtQ, cb);
      r.status == DrvOk && (plan.chType == ChDma || plan.chType == ChQdma) ==>
        var t := ChannelType(plan.chType);
        var b := r.d.bound[r.lCh];
        Holding(d, r.d, r.lCh, t) && r.pTcc == Val(b.tcc) &&
        r.d.bound == d.bound[r.lCh := DrvBinding(b.paRAMId, b.tcc,
          if t == DmaChannel then TRIG_MODE_NONE else TRIG_MODE_QDMA)]
  {
    var plan := Classify(d, lCh, pTcc, evtQ);
    if plan.Accepted? && (plan.chType == ChDma || plan.chType == ChQdma) {
      RequestDispatchesDma(d, lCh, pTcc, evtQ, cb);
      DmaBinds(d, plan, lCh, pTcc.v, evtQ, cb);
    }
  }

  /** RequestBinds for the DMA and QDMA path. */
  lemma DmaBinds(d: Drv, plan: Plan, lCh: nat, tcc: nat, evtQ: nat, cb: nat)
    requires d.WF() && d.Regs() && plan.Accepted? && (plan.chType == ChDma || plan.chType == ChQdma)
    requires evtQ < d.cfg.numEvtQueue
    ensures var r := RequestDmaChannel(d, plan, lCh, tcc, evtQ, cb);
      r.status == DrvOk ==>
        var t := ChannelType(plan.chType);
        var b := r.d.bound[r.lCh];
        Holding(d, r.d, r.lCh, t) && r.pTcc == Val(b.tcc) &&
        r.d.bound == d.bound[r.lCh := DrvBinding(b.paRAMId, b.tcc,
          if t == DmaChannel then TRIG_MODE_NONE else TRIG_MODE_QDMA)]
  {
    DmaStages(d, plan, lCh, tcc, evtQ, cb);
    StagesProgramHold(d, plan, tcc, evtQ, cb);
  }

  /** Steps 1 to 7 when they succeed: the channel holds its resources, bound with the new trigger mode. */
  lemma StagesProgramHold(d: Drv, plan: Plan, tcc: nat, evtQ: nat, cb: nat)
    requires d.WF() && d.Regs() && plan.Accepted? && (plan.chType == ChDma || plan.chType == ChQdma)
    requires evtQ < d.cfg.numEvtQueue
    ensures var s3 := TakeResources(d, plan, tcc);
      s3.status == DrvOk ==>
          var r := ProgramChannel(Registered(s3, cb), evtQ);
          var t := ChannelType(plan.chType);
          var b := r.bound[s3.lCh];
          Holding(d, r, s3.lCh, t) && b.tcc == s3.c &&
          r.bound == d.bound[s3.lCh := DrvBinding(b.paRAMId, b.tcc,
            if t == DmaChannel then TRIG_MODE_NONE else TRIG_MODE_QDMA)]
  {
    var s3 := TakeResources(d, plan, tcc);
    if s3.status == DrvOk {
      StagesHold(d, plan, tcc);
      ProgramHolds(d, s3, evtQ, cb);
    }
  }

  /** Steps 1 to 3 grant the channel and the TCC asked for, when a specific one was. */
  lemma StagesGrantAsked(d: Drv, plan: Plan, tcc: nat)
    requires d.WF() && d.Regs() && plan.Accepted? && (plan.chType == ChDma || plan.chType == ChQdma)
    ensures var s3 := TakeResources(d, plan, tcc);
      s3.status == DrvOk ==>
          (plan.chReq != RES_ANY ==> s3.chanId == plan.chReq) &&
          (tcc != DRV_TCC_ANY && tcc != RES_ANY ==> s3.c == tcc)
  {
    var a := AllocChannel(d, plan, tcc);
    if a.status == DrvOk && ParamStage(a).status == DrvOk {
      AllocChannelSlot(d, plan, tcc);
      TccStageSlot(ParamStage(a));
    }
  }

  /**
   * A specific DMA or QDMA channel asked for is the one granted (a QDMA
   * channel is then numbered from the first QDMA logical channel), and so
   * is a specific TCC (anything but TCC_ANY, and RES_ANY, which the
   * resource manager reads as any).
   */
  lemma RequestGrantsAsked(d: Drv, lCh: nat, pTcc: PtrArg, evtQ: nat, cb: nat)
    requires d.WF()
    ensures var plan := Classify(d, lCh, pTcc, evtQ);
      var r := RequestChannel(d, lCh, pTcc, evtQ, cb);
      r.status == DrvOk && (plan.chType == ChDma || plan.chType == ChQdma) ==>
        (plan.chReq != RES_ANY ==> ChanId(d, ChannelType(plan.chType), r.lCh) == plan.chReq) &&
        (pTcc.v != DRV_TCC_ANY && pTcc.v != RES_ANY ==> r.pTcc == pTcc)
  {
    var plan := Classify(d, lCh, pTcc, evtQ);
    if plan.Accepted? && (plan.chType == ChDma || plan.chType == ChQdma) {
      RequestDispatchesDma(d, lCh, pTcc, evtQ, cb);
      DmaGrantsAsked(d, plan, lCh, pTcc.v, evtQ, cb);
    }
  }

  /** RequestGrantsAsked for the DMA and QDMA path. */
  lemma DmaGrantsAsked(d: Drv, plan: Plan, lCh: nat, tcc: nat, evtQ: nat, cb: nat)
    requires d.WF() && d.Regs() && plan.Accepted? && (plan.chType == ChDma || plan.chType == ChQdma)
    requires evtQ < d.cfg.numEvtQueue
    ensures var r := RequestDmaChannel(d, plan, lCh, tcc, evtQ, cb);
      r.status == DrvOk ==>
        (plan.chReq != RES_ANY ==> ChanId(d, ChannelType(plan.chType), r.lCh) == plan.chReq) &&
        (tcc != DRV_TCC_ANY && tcc != RES_ANY ==> r.pTcc == Val(tcc))
  {
    var r := RequestDmaChannel(d, plan, lCh, tcc, evtQ, cb);
    if r.status == DrvOk {
      DmaStages(d, plan, lCh, tcc, evtQ, cb);
      StagesGrantAsked(d, plan, tcc);
      StagesHold(d, plan, tcc);
    }
  }

  /**
   * The channel's event queue reads back as `evtQ`, and the TCC field of
   * the OPT word of its bound PaRAM set as its bound TCC.
   */
  predicate ProgrammedAs(d: Drv, lCh: nat, evtQ: nat)
  {
    d.WF() && d.Regs() && lCh < MAX_LOGICAL_CH &&
    (lCh <= d.rm.ctrl.ranges.dmaMax || d.rm.ctrl.ranges.qdmaMin <= lCh <= d.rm.ctrl.ranges.qdmaMax) &&
    var b := d.bound[lCh];
    0 <= b.paRAMId < MAX_PARAM_SETS && evtQ < MAX_EVT_QUE && b.tcc < MAX_TCC &&
    MappedQueue(d, lCh) == evtQ as bv32 && OptTcc(d.Word(b.paRAMId, ENTRY_OPT)) == b.tcc as bv32
  }

  /** Steps 5 to 7 program the queue and OPT of a channel whose bookkeeping names its PaRAM set and TCC. */
  lemma ProgramChannelProgrammed(pr: Progress, evtQ: nat)
    requires ChannelTaken(pr) && pr.p < pr.d.rm.ctrl.cfg.numParam && pr.c < pr.d.rm.ctrl.cfg.numTcc
    requires evtQ < pr.d.cfg.numEvtQueue
    requires pr.d.bound[pr.lCh].paRAMId == pr.p && pr.d.bound[pr.lCh].tcc == pr.c
    ensures ProgrammedAs(ProgramChannel(pr, evtQ), pr.lCh, evtQ)
  {
    var r := ProgramChannel(pr, evtQ);
    RangesFit(pr.d);
    ProgramChannelQueue(pr, evtQ);
    ProgramChannelOpt(pr, evtQ);
    var b := r.bound[pr.lCh];
    assert b.paRAMId == pr.p && b.tcc == pr.c;
    assert r.rm.ctrl == pr.d.rm.ctrl;
  }

  /** A granted DMA or QDMA channel reads back its event queue, and its PaRAM set's OPT its TCC. */
  lemma RequestPrograms(d: Drv, lCh: nat, pTcc: PtrArg, evtQ: nat, cb: nat)
    requires d.WF()
    ensures var plan := Classify(d, lCh, pTcc, evtQ);
      var r := RequestChannel(d, lCh, pTcc, evtQ, cb);
      r.status == DrvOk && (plan.chType == ChDma || plan.chType == ChQdma) ==>
        ProgrammedAs(r.d, r.lCh, evtQ)
  {
    var plan := Classify(d, lCh, pTcc, evtQ);
    if plan.Accepted? && (plan.chType == ChDma || plan.chType == ChQdma) {
      RequestDispatchesDma(d, lCh, pTcc, evtQ, cb);
      DmaPrograms(d, plan, lCh, pTcc.v, evtQ, cb);
    }
  }

  /** RequestPrograms for the DMA and QDMA path. */
  lemma DmaPrograms(d: Drv, plan: Plan, lCh: nat, tcc: nat, evtQ: nat, cb: nat)
    requires d.WF() && d.Regs() && plan.Accepted? && (plan.chType == ChDma || plan.chType == ChQdma)
    requires evtQ < d.cfg.numEvtQueue
    ensures var r := RequestDmaChannel(d, plan, lCh, tcc, evtQ, cb);
      r.status == DrvOk ==> ProgrammedAs(r.d, r.lCh, evtQ)
  {
    DmaStages(d, plan, lCh, tcc, evtQ, cb);
    StagesProgrammed(d, plan, tcc, evtQ, cb);
  }

  /** Steps 1 to 7 when they succeed program the channel's queue and its PaRAM set's OPT. */
  lemma StagesProgrammed(d: Drv, plan: Plan, tcc: nat, evtQ: nat, cb: nat)
    requires d.WF() && d.Regs() && plan.Accepted? && (plan.chType == ChDma || plan.chType == ChQdma)
    requires evtQ < d.cfg.numEvtQueue
    ensures var s3 := TakeResources(d, plan, tcc);
      s3.status == DrvOk ==>
          ProgrammedAs(ProgramChannel(Registered(s3, cb), evtQ), s3.lCh, evtQ)
  {
    var s3 := TakeResources(d, plan, tcc);
    if s3.status == DrvOk {
      StagesHold(d, plan, tcc);
      ProgramProgrammed(d, s3, evtQ, cb);
    }
  }

  /** Steps 4 to 7 program the queue and OPT of the channel steps 1 to 3 bound. */
  lemma ProgramProgrammed(d: Drv, s3: Progress, evtQ: nat, cb: nat)
    requires Staged(d, s3) && evtQ < s3.d.cfg.numEvtQueue
    ensures ProgrammedAs(ProgramChannel(Registered(s3, cb), evtQ), s3.lCh, evtQ)
  {
    ProgramChannelProgrammed(Registered(s3, cb), evtQ);
  }

  /**
   * Request then free: freeing a granted DMA or QDMA channel succeeds and
   * hands every resource back to the instance, leaving the channel's
   * bookkeeping unbound (-1, MAX_TCC).
   */
  lemma RequestThenFree(d: Drv, lCh: nat, pTcc: PtrArg, evtQ: nat, cb: nat)
    requires d.WF()
    ensures var plan := Classify(d, lCh, pTcc, evtQ);
      var r := RequestChannel(d, lCh, pTcc, evtQ, cb);
      r.status == DrvOk && (plan.chType == ChDma || plan.chType == ChQdma) ==>
        FreeRestores(d, r.d, r.lCh, true)
  {
    var plan := Classify(d, lCh, pTcc, evtQ);
    if plan.Accepted? && (plan.chType == ChDma || plan.chType == ChQdma) {
      RequestDispatchesDma(d, lCh, pTcc, evtQ, cb);
      DmaThenFree(d, plan, lCh, pTcc.v, evtQ, cb);
    }
  }

  /** RequestThenFree for the DMA and QDMA path. */
  lemma DmaThenFree(d: Drv, plan: Plan, lCh: nat, tcc: nat, evtQ: nat, cb: nat)
    requires d.WF() && d.Regs() && plan.Accepted? && (plan.chType == ChDma || plan.chType == ChQdma)
    requires evtQ < d.cfg.numEvtQueue
    ensures var r := RequestDmaChannel(d, plan, lCh, tcc, evtQ, cb);
      r.status == DrvOk ==> FreeRestores(d, r.d, r.lCh, true)
  {
    DmaStages(d, plan, lCh, tcc, evtQ, cb);
    StagesThenFree(d, plan, tcc, evtQ, cb);
  }

  /** Steps 1 to 7 when they succeed, then freeChannel: everything taken goes back. */
  lemma StagesThenFree(d: Drv, plan: Plan, tcc: nat, evtQ: nat, cb: nat)
    requires d.WF() && d.Regs() && plan.Accepted? && (plan.chType == ChDma || plan.chType == ChQdma)
    requires evtQ < d.cfg.numEvtQueue
    ensures var s3 := TakeResources(d, plan, tcc);
      s3.status == DrvOk ==>
          FreeRestores(d, ProgramChannel(Registered(s3, cb), evtQ), s3.lCh, true)
  {
    var s3 := TakeResources(d, plan, tcc);
    if s3.status == DrvOk {
      StagesHold(d, plan, tcc);
      ProgramThenFree(d, s3, evtQ, cb);
    }
  }

  /** Steps 4 to 7, then freeChannel: everything steps 1 to 3 took goes back. */
  lemma ProgramThenFree(d: Drv, s3: Progress, evtQ: nat, cb: nat)
    requires Staged(d, s3) && evtQ < s3.d.cfg.numEvtQueue
    ensures FreeRestores(d, ProgramChannel(Registered(s3, cb), evtQ), s3.lCh, true)
  {
    var r := ProgramChannel(Registered(s3, cb), evtQ);
    ProgramHolds(d, s3, evtQ, cb);
    RangesFit(d);
    assert ModeDisables(r, s3.lCh);
    FreeHolding(d, r, s3.lCh, s3.chanType);
  }

  /**
   * A failed callback registration frees the channel through freeChannel;
   * when the channel's recorded trigger mode can be disabled, that hands
   * every resource back.
   */
  lemma RegisterFailFrees(d: Drv, lCh: nat, pTcc: PtrArg, evtQ: nat, cb: nat)
    requires d.WF()
    ensures var r := RequestChannel(d, lCh, pTcc, evtQ, cb);
      r.status == TccRegisterFail ==>
        r.lCh < MAX_LOGICAL_CH &&
        (ModeDisables(d, r.lCh) ==>
          r.d.rm.slots == d.rm.slots && r.d.bound[r.lCh].paRAMId == -1 && r.d.bound[r.lCh].tcc == MAX_TCC)
  {
    var plan := Classify(d, lCh, pTcc, evtQ);
    if plan.Accepted? && (plan.chType == ChDma || plan.chType == ChQdma) {
      RequestDispatchesDma(d, lCh, pTcc, evtQ, cb);
      DmaRegisterFailFrees(d, plan, lCh, pTcc.v, evtQ, cb);
    }
  }

  /** RegisterFailFrees for the DMA and QDMA path. */
  lemma DmaRegisterFailFrees(d: Drv, plan: Plan, lCh: nat, tcc: nat, evtQ: nat, cb: nat)
    requires d.WF() && d.Regs() && plan.Accepted? && (plan.chType == ChDma || plan.chType == ChQdma)
    requires evtQ < d.cfg.numEvtQueue
    ensures var r := RequestDmaChannel(d, plan, lCh, tcc, evtQ, cb);
      r.status == TccRegisterFail ==>
        r.lCh < MAX_LOGICAL_CH &&
        (ModeDisables(d, r.lCh) ==>
          r.d.rm.slots == d.rm.slots && r.d.bound[r.lCh].paRAMId == -1 && r.d.bound[r.lCh].tcc == MAX_TCC)
  {
    DmaStages(d, plan, lCh, tcc, evtQ, cb);
    StagesFreeBack(d, plan, tcc);
  }

  /** Steps 1 to 3 when they succeed, then freeChannel (a failed callback registration): everything taken goes back. */
  lemma StagesFreeBack(d: Drv, plan: Plan, tcc: nat)
    requires d.WF() && d.Regs() && plan.Accepted? && (plan.chType == ChDma || plan.chType == ChQdma)
    ensures var s3 := TakeResources(d, plan, tcc);
      s3.status == DrvOk ==>
          s3.lCh < MAX_LOGICAL_CH &&
          (ModeDisables(d, s3.lCh) ==>
            var f := FreeChannel(s3.d, s3.lCh).d;
            f.rm.slots == d.rm.slots && f.bound[s3.lCh].paRAMId == -1 && f.bound[s3.lCh].tcc == MAX_TCC)
  {
    var s3 := TakeResources(d, plan, tcc);
    if s3.status == DrvOk {
      StagesHold(d, plan, tcc);
      StagedFreesBack(d, s3);
    }
  }

  /** freeChannel straight after steps 1 to 3 hands back what they took. */
  lemma StagedFreesBack(d: Drv, s3: Progress)
    requires Staged(d, s3)
    ensures s3.lCh < MAX_LOGICAL_CH
    ensures ModeDisables(d, s3.lCh) ==>
      var f := FreeChannel(s3.d, s3.lCh).d;
      f.rm.slots == d.rm.slots && f.bound[s3.lCh].paRAMId == -1 && f.bound[s3.lCh].tcc == MAX_TCC
  {
    HeldFreesBack(d, s3.d, s3.lCh, s3.chanType);
  }

  /** freeChannel on a channel holding its resources, whose trigger mode is still the one before the request. */
  lemma HeldFreesBack(d0: Drv, d1: Drv, lCh: nat, t: ResType)
    requires d0.WF() && d1.WF() && Holding(d0, d1, lCh, t)
    requires d1.bound[lCh].trigMode == d0.bound[lCh].trigMode
    ensures ModeDisables(d0, lCh) ==>
      FreeChannel(d1, lCh).d.rm.slots == d0.rm.slots &&
      FreeChannel(d1, lCh).d.bound[lCh].paRAMId == -1 && FreeChannel(d1, lCh).d.bound[lCh].tcc == MAX_TCC
  {
    if ModeDisables(d0, lCh) {
      ModeDisablesFrame(d0, d1, lCh);
      FreeHolding(d0, d1, lCh, t);
    }
  }

  /** Whether the recorded trigger mode can be disabled depends on the bookkeeping entry and the configuration only. */
  lemma ModeDisablesFrame(d1: Drv, d2: Drv, lCh: nat)
    requires d1.WF() && d2.WF() && lCh < MAX_LOGICAL_CH
    requires d1.rm.ctrl == d2.rm.ctrl && d1.cfg == d2.cfg && d1.bound[lCh].trigMode == d2.bound[lCh].trigMode
    ensures ModeDisables(d1, lCh) == ModeDisables(d2, lCh)
  {
  }

  /**
   * Request then free for a link channel in the link range: freeing it
   * hands its PaRAM set back and marks the bookkeeping unbound.
   */
  lemma LinkRequestThenFree(d: Drv, lCh: nat, pTcc: PtrArg, evtQ: nat, cb: nat)
    requires d.WF()
    ensures var plan := Classify(d, lCh, pTcc, evtQ);
      var r := RequestChannel(d, lCh, pTcc, evtQ, cb);
      r.status == DrvOk && (plan.chType == ChLink || plan.chType == ChLinkTcc) &&
      d.rm.ctrl.ranges.linkMin <= r.lCh ==>
        FreeRestores(d, r.d, r.lCh, false)
  {
    var plan := Classify(d, lCh, pTcc, evtQ);
    if plan.Accepted? && (plan.chType == ChLink || plan.chType == ChLinkTcc) {
      RequestDispatchesLink(d, lCh, pTcc, evtQ, cb);
      LinkThenFree(d, plan, lCh, pTcc);
    }
  }

  /** LinkRequestThenFree for the link path. */
  lemma LinkThenFree(d: Drv, plan: Plan, lCh: nat, pTcc: PtrArg)
    requires d.WF() && plan.Accepted? && (plan.chType == ChLink || plan.chType == ChLinkTcc)
    requires plan.chType == ChLinkTcc ==> pTcc.Val? && pTcc.v < d.rm.ctrl.cfg.numTcc
    ensures var r := RequestLink(d, plan, lCh, pTcc);
      r.status == DrvOk && d.rm.ctrl.ranges.linkMin <= r.lCh ==> FreeRestores(d, r.d, r.lCh, false)
  {
    var r := RequestLink(d, plan, lCh, pTcc);
    if r.status == DrvOk && d.rm.ctrl.ranges.linkMin <= r.lCh {
      AllocThenFree(d.rm, d.h, ParamSet, plan.paramReq);
      AllocInRange(d.rm, d.h, ParamSet, plan.paramReq);
      RangesContiguous(d.rm.ctrl.cfg);
      assert Wrap32(r.d.bound[r.lCh].paRAMId) == r.lCh;
    }
  }
}
