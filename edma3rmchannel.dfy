/*
 * Logical channels in the EDMA3 resource manager: allocLogicalChannel
 * (a DMA or QDMA channel together with a PaRAM set and a TCC, or a PaRAM
 * set for a link channel), freeLogicalChannel, and the per-TCC callback
 * registration.
 */
module Edma3RmChannel {

  import opened Word32
  import opened Bitmap
  import opened Edma3Rm

  // ---------------------------------------------------------------------
  // Instance-level algebra of MarkAvailable

  /** Marks on different resource types commute. */
  lemma MarksCommute(i: Instance, t: ResType, x: nat, v: bool, u: ResType, y: nat, w: bool)
    requires i.Sized() && t != OtherType && u != OtherType && t != u
    requires x < PoolSize(t) && y < PoolSize(u)
    ensures i.MarkAvailable(t, x, v).MarkAvailable(u, y, w) == i.MarkAvailable(u, y, w).MarkAvailable(t, x, v)
  {
    var a := i.MarkAvailable(t, x, v).MarkAvailable(u, y, w);
    var b := i.MarkAvailable(u, y, w).MarkAvailable(t, x, v);
    assert a.avlbl == b.avlbl by {
      forall s | s != OtherType
        ensures a.avlbl.Of(s) == b.avlbl.Of(s)
      {
      }
    }
  }

  /** Taking an available id and putting it back restores the instance. */
  lemma MarkUndone(i: Instance, t: ResType, x: nat)
    requires i.Sized() && t != OtherType && x < PoolSize(t) && i.avlbl.Of(t)[x]
    ensures i.MarkAvailable(t, x, false).MarkAvailable(t, x, true) == i
  {
    var a := i.MarkAvailable(t, x, false).MarkAvailable(t, x, true);
    assert a.avlbl == i.avlbl by {
      forall s | s != OtherType
        ensures a.avlbl.Of(s) == i.avlbl.Of(s)
      {
      }
    }
  }

  /**
   * Allocating on a live handle and freeing the id it returned leaves the
   * instance table as it was.
   */
  lemma AllocThenFree(rm: Rm, h: int, t: ResType, resId: nat)
    requires rm.WF() && -1 <= h < MAX_RM_INSTANCES
    ensures var a := AllocResource(rm, h, t, resId);
      a.status == Ok ==>
        var f := FreeResource(a.rm, h, t, a.id);
        f.status == Ok && f.rm.slots == rm.slots
  {
    var a := AllocResource(rm, h, t, resId);
    if a.status == Ok {
      AllocFreeRoundTrip(rm.slots[h], rm.ctrl.cfg, t, resId);
      assert rm.slots[h := a.rm.slots[h]][h := rm.slots[h]] == rm.slots;
    }
  }

  // ---------------------------------------------------------------------
  // The logical channel table

  /** The same resource manager with entry `slot` of the channel table replaced. */
  function WithBinding(rm: Rm, slot: nat, b: Binding): (r: Rm)
    requires rm.WF() && slot < MAX_LOGICAL_CH
    ensures r.WF() && r.ctrl == rm.ctrl && r.slots == rm.slots
    ensures r.tables == rm.tables.(chBound := rm.tables.chBound[slot := b])
  {
    rm.(tables := rm.tables.(chBound := rm.tables.chBound[slot := b]))
  }

  /** The link channels (table entries) with no PaRAM set bound. */
  function FreeLinks(cb: seq<Binding>): (r: Bits)
    ensures |r| == |cb|
    ensures forall k :: 0 <= k < |cb| ==> r[k] == (cb[k].paRAMId == -1)
  {
    seq(|cb|, k requires 0 <= k < |cb| => cb[k].paRAMId == -1)
  }

  /** The table entries bound to PaRAM set `p`. */
  function BoundTo(cb: seq<Binding>, p: int): (r: Bits)
    ensures |r| == |cb|
    ensures forall k :: 0 <= k < |cb| ==> r[k] == (cb[k].paRAMId == p)
  {
    seq(|cb|, k requires 0 <= k < |cb| => cb[k].paRAMId == p)
  }

  /**
   * The search of allocLogicalChannel for a free link channel: it walks
   * from linkMin while the entry is taken and the index is at most
   * linkMax (testing the entry first, so it may read the entry just past
   * linkMax); -1 when it ends past linkMax.
   */
  method FindFreeLink(cb: seq<Binding>, linkMin: nat, linkMax: nat) returns (k: int)
    requires linkMin <= linkMax + 1 < |cb|
    ensures k == FirstFrom(FreeLinks(cb), linkMin, linkMax + 1, true)
  {
    ghost var f := FreeLinks(cb);
    var linkCh := linkMin;
    while cb[linkCh].paRAMId != -1 && linkCh <= linkMax
      invariant linkMin <= linkCh <= linkMax + 1
      invariant FirstFrom(f, linkMin, linkMax + 1, true) == FirstFrom(f, linkCh, linkMax + 1, true)
      decreases linkMax + 1 - linkCh
    {
      linkCh := linkCh + 1;
    }
    k := if linkCh > linkMax then -1 else linkCh;
  }

  /**
   * The loop of freeLogicalChannel for a PaRAM set: the first entry in
   * [from, limit) bound to `p` is unbound (its paRAMId set to -1), and the
   * loop stops there.
   */
  function ReleaseLink(cb: seq<Binding>, from: nat, limit: nat, p: int): (r: seq<Binding>)
    requires limit <= |cb|
    ensures |r| == |cb|
    ensures (forall k :: from <= k < limit ==> cb[k].paRAMId != p) ==> r == cb
    ensures forall k ::
      (from <= k < limit && cb[k].paRAMId == p && forall j :: from <= j < k ==> cb[j].paRAMId != p) ==>
      r == cb[k := cb[k].(paRAMId := -1)]
  {
    var k := FirstFrom(BoundTo(cb, p), from, limit, true);
    if k < 0 then cb else cb[k := cb[k].(paRAMId := -1)]
  }

  /** The same loop, over the corrected range [linkMin, linkMax]. */
  method ReleaseLinkLoop(cb: seq<Binding>, linkMin: nat, linkMax: nat, p: int) returns (r: seq<Binding>)
    requires linkMax < |cb|
    ensures r == ReleaseLink(cb, linkMin, linkMax + 1, p)
  {
    ghost var b := BoundTo(cb, p);
    r := cb;
    var linkCh := linkMin;
    while linkCh <= linkMax
      invariant linkMin <= linkCh || linkMax < linkMin
      invariant FirstFrom(b, linkMin, linkMax + 1, true) == FirstFrom(b, linkCh, linkMax + 1, true)
      invariant r == cb
      decreases linkMax + 1 - linkCh
    {
      if cb[linkCh].paRAMId == p {
        r := cb[linkCh := cb[linkCh].(paRAMId := -1)];
        return;
      }
      linkCh := linkCh + 1;
    }
  }

  /**
   * The loop as written in freeLogicalChannel runs `linkCh < linkMax`, so
   * the last link channel is never unbound: freeing the PaRAM set bound
   * there leaves the entry taken, and allocLogicalChannel can never hand
   * that link channel out again.
   */
  lemma ReleaseLinkAsWrittenMissesLast(cb: seq<Binding>, linkMin: nat, linkMax: nat, p: nat)
    requires linkMin <= linkMax < |cb| && cb[linkMax].paRAMId == p
    requires forall k :: linkMin <= k < linkMax ==> cb[k].paRAMId != p
    ensures ReleaseLink(cb, linkMin, linkMax, p) == cb
    ensures ReleaseLink(cb, linkMin, linkMax + 1, p)[linkMax].paRAMId == -1
    ensures !FreeLinks(ReleaseLink(cb, linkMin, linkMax, p))[linkMax]
  {
  }

  // ---------------------------------------------------------------------
  // allocLogicalChannel

  /** The TCC requested: TCC_ANY becomes the channel's mapped TCC, or RES_ANY if none. */
  function TccRequest(tcc: nat, mappedTcc: nat): nat
  {
    if tcc == TCC_ANY then (if mappedTcc == CH_NO_TCC_MAP then RES_ANY else mappedTcc) else tcc
  }

  /**
   * The rollback after the TCC could not be allocated: free PaRAM set
   * `paramId` (the one just allocated, which *pParam holds by then),
   * unbind the channel's PaRAM set, free the channel.
   */
  function TccRollback(rm: Rm, h: int, t: ResType, ch: nat, slot: nat, paramId: nat): (r: Rm)
    requires rm.WF() && -1 <= h < MAX_RM_INSTANCES && slot < MAX_LOGICAL_CH
    ensures r.WF() && r.ctrl == rm.ctrl
  {
    var f := FreeResource(rm, h, ParamSet, paramId);
    var b := WithBinding(f.rm, slot, f.rm.tables.chBound[slot].(paRAMId := -1));
    FreeResource(b, h, t, ch).rm
  }

  /**
   * The second stage for a DMA or QDMA channel `ch` (table entry `slot`):
   * allocate the PaRAM set and bind it, then the TCC and bind it. A PaRAM
   * failure frees the channel; a TCC failure frees the PaRAM set, unbinds
   * it and frees the channel. The status is that of the failing request.
   */
  function BindChannel(rm: Rm, h: int, t: ResType, ch: nat, slot: nat, paramReq: nat, tccReq: nat): (r: Step)
    requires rm.WF() && -1 <= h < MAX_RM_INSTANCES && slot < MAX_LOGICAL_CH
    ensures r.rm.WF() && r.rm.ctrl == rm.ctrl && r.id == ch
  {
    var p := AllocResource(rm, h, ParamSet, paramReq);
    if p.status != Ok then Step(FreeResource(p.rm, h, t, ch).rm, p.status, ch)
    else
      var b := WithBinding(p.rm, slot, p.rm.tables.chBound[slot].(paRAMId := p.id));
      var c := AllocResource(b, h, Tcc, tccReq);
      if c.status == Ok then
        Step(WithBinding(c.rm, slot, c.rm.tables.chBound[slot].(tcc := c.id)), Ok, ch)
      else Step(TccRollback(c.rm, h, t, ch, slot, p.id), c.status, ch)
  }

  /**
   * allocLogicalChannel for a DMA channel: DMA_CHANNEL_ANY or RES_ANY, or
   * a channel up to the last DMA channel. The PaRAM set is the caller's
   * *pParam, or for PARAM_ANY the channel's mapped PaRAM set (any if
   * unmapped); without a channel map the caller's PaRAM set must be the
   * channel's own.
   */
  function AllocDmaChannel(rm: Rm, h: int, resId: nat, param: nat, tcc: nat): (r: Step)
    requires rm.WF() && 0 <= h < MAX_RM_INSTANCES && rm.Live(h)
    ensures r.rm.WF() && r.rm.ctrl == rm.ctrl
  {
    var cfg := rm.ctrl.cfg;
    var any := resId == DMA_CHANNEL_ANY || resId == RES_ANY;
    if !any && resId > rm.ctrl.ranges.dmaMax then Step(rm, InvalidParam, resId)
    else
      var a := AllocResource(rm, h, DmaChannel, if any then RES_ANY else resId);
      if a.status != Ok then Step(a.rm, a.status, resId)
      else
        var ch := a.id;
        if param == PARAM_ANY || cfg.paramMapExists || param == ch then
          BindChannel(a.rm, h, DmaChannel, ch, ch, DmaParamRequest(cfg, ch, param), TccRequest(tcc, cfg.tccMap[ch]))
        else Step(FreeResource(a.rm, h, DmaChannel, ch).rm, InvalidParam, ch)
  }

  /** The PaRAM set asked for DMA channel `ch`: PARAM_ANY becomes its mapped set, or RES_ANY if none. */
  function DmaParamRequest(cfg: Config, ch: nat, param: nat): nat
    requires ch < |cfg.paramMap|
  {
    if param != PARAM_ANY then param
    else if cfg.paramMap[ch] != CH_NO_PARAM_MAP then cfg.paramMap[ch] else RES_ANY
  }

  /**
   * allocLogicalChannel for a QDMA channel: QDMA_CHANNEL_ANY or RES_ANY,
   * or a channel below numQdmaChannels; its table entry follows the link
   * channels, and its TCC is any TCC unless the caller names one.
   */
  function AllocQdmaChannel(rm: Rm, h: int, resId: nat, param: nat, tcc: nat): (r: Step)
    requires rm.WF() && 0 <= h < MAX_RM_INSTANCES && rm.Live(h)
    ensures r.rm.WF() && r.rm.ctrl == rm.ctrl
  {
    var any := resId == QDMA_CHANNEL_ANY || resId == RES_ANY;
    if !any && resId >= rm.ctrl.cfg.numQdma then Step(rm, InvalidParam, resId)
    else
      var a := AllocResource(rm, h, QdmaChannel, if any then RES_ANY else resId);
      if a.status != Ok then Step(a.rm, a.status, resId)
      else
        QdmaSlotFits(rm, h, a.id);
        var paramReq := if param != PARAM_ANY then param else RES_ANY;
        BindChannel(a.rm, h, QdmaChannel, a.id, a.id + rm.ctrl.ranges.qdmaMin, paramReq,
                    TccRequest(tcc, CH_NO_TCC_MAP))
  }

  /** A QDMA channel's entry in the logical-channel table is in range. */
  lemma QdmaSlotFits(rm: Rm, h: int, ch: nat)
    requires rm.WF() && 0 <= h < MAX_RM_INSTANCES && rm.Live(h) && ch < rm.ctrl.cfg.numQdma
    ensures ch + rm.ctrl.ranges.qdmaMin < MAX_LOGICAL_CH
  {
    RangesContiguous(rm.ctrl.cfg);
  }

  /**
   * allocLogicalChannel for a link channel (a PaRAM set) as written: when
   * no link channel is free the PaRAM set is freed, and the status of
   * that free (success) replaces INVALID_PARAM.
   */
  function AllocParamChannelAsWritten(rm: Rm, h: int, resId: nat): (r: Step)
    requires rm.WF() && 0 <= h < MAX_RM_INSTANCES && rm.Live(h)
    ensures r.rm.WF() && r.rm.ctrl == rm.ctrl
  {
    RangesContiguous(rm.ctrl.cfg);
    var any := resId == PARAM_ANY || resId == RES_ANY;
    if !any && resId >= rm.ctrl.ranges.numParamSets then Step(rm, InvalidParam, resId)
    else
      var a := AllocResource(rm, h, ParamSet, if any then RES_ANY else resId);
      if a.status != Ok then Step(a.rm, a.status, resId)
      else
        var k := FirstFrom(FreeLinks(a.rm.tables.chBound), rm.ctrl.ranges.linkMin, rm.ctrl.ranges.linkMax + 1, true);
        if k < 0 then FreeResource(a.rm, h, ParamSet, a.id)
        else Step(WithBinding(a.rm, k, a.rm.tables.chBound[k].(paRAMId := a.id)), Ok, a.id)
  }

  /**
   * With every link channel taken, the call as written reports success
   * although the PaRAM set it hands back has been freed again and no
   * link channel refers to it.
   */
  lemma AllocParamChannelAsWrittenNoLink(rm: Rm, h: int, resId: nat)
    requires rm.WF() && 0 <= h < MAX_RM_INSTANCES && rm.Live(h)
    requires forall k :: rm.ctrl.ranges.linkMin <= k <= rm.ctrl.ranges.linkMax ==>
      rm.tables.chBound[k].paRAMId != -1
    ensures var r := AllocParamChannelAsWritten(rm, h, resId);
      AllocResource(rm, h, ParamSet, if resId == PARAM_ANY then RES_ANY else resId).status == Ok ==>
        r.status == Ok && r.rm.slots == rm.slots && r.rm.tables == rm.tables
  {
    RangesContiguous(rm.ctrl.cfg);
    var any := resId == PARAM_ANY || resId == RES_ANY;
    var a := AllocResource(rm, h, ParamSet, if any then RES_ANY else resId);
    if a.status == Ok {
      AllocThenFree(rm, h, ParamSet, if any then RES_ANY else resId);
      var f := FirstFrom(FreeLinks(a.rm.tables.chBound), rm.ctrl.ranges.linkMin, rm.ctrl.ranges.linkMax + 1, true);
      assert f < 0;
    }
  }

  /** The corrected link-channel allocation: no free link channel gives INVALID_PARAM. */
  function AllocParamChannel(rm: Rm, h: int, resId: nat): (r: Step)
    requires rm.WF() && 0 <= h < MAX_RM_INSTANCES && rm.Live(h)
    ensures r.rm.WF() && r.rm.ctrl == rm.ctrl
  {
    RangesContiguous(rm.ctrl.cfg);
    var any := resId == PARAM_ANY || resId == RES_ANY;
    if !any && resId >= rm.ctrl.ranges.numParamSets then Step(rm, InvalidParam, resId)
    else
      var a := AllocResource(rm, h, ParamSet, if any then RES_ANY else resId);
      if a.status != Ok then Step(a.rm, a.status, resId)
      else
        var k := FirstFrom(FreeLinks(a.rm.tables.chBound), rm.ctrl.ranges.linkMin, rm.ctrl.ranges.linkMax + 1, true);
        if k < 0 then Step(FreeResource(a.rm, h, ParamSet, a.id).rm, InvalidParam, a.id)
        else Step(WithBinding(a.rm, k, a.rm.tables.chBound[k].(paRAMId := a.id)), Ok, a.id)
  }

  /** EDMA3_RM_allocLogicalChannel (with the corrected rollbacks). */
  function AllocLogicalChannel(rm: Rm, h: int, t: ResType, resId: nat, param: nat, tcc: nat): (r: Step)
    requires rm.WF() && -1 <= h < MAX_RM_INSTANCES
    ensures r.rm.WF() && r.rm.ctrl == rm.ctrl
    ensures !rm.Live(h) || t == Tcc || t == OtherType ==> r == Step(rm, InvalidParam, resId)
  {
    if !rm.Live(h) then Step(rm, InvalidParam, resId)
    else match t
      case DmaChannel => AllocDmaChannel(rm, h, resId, param, tcc)
      case QdmaChannel => AllocQdmaChannel(rm, h, resId, param, tcc)
      case ParamSet => AllocParamChannel(rm, h, resId)
      case _ => Step(rm, InvalidParam, resId)
  }

  // ---------------------------------------------------------------------
  // freeLogicalChannel

  /**
   * freeLogicalChannel for a DMA or QDMA channel `ch` (table entry
   * `slot`): the channel must be owned and allocated; then its PaRAM set
   * is freed (the bound id read as uint32, so -1 is no PaRAM set) and
   * unbound, its TCC freed and reset to MAX_TCC, and the channel freed,
   * each step only after the previous one succeeded.
   */
  function UnbindChannel(rm: Rm, h: int, t: ResType, ch: nat, slot: nat): (r: Step)
    requires rm.WF() && 0 <= h < MAX_RM_INSTANCES && t != OtherType && ch < PoolSize(t)
    requires slot < MAX_LOGICAL_CH
    ensures r.rm.WF() && r.rm.ctrl == rm.ctrl && r.id == ch
  {
    var i := rm.slots[h];
    if !(i.own.Of(t)[ch] && !i.avlbl.Of(t)[ch]) then Step(rm, InvalidParam, ch)
    else
      var b0 := rm.tables.chBound[slot];
      var f1 := FreeResource(rm, h, ParamSet, Wrap32(b0.paRAMId));
      if f1.status != Ok then Step(f1.rm, f1.status, ch)
      else
        var r1 := WithBinding(f1.rm, slot, b0.(paRAMId := -1));
        var f2 := FreeResource(r1, h, Tcc, b0.tcc);
        if f2.status != Ok then Step(f2.rm, f2.status, ch)
        else
          var r2 := WithBinding(f2.rm, slot, Binding(-1, MAX_TCC));
          var f3 := FreeResource(r2, h, t, ch);
          Step(f3.rm, f3.status, ch)
  }

  /** EDMA3_RM_freeLogicalChannel (with the corrected link-channel loop). */
  function FreeLogicalChannel(rm: Rm, h: int, t: ResType, resId: nat): (r: Step)
    requires rm.WF() && -1 <= h < MAX_RM_INSTANCES
    ensures r.rm.WF() && r.rm.ctrl == rm.ctrl && r.id == resId
    ensures !rm.Live(h) || t == Tcc || t == OtherType ==> r == Step(rm, InvalidParam, resId)
  {
    if !rm.Live(h) then Step(rm, InvalidParam, resId)
    else
      RangesContiguous(rm.ctrl.cfg);
      match t
      case DmaChannel =>
        if resId >= MAX_DMA_CH then Step(rm, InvalidParam, resId)
        else UnbindChannel(rm, h, DmaChannel, resId, resId)
      case QdmaChannel =>
        if resId >= MAX_QDMA_CH then Step(rm, InvalidParam, resId)
        else UnbindChannel(rm, h, QdmaChannel, resId, resId + rm.ctrl.ranges.qdmaMin)
      case ParamSet =>
        if resId >= rm.ctrl.ranges.numParamSets then Step(rm, InvalidParam, resId)
        else FreeLinkChannel(rm, h, resId)
      case _ => Step(rm, InvalidParam, resId)
  }

  /**
   * freeLogicalChannel for a link channel past the range check: the PaRAM
   * set is freed, then the link channel bound to it is released.
   */
  function FreeLinkChannel(rm: Rm, h: int, resId: nat): (r: Step)
    requires rm.WF() && 0 <= h < MAX_RM_INSTANCES && rm.Live(h)
    ensures r.rm.WF() && r.rm.ctrl == rm.ctrl && r.id == resId
  {
    RangesContiguous(rm.ctrl.cfg);
    var f := FreeResource(rm, h, ParamSet, resId);
    if f.status != Ok then f
    else
      var cb := ReleaseLink(f.rm.tables.chBound, rm.ctrl.ranges.linkMin, rm.ctrl.ranges.linkMax + 1, resId);
      Step(f.rm.(tables := f.rm.tables.(chBound := cb)), Ok, resId)
  }

  // ---------------------------------------------------------------------
  // Properties of allocLogicalChannel / freeLogicalChannel

  /** The table entry of the channel a DMA or QDMA request returned. */
  function ChannelSlot(rm: Rm, t: ResType, ch: nat): nat
  {
    if t == QdmaChannel then ch + rm.ctrl.ranges.qdmaMin else ch
  }

  /**
   * `i1` is `i0` with channel `ch` of type `t`, PaRAM set `p` and TCC `c`
   * taken, all three owned, in range and available in `i0`.
   */
  ghost predicate Took(i0: Instance, i1: Instance, cfg: Config, t: ResType, ch: nat, p: nat, c: nat)
    requires i0.Sized() && cfg.Valid() && (t == DmaChannel || t == QdmaChannel)
  {
    CountFits(cfg, t);
    CountFits(cfg, ParamSet);
    CountFits(cfg, Tcc);
    ch < cfg.Count(t) && p < cfg.numParam && c < cfg.numTcc &&
    i0.own.Of(t)[ch] && i0.avlbl.Of(t)[ch] && i0.own.param[p] && i0.avlbl.param[p] &&
    i0.own.tcc[c] && i0.avlbl.tcc[c] &&
    i1 == i0.MarkAvailable(t, ch, false).MarkAvailable(ParamSet, p, false).MarkAvailable(Tcc, c, false)
  }

  /**
   * After the step to `after`, channel `ch` of type `t` holds at table
   * entry `slot` a PaRAM set and a TCC, and the three were taken from
   * instance `h` of `rm` (Took); no other instance changed.
   */
  ghost predicate Holds(rm: Rm, h: int, t: ResType, ch: nat, slot: nat, after: Rm)
    requires rm.WF() && after.WF() && 0 <= h < MAX_RM_INSTANCES && slot < MAX_LOGICAL_CH
    requires t == DmaChannel || t == QdmaChannel
  {
    rm.ctrl.cfg.Valid() &&
    var b := after.tables.chBound[slot];
    b.paRAMId >= 0 && Took(rm.slots[h], after.slots[h], rm.ctrl.cfg, t, ch, b.paRAMId, b.tcc) &&
    after.slots == rm.slots[h := after.slots[h]]
  }

  /** freeResource sees only the instance table and the controller. */
  lemma FreeResourceFrame(rm1: Rm, rm2: Rm, h: int, t: ResType, resId: nat)
    requires rm1.WF() && rm2.WF() && -1 <= h < MAX_RM_INSTANCES
    requires rm1.slots == rm2.slots && rm1.ctrl == rm2.ctrl
    ensures FreeResource(rm1, h, t, resId).rm.slots == FreeResource(rm2, h, t, resId).rm.slots
    ensures FreeResource(rm1, h, t, resId).status == FreeResource(rm2, h, t, resId).status
  {
  }

  /** A failed second stage hands the channel back and whatever it took. */
  lemma BindChannelFails(rm: Rm, h: int, t: ResType, chReq: nat, slot: nat, paramReq: nat, tccReq: nat)
    requires rm.WF() && 0 <= h < MAX_RM_INSTANCES && slot < MAX_LOGICAL_CH
    ensures var a := AllocResource(rm, h, t, chReq);
      a.status == Ok ==>
        var r := BindChannel(a.rm, h, t, a.id, slot, paramReq, tccReq);
        r.status != Ok ==> r.rm.slots == rm.slots
  {
    var a := AllocResource(rm, h, t, chReq);
    if a.status == Ok {
      AllocThenFree(rm, h, t, chReq);
      var p := AllocResource(a.rm, h, ParamSet, paramReq);
      if p.status == Ok {
        AllocThenFree(a.rm, h, ParamSet, paramReq);
        var b := WithBinding(p.rm, slot, p.rm.tables.chBound[slot].(paRAMId := p.id));
        var c := AllocResource(b, h, Tcc, tccReq);
        if c.status != Ok {
          FreeResourceFrame(c.rm, p.rm, h, ParamSet, p.id);
          var f := FreeResource(c.rm, h, ParamSet, p.id);
          var b2 := WithBinding(f.rm, slot, f.rm.tables.chBound[slot].(paRAMId := -1));
          FreeResourceFrame(b2, a.rm, h, t, a.id);
        }
      }
    }
  }

  /**
   * A successful second stage took a PaRAM set and a TCC, both owned and
   * available before, and bound them to the channel's table entry.
   */
  lemma BindChannelSucceeds(rm: Rm, h: int, t: ResType, chReq: nat, slot: nat, paramReq: nat, tccReq: nat)
    requires rm.WF() && 0 <= h < MAX_RM_INSTANCES && slot < MAX_LOGICAL_CH
    requires t == DmaChannel || t == QdmaChannel
    ensures var a := AllocResource(rm, h, t, chReq);
      a.status == Ok ==>
        var r := BindChannel(a.rm, h, t, a.id, slot, paramReq, tccReq);
        r.status == Ok ==> Holds(rm, h, t, a.id, slot, r.rm)
  {
    var a := AllocResource(rm, h, t, chReq);
    if a.status == Ok {
      var cfg := rm.ctrl.cfg;
      var o1 := AllocIn(rm.slots[h], cfg, t, chReq);
      assert a.rm.slots == rm.slots[h := o1.inst] && a.id == o1.id;
      BindChannelTakes(a.rm, h, t, a.id, slot, paramReq, tccReq);
      AllocsTake(rm.slots[h], cfg, t, chReq, paramReq, tccReq);
    }
  }

  /**
   * A successful second stage on a live handle is a PaRAM allocation and
   * a TCC allocation on its instance, bound to the channel's entry.
   */
  lemma BindChannelTakes(rm: Rm, h: int, t: ResType, ch: nat, slot: nat, paramReq: nat, tccReq: nat)
    requires rm.WF() && 0 <= h < MAX_RM_INSTANCES && slot < MAX_LOGICAL_CH
    ensures var r := BindChannel(rm, h, t, ch, slot, paramReq, tccReq);
      r.status == Ok ==>
        rm.Live(h) &&
        var o2 := AllocIn(rm.slots[h], rm.ctrl.cfg, ParamSet, paramReq);
        var o3 := AllocIn(o2.inst, rm.ctrl.cfg, Tcc, tccReq);
        o2.status == Ok && o3.status == Ok &&
        r.rm.slots == rm.slots[h := o3.inst] && r.rm.tables.chBound[slot] == Binding(o2.id, o3.id)
  {
    var p := AllocResource(rm, h, ParamSet, paramReq);
    if p.status == Ok {
      var b := WithBinding(p.rm, slot, p.rm.tables.chBound[slot].(paRAMId := p.id));
      var c := AllocResource(b, h, Tcc, tccReq);
      if c.status == Ok {
        assert b.slots == p.rm.slots;
      }
    }
  }

  /** On one instance: three successful allocations in a row are Took. */
  lemma AllocsTake(i0: Instance, cfg: Config, t: ResType, chReq: nat, paramReq: nat, tccReq: nat)
    requires i0.Sized() && cfg.Valid() && (t == DmaChannel || t == QdmaChannel)
    ensures var o1 := AllocIn(i0, cfg, t, chReq);
      var o2 := AllocIn(o1.inst, cfg, ParamSet, paramReq);
      var o3 := AllocIn(o2.inst, cfg, Tcc, tccReq);
      o1.status == Ok && o2.status == Ok && o3.status == Ok ==>
        o3.inst.Sized() && Took(i0, o3.inst, cfg, t, o1.id, o2.id, o3.id)
  {
    var o1 := AllocIn(i0, cfg, t, chReq);
    if o1.status == Ok {
      var o2 := AllocIn(o1.inst, cfg, ParamSet, paramReq);
      if o2.status == Ok {
        assert o2.inst.avlbl.tcc == i0.avlbl.tcc;
        CountFits(cfg, ParamSet);
        CountFits(cfg, Tcc);
      }
    }
  }

  /** On one instance: freeing the PaRAM set, the TCC and the channel undoes Took. */
  lemma FreeTaken(i0: Instance, i3: Instance, cfg: Config, t: ResType, ch: nat, p: nat, c: nat)
    requires i0.Sized() && cfg.Valid() && (t == DmaChannel || t == QdmaChannel)
    requires Took(i0, i3, cfg, t, ch, p, c)
    ensures i3.Sized() && ch < PoolSize(t) && p < MAX_PARAM_SETS && c < MAX_TCC
    ensures i3.own.Of(t)[ch] && !i3.avlbl.Of(t)[ch]
    ensures FreesBackTo(i3, i0, cfg, t, ch, p, c)
  {
    CountFits(cfg, t);
    CountFits(cfg, ParamSet);
    CountFits(cfg, Tcc);
    var x := i0.MarkAvailable(t, ch, false);
    var xc := x.MarkAvailable(Tcc, c, false);
    MarksCommute(x, ParamSet, p, false, Tcc, c, false);
    MarkUndone(xc, ParamSet, p);
    MarkUndone(x, Tcc, c);
    MarkUndone(i0, t, ch);
  }

  /** Three frees on one instance, each succeeding, ending at `i0`. */
  ghost predicate FreesBackTo(i3: Instance, i0: Instance, cfg: Config, t: ResType, ch: nat, p: nat, c: nat)
    requires i3.Sized() && cfg.Valid()
  {
    var f1 := FreeIn(i3, cfg, ParamSet, p);
    var f2 := FreeIn(f1.inst, cfg, Tcc, c);
    var f3 := FreeIn(f2.inst, cfg, t, ch);
    f1.status == Ok && f2.status == Ok && f3.status == Ok && f3.inst == i0
  }

  /**
   * Unbinding a channel whose PaRAM set, TCC and channel free back to `i0`
   * succeeds, hands all three back and resets the entry to (-1, MAX_TCC).
   */
  lemma UnbindAfterTook(rm: Rm, h: int, t: ResType, ch: nat, slot: nat, i0: Instance)
    requires rm.WF() && 0 <= h < MAX_RM_INSTANCES && rm.Live(h) && slot < MAX_LOGICAL_CH
    requires (t == DmaChannel || t == QdmaChannel) && ch < PoolSize(t)
    requires rm.tables.chBound[slot].paRAMId >= 0
    requires rm.slots[h].own.Of(t)[ch] && !rm.slots[h].avlbl.Of(t)[ch]
    requires FreesBackTo(rm.slots[h], i0, rm.ctrl.cfg, t, ch, rm.tables.chBound[slot].paRAMId, rm.tables.chBound[slot].tcc)
    ensures var u := UnbindChannel(rm, h, t, ch, slot);
      u.status == Ok && u.rm.slots == rm.slots[h := i0] && u.rm.tables.chBound[slot] == Binding(-1, MAX_TCC)
  {
    var b := rm.tables.chBound[slot];
    var cfg := rm.ctrl.cfg;
    var g1 := FreeIn(rm.slots[h], cfg, ParamSet, b.paRAMId);
    var g2 := FreeIn(g1.inst, cfg, Tcc, b.tcc);
    var f1 := FreeResource(rm, h, ParamSet, Wrap32(b.paRAMId));
    assert f1.rm.slots == rm.slots[h := g1.inst];
    var r1 := WithBinding(f1.rm, slot, b.(paRAMId := -1));
    var f2 := FreeResource(r1, h, Tcc, b.tcc);
    assert f2.rm.slots == rm.slots[h := g2.inst];
    var r2 := WithBinding(f2.rm, slot, Binding(-1, MAX_TCC));
    var f3 := FreeResource(r2, h, t, ch);
    assert f3.rm.slots == rm.slots[h := i0];
  }

  /**
   * A DMA request that got past the range check and took channel `a.id`
   * either fails the PaRAM check and frees the channel, or is the second
   * stage on the channel's own entry.
   */
  lemma AllocDmaChannelStages(rm: Rm, h: int, resId: nat, param: nat, tcc: nat)
    requires rm.WF() && 0 <= h < MAX_RM_INSTANCES && rm.Live(h)
    ensures var any := resId == DMA_CHANNEL_ANY || resId == RES_ANY;
      var a := AllocResource(rm, h, DmaChannel, if any then RES_ANY else resId);
      var r := AllocDmaChannel(rm, h, resId, param, tcc);
      var cfg := rm.ctrl.cfg;
      (r.status == Ok ==> a.status == Ok) &&
      (a.status == Ok && (any || resId <= rm.ctrl.ranges.dmaMax) ==>
        a.id < MAX_DMA_CH &&
        if param == PARAM_ANY || cfg.paramMapExists || param == a.id then
          r == BindChannel(a.rm, h, DmaChannel, a.id, a.id, DmaParamRequest(cfg, a.id, param),
                           TccRequest(tcc, cfg.tccMap[a.id]))
        else r.status != Ok && r.rm == FreeResource(a.rm, h, DmaChannel, a.id).rm) &&
      (a.status != Ok || !(any || resId <= rm.ctrl.ranges.dmaMax) ==> r.rm == rm)
  {
    CountFits(rm.ctrl.cfg, DmaChannel);
  }

  /** A failed DMA request is rolled back. */
  lemma AllocDmaChannelFails(rm: Rm, h: int, resId: nat, param: nat, tcc: nat)
    requires rm.WF() && 0 <= h < MAX_RM_INSTANCES && rm.Live(h)
    ensures var r := AllocDmaChannel(rm, h, resId, param, tcc);
      r.status != Ok ==> r.rm.slots == rm.slots
  {
    AllocDmaChannelStages(rm, h, resId, param, tcc);
    var cfg := rm.ctrl.cfg;
    var any := resId == DMA_CHANNEL_ANY || resId == RES_ANY;
    var req := if any then RES_ANY else resId;
    var a := AllocResource(rm, h, DmaChannel, req);
    if a.status == Ok && (any || resId <= rm.ctrl.ranges.dmaMax) {
      if param == PARAM_ANY || cfg.paramMapExists || param == a.id {
        BindChannelFails(rm, h, DmaChannel, req, a.id, DmaParamRequest(cfg, a.id, param),
          TccRequest(tcc, cfg.tccMap[a.id]));
      } else {
        AllocThenFree(rm, h, DmaChannel, req);
      }
    }
  }

  /** A successful DMA request binds what it took to the channel's entry. */
  lemma AllocDmaChannelSucceeds(rm: Rm, h: int, resId: nat, param: nat, tcc: nat)
    requires rm.WF() && 0 <= h < MAX_RM_INSTANCES && rm.Live(h)
    ensures var r := AllocDmaChannel(rm, h, resId, param, tcc);
      r.status == Ok ==> r.id < MAX_DMA_CH && Holds(rm, h, DmaChannel, r.id, r.id, r.rm)
  {
    AllocDmaChannelStages(rm, h, resId, param, tcc);
    var cfg := rm.ctrl.cfg;
    var any := resId == DMA_CHANNEL_ANY || resId == RES_ANY;
    var req := if any then RES_ANY else resId;
    var a := AllocResource(rm, h, DmaChannel, req);
    if a.status == Ok && (any || resId <= rm.ctrl.ranges.dmaMax) &&
       (param == PARAM_ANY || cfg.paramMapExists || param == a.id) {
      BindChannelSucceeds(rm, h, DmaChannel, req, a.id, DmaParamRequest(cfg, a.id, param),
        TccRequest(tcc, cfg.tccMap[a.id]));
    }
  }

  /**
   * A QDMA request that got past the range check and took channel `a.id`
   * is the second stage on the entry after the link channels.
   */
  lemma AllocQdmaChannelStages(rm: Rm, h: int, resId: nat, param: nat, tcc: nat)
    requires rm.WF() && 0 <= h < MAX_RM_INSTANCES && rm.Live(h)
    ensures var any := resId == QDMA_CHANNEL_ANY || resId == RES_ANY;
      var a := AllocResource(rm, h, QdmaChannel, if any then RES_ANY else resId);
      var r := AllocQdmaChannel(rm, h, resId, param, tcc);
      (r.status == Ok ==> a.status == Ok) &&
      (a.status == Ok && (any || resId < rm.ctrl.cfg.numQdma) ==>
        a.id + rm.ctrl.ranges.qdmaMin < MAX_LOGICAL_CH &&
        r == BindChannel(a.rm, h, QdmaChannel, a.id, a.id + rm.ctrl.ranges.qdmaMin,
                         if param != PARAM_ANY then param else RES_ANY, TccRequest(tcc, CH_NO_TCC_MAP))) &&
      (!(any || resId < rm.ctrl.cfg.numQdma) ==> r == Step(rm, InvalidParam, resId)) &&
      ((any || resId < rm.ctrl.cfg.numQdma) && a.status != Ok ==> r == Step(rm, a.status, resId))
  {
    RangesContiguous(rm.ctrl.cfg);
  }

  /** Past the range check, a QDMA channel taken leads to the second stage. */
  lemma AllocQdmaChannelBinds(rm: Rm, h: int, resId: nat, param: nat, tcc: nat, a: Step)
    requires rm.WF() && 0 <= h < MAX_RM_INSTANCES && rm.Live(h)
    requires resId == QDMA_CHANNEL_ANY || resId == RES_ANY || resId < rm.ctrl.cfg.numQdma
    requires a == AllocResource(rm, h, QdmaChannel,
                                if resId == QDMA_CHANNEL_ANY || resId == RES_ANY then RES_ANY else resId)
    requires a.status == Ok
    ensures a.id + rm.ctrl.ranges.qdmaMin < MAX_LOGICAL_CH
    ensures AllocQdmaChannel(rm, h, resId, param, tcc) ==
      BindChannel(a.rm, h, QdmaChannel, a.id, a.id + rm.ctrl.ranges.qdmaMin,
                  if param != PARAM_ANY then param else RES_ANY, TccRequest(tcc, CH_NO_TCC_MAP))
  {
    QdmaSlotFits(rm, h, a.id);
  }

  /** A failed QDMA request is rolled back. */
  lemma AllocQdmaChannelFails(rm: Rm, h: int, resId: nat, param: nat, tcc: nat)
    requires rm.WF() && 0 <= h < MAX_RM_INSTANCES && rm.Live(h)
    ensures var r := AllocQdmaChannel(rm, h, resId, param, tcc);
      r.status != Ok ==> r.rm.slots == rm.slots
  {
    AllocQdmaChannelStages(rm, h, resId, param, tcc);
    var any := resId == QDMA_CHANNEL_ANY || resId == RES_ANY;
    var req := if any then RES_ANY else resId;
    var a := AllocResource(rm, h, QdmaChannel, req);
    if a.status == Ok && (any || resId < rm.ctrl.cfg.numQdma) {
      BindChannelFails(rm, h, QdmaChannel, req, a.id + rm.ctrl.ranges.qdmaMin,
        if param != PARAM_ANY then param else RES_ANY, TccRequest(tcc, CH_NO_TCC_MAP));
    }
  }

  /** A successful QDMA request binds what it took to the channel's entry. */
  lemma AllocQdmaChannelSucceeds(rm: Rm, h: int, resId: nat, param: nat, tcc: nat)
    requires rm.WF() && 0 <= h < MAX_RM_INSTANCES && rm.Live(h)
    ensures var r := AllocQdmaChannel(rm, h, resId, param, tcc);
      r.status == Ok ==>
        r.id + rm.ctrl.ranges.qdmaMin < MAX_LOGICAL_CH &&
        Holds(rm, h, QdmaChannel, r.id, r.id + rm.ctrl.ranges.qdmaMin, r.rm)
  {
    AllocQdmaChannelStages(rm, h, resId, param, tcc);
    var any := resId == QDMA_CHANNEL_ANY || resId == RES_ANY;
    var req := if any then RES_ANY else resId;
    var a := AllocResource(rm, h, QdmaChannel, req);
    if a.status == Ok && (any || resId < rm.ctrl.cfg.numQdma) {
      BindChannelSucceeds(rm, h, QdmaChannel, req, a.id + rm.ctrl.ranges.qdmaMin,
        if param != PARAM_ANY then param else RES_ANY, TccRequest(tcc, CH_NO_TCC_MAP));
    }
  }

  /**
   * A failed allocLogicalChannel leaves every instance's bitmaps as they
   * were: whatever it allocated on the way is freed again.
   */
  lemma AllocLogicalChannelRollsBack(rm: Rm, h: int, t: ResType, resId: nat, param: nat, tcc: nat)
    requires rm.WF() && -1 <= h < MAX_RM_INSTANCES
    ensures var r := AllocLogicalChannel(rm, h, t, resId, param, tcc);
      r.status != Ok ==> r.rm.slots == rm.slots
  {
    if rm.Live(h) {
      match t
      case DmaChannel => AllocDmaChannelFails(rm, h, resId, param, tcc);
      case QdmaChannel => AllocQdmaChannelFails(rm, h, resId, param, tcc);
      case ParamSet =>
        var any := resId == PARAM_ANY || resId == RES_ANY;
        AllocThenFree(rm, h, ParamSet, if any then RES_ANY else resId);
      case _ =>
    }
  }

  /**
   * A successful DMA or QDMA request took the channel it returns, a PaRAM
   * set and a TCC, each owned and available before, and bound the PaRAM
   * set and the TCC to the channel's table entry; no other instance changed.
   */
  lemma AllocLogicalChannelBinds(rm: Rm, h: int, t: ResType, resId: nat, param: nat, tcc: nat)
    requires rm.WF() && -1 <= h < MAX_RM_INSTANCES && (t == DmaChannel || t == QdmaChannel)
    ensures var r := AllocLogicalChannel(rm, h, t, resId, param, tcc);
      r.status == Ok ==>
        h >= 0 && rm.Live(h) && ChannelSlot(rm, t, r.id) < MAX_LOGICAL_CH &&
        Holds(rm, h, t, r.id, ChannelSlot(rm, t, r.id), r.rm)
  {
    if rm.Live(h) {
      if t == DmaChannel {
        AllocDmaChannelSucceeds(rm, h, resId, param, tcc);
      } else {
        AllocQdmaChannelSucceeds(rm, h, resId, param, tcc);
      }
    }
  }

  /** freeLogicalChannel on a channel holding what it took from `i0` restores `i0`. */
  lemma FreeAfterTook(rm: Rm, h: int, t: ResType, ch: nat, i0: Instance)
    requires rm.WF() && 0 <= h < MAX_RM_INSTANCES && rm.Live(h) && (t == DmaChannel || t == QdmaChannel)
    requires ChannelSlot(rm, t, ch) < MAX_LOGICAL_CH && i0.Sized()
    requires var b := rm.tables.chBound[ChannelSlot(rm, t, ch)];
      b.paRAMId >= 0 && Took(i0, rm.slots[h], rm.ctrl.cfg, t, ch, b.paRAMId, b.tcc)
    ensures var f := FreeLogicalChannel(rm, h, t, ch);
      f.status == Ok && f.rm.slots == rm.slots[h := i0] &&
      f.rm.tables.chBound[ChannelSlot(rm, t, ch)] == Binding(-1, MAX_TCC)
  {
    RangesContiguous(rm.ctrl.cfg);
    CountFits(rm.ctrl.cfg, t);
    var slot := ChannelSlot(rm, t, ch);
    var b := rm.tables.chBound[slot];
    FreeTaken(i0, rm.slots[h], rm.ctrl.cfg, t, ch, b.paRAMId, b.tcc);
    UnbindAfterTook(rm, h, t, ch, slot, i0);
  }

  /**
   * freeLogicalChannel on a channel that Holds what it took from `before`
   * restores the instance table of `before`.
   */
  lemma FreeAfterHolds(before: Rm, h: int, t: ResType, ch: nat, rm: Rm)
    requires before.WF() && rm.WF() && 0 <= h < MAX_RM_INSTANCES && rm.Live(h)
    requires (t == DmaChannel || t == QdmaChannel) && rm.ctrl == before.ctrl
    requires ChannelSlot(rm, t, ch) < MAX_LOGICAL_CH
    requires Holds(before, h, t, ch, ChannelSlot(rm, t, ch), rm)
    ensures var f := FreeLogicalChannel(rm, h, t, ch);
      f.status == Ok && f.rm.slots == before.slots &&
      f.rm.tables.chBound[ChannelSlot(rm, t, ch)] == Binding(-1, MAX_TCC)
  {
    FreeAfterTook(rm, h, t, ch, before.slots[h]);
    assert rm.slots[h := before.slots[h]] == before.slots;
  }

  /**
   * Freeing the channel a DMA or QDMA request returned succeeds, hands back
   * the channel, its PaRAM set and its TCC, and resets its table entry to
   * (-1, MAX_TCC).
   */
  lemma AllocFreeLogicalChannel(rm: Rm, h: int, t: ResType, resId: nat, param: nat, tcc: nat)
    requires rm.WF() && -1 <= h < MAX_RM_INSTANCES && (t == DmaChannel || t == QdmaChannel)
    ensures var a := AllocLogicalChannel(rm, h, t, resId, param, tcc);
      a.status == Ok ==>
        var f := FreeLogicalChannel(a.rm, h, t, a.id);
        f.status == Ok && f.rm.slots == rm.slots && ChannelSlot(rm, t, a.id) < MAX_LOGICAL_CH &&
        f.rm.tables.chBound[ChannelSlot(rm, t, a.id)] == Binding(-1, MAX_TCC)
  {
    var a := AllocLogicalChannel(rm, h, t, resId, param, tcc);
    if a.status == Ok {
      AllocLogicalChannelBinds(rm, h, t, resId, param, tcc);
      FreeAfterHolds(rm, h, t, a.id, a.rm);
    }
  }

  // ---------------------------------------------------------------------
  // Callbacks

  /**
   * EDMA3_RM_registerTccCb; `cb` is the callback, 0 for NULL. The TCC must
   * be below numTccs and have no callback yet; the channel is a DMA or
   * QDMA channel in range, whose TCC mapping is then recorded.
   */
  function RegisterTccCb(rm: Rm, h: int, t: ResType, resId: nat, tcc: nat, cb: nat): (r: Step)
    requires rm.WF() && -1 <= h < MAX_RM_INSTANCES
    ensures r.rm.WF() && r.rm.ctrl == rm.ctrl && r.rm.slots == rm.slots && r.id == resId
    ensures r.status == Ok <==>
      rm.Live(h) && cb != 0 && tcc < rm.ctrl.cfg.numTcc && rm.tables.callbacks[tcc] == 0 &&
      ((t == DmaChannel && resId < rm.ctrl.cfg.numDma) || (t == QdmaChannel && resId < rm.ctrl.cfg.numQdma))
    ensures r.status == Ok ==>
      r.rm.tables.callbacks == rm.tables.callbacks[tcc := cb] &&
      r.rm.tables.chBound == rm.tables.chBound &&
      (t == DmaChannel ==>
        r.rm.tables.dmaChTcc == rm.tables.dmaChTcc[resId := tcc] && r.rm.tables.qdmaChTcc == rm.tables.qdmaChTcc) &&
      (t == QdmaChannel ==>
        r.rm.tables.qdmaChTcc == rm.tables.qdmaChTcc[resId := tcc] && r.rm.tables.dmaChTcc == rm.tables.dmaChTcc)
    ensures r.status != Ok ==> r.rm == rm
  {
    var tb := rm.tables;
    if !rm.Live(h) || cb == 0 || tcc >= rm.ctrl.cfg.numTcc then Step(rm, InvalidParam, resId)
    else if tb.callbacks[tcc] != 0 then Step(rm, CallbackAlreadyRegistered, resId)
    else if t == DmaChannel && resId < rm.ctrl.cfg.numDma then
      Step(rm.(tables := tb.(dmaChTcc := tb.dmaChTcc[resId := tcc], callbacks := tb.callbacks[tcc := cb])), Ok, resId)
    else if t == QdmaChannel && resId < rm.ctrl.cfg.numQdma then
      Step(rm.(tables := tb.(qdmaChTcc := tb.qdmaChTcc[resId := tcc], callbacks := tb.callbacks[tcc := cb])), Ok, resId)
    else Step(rm, InvalidParam, resId)
  }

  /**
   * EDMA3_RM_unregisterTccCb: the channel's TCC mapping is reset to
   * MAX_TCC, and the callback of the TCC it held (if below MAX_TCC) is
   * removed.
   */
  function UnregisterTccCb(rm: Rm, h: int, t: ResType, resId: nat): (r: Step)
    requires rm.WF() && -1 <= h < MAX_RM_INSTANCES
    ensures r.rm.WF() && r.rm.ctrl == rm.ctrl && r.rm.slots == rm.slots && r.id == resId
    ensures r.status == Ok <==>
      rm.Live(h) &&
      ((t == DmaChannel && resId < rm.ctrl.cfg.numDma) || (t == QdmaChannel && resId < rm.ctrl.cfg.numQdma))
    ensures r.status != Ok ==> r.rm == rm
  {
    var tb := rm.tables;
    if !rm.Live(h) then Step(rm, InvalidParam, resId)
    else if t == DmaChannel && resId < rm.ctrl.cfg.numDma then
      var mapped := tb.dmaChTcc[resId];
      var tb1 := tb.(dmaChTcc := tb.dmaChTcc[resId := MAX_TCC]);
      Step(rm.(tables := if mapped < MAX_TCC then tb1.(callbacks := tb.callbacks[mapped := 0]) else tb1), Ok, resId)
    else if t == QdmaChannel && resId < rm.ctrl.cfg.numQdma then
      var mapped := tb.qdmaChTcc[resId];
      var tb1 := tb.(qdmaChTcc := tb.qdmaChTcc[resId := MAX_TCC]);
      Step(rm.(tables := if mapped < MAX_TCC then tb1.(callbacks := tb.callbacks[mapped := 0]) else tb1), Ok, resId)
    else Step(rm, InvalidParam, resId)
  }

  /**
   * Registering a callback and unregistering it through the same channel
   * restores the callback table, and leaves the channel's mapping at MAX_TCC.
   */
  lemma RegisterUnregisterRoundTrip(rm: Rm, h: int, t: ResType, resId: nat, tcc: nat, cb: nat)
    requires rm.WF() && -1 <= h < MAX_RM_INSTANCES
    ensures var g := RegisterTccCb(rm, h, t, resId, tcc, cb);
      g.status == Ok ==>
        var u := UnregisterTccCb(g.rm, h, t, resId);
        u.status == Ok && u.rm.tables.callbacks == rm.tables.callbacks &&
        (t == DmaChannel ==> u.rm.tables.dmaChTcc[resId] == MAX_TCC) &&
        (t == QdmaChannel ==> u.rm.tables.qdmaChTcc[resId] == MAX_TCC)
  {
    var g := RegisterTccCb(rm, h, t, resId, tcc, cb);
    if g.status == Ok {
      assert rm.tables.callbacks[tcc := cb][tcc := 0] == rm.tables.callbacks;
    }
  }

  /** A second registration for the same TCC is refused while the first stands. */
  lemma RegisterTwiceRefused(rm: Rm, h: int, t: ResType, resId: nat, tcc: nat, cb: nat, t2: ResType, resId2: nat, cb2: nat)
    requires rm.WF() && -1 <= h < MAX_RM_INSTANCES
    ensures var g := RegisterTccCb(rm, h, t, resId, tcc, cb);
      g.status == Ok && cb2 != 0 ==>
        RegisterTccCb(g.rm, h, t2, resId2, tcc, cb2).status == CallbackAlreadyRegistered
  {
  }
}
