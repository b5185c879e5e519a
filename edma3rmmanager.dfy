/*
 * The resource manager of one EDMA3 controller as the driver keeps it:
 * the controller object, the instance table and the channel and callback
 * tables, updated in place by the entry points of edma3resmgr.c. Each
 * method runs the loops of its entry point and is proved to leave exactly
 * the state, status and result the step function of the model describes,
 * so everything proved about the step functions holds for the object.
 */
module Edma3RmManager {

  import opened Word32
  import opened Bitmap
  import opened Edma3Rm
  import Edma3RmContig
  import Edma3RmChannel
  import Edma3RmLife

  class ResourceManager {
    /** resMgrObj and the controller globals. */
    var ctrl: Controller
    /** The EDMA3_RM_Instance array with the instance configurations. */
    var slots: seq<Instance>
    /** edma3RmChBoundRes, the channel-to-TCC mappings and the TCC callbacks. */
    var tables: Tables

    function State(): Rm
      reads this
    {
      Rm(ctrl, slots, tables)
    }

    /** The memzeroed globals before the first create. */
    constructor ()
      ensures State() == Edma3RmLife.Initial()
    {
      var i := Edma3RmLife.Initial();
      ctrl := i.ctrl;
      slots := i.slots;
      tables := i.tables;
    }

    // -------------------------------------------------------------------
    // create / delete / open / close / Ioctl

    /** EDMA3_RM_create. */
    method Create(cfg: Config) returns (status: Status)
      requires State().WF() && cfg.Valid()
      modifies this
      ensures var r := Edma3RmLife.Create(old(State()), cfg);
        State() == r.rm && status == r.status
    {
      if ctrl.state != Deleted {
        return ObjNotDeleted;
      }
      var c := cfg;
      if !cfg.paramMapExists {
        var m := Edma3RmLife.IdentityBelowLoop(cfg.paramMap, cfg.numDma);
        c := cfg.(paramMap := m);
      }
      ctrl := Controller(Created, 0, c, RangesOf(c), ctrl.masterExists);
      slots := seq(MAX_RM_INSTANCES, k => ZeroInstance());
      var dmaTcc := Edma3RmLife.FillBelowLoop(tables.dmaChTcc, cfg.numDma, MAX_TCC);
      var qdmaTcc := Edma3RmLife.FillBelowLoop(tables.qdmaChTcc, cfg.numQdma, MAX_TCC);
      var cb := Edma3RmLife.UnboundLoop(tables.chBound);
      tables := tables.(chBound := cb, dmaChTcc := dmaTcc, qdmaChTcc := qdmaTcc);
      status := Ok;
    }

    /** EDMA3_RM_delete. */
    method Delete() returns (status: Status)
      requires State().WF()
      modifies this
      ensures var r := Edma3RmLife.Delete(old(State()));
        State() == r.rm && status == r.status
    {
      if ctrl.numOpens == 0 && ctrl.state != Closed && ctrl.state != Created {
        return ObjNotClosed;
      }
      if ctrl.numOpens != 0 {
        return InvalidState;
      }
      ctrl := ctrl.(state := Deleted, cfg := ZeroConfig());
      status := Ok;
    }

    /** EDMA3_RM_open; the handle is -1 for NULL. */
    method Open(hasSem: bool, regionId: nat, isMaster: bool, own: Pools, resvd: Pools)
      returns (status: Status, handle: int)
      requires State().WF() && own.Sized() && resvd.Sized()
      modifies this
      ensures var r := Edma3RmLife.Open(old(State()), hasSem, regionId, isMaster, own, resvd);
        State() == r.rm && status == r.status && handle == r.handle
    {
      status := Edma3RmLife.OpenChecks(ctrl, hasSem, regionId, isMaster);
      if status != Ok {
        return status, -1;
      }
      var k := Edma3RmLife.FirstFreeSlot(slots);
      if k < 0 {
        return MaxRmInstOpened, -1;
      }
      var i := slots[k];
      if !ctrl.cfg.hasGlobalRegs {
        slots := slots[k := i.(claimed := true, regionId := regionId, isMaster := isMaster,
                                own := Edma3RmLife.NoPools(), resvd := Edma3RmLife.NoPools())];
        return InvalidParam, -1;
      }
      var cfg := ctrl.cfg;
      var dma := Edma3RmLife.CopyWordsLoop(i.avlbl.dma, own.dma, Edma3RmLife.OpenWords(cfg.numDma));
      var tcc := Edma3RmLife.CopyWordsLoop(i.avlbl.tcc, own.tcc, Edma3RmLife.OpenWords(cfg.numTcc));
      var param := Edma3RmLife.CopyWordsLoop(i.avlbl.param, own.param, Edma3RmLife.OpenWords(cfg.numParam));
      var reserved := Edma3RmLife.ReserveBelowLoop(resvd.param, cfg.numDma);
      slots := slots[k := i.(claimed := true, regionId := regionId, isMaster := isMaster, own := own,
                             resvd := resvd.(param := reserved), avlbl := Pools(dma, own.qdma, tcc, param),
                             paramInitRequired := true, regModificationRequired := true)];
      ctrl := ctrl.(state := Opened, numOpens := ctrl.numOpens + 1,
                    masterExists := ctrl.masterExists || isMaster);
      handle := k;
    }

    /** EDMA3_RM_close (the last close leaves every logical channel unbound). */
    method Close(h: int) returns (status: Status)
      requires State().WF() && -1 <= h < MAX_RM_INSTANCES
      modifies this
      ensures var r := Edma3RmLife.Close(old(State()), h);
        State() == r.rm && status == r.status
    {
      if h < 0 || !slots[h].claimed {
        return InvalidParam;
      }
      if ctrl.state != Opened {
        return ObjNotOpened;
      }
      var i := slots[h];
      var cfg := ctrl.cfg;
      var dma := Edma3RmLife.CopyWordsLoop(i.avlbl.dma, Edma3RmLife.NoBits(MAX_DMA_CH), cfg.numDma / 32);
      var param := Edma3RmLife.CopyWordsLoop(i.avlbl.param, Edma3RmLife.NoBits(MAX_PARAM_SETS), cfg.numParam / 32);
      var tcc := Edma3RmLife.CopyWordsLoop(i.avlbl.tcc, Edma3RmLife.NoBits(MAX_TCC), cfg.numTcc / 32);
      slots := slots[h := i.(claimed := false, regionId := 0, isMaster := false,
                             avlbl := Pools(dma, Edma3RmLife.NoBits(MAX_QDMA_CH), tcc, param))];
      var n := Wrap32(ctrl.numOpens - 1);
      ctrl := ctrl.(numOpens := n, masterExists := ctrl.masterExists && !i.isMaster);
      if n == 0 {
        var cb := Edma3RmLife.UnboundLoop(tables.chBound);
        tables := tables.(chBound := cb);
        ctrl := ctrl.(state := Closed);
      }
      status := Ok;
    }

    /** EDMA3_RM_Ioctl; `value` is what a GET writes back. */
    method Ioctl(h: int, cmd: int, arg: int) returns (status: Status, value: nat)
      requires State().WF() && -1 <= h < MAX_RM_INSTANCES
      modifies this
      ensures var r := Edma3RmLife.Ioctl(old(State()), h, cmd, arg);
        State() == r.rm && status == r.status && value == r.value
    {
      value := 0;
      if h < 0 || cmd <= 0 || cmd >= Edma3RmLife.IOCTL_MAX_IOCTL {
        return InvalidParam, 0;
      }
      var i := slots[h];
      if cmd == Edma3RmLife.IOCTL_SET_PARAM_CLEAR_OPTION {
        if arg != 0 && arg != 1 {
          return InvalidParam, 0;
        }
        slots := slots[h := i.(paramInitRequired := arg == 1)];
      } else if cmd == Edma3RmLife.IOCTL_GET_PARAM_CLEAR_OPTION {
        if arg == 0 {
          return InvalidParam, 0;
        }
        value := if i.paramInitRequired then 1 else 0;
      } else if cmd == Edma3RmLife.IOCTL_SET_GBL_REG_MODIFY_OPTION {
        if arg != 0 && arg != 1 {
          return InvalidParam, 0;
        }
        slots := slots[h := i.(regModificationRequired := arg == 1)];
      } else {
        if arg == 0 {
          return InvalidParam, 0;
        }
        value := if i.regModificationRequired then 1 else 0;
      }
      status := Ok;
    }

    // -------------------------------------------------------------------
    // allocResource / freeResource

    /** EDMA3_RM_allocResource. */
    method AllocResource(h: int, t: ResType, resId: nat) returns (status: Status, id: nat)
      requires State().WF() && -1 <= h < MAX_RM_INSTANCES
      modifies this
      ensures var r := Edma3Rm.AllocResource(old(State()), h, t, resId);
        State() == r.rm && status == r.status && id == r.id
      ensures status == Ok ==> t != OtherType && id < ctrl.cfg.Count(t)
    {
      if h < 0 || !slots[h].claimed || !ctrl.cfg.hasGlobalRegs || t == OtherType {
        return InvalidParam, resId;
      }
      var i := slots[h];
      var count := ctrl.cfg.Count(t);
      CountFits(ctrl.cfg, t);
      PoolSizeOf(i.own, t);
      PoolSizeOf(i.avlbl, t);
      PoolSizeOf(i.resvd, t);
      id := resId;
      if resId == RES_ANY {
        var k := ScanUsable(i.own.Of(t), i.avlbl.Of(t), i.resvd.Of(t), count);
        if k < 0 {
          return AllResNotAvailable, resId;
        }
        id := k;
      } else if resId >= count {
        return InvalidParam, resId;
      } else if !i.own.Of(t)[resId] {
        return ResNotOwned, resId;
      } else if !i.avlbl.Of(t)[resId] {
        return SpecifiedResNotAvailable, resId;
      }
      slots := slots[h := i.MarkAvailable(t, id, false)];
      status := Ok;
    }

    /** EDMA3_RM_freeResource. */
    method FreeResource(h: int, t: ResType, resId: nat) returns (status: Status)
      requires State().WF() && -1 <= h < MAX_RM_INSTANCES
      modifies this
      ensures var r := Edma3Rm.FreeResource(old(State()), h, t, resId);
        State() == r.rm && status == r.status
    {
      if h < 0 || !slots[h].claimed || !ctrl.cfg.hasGlobalRegs || t == OtherType {
        return InvalidParam;
      }
      var i := slots[h];
      CountFits(ctrl.cfg, t);
      PoolSizeOf(i.own, t);
      PoolSizeOf(i.avlbl, t);
      if resId >= ctrl.cfg.Count(t) {
        return InvalidParam;
      }
      if !i.own.Of(t)[resId] {
        return ResNotOwned;
      }
      if i.avlbl.Of(t)[resId] {
        return ResAlreadyFree;
      }
      slots := slots[h := i.MarkAvailable(t, resId, true)];
      status := Ok;
    }

    // -------------------------------------------------------------------
    // allocContiguousResource / freeContiguousResource

    /** EDMA3_RM_allocContiguousResource; `id` is the first id of the run. */
    method AllocContiguous(h: int, t: ResType, first: nat, n: nat) returns (status: Status, id: nat)
      requires State().WF() && -1 <= h < MAX_RM_INSTANCES && IsU32(first) && IsU32(n)
      modifies this
      ensures var r := Edma3RmContig.AllocContiguous(old(State()), h, t, first, n);
        State() == r.rm && status == r.status && id == r.id
    {
      if h < 0 || !slots[h].claimed || !ctrl.cfg.hasGlobalRegs || t == OtherType {
        return InvalidParam, first;
      }
      var o := Edma3RmContig.ContigAllocLoop(slots[h], ctrl.cfg, ctrl.ranges, t, first, n);
      slots := slots[h := o.inst];
      status, id := o.status, o.id;
    }

    /** EDMA3_RM_freeContiguousResource; `at` is the last id tried. */
    method FreeContiguous(h: int, t: ResType, first: nat, n: nat) returns (status: Status, at: nat)
      requires State().WF() && -1 <= h < MAX_RM_INSTANCES && IsU32(first) && IsU32(n)
      modifies this
      ensures var r := Edma3RmContig.FreeContiguous(old(State()), h, t, first, n);
        State() == r.rm && status == r.status && at == r.id
    {
      if h < 0 || !slots[h].claimed || !ctrl.cfg.hasGlobalRegs || t == OtherType {
        return InvalidParam, first;
      }
      var o := Edma3RmContig.ContigFreeLoop(slots[h], ctrl.cfg, t, first, n);
      slots := slots[h := o.inst];
      status, at := o.status, o.id;
    }

    // -------------------------------------------------------------------
    // allocLogicalChannel / freeLogicalChannel

    /** Binds PaRAM set or TCC fields of table entry `slot`. */
    method Bind(slot: nat, b: Binding)
      requires State().WF() && slot < MAX_LOGICAL_CH
      modifies this
      ensures State() == Edma3RmChannel.WithBinding(old(State()), slot, b)
    {
      tables := tables.(chBound := tables.chBound[slot := b]);
    }

    /** The second stage of allocLogicalChannel for a DMA or QDMA channel. */
    method BindChannel(h: int, t: ResType, ch: nat, slot: nat, paramReq: nat, tccReq: nat)
      returns (status: Status)
      requires State().WF() && -1 <= h < MAX_RM_INSTANCES && slot < MAX_LOGICAL_CH
      modifies this
      ensures var r := Edma3RmChannel.BindChannel(old(State()), h, t, ch, slot, paramReq, tccReq);
        State() == r.rm && status == r.status
    {
      var paramStatus, p := AllocResource(h, ParamSet, paramReq);
      if paramStatus != Ok {
        var rolledBack := FreeResource(h, t, ch);
        return paramStatus;
      }
      Bind(slot, tables.chBound[slot].(paRAMId := p));
      var tccStatus, c := AllocResource(h, Tcc, tccReq);
      if tccStatus == Ok {
        Bind(slot, tables.chBound[slot].(tcc := c));
        return Ok;
      }
      var paramFreed := FreeResource(h, ParamSet, p);
      Bind(slot, tables.chBound[slot].(paRAMId := -1));
      var chFreed := FreeResource(h, t, ch);
      status := tccStatus;
    }

    /** allocLogicalChannel for a DMA channel. */
    method AllocDmaChannel(h: int, resId: nat, param: nat, tcc: nat) returns (status: Status, id: nat)
      requires State().WF() && 0 <= h < MAX_RM_INSTANCES && State().Live(h)
      modifies this
      ensures var r := Edma3RmChannel.AllocDmaChannel(old(State()), h, resId, param, tcc);
        State() == r.rm && status == r.status && id == r.id
    {
      var cfg := ctrl.cfg;
      var any := resId == DMA_CHANNEL_ANY || resId == RES_ANY;
      if !any && resId > ctrl.ranges.dmaMax {
        return InvalidParam, resId;
      }
      var chStatus, ch := AllocResource(h, DmaChannel, if any then RES_ANY else resId);
      if chStatus != Ok {
        return chStatus, resId;
      }
      var tccReq := Edma3RmChannel.TccRequest(tcc, cfg.tccMap[ch]);
      if param == PARAM_ANY {
        var paramReq := if cfg.paramMap[ch] != CH_NO_PARAM_MAP then cfg.paramMap[ch] else RES_ANY;
        status := BindChannel(h, DmaChannel, ch, ch, paramReq, tccReq);
      } else if cfg.paramMapExists || param == ch {
        status := BindChannel(h, DmaChannel, ch, ch, param, tccReq);
      } else {
        var chFreed := FreeResource(h, DmaChannel, ch);
        status := InvalidParam;
      }
      id := ch;
    }

    /** allocLogicalChannel for a QDMA channel. */
    method AllocQdmaChannel(h: int, resId: nat, param: nat, tcc: nat) returns (status: Status, id: nat)
      requires State().WF() && 0 <= h < MAX_RM_INSTANCES && State().Live(h)
      modifies this
      ensures var r := Edma3RmChannel.AllocQdmaChannel(old(State()), h, resId, param, tcc);
        State() == r.rm && status == r.status && id == r.id
    {
      ghost var s0 := State();
      var any := resId == QDMA_CHANNEL_ANY || resId == RES_ANY;
      if !any && resId >= ctrl.cfg.numQdma {
        assert Edma3RmChannel.AllocQdmaChannel(s0, h, resId, param, tcc) == Step(s0, InvalidParam, resId);
        return InvalidParam, resId;
      }
      ghost var a := Edma3Rm.AllocResource(s0, h, QdmaChannel, if any then RES_ANY else resId);
      var chStatus, ch := AllocResource(h, QdmaChannel, if any then RES_ANY else resId);
      if chStatus != Ok {
        assert Edma3RmChannel.AllocQdmaChannel(s0, h, resId, param, tcc) == Step(a.rm, a.status, resId);
        return chStatus, resId;
      }
      status, id := BindQdmaChannel(h, resId, ch, param, tcc, s0, a);
    }

    /** The second stage of allocLogicalChannel for a QDMA channel taken. */
    method BindQdmaChannel(h: int, resId: nat, ch: nat, param: nat, tcc: nat, ghost s0: Rm, ghost a: Step)
      returns (status: Status, id: nat)
      requires s0.WF() && 0 <= h < MAX_RM_INSTANCES && s0.Live(h)
      requires resId == QDMA_CHANNEL_ANY || resId == RES_ANY || resId < s0.ctrl.cfg.numQdma
      requires a == Edma3Rm.AllocResource(s0, h, QdmaChannel,
                                          if resId == QDMA_CHANNEL_ANY || resId == RES_ANY then RES_ANY else resId)
      requires a.status == Ok && State() == a.rm && ch == a.id
      modifies this
      ensures var r := Edma3RmChannel.AllocQdmaChannel(s0, h, resId, param, tcc);
        State() == r.rm && status == r.status && id == r.id
    {
      Edma3RmChannel.AllocQdmaChannelBinds(s0, h, resId, param, tcc, a);
      status := BindChannel(h, QdmaChannel, ch, ch + ctrl.ranges.qdmaMin, if param != PARAM_ANY then param else RES_ANY,
                            Edma3RmChannel.TccRequest(tcc, CH_NO_TCC_MAP));
      id := ch;
    }

    /** allocLogicalChannel for a link channel (with the corrected rollback). */
    method AllocParamChannel(h: int, resId: nat) returns (status: Status, id: nat)
      requires State().WF() && 0 <= h < MAX_RM_INSTANCES && State().Live(h)
      modifies this
      ensures var r := Edma3RmChannel.AllocParamChannel(old(State()), h, resId);
        State() == r.rm && status == r.status && id == r.id
    {
      ghost var r := Edma3RmChannel.AllocParamChannel(State(), h, resId);
      RangesContiguous(ctrl.cfg);
      var any := resId == PARAM_ANY || resId == RES_ANY;
      if !any && resId >= ctrl.ranges.numParamSets {
        return InvalidParam, resId;
      }
      ghost var a := Edma3Rm.AllocResource(State(), h, ParamSet, if any then RES_ANY else resId);
      var paramStatus, p := AllocResource(h, ParamSet, if any then RES_ANY else resId);
      assert State() == a.rm && paramStatus == a.status && p == a.id;
      if paramStatus != Ok {
        return paramStatus, resId;
      }
      var k := Edma3RmChannel.FindFreeLink(tables.chBound, ctrl.ranges.linkMin, ctrl.ranges.linkMax);
      if k < 0 {
        assert r == Step(Edma3Rm.FreeResource(a.rm, h, ParamSet, a.id).rm, InvalidParam, a.id);
        var paramFreed := FreeResource(h, ParamSet, p);
        return InvalidParam, p;
      }
      assert r == Step(Edma3RmChannel.WithBinding(a.rm, k, a.rm.tables.chBound[k].(paRAMId := a.id)), Ok, a.id);
      Bind(k, tables.chBound[k].(paRAMId := p));
      status, id := Ok, p;
    }

    /** EDMA3_RM_allocLogicalChannel. */
    method AllocLogicalChannel(h: int, t: ResType, resId: nat, param: nat, tcc: nat)
      returns (status: Status, id: nat)
      requires State().WF() && -1 <= h < MAX_RM_INSTANCES
      modifies this
      ensures var r := Edma3RmChannel.AllocLogicalChannel(old(State()), h, t, resId, param, tcc);
        State() == r.rm && status == r.status && id == r.id
    {
      if h < 0 || !slots[h].claimed || !ctrl.cfg.hasGlobalRegs {
        return InvalidParam, resId;
      }
      match t {
        case DmaChannel =>
          status, id := AllocDmaChannel(h, resId, param, tcc);
        case QdmaChannel =>
          status, id := AllocQdmaChannel(h, resId, param, tcc);
        case ParamSet =>
          status, id := AllocParamChannel(h, resId);
        case _ =>
          status, id := InvalidParam, resId;
      }
    }

    /** freeLogicalChannel for a DMA or QDMA channel. */
    method UnbindChannel(h: int, t: ResType, ch: nat, slot: nat) returns (status: Status)
      requires State().WF() && 0 <= h < MAX_RM_INSTANCES && t != OtherType && ch < PoolSize(t)
      requires slot < MAX_LOGICAL_CH
      modifies this
      ensures var r := Edma3RmChannel.UnbindChannel(old(State()), h, t, ch, slot);
        State() == r.rm && status == r.status
    {
      var i := slots[h];
      PoolSizeOf(i.own, t);
      PoolSizeOf(i.avlbl, t);
      if !(i.own.Of(t)[ch] && !i.avlbl.Of(t)[ch]) {
        return InvalidParam;
      }
      var b0 := tables.chBound[slot];
      status := FreeResource(h, ParamSet, Wrap32(b0.paRAMId));
      if status != Ok {
        return;
      }
      Bind(slot, b0.(paRAMId := -1));
      status := FreeResource(h, Tcc, b0.tcc);
      if status != Ok {
        return;
      }
      Bind(slot, Binding(-1, MAX_TCC));
      status := FreeResource(h, t, ch);
    }

    /** EDMA3_RM_freeLogicalChannel (with the corrected link-channel loop). */
    method FreeLogicalChannel(h: int, t: ResType, resId: nat) returns (status: Status)
      requires State().WF() && -1 <= h < MAX_RM_INSTANCES
      modifies this
      ensures var r := Edma3RmChannel.FreeLogicalChannel(old(State()), h, t, resId);
        State() == r.rm && status == r.status
    {
      ghost var r := Edma3RmChannel.FreeLogicalChannel(State(), h, t, resId);
      if h < 0 || !slots[h].claimed || !ctrl.cfg.hasGlobalRegs {
        return InvalidParam;
      }
      RangesContiguous(ctrl.cfg);
      if t == DmaChannel && resId < MAX_DMA_CH {
        assert r == Edma3RmChannel.UnbindChannel(State(), h, DmaChannel, resId, resId);
        status := UnbindChannel(h, DmaChannel, resId, resId);
      } else if t == QdmaChannel && resId < MAX_QDMA_CH {
        assert r == Edma3RmChannel.UnbindChannel(State(), h, QdmaChannel, resId, resId + ctrl.ranges.qdmaMin);
        status := UnbindChannel(h, QdmaChannel, resId, resId + ctrl.ranges.qdmaMin);
      } else if t == ParamSet && resId < ctrl.ranges.numParamSets {
        assert r == Edma3RmChannel.FreeLinkChannel(State(), h, resId);
        status := FreeLinkChannel(h, resId);
      } else {
        assert r == Step(State(), InvalidParam, resId);
        status := InvalidParam;
      }
    }

    /** freeLogicalChannel for a link channel past the range check. */
    method FreeLinkChannel(h: int, resId: nat) returns (status: Status)
      requires State().WF() && 0 <= h < MAX_RM_INSTANCES && State().Live(h)
      modifies this
      ensures var r := Edma3RmChannel.FreeLinkChannel(old(State()), h, resId);
        State() == r.rm && status == r.status
    {
      RangesContiguous(ctrl.cfg);
      status := FreeResource(h, ParamSet, resId);
      if status != Ok {
        return;
      }
      var cb := Edma3RmChannel.ReleaseLinkLoop(tables.chBound, ctrl.ranges.linkMin, ctrl.ranges.linkMax, resId);
      tables := tables.(chBound := cb);
    }

    // -------------------------------------------------------------------
    // Callbacks

    /** EDMA3_RM_registerTccCb; `cb` is the callback, 0 for NULL. */
    method RegisterTccCb(h: int, t: ResType, resId: nat, tcc: nat, cb: nat) returns (status: Status)
      requires State().WF() && -1 <= h < MAX_RM_INSTANCES
      modifies this
      ensures var r := Edma3RmChannel.RegisterTccCb(old(State()), h, t, resId, tcc, cb);
        State() == r.rm && status == r.status
    {
      if h < 0 || !slots[h].claimed || !ctrl.cfg.hasGlobalRegs || cb == 0 || tcc >= ctrl.cfg.numTcc {
        return InvalidParam;
      }
      if tables.callbacks[tcc] != 0 {
        return CallbackAlreadyRegistered;
      }
      if t == DmaChannel && resId < ctrl.cfg.numDma {
        tables := tables.(dmaChTcc := tables.dmaChTcc[resId := tcc]);
      } else if t == QdmaChannel && resId < ctrl.cfg.numQdma {
        tables := tables.(qdmaChTcc := tables.qdmaChTcc[resId := tcc]);
      } else {
        return InvalidParam;
      }
      tables := tables.(callbacks := tables.callbacks[tcc := cb]);
      status := Ok;
    }

    /** EDMA3_RM_unregisterTccCb. */
    method UnregisterTccCb(h: int, t: ResType, resId: nat) returns (status: Status)
      requires State().WF() && -1 <= h < MAX_RM_INSTANCES
      modifies this
      ensures var r := Edma3RmChannel.UnregisterTccCb(old(State()), h, t, resId);
        State() == r.rm && status == r.status
    {
      if h < 0 || !slots[h].claimed || !ctrl.cfg.hasGlobalRegs {
        return InvalidParam;
      }
      var mapped: nat;
      if t == DmaChannel && resId < ctrl.cfg.numDma {
        mapped := tables.dmaChTcc[resId];
        tables := tables.(dmaChTcc := tables.dmaChTcc[resId := MAX_TCC]);
      } else if t == QdmaChannel && resId < ctrl.cfg.numQdma {
        mapped := tables.qdmaChTcc[resId];
        tables := tables.(qdmaChTcc := tables.qdmaChTcc[resId := MAX_TCC]);
      } else {
        return InvalidParam;
      }
      if mapped < MAX_TCC {
        tables := tables.(callbacks := tables.callbacks[mapped := 0]);
      }
      status := Ok;
    }
  }
}
