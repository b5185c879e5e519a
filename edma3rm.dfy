/*
 * EDMA3 resource manager: the resources of one EDMA3 controller (DMA
 * channels, QDMA channels, transfer-completion codes (TCCs) and PaRAM
 * sets), the per-instance ownership / availability / reservation bitmaps,
 * and allocResource / freeResource on them.
 *
 * One controller is modelled. A resource-manager instance handle is the
 * index of its slot in the instance table, or -1 for NULL.
 */
module Edma3Rm {

  import opened Word32
  import opened Bitmap

  // Sizes of the controller's bookkeeping arrays (EDMA3_MAX_*).
  const MAX_DMA_CH: nat := 64
  const MAX_QDMA_CH: nat := 8
  const MAX_TCC: nat := 64
  const MAX_PARAM_SETS: nat := 512
  const MAX_LOGICAL_CH: nat := MAX_DMA_CH + MAX_PARAM_SETS + MAX_QDMA_CH
  const MAX_REGIONS: nat := 8
  const MAX_RM_INSTANCES: nat := 8

  // Special resource ids of edma3_rm.h.
  const RES_ANY: nat := 1010
  const DMA_CHANNEL_ANY: nat := 1011
  const QDMA_CHANNEL_ANY: nat := 1012
  const TCC_ANY: nat := 1013
  const PARAM_ANY: nat := 1014
  const CH_NO_PARAM_MAP: nat := 1015
  const CH_NO_TCC_MAP: nat := 1016

  /** EDMA3_RM_ResType; `OtherType` is any value outside the enumeration. */
  datatype ResType = DmaChannel | QdmaChannel | Tcc | ParamSet | OtherType

  /** The EDMA3_RM_Result values the modelled functions return. */
  datatype Status =
    | Ok
    | ObjNotDeleted
    | ObjNotClosed
    | ObjNotOpened
    | InvalidParam
    | ResAlreadyFree
    | ResNotOwned
    | SpecifiedResNotAvailable
    | AllResNotAvailable
    | InvalidState
    | MaxRmInstOpened
    | MasterAlreadyExists
    | CallbackAlreadyRegistered
  {
    /** The numeric code: EDMA3_RM_SOK is 0, the errors count down from -155. */
    function Code(): (c: int)
      ensures (c == 0) == (this == Ok)
      ensures -166 <= c <= 0
    {
      match this
      case Ok => 0
      case ObjNotDeleted => -155
      case ObjNotClosed => -156
      case ObjNotOpened => -157
      case InvalidParam => -158
      case ResAlreadyFree => -159
      case ResNotOwned => -160
      case SpecifiedResNotAvailable => -161
      case AllResNotAvailable => -162
      case InvalidState => -163
      case MaxRmInstOpened => -164
      case MasterAlreadyExists => -165
      case CallbackAlreadyRegistered => -166
    }
  }

  /**
   * One bitmap per resource type: 64 DMA channels, 8 QDMA channels,
   * 64 TCCs and 512 PaRAM sets (entry i = bit i % 32 of word i / 32).
   */
  datatype Pools = Pools(dma: Bits, qdma: Bits, tcc: Bits, param: Bits)
  {
    predicate Sized()
    {
      |dma| == MAX_DMA_CH && |qdma| == MAX_QDMA_CH && |tcc| == MAX_TCC && |param| == MAX_PARAM_SETS
    }

    function Of(t: ResType): Bits
      requires t != OtherType
    {
      match t
      case DmaChannel => dma
      case QdmaChannel => qdma
      case Tcc => tcc
      case ParamSet => param
    }

    /** The pools with the bitmap of type `t` replaced by `m`. */
    function With(t: ResType, m: Bits): (r: Pools)
      requires t != OtherType
      ensures r.Of(t) == m
      ensures t != DmaChannel ==> r.dma == dma
      ensures t != QdmaChannel ==> r.qdma == qdma
      ensures t != Tcc ==> r.tcc == tcc
      ensures t != ParamSet ==> r.param == param
    {
      match t
      case DmaChannel => this.(dma := m)
      case QdmaChannel => this.(qdma := m)
      case Tcc => this.(tcc := m)
      case ParamSet => this.(param := m)
    }
  }

  /** The number of ids of each type a Sized pool holds. */
  function PoolSize(t: ResType): nat
  {
    match t
    case DmaChannel => MAX_DMA_CH
    case QdmaChannel => MAX_QDMA_CH
    case Tcc => MAX_TCC
    case ParamSet => MAX_PARAM_SETS
    case OtherType => 0
  }

  lemma PoolSizeOf(p: Pools, t: ResType)
    requires p.Sized() && t != OtherType
    ensures |p.Of(t)| == PoolSize(t)
  {
  }

  /**
   * EDMA3_RM_GblConfigParams: the controller's resource counts, whether
   * its register block exists, and the DMA channel to PaRAM set and TCC
   * mappings.
   */
  datatype Config = Config(
    numDma: nat, numQdma: nat, numTcc: nat, numParam: nat, numRegions: nat,
    hasGlobalRegs: bool, paramMapExists: bool, paramMap: seq<nat>, tccMap: seq<nat>)
  {
    /**
     * The counts fit the bookkeeping arrays they index, and there is at
     * least one DMA channel and one PaRAM set (the channel ranges are
     * computed by unsigned subtraction from these two counts).
     */
    predicate Valid()
    {
      1 <= numDma <= MAX_DMA_CH && numQdma <= MAX_QDMA_CH && numTcc <= MAX_TCC &&
      1 <= numParam <= MAX_PARAM_SETS && numRegions <= MAX_REGIONS &&
      |paramMap| == MAX_DMA_CH && |tccMap| == MAX_DMA_CH &&
      (forall i :: 0 <= i < |paramMap| ==> IsU32(paramMap[i])) &&
      (forall i :: 0 <= i < |tccMap| ==> IsU32(tccMap[i]))
    }

    /** The number of resources of type `t` (maxNumResources). */
    function Count(t: ResType): nat
    {
      match t
      case DmaChannel => numDma
      case QdmaChannel => numQdma
      case Tcc => numTcc
      case ParamSet => numParam
      case OtherType => 0
    }
  }

  lemma CountFits(cfg: Config, t: ResType)
    requires cfg.Valid()
    ensures cfg.Count(t) <= PoolSize(t)
  {
  }

  /** The configuration memzeroed by delete (and before the first create). */
  function ZeroConfig(): Config
  {
    Config(0, 0, 0, 0, 0, false, false, seq(MAX_DMA_CH, i => 0), seq(MAX_DMA_CH, i => 0))
  }

  /**
   * Boundaries of the logical channel ranges, kept in globals by create:
   * DMA channels, then link channels (one per PaRAM set), then QDMA
   * channels; numParamSets is edma3NumPaRAMSets.
   */
  datatype Ranges = Ranges(
    dmaMax: nat, linkMin: nat, linkMax: nat, qdmaMin: nat, qdmaMax: nat, logMax: nat,
    numParamSets: nat)

  /** The boundaries create computes, in uint32 arithmetic. */
  function RangesOf(cfg: Config): Ranges
  {
    var dmaMax := Wrap32(cfg.numDma - 1);
    var linkMin := Wrap32(dmaMax + 1);
    var linkMax := Wrap32(linkMin + Wrap32(cfg.numParam - 1));
    var qdmaMin := Wrap32(linkMax + 1);
    var qdmaMax := Wrap32(qdmaMin + Wrap32(cfg.numQdma - 1));
    Ranges(dmaMax, linkMin, linkMax, qdmaMin, qdmaMax, qdmaMax, cfg.numParam)
  }

  /**
   * For a valid configuration the ranges are contiguous and disjoint:
   * DMA [0, numDma - 1], link [numDma, numDma + numParam - 1], and QDMA
   * the numQdma channels right after, all inside the logical channel table.
   */
  lemma RangesContiguous(cfg: Config)
    requires cfg.Valid()
    ensures var r := RangesOf(cfg);
      r.dmaMax == cfg.numDma - 1 && r.linkMin == r.dmaMax + 1 &&
      r.linkMax == r.linkMin + cfg.numParam - 1 && r.qdmaMin == r.linkMax + 1 &&
      r.qdmaMax + 1 == r.qdmaMin + cfg.numQdma && r.logMax == r.qdmaMax &&
      r.qdmaMin + cfg.numQdma <= MAX_LOGICAL_CH && r.numParamSets == cfg.numParam
  {
    var r := RangesOf(cfg);
    assert r.qdmaMin == cfg.numDma + cfg.numParam;
    if cfg.numQdma == 0 {
      assert Wrap32(cfg.numQdma - 1) == U32_LIMIT - 1;
    }
  }

  /**
   * One resource-manager instance (EDMA3_RM_Instance with its
   * EDMA3_RM_InstanceInitConfig): whether its slot is claimed, its region
   * and master flag, the owned, reserved and available resources, and the
   * two option flags set through Ioctl.
   */
  datatype Instance = Instance(
    claimed: bool, regionId: nat, isMaster: bool,
    own: Pools, resvd: Pools, avlbl: Pools,
    paramInitRequired: bool, regModificationRequired: bool)
  {
    predicate Sized()
    {
      own.Sized() && resvd.Sized() && avlbl.Sized()
    }

    /** The instance with entry `id` of the availability bitmap of `t` set to `v`. */
    function MarkAvailable(t: ResType, id: nat, v: bool): (r: Instance)
      requires Sized() && t != OtherType && id < PoolSize(t)
      ensures r.Sized()
      ensures r.avlbl.Of(t) == avlbl.Of(t)[id := v]
      ensures r == this.(avlbl := avlbl.With(t, r.avlbl.Of(t)))
    {
      this.(avlbl := avlbl.With(t, avlbl.Of(t)[id := v]))
    }
  }

  /** A memzeroed instance: unclaimed, owning nothing. */
  function ZeroInstance(): (r: Instance)
    ensures r.Sized() && !r.claimed
  {
    var z := Pools(seq(MAX_DMA_CH, i => false), seq(MAX_QDMA_CH, i => false),
                   seq(MAX_TCC, i => false), seq(MAX_PARAM_SETS, i => false));
    Instance(false, 0, false, z, z, z, false, false)
  }

  /** The resources of a type that are owned, available and not reserved. */
  function Usable(own: Bits, avlbl: Bits, resvd: Bits): (r: Bits)
    requires |own| == |avlbl| == |resvd|
    ensures |r| == |own|
    ensures forall k :: 0 <= k < |r| ==> r[k] == (own[k] && avlbl[k] && !resvd[k])
  {
    seq(|own|, k requires 0 <= k < |own| => own[k] && avlbl[k] && !resvd[k])
  }

  function UsableOf(i: Instance, t: ResType): (r: Bits)
    requires i.Sized() && t != OtherType
    ensures |r| == PoolSize(t)
  {
    Usable(i.own.Of(t), i.avlbl.Of(t), i.resvd.Of(t))
  }

  /** The result of an operation on one instance: status, resource id, new instance. */
  datatype Outcome = Outcome(status: Status, id: nat, inst: Instance)

  // ---------------------------------------------------------------------
  // allocResource / freeResource on one instance

  /**
   * allocResource once the handle is known to be good. RES_ANY takes the
   * lowest id below the count that is owned, available and not reserved;
   * a specific id is checked for range, then ownership, then availability
   * (reservation is not consulted). Success clears the availability bit.
   */
  function AllocIn(i: Instance, cfg: Config, t: ResType, resId: nat): (r: Outcome)
    requires i.Sized() && cfg.Valid()
    ensures r.status != Ok ==> r.inst == i && r.id == resId
    ensures r.status == Ok ==>
      t != OtherType && r.id < cfg.Count(t) && i.own.Of(t)[r.id] && i.avlbl.Of(t)[r.id] &&
      r.inst == i.MarkAvailable(t, r.id, false)
    ensures r.status == Ok && resId != RES_ANY ==> r.id == resId
  {
    CountFits(cfg, t);
    if t == OtherType then Outcome(InvalidParam, resId, i)
    else if resId == RES_ANY then
      var k := FirstFrom(UsableOf(i, t), 0, cfg.Count(t), true);
      if k < 0 then Outcome(AllResNotAvailable, resId, i)
      else Outcome(Ok, k, i.MarkAvailable(t, k, false))
    else if resId >= cfg.Count(t) then Outcome(InvalidParam, resId, i)
    else if !i.own.Of(t)[resId] then Outcome(ResNotOwned, resId, i)
    else if !i.avlbl.Of(t)[resId] then Outcome(SpecifiedResNotAvailable, resId, i)
    else Outcome(Ok, resId, i.MarkAvailable(t, resId, false))
  }

  /**
   * freeResource once the handle is known to be good: the id must be in
   * range and owned, and must not be available already; success sets the
   * availability bit.
   */
  function FreeIn(i: Instance, cfg: Config, t: ResType, resId: nat): (r: Outcome)
    requires i.Sized() && cfg.Valid()
    ensures r.id == resId
    ensures r.status != Ok ==> r.inst == i
    ensures r.status == Ok <==>
      t != OtherType && resId < cfg.Count(t) && i.own.Of(t)[resId] && !i.avlbl.Of(t)[resId]
    ensures r.status == Ok ==> r.inst == i.MarkAvailable(t, resId, true)
  {
    CountFits(cfg, t);
    if t == OtherType || resId >= cfg.Count(t) then Outcome(InvalidParam, resId, i)
    else if !i.own.Of(t)[resId] then Outcome(ResNotOwned, resId, i)
    else if i.avlbl.Of(t)[resId] then Outcome(ResAlreadyFree, resId, i)
    else Outcome(Ok, resId, i.MarkAvailable(t, resId, true))
  }

  /**
   * allocResource with RES_ANY picks the lowest usable id and clears
   * exactly its availability bit; it fails with ALL_RES_NOT_AVAILABLE
   * exactly when no id below the count is usable.
   */
  lemma AllocAnyLowest(i: Instance, cfg: Config, t: ResType)
    requires i.Sized() && cfg.Valid() && t != OtherType
    ensures var r := AllocIn(i, cfg, t, RES_ANY);
      (r.status == Ok ==>
        !i.resvd.Of(t)[r.id] &&
        (forall k :: 0 <= k < r.id ==> !(i.own.Of(t)[k] && i.avlbl.Of(t)[k] && !i.resvd.Of(t)[k]))) &&
      (r.status != Ok <==> r.status == AllResNotAvailable) &&
      (r.status == AllResNotAvailable <==>
        forall k :: 0 <= k < cfg.Count(t) ==> !(i.own.Of(t)[k] && i.avlbl.Of(t)[k] && !i.resvd.Of(t)[k]))
  {
    CountFits(cfg, t);
    var u := UsableOf(i, t);
    var k := FirstFrom(u, 0, cfg.Count(t), true);
    if k >= 0 {
      assert u[k];
    }
  }

  /**
   * A specific id is checked in the order range, ownership, availability;
   * the reserved bitmap plays no part.
   */
  lemma AllocSpecificOrder(i: Instance, cfg: Config, t: ResType, resId: nat)
    requires i.Sized() && cfg.Valid() && t != OtherType && resId != RES_ANY
    ensures var r := AllocIn(i, cfg, t, resId);
      (r.status == InvalidParam <==> resId >= cfg.Count(t)) &&
      (r.status == ResNotOwned <==> resId < cfg.Count(t) && !i.own.Of(t)[resId]) &&
      (r.status == SpecifiedResNotAvailable <==>
        resId < cfg.Count(t) && i.own.Of(t)[resId] && !i.avlbl.Of(t)[resId]) &&
      (r.status == Ok <==> resId < cfg.Count(t) && i.own.Of(t)[resId] && i.avlbl.Of(t)[resId])
  {
    CountFits(cfg, t);
  }

  /** A request for a specific id does not depend on the reserved bitmap. */
  lemma AllocSpecificIgnoresReserved(i: Instance, cfg: Config, t: ResType, resId: nat, resvd: Pools)
    requires i.Sized() && cfg.Valid() && resId != RES_ANY && resvd.Sized()
    ensures var r := AllocIn(i, cfg, t, resId);
      AllocIn(i.(resvd := resvd), cfg, t, resId) == r.(inst := r.inst.(resvd := resvd))
  {
    CountFits(cfg, t);
  }

  /** Allocating an id and freeing it again restores the instance. */
  lemma AllocFreeRoundTrip(i: Instance, cfg: Config, t: ResType, resId: nat)
    requires i.Sized() && cfg.Valid()
    ensures var a := AllocIn(i, cfg, t, resId);
      a.status == Ok ==>
        var f := FreeIn(a.inst, cfg, t, a.id);
        f.status == Ok && f.inst == i
  {
    var a := AllocIn(i, cfg, t, resId);
    if a.status == Ok {
      CountFits(cfg, t);
      var f := FreeIn(a.inst, cfg, t, a.id);
      assert f.inst.avlbl.Of(t) == i.avlbl.Of(t);
      assert f.inst.avlbl == i.avlbl by {
        forall u | u != OtherType
          ensures f.inst.avlbl.Of(u) == i.avlbl.Of(u)
        {
        }
      }
    }
  }

  /** Freeing an allocated id and allocating it again restores the instance. */
  lemma FreeAllocRoundTrip(i: Instance, cfg: Config, t: ResType, resId: nat)
    requires i.Sized() && cfg.Valid() && resId != RES_ANY
    ensures var f := FreeIn(i, cfg, t, resId);
      f.status == Ok ==>
        var a := AllocIn(f.inst, cfg, t, resId);
        a.status == Ok && a.inst == i
  {
    var f := FreeIn(i, cfg, t, resId);
    if f.status == Ok {
      CountFits(cfg, t);
      var a := AllocIn(f.inst, cfg, t, resId);
      assert a.inst.avlbl.Of(t) == i.avlbl.Of(t);
      assert a.inst.avlbl == i.avlbl by {
        forall u | u != OtherType
          ensures a.inst.avlbl.Of(u) == i.avlbl.Of(u)
        {
        }
      }
    }
  }

  /** A second free of the same id reports RES_ALREADY_FREE and changes nothing. */
  lemma FreeTwice(i: Instance, cfg: Config, t: ResType, resId: nat)
    requires i.Sized() && cfg.Valid()
    ensures var f := FreeIn(i, cfg, t, resId);
      f.status == Ok ==>
        var g := FreeIn(f.inst, cfg, t, resId);
        g.status == ResAlreadyFree && g.inst == f.inst
  {
  }

  /**
   * The RES_ANY scan of allocResource: tests each id below `n` against the
   * three bitmaps and stops at the first usable one.
   */
  method ScanUsable(own: Bits, avlbl: Bits, resvd: Bits, n: nat) returns (k: int)
    requires |own| == |avlbl| == |resvd| && n <= |own|
    ensures k == FirstFrom(Usable(own, avlbl, resvd), 0, n, true)
  {
    ghost var u := Usable(own, avlbl, resvd);
    var idx := 0;
    while idx < n
      invariant idx <= n
      invariant FirstFrom(u, 0, n, true) == FirstFrom(u, idx, n, true)
    {
      if own[idx] && avlbl[idx] && !resvd[idx] {
        return idx;
      }
      idx := idx + 1;
    }
    k := -1;
  }

  // ---------------------------------------------------------------------
  // The controller

  /** EDMA3_RM_ObjState; the memzeroed object is DELETED. */
  datatype ObjState = Deleted | Created | Opened | Closed

  /** The PaRAM set and TCC bound to a logical channel (edma3RmChBoundRes). */
  datatype Binding = Binding(paRAMId: int, tcc: nat)

  /** EDMA3_RM_Obj and the controller's globals. */
  datatype Controller = Controller(
    state: ObjState, numOpens: nat, cfg: Config, ranges: Ranges, masterExists: bool)

  /**
   * The controller's tables: the bound resources of every logical
   * channel, the TCC each DMA and QDMA channel's callback is registered
   * for, and the callback registered for each TCC (0 = none).
   */
  datatype Tables = Tables(
    chBound: seq<Binding>, dmaChTcc: seq<nat>, qdmaChTcc: seq<nat>, callbacks: seq<nat>)
  {
    predicate Sized()
    {
      |chBound| == MAX_LOGICAL_CH && |dmaChTcc| == MAX_DMA_CH &&
      |qdmaChTcc| == MAX_QDMA_CH && |callbacks| == MAX_TCC
    }
  }

  /** The resource manager of one controller. */
  datatype Rm = Rm(ctrl: Controller, slots: seq<Instance>, tables: Tables)
  {
    /**
     * Array sizes, and: a configuration with a register block is valid
     * and its ranges are the ones create computed; an OPENED object has a
     * register block.
     */
    predicate WF()
    {
      |slots| == MAX_RM_INSTANCES && (forall k :: 0 <= k < |slots| ==> slots[k].Sized()) &&
      tables.Sized() &&
      (ctrl.cfg.hasGlobalRegs ==> ctrl.cfg.Valid() && ctrl.ranges == RangesOf(ctrl.cfg)) &&
      (ctrl.state == Opened ==> ctrl.cfg.hasGlobalRegs)
    }

    /** A handle the allocation functions accept: claimed slot, register block present. */
    predicate Live(h: int)
      requires -1 <= h < |slots|
    {
      h >= 0 && slots[h].claimed && ctrl.cfg.hasGlobalRegs
    }

    /** The same resource manager with slot h replaced. */
    function WithSlot(h: nat, i: Instance): (r: Rm)
      requires h < |slots|
      ensures r.slots == slots[h := i] && r.ctrl == ctrl && r.tables == tables
    {
      this.(slots := slots[h := i])
    }
  }

  /** A step of the resource manager: new state, status, returned resource id. */
  datatype Step = Step(rm: Rm, status: Status, id: nat)

  /** EDMA3_RM_allocResource. */
  function AllocResource(rm: Rm, h: int, t: ResType, resId: nat): (r: Step)
    requires rm.WF() && -1 <= h < MAX_RM_INSTANCES
    ensures r.rm.WF() && r.rm.ctrl == rm.ctrl && r.rm.tables == rm.tables
    ensures !rm.Live(h) ==> r == Step(rm, InvalidParam, resId)
    ensures r.status != Ok ==> r.rm == rm && r.id == resId
    ensures rm.Live(h) ==>
      var o := AllocIn(rm.slots[h], rm.ctrl.cfg, t, resId);
      r == Step(rm.WithSlot(h, o.inst), o.status, o.id)
  {
    if !rm.Live(h) then Step(rm, InvalidParam, resId)
    else
      var o := AllocIn(rm.slots[h], rm.ctrl.cfg, t, resId);
      assert o.status != Ok ==> rm.slots[h := o.inst] == rm.slots;
      Step(rm.WithSlot(h, o.inst), o.status, o.id)
  }

  /** EDMA3_RM_freeResource. */
  function FreeResource(rm: Rm, h: int, t: ResType, resId: nat): (r: Step)
    requires rm.WF() && -1 <= h < MAX_RM_INSTANCES
    ensures r.rm.WF() && r.rm.ctrl == rm.ctrl && r.rm.tables == rm.tables && r.id == resId
    ensures !rm.Live(h) ==> r == Step(rm, InvalidParam, resId)
    ensures r.status != Ok ==> r.rm == rm
    ensures rm.Live(h) ==>
      var o := FreeIn(rm.slots[h], rm.ctrl.cfg, t, resId);
      r == Step(rm.WithSlot(h, o.inst), o.status, resId)
  {
    if !rm.Live(h) then Step(rm, InvalidParam, resId)
    else
      var o := FreeIn(rm.slots[h], rm.ctrl.cfg, t, resId);
      assert o.status != Ok ==> rm.slots[h := o.inst] == rm.slots;
      Step(rm.WithSlot(h, o.inst), o.status, resId)
  }
}
