/*
 * Lifecycle of the EDMA3 resource manager: create and delete of the
 * controller object, open and close of resource-manager instances, the
 * Ioctl options of an instance, and edma3MemCpy.
 *
 * The controller keeps an open count and at most one master instance;
 * the lemmas at the end show that open and close keep the count equal to
 * the number of claimed instance slots and the master flag in step with
 * the claimed master.
 */
module Edma3RmLife {

  import opened Word32
  import opened Bitmap
  import opened Edma3Rm
  import opened Edma3RmChannel

  // ---------------------------------------------------------------------
  // The loops of create, open and close

  /** `m` with entry k set to k for every k below n (the identity channel-to-PaRAM map). */
  function IdentityBelow(m: seq<nat>, n: nat): (r: seq<nat>)
    ensures |r| == |m|
    ensures forall k :: 0 <= k < |m| ==> r[k] == (if k < n then k else m[k])
  {
    seq(|m|, k requires 0 <= k < |m| => if k < n then k else m[k])
  }

  method IdentityBelowLoop(m: seq<nat>, n: nat) returns (r: seq<nat>)
    requires n <= |m|
    ensures r == IdentityBelow(m, n)
  {
    r := m;
    var count := 0;
    while count < n
      invariant count <= n && |r| == |m|
      invariant forall k :: 0 <= k < |m| ==> r[k] == (if k < count then k else m[k])
    {
      r := r[count := count];
      count := count + 1;
    }
  }

  /** `m` with every entry below n set to v (the TCC mapping loops of create). */
  function FillBelow(m: seq<nat>, n: nat, v: nat): (r: seq<nat>)
    ensures |r| == |m|
    ensures forall k :: 0 <= k < |m| ==> r[k] == (if k < n then v else m[k])
  {
    seq(|m|, k requires 0 <= k < |m| => if k < n then v else m[k])
  }

  method FillBelowLoop(m: seq<nat>, n: nat, v: nat) returns (r: seq<nat>)
    requires n <= |m|
    ensures r == FillBelow(m, n, v)
  {
    r := m;
    var count := 0;
    while count < n
      invariant count <= n && |r| == |m|
      invariant forall k :: 0 <= k < |m| ==> r[k] == (if k < count then v else m[k])
    {
      r := r[count := v];
      count := count + 1;
    }
  }

  /** The channel table create leaves: no PaRAM set and no TCC bound to any logical channel. */
  function Unbound(): (r: seq<Binding>)
    ensures |r| == MAX_LOGICAL_CH
    ensures forall k :: 0 <= k < |r| ==> r[k] == Binding(-1, MAX_TCC)
  {
    seq(MAX_LOGICAL_CH, k => Binding(-1, MAX_TCC))
  }

  method UnboundLoop(cb: seq<Binding>) returns (r: seq<Binding>)
    requires |cb| == MAX_LOGICAL_CH
    ensures r == Unbound()
  {
    r := cb;
    var count := 0;
    while count < MAX_LOGICAL_CH
      invariant count <= MAX_LOGICAL_CH && |r| == MAX_LOGICAL_CH
      invariant forall k :: 0 <= k < count ==> r[k] == Binding(-1, MAX_TCC)
    {
      r := r[count := Binding(-1, MAX_TCC)];
      count := count + 1;
    }
  }

  /** The channel table as edma3MemZero leaves it: PaRAM set 0 and TCC 0 everywhere. */
  function Memzeroed(): (r: seq<Binding>)
    ensures |r| == MAX_LOGICAL_CH
    ensures forall k :: 0 <= k < |r| ==> r[k] == Binding(0, 0)
  {
    seq(MAX_LOGICAL_CH, k => Binding(0, 0))
  }

  /**
   * `dst` with its first `words` 32-bit words taken from `src` (the word
   * loops of open, which copy the owned bitmaps into the available ones,
   * and of close, which clear the available ones).
   */
  function CopyWords(dst: Bits, src: Bits, words: nat): (r: Bits)
    requires |dst| == |src|
    ensures |r| == |dst|
    ensures forall k :: 0 <= k < |r| ==> r[k] == (if k < 32 * words then src[k] else dst[k])
  {
    seq(|dst|, k requires 0 <= k < |dst| => if k < 32 * words then src[k] else dst[k])
  }

  method CopyWordsLoop(dst: Bits, src: Bits, words: nat) returns (r: Bits)
    requires |dst| == |src| && 32 * words <= |dst|
    ensures r == CopyWords(dst, src, words)
  {
    r := dst;
    var w := 0;
    while w < words
      invariant w <= words && |r| == |dst|
      invariant forall k :: 0 <= k < |r| ==> r[k] == (if k < 32 * w then src[k] else dst[k])
    {
      r := r[..32 * w] + src[32 * w .. 32 * w + 32] + r[32 * w + 32..];
      w := w + 1;
    }
  }

  /** `m` with every entry below n set (open reserves the PaRAM sets of the DMA channels). */
  function ReserveBelow(m: Bits, n: nat): (r: Bits)
    ensures |r| == |m|
    ensures forall k :: 0 <= k < |m| ==> r[k] == (k < n || m[k])
  {
    seq(|m|, k requires 0 <= k < |m| => k < n || m[k])
  }

  method ReserveBelowLoop(m: Bits, n: nat) returns (r: Bits)
    requires n <= |m|
    ensures r == ReserveBelow(m, n)
  {
    r := m;
    var idx := 0;
    while idx < n
      invariant idx <= n && |r| == |m|
      invariant forall k :: 0 <= k < |m| ==> r[k] == (k < idx || m[k])
    {
      r := r[idx := true];
      idx := idx + 1;
    }
  }

  /** Which instance slots are claimed (pResMgrObjHandle != NULL). */
  function Claimed(s: seq<Instance>): (r: Bits)
    ensures |r| == |s|
    ensures forall k :: 0 <= k < |s| ==> r[k] == s[k].claimed
  {
    seq(|s|, k requires 0 <= k < |s| => s[k].claimed)
  }

  /** The slot search of open: the first unclaimed slot, or -1. */
  method FirstFreeSlot(s: seq<Instance>) returns (k: int)
    ensures k == FirstFrom(Claimed(s), 0, |s|, false)
  {
    ghost var c := Claimed(s);
    var idx := 0;
    while idx < |s|
      invariant idx <= |s|
      invariant FirstFrom(c, 0, |s|, false) == FirstFrom(c, idx, |s|, false)
    {
      if !s[idx].claimed {
        return idx;
      }
      idx := idx + 1;
    }
    k := -1;
  }

  // ---------------------------------------------------------------------
  // create / delete

  /** A state change with its status. */
  datatype Change = Change(rm: Rm, status: Status)

  /** The state before the first create: everything memzeroed, the object DELETED. */
  function Initial(): (r: Rm)
    ensures r.WF() && r.ctrl.state == Deleted && !r.ctrl.cfg.hasGlobalRegs
  {
    Rm(Controller(Deleted, 0, ZeroConfig(), Ranges(0, 0, 0, 0, 0, 0, 0), false),
       seq(MAX_RM_INSTANCES, k => ZeroInstance()),
       Tables(Memzeroed(), seq(MAX_DMA_CH, k => 0), seq(MAX_QDMA_CH, k => 0), seq(MAX_TCC, k => 0)))
  }

  /** The configuration create stores: the identity PaRAM map when none is given. */
  function CreatedConfig(cfg: Config): (r: Config)
    requires cfg.Valid()
    ensures r.Valid()
    ensures r == cfg.(paramMap := r.paramMap)
    ensures forall k :: 0 <= k < MAX_DMA_CH ==>
      r.paramMap[k] == (if !cfg.paramMapExists && k < cfg.numDma then k else cfg.paramMap[k])
  {
    if cfg.paramMapExists then cfg else cfg.(paramMap := IdentityBelow(cfg.paramMap, cfg.numDma))
  }

  /**
   * EDMA3_RM_create: only a DELETED object can be created; it becomes
   * CREATED with no instance open, every instance slot memzeroed, no
   * resource bound to any logical channel and no callback TCC recorded
   * for the controller's DMA and QDMA channels.
   */
  function Create(rm: Rm, cfg: Config): (r: Change)
    requires rm.WF() && cfg.Valid()
    ensures r.rm.WF()
    ensures r.status == Ok <==> rm.ctrl.state == Deleted
    ensures r.status != Ok ==> r == Change(rm, ObjNotDeleted)
  {
    if rm.ctrl.state != Deleted then Change(rm, ObjNotDeleted)
    else
      var c := CreatedConfig(cfg);
      Change(Rm(Controller(Created, 0, c, RangesOf(c), rm.ctrl.masterExists),
                seq(MAX_RM_INSTANCES, k => ZeroInstance()),
                rm.tables.(chBound := Unbound(),
                           dmaChTcc := FillBelow(rm.tables.dmaChTcc, cfg.numDma, MAX_TCC),
                           qdmaChTcc := FillBelow(rm.tables.qdmaChTcc, cfg.numQdma, MAX_TCC))),
             Ok)
  }

  /**
   * What a successful create sets up: the logical channel ranges are
   * DMA [0, numDma - 1], link [numDma, numDma + numParam - 1] and the
   * QDMA channels right after; without a channel map every DMA channel
   * maps to the PaRAM set of its own number; every logical channel is
   * unbound and every instance slot free.
   */
  lemma CreateSetsUp(rm: Rm, cfg: Config)
    requires rm.WF() && cfg.Valid() && rm.ctrl.state == Deleted
    ensures var r := Create(rm, cfg).rm;
      r.ctrl.state == Created && r.ctrl.numOpens == 0 &&
      r.ctrl.ranges.dmaMax == cfg.numDma - 1 && r.ctrl.ranges.linkMin == cfg.numDma &&
      r.ctrl.ranges.linkMax == cfg.numDma + cfg.numParam - 1 &&
      r.ctrl.ranges.qdmaMin == cfg.numDma + cfg.numParam &&
      r.ctrl.ranges.qdmaMax + 1 == cfg.numDma + cfg.numParam + cfg.numQdma &&
      (!cfg.paramMapExists ==> forall k :: 0 <= k < cfg.numDma ==> r.ctrl.cfg.paramMap[k] == k) &&
      (forall k :: 0 <= k < MAX_LOGICAL_CH ==> r.tables.chBound[k] == Binding(-1, MAX_TCC)) &&
      (forall k :: 0 <= k < cfg.numDma ==> r.tables.dmaChTcc[k] == MAX_TCC) &&
      (forall k :: 0 <= k < MAX_RM_INSTANCES ==> !r.slots[k].claimed)
  {
    RangesContiguous(CreatedConfig(cfg));
  }

  /**
   * EDMA3_RM_delete: refused with OBJ_NOT_CLOSED when nothing is open but
   * the object is neither CLOSED nor CREATED, and with INVALID_STATE while
   * an instance is open; otherwise the object is DELETED and its
   * configuration memzeroed.
   */
  function Delete(rm: Rm): (r: Change)
    requires rm.WF()
    ensures r.rm.WF() && r.rm.slots == rm.slots && r.rm.tables == rm.tables
    ensures r.status == Ok <==>
      rm.ctrl.numOpens == 0 && (rm.ctrl.state == Closed || rm.ctrl.state == Created)
    ensures r.status != Ok ==> r.rm == rm
    ensures r.status == Ok ==>
      r.rm.ctrl == rm.ctrl.(state := Deleted, cfg := ZeroConfig())
  {
    var c := rm.ctrl;
    if c.numOpens == 0 && c.state != Closed && c.state != Created then Change(rm, ObjNotClosed)
    else if c.numOpens != 0 then Change(rm, InvalidState)
    else Change(rm.(ctrl := c.(state := Deleted, cfg := ZeroConfig())), Ok)
  }

  /** Delete reports which of its two conditions failed. */
  lemma DeleteRefusals(rm: Rm)
    requires rm.WF()
    ensures Delete(rm).status == ObjNotClosed <==>
      rm.ctrl.numOpens == 0 && rm.ctrl.state != Closed && rm.ctrl.state != Created
    ensures Delete(rm).status == InvalidState <==> rm.ctrl.numOpens != 0
  {
  }

  /** Create, then delete with nothing opened, gives back a DELETED object. */
  lemma CreateDeleteRoundTrip(rm: Rm, cfg: Config)
    requires rm.WF() && cfg.Valid() && rm.ctrl.state == Deleted
    ensures var c := Create(rm, cfg);
      var d := Delete(c.rm);
      d.status == Ok && d.rm.ctrl.state == Deleted && d.rm.ctrl.cfg == ZeroConfig() &&
      Create(d.rm, cfg).status == Ok
  {
  }

  // ---------------------------------------------------------------------
  // open / close

  /** A bitmap with no entry set. */
  function NoBits(n: nat): (r: Bits)
    ensures |r| == n && forall k :: 0 <= k < n ==> !r[k]
  {
    seq(n, k => false)
  }

  /** Pools with nothing in them (a memzeroed instance configuration). */
  function NoPools(): (r: Pools)
    ensures r.Sized()
  {
    Pools(NoBits(MAX_DMA_CH), NoBits(MAX_QDMA_CH), NoBits(MAX_TCC), NoBits(MAX_PARAM_SETS))
  }

  /** The number of bitmap words open copies for n resources: n / 32, at least 1. */
  function OpenWords(n: nat): (r: nat)
    ensures 1 <= r && 32 * (r - 1) <= n && (n >= 32 ==> 32 * r <= n) && (n < 32 ==> r == 1)
  {
    if n / 32 == 0 then 1 else n / 32
  }

  /**
   * The available bitmaps after open: the first OpenWords(count) words of
   * each type are the owned ones, the single QDMA word is copied whole,
   * and later words keep their previous contents.
   */
  function OpenAvailable(avlbl: Pools, own: Pools, cfg: Config): (r: Pools)
    requires avlbl.Sized() && own.Sized() && cfg.Valid()
    ensures r.Sized() && r.qdma == own.qdma
  {
    Pools(CopyWords(avlbl.dma, own.dma, OpenWords(cfg.numDma)), own.qdma,
          CopyWords(avlbl.tcc, own.tcc, OpenWords(cfg.numTcc)),
          CopyWords(avlbl.param, own.param, OpenWords(cfg.numParam)))
  }

  /**
   * The available bitmaps after close: the first count / 32 words of each
   * type (none when fewer than 32) and the QDMA word are cleared.
   */
  function CloseAvailable(avlbl: Pools, cfg: Config): (r: Pools)
    requires avlbl.Sized() && cfg.Valid()
    ensures r.Sized()
  {
    Pools(CopyWords(avlbl.dma, NoBits(MAX_DMA_CH), cfg.numDma / 32), NoBits(MAX_QDMA_CH),
          CopyWords(avlbl.tcc, NoBits(MAX_TCC), cfg.numTcc / 32),
          CopyWords(avlbl.param, NoBits(MAX_PARAM_SETS), cfg.numParam / 32))
  }

  /** The instance a successful open leaves in its slot. */
  function OpenedInstance(i: Instance, cfg: Config, regionId: nat, isMaster: bool, own: Pools, resvd: Pools): (r: Instance)
    requires i.Sized() && cfg.Valid() && own.Sized() && resvd.Sized()
    ensures r.Sized() && r.claimed && r.isMaster == isMaster && r.own == own
  {
    i.(claimed := true, regionId := regionId, isMaster := isMaster, own := own,
       resvd := resvd.(param := ReserveBelow(resvd.param, cfg.numDma)),
       avlbl := OpenAvailable(i.avlbl, own, cfg),
       paramInitRequired := true, regModificationRequired := true)
  }

  /**
   * The checks open makes before it looks for a slot, in order: a
   * semaphore and a region id below numRegions; an object in a state that
   * fits its open count; fewer than EDMA3_MAX_RM_INSTANCES opens; no
   * second master.
   */
  function OpenChecks(c: Controller, hasSem: bool, regionId: nat, isMaster: bool): (r: Status)
    ensures r == Ok <==>
      hasSem && regionId < c.cfg.numRegions && c.numOpens < MAX_RM_INSTANCES &&
      (if c.numOpens == 0 then c.state == Created || c.state == Closed else c.state == Opened) &&
      !(c.masterExists && isMaster)
    ensures r in {Ok, InvalidParam, InvalidState, MaxRmInstOpened, MasterAlreadyExists}
  {
    if !hasSem || regionId >= c.cfg.numRegions then InvalidParam
    else if c.numOpens == 0 && c.state != Created && c.state != Closed then InvalidState
    else if 0 < c.numOpens < MAX_RM_INSTANCES && c.state != Opened then InvalidState
    else if c.numOpens >= MAX_RM_INSTANCES then MaxRmInstOpened
    else if c.masterExists && isMaster then MasterAlreadyExists
    else Ok
  }

  /** The result of open: the new state, the status and the handle (-1 for NULL). */
  datatype Opening = Opening(rm: Rm, status: Status, handle: int)

  /**
   * EDMA3_RM_open with the instance configuration `own` / `resvd`
   * (`hasSem` says whether a semaphore handle was passed). Checks, in
   * order: semaphore and region id; the object state against the open
   * count; the open count against EDMA3_MAX_RM_INSTANCES; a second master;
   * a free instance slot. Without a register block the slot found stays
   * claimed but the call fails with INVALID_PARAM.
   */
  function Open(rm: Rm, hasSem: bool, regionId: nat, isMaster: bool, own: Pools, resvd: Pools): (r: Opening)
    requires rm.WF() && own.Sized() && resvd.Sized()
    ensures r.rm.WF() && r.rm.tables == rm.tables
    ensures r.status == Ok <==> 0 <= r.handle
    ensures r.status != Ok ==> r.handle == -1 && r.rm.ctrl == rm.ctrl
    ensures r.status == Ok ==>
      rm.ctrl.cfg.hasGlobalRegs && r.handle < MAX_RM_INSTANCES && !rm.slots[r.handle].claimed &&
      r.rm.slots == rm.slots[r.handle := OpenedInstance(rm.slots[r.handle], rm.ctrl.cfg, regionId, isMaster, own, resvd)] &&
      r.rm.ctrl == rm.ctrl.(state := Opened, numOpens := rm.ctrl.numOpens + 1,
                            masterExists := rm.ctrl.masterExists || isMaster)
  {
    var c := rm.ctrl;
    var checked := OpenChecks(c, hasSem, regionId, isMaster);
    if checked != Ok then Opening(rm, checked, -1)
    else
      var k := FirstFrom(Claimed(rm.slots), 0, MAX_RM_INSTANCES, false);
      if k < 0 then Opening(rm, MaxRmInstOpened, -1)
      else if !c.cfg.hasGlobalRegs then
        Opening(rm.WithSlot(k, rm.slots[k].(claimed := true, regionId := regionId, isMaster := isMaster,
                                             own := NoPools(), resvd := NoPools())),
                InvalidParam, -1)
      else
        Opening(Rm(c.(state := Opened, numOpens := c.numOpens + 1, masterExists := c.masterExists || isMaster),
                   rm.slots[k := OpenedInstance(rm.slots[k], c.cfg, regionId, isMaster, own, resvd)],
                   rm.tables),
                Ok, k)
  }

  /**
   * A successful open takes the lowest free slot; its available resources
   * are its owned ones in every whole bitmap word open copies (all of
   * them when the count is a multiple of 32 or at most 32), it reserves
   * the PaRAM sets of the DMA channels, and both Ioctl options are on.
   */
  lemma OpenSucceeds(rm: Rm, hasSem: bool, regionId: nat, isMaster: bool, own: Pools, resvd: Pools)
    requires rm.WF() && own.Sized() && resvd.Sized()
    ensures var r := Open(rm, hasSem, regionId, isMaster, own, resvd);
      r.status == Ok ==>
        var i := r.rm.slots[r.handle];
        var cfg := rm.ctrl.cfg;
        (forall k :: 0 <= k < r.handle ==> rm.slots[k].claimed) &&
        i.regionId == regionId && regionId < cfg.numRegions &&
        i.avlbl.qdma == own.qdma &&
        (forall k :: 0 <= k < 32 * OpenWords(cfg.numDma) ==> i.avlbl.dma[k] == own.dma[k]) &&
        (forall k :: 0 <= k < 32 * OpenWords(cfg.numTcc) ==> i.avlbl.tcc[k] == own.tcc[k]) &&
        (forall k :: 0 <= k < 32 * OpenWords(cfg.numParam) ==> i.avlbl.param[k] == own.param[k]) &&
        (forall k :: 0 <= k < cfg.numDma ==> i.resvd.param[k]) &&
        (forall k :: cfg.numDma <= k < MAX_PARAM_SETS ==> i.resvd.param[k] == resvd.param[k]) &&
        i.paramInitRequired && i.regModificationRequired
  {
  }

  /** When a count is at most 32 or a multiple of 32, open makes every owned id of it available. */
  lemma OpenWordsCover(n: nat)
    requires n <= 32 || n % 32 == 0
    ensures n <= 32 * OpenWords(n)
  {
  }

  /**
   * EDMA3_RM_close with `reset` as the channel table it leaves when the
   * last instance closes. The handle must be a claimed slot and the object
   * OPENED; the instance's available resources are cleared, the master
   * flag is dropped with a master instance, the open count goes down and
   * at zero the object is CLOSED.
   */
  function CloseWith(rm: Rm, h: int, reset: seq<Binding>): (r: Change)
    requires rm.WF() && -1 <= h < MAX_RM_INSTANCES && |reset| == MAX_LOGICAL_CH
    ensures r.rm.WF()
    ensures r.status == Ok <==> h >= 0 && rm.slots[h].claimed && rm.ctrl.state == Opened
    ensures r.status != Ok ==> r.rm == rm
    ensures r.status == Ok ==>
      var n := Wrap32(rm.ctrl.numOpens - 1);
      r.rm.ctrl == rm.ctrl.(numOpens := n, masterExists := rm.ctrl.masterExists && !rm.slots[h].isMaster,
                            state := if n == 0 then Closed else Opened) &&
      r.rm.tables == (if n == 0 then rm.tables.(chBound := reset) else rm.tables) &&
      !r.rm.slots[h].claimed && !r.rm.slots[h].isMaster &&
      (forall k :: 0 <= k < MAX_RM_INSTANCES && k != h ==> r.rm.slots[k] == rm.slots[k])
  {
    if h < 0 || !rm.slots[h].claimed then Change(rm, InvalidParam)
    else if rm.ctrl.state != Opened then Change(rm, ObjNotOpened)
    else
      var c := rm.ctrl;
      var i := rm.slots[h];
      var n := Wrap32(c.numOpens - 1);
      Change(Rm(c.(numOpens := n, masterExists := c.masterExists && !i.isMaster,
                   state := if n == 0 then Closed else Opened),
                rm.slots[h := i.(claimed := false, regionId := 0, isMaster := false,
                                 avlbl := CloseAvailable(i.avlbl, c.cfg))],
                if n == 0 then rm.tables.(chBound := reset) else rm.tables),
             Ok)
  }

  /** close as written: the last close memzeroes the channel table. */
  function CloseAsWritten(rm: Rm, h: int): (r: Change)
    requires rm.WF() && -1 <= h < MAX_RM_INSTANCES
    ensures r.status == Ok && r.rm.ctrl.state == Closed ==> r.rm.tables.chBound == Memzeroed()
  {
    CloseWith(rm, h, Memzeroed())
  }

  /** With every link channel bound, a link-channel request never succeeds. */
  lemma NoFreeLinkRefused(rm: Rm, h: int, resId: nat)
    requires rm.WF() && 0 <= h < MAX_RM_INSTANCES && rm.Live(h)
    requires forall k :: rm.ctrl.ranges.linkMin <= k <= rm.ctrl.ranges.linkMax ==>
      rm.tables.chBound[k].paRAMId != -1
    ensures AllocParamChannel(rm, h, resId).status != Ok
  {
    RangesContiguous(rm.ctrl.cfg);
    var any := resId == PARAM_ANY || resId == RES_ANY;
    var a := AllocResource(rm, h, ParamSet, if any then RES_ANY else resId);
    if a.status == Ok {
      var links := FreeLinks(a.rm.tables.chBound);
      assert forall k :: rm.ctrl.ranges.linkMin <= k <= rm.ctrl.ranges.linkMax ==> !links[k];
    }
  }

  /**
   * After the last instance closes as written, every logical channel is
   * bound to PaRAM set 0, so none counts as a free link channel: once the
   * object is opened again (open does not touch the table) no PaRAM set can
   * ever be allocated as a link channel.
   */
  lemma CloseAsWrittenBlocksLinks(rm: Rm, h: int, after: Rm, h2: int, resId: nat)
    requires rm.WF() && -1 <= h < MAX_RM_INSTANCES
    requires CloseAsWritten(rm, h).status == Ok && CloseAsWritten(rm, h).rm.ctrl.state == Closed
    requires after.WF() && 0 <= h2 < MAX_RM_INSTANCES && after.Live(h2)
    requires after.tables.chBound == CloseAsWritten(rm, h).rm.tables.chBound
    ensures AllocParamChannel(after, h2, resId).status != Ok
  {
    RangesContiguous(after.ctrl.cfg);
    NoFreeLinkRefused(after, h2, resId);
  }

  /** The corrected close: the last close leaves every logical channel unbound, as create does. */
  function Close(rm: Rm, h: int): (r: Change)
    requires rm.WF() && -1 <= h < MAX_RM_INSTANCES
    ensures r.status == Ok && r.rm.ctrl.state == Closed ==> r.rm.tables.chBound == Unbound()
  {
    CloseWith(rm, h, Unbound())
  }

  /**
   * After the last instance closes, a reopened object hands out link
   * channels again: whenever the PaRAM set itself can be allocated, the
   * link-channel request succeeds and takes the first link channel.
   */
  lemma CloseKeepsLinksFree(rm: Rm, h: int, after: Rm, h2: int, resId: nat)
    requires rm.WF() && -1 <= h < MAX_RM_INSTANCES
    requires Close(rm, h).status == Ok && Close(rm, h).rm.ctrl.state == Closed
    requires after.WF() && 0 <= h2 < MAX_RM_INSTANCES && after.Live(h2)
    requires after.tables.chBound == Close(rm, h).rm.tables.chBound
    requires resId == PARAM_ANY || resId == RES_ANY || resId < after.ctrl.ranges.numParamSets
    ensures var any := resId == PARAM_ANY || resId == RES_ANY;
      AllocResource(after, h2, ParamSet, if any then RES_ANY else resId).status == Ok ==>
        var r := AllocParamChannel(after, h2, resId);
        r.status == Ok && r.rm.tables.chBound[after.ctrl.ranges.linkMin].paRAMId == r.id
  {
    RangesContiguous(after.ctrl.cfg);
    var any := resId == PARAM_ANY || resId == RES_ANY;
    var a := AllocResource(after, h2, ParamSet, if any then RES_ANY else resId);
    if a.status == Ok {
      var links := FreeLinks(a.rm.tables.chBound);
      assert links[after.ctrl.ranges.linkMin];
    }
  }

  // ---------------------------------------------------------------------
  // The open count and the master

  /** The number of claimed instance slots. */
  function ClaimedCount(s: seq<Instance>): (r: nat)
    ensures r <= |s|
  {
    if |s| == 0 then 0 else (if s[0].claimed then 1 else 0) + ClaimedCount(s[1..])
  }

  /** Replacing one slot changes the count by that slot's claimed flag only. */
  lemma {:induction false} ClaimedCountUpdate(s: seq<Instance>, k: nat, x: Instance)
    requires k < |s|
    ensures ClaimedCount(s[k := x]) + (if s[k].claimed then 1 else 0) ==
            ClaimedCount(s) + (if x.claimed then 1 else 0)
  {
    if k == 0 {
      assert s[k := x][1..] == s[1..];
    } else {
      assert s[k := x][1..] == s[1..][k - 1 := x];
      ClaimedCountUpdate(s[1..], k - 1, x);
    }
  }

  /** No slot is claimed exactly when the count is zero. */
  lemma {:induction false} ClaimedCountZero(s: seq<Instance>)
    ensures ClaimedCount(s) == 0 <==> forall k :: 0 <= k < |s| ==> !s[k].claimed
  {
    if |s| > 0 {
      ClaimedCountZero(s[1..]);
      assert forall k :: 1 <= k < |s| ==> s[k] == s[1..][k - 1];
    }
  }

  /** Every slot is claimed exactly when the count is the number of slots. */
  lemma {:induction false} ClaimedCountFull(s: seq<Instance>)
    ensures ClaimedCount(s) == |s| <==> forall k :: 0 <= k < |s| ==> s[k].claimed
  {
    if |s| > 0 {
      ClaimedCountFull(s[1..]);
      assert forall k :: 1 <= k < |s| ==> s[k] == s[1..][k - 1];
    }
  }

  /** Slots with the same claimed flags have the same count. */
  lemma {:induction false} ClaimedCountSame(s: seq<Instance>, t: seq<Instance>)
    requires |s| == |t| && forall k :: 0 <= k < |s| ==> s[k].claimed == t[k].claimed
    ensures ClaimedCount(s) == ClaimedCount(t)
  {
    if |s| > 0 {
      assert forall k :: 0 <= k < |s| - 1 ==> s[1..][k] == s[k + 1] && t[1..][k] == t[k + 1];
      ClaimedCountSame(s[1..], t[1..]);
    }
  }

  /** Some claimed slot belongs to a master instance. */
  ghost predicate MasterClaimed(s: seq<Instance>)
  {
    exists k :: 0 <= k < |s| && s[k].claimed && s[k].isMaster
  }

  /** At most one claimed slot belongs to a master instance. */
  ghost predicate OneMaster(s: seq<Instance>)
  {
    forall j, k ::
      (0 <= j < |s| && 0 <= k < |s| && s[j].claimed && s[j].isMaster && s[k].claimed && s[k].isMaster)
      ==> j == k
  }

  /**
   * The open count is the number of claimed slots, the master flag says
   * whether a claimed master exists, and there is at most one.
   */
  ghost predicate SlotsInv(s: seq<Instance>, numOpens: nat, masterExists: bool)
  {
    numOpens == ClaimedCount(s) && (masterExists <==> MasterClaimed(s)) && OneMaster(s)
  }

  /** Claiming a free slot adds one to the count, and a master only when none is claimed. */
  lemma ClaimSlot(s: seq<Instance>, k: nat, x: Instance, masterExists: bool)
    requires k < |s| && !s[k].claimed && x.claimed
    requires SlotsInv(s, ClaimedCount(s), masterExists) && (x.isMaster ==> !masterExists)
    ensures SlotsInv(s[k := x], ClaimedCount(s) + 1, masterExists || x.isMaster)
  {
    var s2 := s[k := x];
    ClaimedCountUpdate(s, k, x);
    if x.isMaster {
      assert s2[k].claimed && s2[k].isMaster;
    }
    if MasterClaimed(s2) && !x.isMaster {
      var m :| 0 <= m < |s2| && s2[m].claimed && s2[m].isMaster;
      assert s[m] == s2[m];
    }
    if masterExists {
      var m :| 0 <= m < |s| && s[m].claimed && s[m].isMaster;
      assert s2[m] == s[m];
    }
  }

  /** Releasing a claimed slot takes one off the count, and the master with a master slot. */
  lemma ReleaseSlot(s: seq<Instance>, h: nat, x: Instance, masterExists: bool)
    requires h < |s| && s[h].claimed && !x.claimed
    requires SlotsInv(s, ClaimedCount(s), masterExists)
    ensures ClaimedCount(s) >= 1
    ensures SlotsInv(s[h := x], ClaimedCount(s) - 1, masterExists && !s[h].isMaster)
  {
    var s2 := s[h := x];
    ClaimedCountUpdate(s, h, x);
    if MasterClaimed(s2) {
      var m :| 0 <= m < |s2| && s2[m].claimed && s2[m].isMaster;
      assert m != h && s[m] == s2[m];
    }
    if !s[h].isMaster && masterExists {
      var m :| 0 <= m < |s| && s[m].claimed && s[m].isMaster;
      assert m != h && s2[m] == s[m];
    }
  }

  /** Slots with the same claimed and master flags satisfy the same bookkeeping. */
  lemma SameFlags(s: seq<Instance>, s2: seq<Instance>, numOpens: nat, masterExists: bool)
    requires |s2| == |s| && SlotsInv(s, numOpens, masterExists)
    requires forall k :: 0 <= k < |s| ==> s2[k].claimed == s[k].claimed && s2[k].isMaster == s[k].isMaster
    ensures SlotsInv(s2, numOpens, masterExists)
  {
    ClaimedCountSame(s, s2);
    if MasterClaimed(s) {
      var m :| 0 <= m < |s| && s[m].claimed && s[m].isMaster;
      assert s2[m].claimed && s2[m].isMaster;
    }
    if MasterClaimed(s2) {
      var m :| 0 <= m < |s2| && s2[m].claimed && s2[m].isMaster;
      assert s[m].claimed && s[m].isMaster;
    }
  }

  /**
   * The bookkeeping open and close keep: with a register block the slots
   * satisfy SlotsInv and the object is OPENED exactly while something is
   * open; without one nothing is open and there is no master.
   */
  ghost predicate Inv(rm: Rm)
  {
    rm.WF() &&
    (rm.ctrl.cfg.hasGlobalRegs ==>
      SlotsInv(rm.slots, rm.ctrl.numOpens, rm.ctrl.masterExists) &&
      (rm.ctrl.state == Opened <==> rm.ctrl.numOpens > 0)) &&
    (!rm.ctrl.cfg.hasGlobalRegs ==> rm.ctrl.numOpens == 0 && !rm.ctrl.masterExists)
  }

  lemma InitialInv()
    ensures Inv(Initial())
  {
  }

  lemma CreateKeepsInv(rm: Rm, cfg: Config)
    requires Inv(rm) && cfg.Valid()
    ensures Inv(Create(rm, cfg).rm)
  {
    var r := Create(rm, cfg).rm;
    if rm.ctrl.state == Deleted {
      ClaimedCountZero(r.slots);
      if rm.ctrl.cfg.hasGlobalRegs {
        ClaimedCountZero(rm.slots);
      }
    }
  }

  lemma DeleteKeepsInv(rm: Rm)
    requires Inv(rm)
    ensures Inv(Delete(rm).rm)
  {
    if Delete(rm).status == Ok && rm.ctrl.cfg.hasGlobalRegs {
      ClaimedCountZero(rm.slots);
    }
  }

  lemma OpenKeepsInv(rm: Rm, hasSem: bool, regionId: nat, isMaster: bool, own: Pools, resvd: Pools)
    requires Inv(rm) && own.Sized() && resvd.Sized()
    ensures Inv(Open(rm, hasSem, regionId, isMaster, own, resvd).rm)
  {
    var o := Open(rm, hasSem, regionId, isMaster, own, resvd);
    if o.status == Ok {
      ClaimSlot(rm.slots, o.handle, o.rm.slots[o.handle], rm.ctrl.masterExists);
    }
  }

  lemma CloseKeepsInv(rm: Rm, h: int)
    requires Inv(rm) && -1 <= h < MAX_RM_INSTANCES
    ensures Inv(Close(rm, h).rm)
  {
    var c := Close(rm, h);
    if c.status == Ok {
      ReleaseSlot(rm.slots, h, c.rm.slots[h], rm.ctrl.masterExists);
      assert c.rm.slots == rm.slots[h := c.rm.slots[h]];
    }
  }

  /**
   * Any change that leaves the controller and every slot's claimed and
   * master flags alone keeps the invariant (allocation, free, Ioctl).
   */
  lemma FlagsFrameKeepsInv(rm: Rm, rm2: Rm)
    requires Inv(rm) && rm2.WF() && rm2.ctrl == rm.ctrl
    requires forall k :: 0 <= k < MAX_RM_INSTANCES ==>
      rm2.slots[k].claimed == rm.slots[k].claimed && rm2.slots[k].isMaster == rm.slots[k].isMaster
    ensures Inv(rm2)
  {
    if rm.ctrl.cfg.hasGlobalRegs {
      SameFlags(rm.slots, rm2.slots, rm.ctrl.numOpens, rm.ctrl.masterExists);
    }
  }

  lemma AllocResourceKeepsInv(rm: Rm, h: int, t: ResType, resId: nat)
    requires Inv(rm) && -1 <= h < MAX_RM_INSTANCES
    ensures Inv(AllocResource(rm, h, t, resId).rm)
  {
    FlagsFrameKeepsInv(rm, AllocResource(rm, h, t, resId).rm);
  }

  lemma FreeResourceKeepsInv(rm: Rm, h: int, t: ResType, resId: nat)
    requires Inv(rm) && -1 <= h < MAX_RM_INSTANCES
    ensures Inv(FreeResource(rm, h, t, resId).rm)
  {
    FlagsFrameKeepsInv(rm, FreeResource(rm, h, t, resId).rm);
  }

  /** While a master instance is open, a second master is refused. */
  lemma SecondMasterRefused(rm: Rm, m: nat, hasSem: bool, regionId: nat, own: Pools, resvd: Pools)
    requires Inv(rm) && own.Sized() && resvd.Sized() && rm.ctrl.cfg.hasGlobalRegs
    requires m < MAX_RM_INSTANCES && rm.slots[m].claimed && rm.slots[m].isMaster
    ensures Open(rm, hasSem, regionId, true, own, resvd).status != Ok
  {
  }

  /**
   * With a register block, open runs out of instances only through its
   * open-count check: below EDMA3_MAX_RM_INSTANCES opens a free slot is
   * always found.
   */
  lemma OpenFindsSlot(rm: Rm, hasSem: bool, regionId: nat, isMaster: bool, own: Pools, resvd: Pools)
    requires Inv(rm) && own.Sized() && resvd.Sized() && rm.ctrl.cfg.hasGlobalRegs
    ensures Open(rm, hasSem, regionId, isMaster, own, resvd).status == MaxRmInstOpened ==>
      rm.ctrl.numOpens == MAX_RM_INSTANCES
  {
    if rm.ctrl.numOpens < MAX_RM_INSTANCES {
      ClaimedCountFull(rm.slots);
      var j :| 0 <= j < MAX_RM_INSTANCES && !rm.slots[j].claimed;
      assert !Claimed(rm.slots)[j];
    }
  }

  /**
   * Opening an instance and closing it again gives back the open count
   * and the master flag, and frees the slot.
   */
  lemma OpenCloseRoundTrip(rm: Rm, hasSem: bool, regionId: nat, isMaster: bool, own: Pools, resvd: Pools)
    requires Inv(rm) && own.Sized() && resvd.Sized()
    ensures var o := Open(rm, hasSem, regionId, isMaster, own, resvd);
      o.status == Ok ==>
        var c := Close(o.rm, o.handle);
        c.status == Ok && c.rm.ctrl.numOpens == rm.ctrl.numOpens &&
        c.rm.ctrl.masterExists == rm.ctrl.masterExists && !c.rm.slots[o.handle].claimed &&
        (c.rm.ctrl.state == Closed <==> rm.ctrl.numOpens == 0)
  {
  }

  // ---------------------------------------------------------------------
  // Ioctl

  const IOCTL_SET_PARAM_CLEAR_OPTION: int := 1
  const IOCTL_GET_PARAM_CLEAR_OPTION: int := 2
  const IOCTL_SET_GBL_REG_MODIFY_OPTION: int := 3
  const IOCTL_GET_GBL_REG_MODIFY_OPTION: int := 4
  const IOCTL_MAX_IOCTL: int := 5

  /** The result of Ioctl: the new state, the status and the value a GET writes back. */
  datatype IoctlResult = IoctlResult(rm: Rm, status: Status, value: nat)

  /**
   * EDMA3_RM_Ioctl. `arg` is the command argument: the option value for a
   * SET (0 or 1), the result address for a GET (0 = NULL). The handle is
   * only checked for NULL.
   */
  function Ioctl(rm: Rm, h: int, cmd: int, arg: int): (r: IoctlResult)
    requires rm.WF() && -1 <= h < MAX_RM_INSTANCES
    ensures r.rm.WF() && r.rm.ctrl == rm.ctrl && r.rm.tables == rm.tables
    ensures r.status == Ok <==>
      h >= 0 && 0 < cmd < IOCTL_MAX_IOCTL &&
      (if cmd == IOCTL_SET_PARAM_CLEAR_OPTION || cmd == IOCTL_SET_GBL_REG_MODIFY_OPTION
       then arg == 0 || arg == 1 else arg != 0)
    ensures r.status != Ok ==> r.rm == rm
    ensures r.status == Ok ==>
      forall k :: 0 <= k < MAX_RM_INSTANCES ==>
        r.rm.slots[k] == (if k == h then rm.slots[h].(paramInitRequired := r.rm.slots[h].paramInitRequired,
                                                      regModificationRequired := r.rm.slots[h].regModificationRequired)
                          else rm.slots[k])
  {
    if h < 0 || cmd <= 0 || cmd >= IOCTL_MAX_IOCTL then IoctlResult(rm, InvalidParam, 0)
    else
      var i := rm.slots[h];
      if cmd == IOCTL_SET_PARAM_CLEAR_OPTION then
        if arg != 0 && arg != 1 then IoctlResult(rm, InvalidParam, 0)
        else IoctlResult(rm.WithSlot(h, i.(paramInitRequired := arg == 1)), Ok, 0)
      else if cmd == IOCTL_GET_PARAM_CLEAR_OPTION then
        if arg == 0 then IoctlResult(rm, InvalidParam, 0)
        else IoctlResult(rm, Ok, if i.paramInitRequired then 1 else 0)
      else if cmd == IOCTL_SET_GBL_REG_MODIFY_OPTION then
        if arg != 0 && arg != 1 then IoctlResult(rm, InvalidParam, 0)
        else IoctlResult(rm.WithSlot(h, i.(regModificationRequired := arg == 1)), Ok, 0)
      else
        if arg == 0 then IoctlResult(rm, InvalidParam, 0)
        else IoctlResult(rm, Ok, if i.regModificationRequired then 1 else 0)
  }

  /**
   * Setting an option and reading it back returns the value set, and the
   * other option is unchanged.
   */
  lemma IoctlSetGet(rm: Rm, h: int, v: int, ptr: int)
    requires rm.WF() && 0 <= h < MAX_RM_INSTANCES && (v == 0 || v == 1) && ptr != 0
    ensures var s := Ioctl(rm, h, IOCTL_SET_PARAM_CLEAR_OPTION, v);
      s.status == Ok && Ioctl(s.rm, h, IOCTL_GET_PARAM_CLEAR_OPTION, ptr).value == v &&
      Ioctl(s.rm, h, IOCTL_GET_GBL_REG_MODIFY_OPTION, ptr) == Ioctl(rm, h, IOCTL_GET_GBL_REG_MODIFY_OPTION, ptr).(rm := s.rm)
    ensures var s := Ioctl(rm, h, IOCTL_SET_GBL_REG_MODIFY_OPTION, v);
      s.status == Ok && Ioctl(s.rm, h, IOCTL_GET_GBL_REG_MODIFY_OPTION, ptr).value == v &&
      Ioctl(s.rm, h, IOCTL_GET_PARAM_CLEAR_OPTION, ptr) == Ioctl(rm, h, IOCTL_GET_PARAM_CLEAR_OPTION, ptr).(rm := s.rm)
  {
  }

  /** Ioctl keeps the open count and master invariant. */
  lemma IoctlKeepsInv(rm: Rm, h: int, cmd: int, arg: int)
    requires Inv(rm) && -1 <= h < MAX_RM_INSTANCES
    ensures Inv(Ioctl(rm, h, cmd, arg).rm)
  {
    FlagsFrameKeepsInv(rm, Ioctl(rm, h, cmd, arg).rm);
  }

  // ---------------------------------------------------------------------
  // edma3MemCpy

  /** edma3MemCpy: copies len / 4 words from `src` to `dst`; len must be a multiple of 4. */
  method MemCpy(dst: array<bv32>, src: array<bv32>, len: nat)
    requires len % 4 == 0 && len / 4 <= dst.Length && len / 4 <= src.Length
    modifies dst
    ensures dst[..len / 4] == old(src[..len / 4])
    ensures dst[len / 4..] == old(dst[len / 4..])
  {
    ghost var s := src[..len / 4];
    ghost var d := dst[len / 4..];
    var i := 0;
    while i < len / 4
      invariant i <= len / 4
      invariant forall k :: 0 <= k < i ==> dst[k] == s[k]
      invariant forall k :: i <= k < len / 4 ==> src[k] == s[k]
      invariant forall k :: len / 4 <= k < dst.Length ==> dst[k] == d[k - len / 4]
    {
      dst[i] := src[i];
      i := i + 1;
    }
    assert dst[..len / 4] == s;
    assert dst[len / 4..] == d;
  }
}
