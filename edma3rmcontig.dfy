/*
 * Contiguous allocation in the EDMA3 resource manager:
 * allocContiguousResource (a given run of ids, or the first run of n
 * usable ids found by allocAnyContigRes), gblChngAllocContigRes which
 * books the run found, and freeContiguousResource.
 */
module Edma3RmContig {

  import opened Word32
  import opened Bitmap
  import opened Edma3Rm

  /** `m` with the entries [a, b) cleared. */
  function Cleared(m: Bits, a: nat, b: nat): (r: Bits)
    ensures |r| == |m|
    ensures forall k :: 0 <= k < |m| ==> r[k] == (if a <= k < b then false else m[k])
  {
    seq(|m|, k requires 0 <= k < |m| => if a <= k < b then false else m[k])
  }

  /** `m` with the entries [a, b) set. */
  function Filled(m: Bits, a: nat, b: nat): (r: Bits)
    ensures |r| == |m|
    ensures forall k :: 0 <= k < |m| ==> r[k] == (if a <= k < b then true else m[k])
  {
    seq(|m|, k requires 0 <= k < |m| => if a <= k < b then true else m[k])
  }

  /** Setting a run that was just cleared, or clearing one just set, restores the bitmap. */
  lemma FilledCleared(m: Bits, a: nat, b: nat)
    requires forall k :: a <= k < b && k < |m| ==> m[k]
    ensures Filled(Cleared(m, a, b), a, b) == m
  {
  }

  lemma ClearedFilled(m: Bits, a: nat, b: nat)
    requires forall k :: a <= k < b && k < |m| ==> !m[k]
    ensures Cleared(Filled(m, a, b), a, b) == m
  {
  }

  // ---------------------------------------------------------------------
  // A given run of ids

  /** The ids that are owned and available. */
  function Claimable(own: Bits, avlbl: Bits): (r: Bits)
    requires |own| == |avlbl|
    ensures |r| == |own|
    ensures forall k :: 0 <= k < |r| ==> r[k] == (own[k] && avlbl[k])
  {
    seq(|own|, k requires 0 <= k < |own| => own[k] && avlbl[k])
  }

  /**
   * The loop of allocContiguousResource over [first, last): each id must
   * be owned, then available; it is booked at once, and the loop stops at
   * the first id that fails, leaving the ids before it booked.
   */
  function ClaimRange(own: Bits, avlbl: Bits, first: nat, last: nat): (r: (Status, Bits))
    requires |own| == |avlbl| && first <= last <= |own|
    ensures |r.1| == |avlbl|
  {
    var e := FirstFrom(Claimable(own, avlbl), first, last, false);
    if e < 0 then (Ok, Cleared(avlbl, first, last))
    else if !own[e] then (ResNotOwned, Cleared(avlbl, first, e))
    else (SpecifiedResNotAvailable, Cleared(avlbl, first, e))
  }

  /**
   * The run is booked whole exactly when every id in it is owned and
   * available; otherwise the loop stops at the first id that is not,
   * with the ids before it booked.
   */
  lemma ClaimRangeBooks(own: Bits, avlbl: Bits, first: nat, last: nat)
    requires |own| == |avlbl| && first <= last <= |own|
    ensures var r := ClaimRange(own, avlbl, first, last);
      (r.0 == Ok <==> forall k :: first <= k < last ==> own[k] && avlbl[k]) &&
      (r.0 == Ok ==> r.1 == Cleared(avlbl, first, last)) &&
      (r.0 != Ok ==>
        (r.0 == ResNotOwned || r.0 == SpecifiedResNotAvailable) &&
        exists e :: first <= e < last && !(own[e] && avlbl[e]) &&
          (forall k :: first <= k < e ==> own[k] && avlbl[k]) && r.1 == Cleared(avlbl, first, e))
  {
    var e := FirstFrom(Claimable(own, avlbl), first, last, false);
    if e >= 0 {
      assert !(own[e] && avlbl[e]);
    }
  }

  /** The loop itself, booking one id per round. */
  method ClaimRangeLoop(own: Bits, avlbl: Bits, first: nat, last: nat) returns (status: Status, m: Bits)
    requires |own| == |avlbl| && first <= last <= |own|
    ensures var r := ClaimRange(own, avlbl, first, last); status == r.0 && m == r.1
  {
    ghost var c := Claimable(own, avlbl);
    m := avlbl;
    status := Ok;
    var idx := first;
    while idx < last
      invariant first <= idx <= last
      invariant FirstFrom(c, first, last, false) == FirstFrom(c, idx, last, false)
      invariant m == Cleared(avlbl, first, idx)
    {
      if !own[idx] {
        status := ResNotOwned;
        return;
      }
      if !m[idx] {
        status := SpecifiedResNotAvailable;
        return;
      }
      m := m[idx := false];
      idx := idx + 1;
    }
  }

  /** The ids that are owned and allocated (not available). */
  function Freeable(own: Bits, avlbl: Bits): (r: Bits)
    requires |own| == |avlbl|
    ensures |r| == |own|
    ensures forall k :: 0 <= k < |r| ==> r[k] == (own[k] && !avlbl[k])
  {
    seq(|own|, k requires 0 <= k < |own| => own[k] && !avlbl[k])
  }

  /**
   * The loop of freeContiguousResource over [first, last]: freeResource on
   * each id in turn, stopping at the first failure. Returns the status,
   * the id the descriptor is left at, and the new availability bitmap.
   */
  function FreeRange(own: Bits, avlbl: Bits, first: nat, last: nat): (r: (Status, nat, Bits))
    requires |own| == |avlbl| && first <= last < |own|
    ensures |r.2| == |avlbl|
  {
    var e := FirstFrom(Freeable(own, avlbl), first, last + 1, false);
    if e < 0 then (Ok, last, Filled(avlbl, first, last + 1))
    else if !own[e] then (ResNotOwned, e, Filled(avlbl, first, e))
    else (ResAlreadyFree, e, Filled(avlbl, first, e))
  }

  /**
   * The run is freed whole exactly when every id in it is owned and
   * allocated; otherwise the loop stops at the first id that is not,
   * reports it, and leaves the ids before it freed.
   */
  lemma FreeRangeFrees(own: Bits, avlbl: Bits, first: nat, last: nat)
    requires |own| == |avlbl| && first <= last < |own|
    ensures var r := FreeRange(own, avlbl, first, last);
      (r.0 == Ok <==> forall k :: first <= k <= last ==> own[k] && !avlbl[k]) &&
      (r.0 == Ok ==> r.1 == last && r.2 == Filled(avlbl, first, last + 1)) &&
      (r.0 != Ok ==>
        (r.0 == ResNotOwned || r.0 == ResAlreadyFree) && first <= r.1 <= last &&
        !(own[r.1] && !avlbl[r.1]) &&
        (forall k :: first <= k < r.1 ==> own[k] && !avlbl[k]) && r.2 == Filled(avlbl, first, r.1))
  {
  }

  /** The loop itself: freeResource on one id per round. */
  method FreeRangeLoop(own: Bits, avlbl: Bits, first: nat, last: nat) returns (status: Status, at: nat, m: Bits)
    requires |own| == |avlbl| && first <= last < |own|
    ensures var r := FreeRange(own, avlbl, first, last); status == r.0 && at == r.1 && m == r.2
  {
    ghost var f := Freeable(own, avlbl);
    m := avlbl;
    var idx := first;
    while idx <= last
      invariant first <= idx <= last + 1
      invariant FirstFrom(f, first, last + 1, false) == FirstFrom(f, idx, last + 1, false)
      invariant m == Filled(avlbl, first, idx)
    {
      if !own[idx] {
        return ResNotOwned, idx, m;
      }
      if m[idx] {
        return ResAlreadyFree, idx, m;
      }
      m := m[idx := true];
      idx := idx + 1;
    }
    return Ok, last, m;
  }

  /**
   * The range check of the given-run request: lastResId = first + n in
   * uint32; rejected when first >= max, first > lastResId or lastResId > max.
   */
  predicate AllocRangeRejected(first: nat, n: nat, max: nat)
  {
    var last := Wrap32(first + n);
    first >= max || first > last || last > max
  }

  /** The check accepts exactly the runs inside [0, max). */
  lemma AllocRangeAccepts(first: nat, n: nat, max: nat)
    requires IsU32(first) && IsU32(n) && max <= MAX_PARAM_SETS
    ensures !AllocRangeRejected(first, n, max) <==> first < max && first + n <= max
    ensures !AllocRangeRejected(first, n, max) ==> Wrap32(first + n) == first + n
  {
  }

  /**
   * The range check of freeContiguousResource: lastResId = first + (n - 1)
   * in uint32; rejected when first > lastResId or lastResId >= max.
   */
  predicate FreeRangeRejected(first: nat, n: nat, max: nat)
  {
    var last := Wrap32(first + Wrap32(n - 1));
    first > last || last >= max
  }

  /**
   * The check accepts exactly the non-empty runs inside [0, max): n = 0
   * is always rejected, whatever `first` is.
   */
  lemma FreeRangeAccepts(first: nat, n: nat, max: nat)
    requires IsU32(first) && IsU32(n) && max <= MAX_PARAM_SETS
    ensures !FreeRangeRejected(first, n, max) <==> 1 <= n && first + n <= max
    ensures !FreeRangeRejected(first, n, max) ==> Wrap32(first + Wrap32(n - 1)) == first + n - 1
  {
    if n == 0 {
      assert Wrap32(n - 1) == U32_LIMIT - 1;
      if first > 0 {
        assert Wrap32(first + Wrap32(n - 1)) == first - 1;
      }
    } else if first + n - 1 >= U32_LIMIT {
      assert Wrap32(first + Wrap32(n - 1)) == first + n - 1 - U32_LIMIT;
    }
  }

  // ---------------------------------------------------------------------
  // Any run of n ids

  /**
   * The bitmap allocAnyContigRes searches: owned, available and not
   * reserved, one word per 32 ids. The QDMA word's bits past the 8
   * channels are zero; for PaRAM sets only the whole words below
   * numPaRAMSets are filled in, the rest stay zero.
   */
  function ContigBits(i: Instance, cfg: Config, t: ResType): (r: Bits)
    requires i.Sized() && t != OtherType
    ensures |r| == (if t == QdmaChannel then 32 else PoolSize(t))
    ensures forall k :: 0 <= k < |r| ==>
      (r[k] <==> k < PoolSize(t) && UsableOf(i, t)[k] &&
                 (t == ParamSet ==> k < 32 * (cfg.numParam / 32)))
  {
    var u := UsableOf(i, t);
    match t
    case QdmaChannel => u + seq(32 - MAX_QDMA_CH, k => false)
    case ParamSet =>
      seq(MAX_PARAM_SETS, k requires 0 <= k < MAX_PARAM_SETS => k < 32 * (cfg.numParam / 32) && u[k])
    case _ => u
  }

  /** The last id allocAnyContigRes searches: the array sizes, or edma3NumPaRAMSets - 1. */
  function ContigEnd(t: ResType, ranges: Ranges): nat
  {
    match t
    case DmaChannel => MAX_DMA_CH - 1
    case QdmaChannel => MAX_QDMA_CH - 1
    case Tcc => MAX_TCC - 1
    case ParamSet => Wrap32(ranges.numParamSets - 1)
    case OtherType => 0
  }

  /** The searched bitmap fits the search, and holds nothing past its end. */
  lemma ContigSearchable(i: Instance, cfg: Config, ranges: Ranges, t: ResType)
    requires i.Sized() && cfg.Valid() && ranges == RangesOf(cfg) && t != OtherType
    ensures var m := ContigBits(i, cfg, t); var end := ContigEnd(t, ranges);
      32 * (end / 32) + 32 <= |m| && end < 0x8000_0000 && end < PoolSize(t) && NoneBeyond(m, end)
  {
  }

  /** The first p from `from` where a run of n fits below `end`, or -1. */
  function FirstFit(m: Bits, from: nat, n: nat, end: nat): (r: int)
    requires end < |m|
    decreases end + 1 - from
    ensures r == -1 || (from <= r && Fits(m, r, n, end))
    ensures forall q: nat :: from <= q && (r < 0 || q < r) ==> !Fits(m, q, n, end)
  {
    if from > end then -1
    else if Fits(m, from, n, end) then from
    else FirstFit(m, from + 1, n, end)
  }

  /**
   * The run allocContiguousResource books for RES_ANY: the first start of
   * n usable ids in the searched bitmap, or -1; a run found lies inside
   * the pool.
   */
  function AnyRunStart(i: Instance, cfg: Config, ranges: Ranges, t: ResType, n: nat): (r: int)
    requires i.Sized() && cfg.Valid() && ranges == RangesOf(cfg) && t != OtherType
    ensures r == -1 || (0 <= r && r + n <= PoolSize(t))
  {
    ContigSearchable(i, cfg, ranges, t);
    FirstFit(ContigBits(i, cfg, t), 0, n, ContigEnd(t, ranges))
  }

  /** The search of allocContiguousResource for RES_ANY, through allocAnyContigRes. */
  method FindAnyRun(i: Instance, cfg: Config, ranges: Ranges, t: ResType, n: nat) returns (p: int)
    requires i.Sized() && cfg.Valid() && ranges == RangesOf(cfg) && t != OtherType && IsU32(n)
    ensures p == AnyRunStart(i, cfg, ranges, t, n)
  {
    ContigSearchable(i, cfg, ranges, t);
    var bits := ContigBits(i, cfg, t);
    var end := ContigEnd(t, ranges);
    var found, pos := AllocAnyContigRes(bits, end, n);
    FirstFitIs(bits, n, end, found, pos);
    p := if found then pos else -1;
  }

  /** What allocAnyContigRes establishes determines FirstFit. */
  lemma FirstFitIs(m: Bits, n: nat, end: nat, found: bool, pos: nat)
    requires end < |m|
    requires found <==> exists p: nat :: Fits(m, p, n, end)
    requires found ==> Fits(m, pos, n, end) && forall p: nat :: p < pos ==> !Fits(m, p, n, end)
    ensures FirstFit(m, 0, n, end) == (if found then pos else -1)
  {
    var f := FirstFit(m, 0, n, end);
    if found {
      assert f >= 0 && f <= pos;
    }
  }

  // ---------------------------------------------------------------------
  // gblChngAllocContigRes

  /**
   * gblChngAllocContigRes as it stands: lastResId = first + (n - 1) in
   * uint32, then `for (idx = first; idx <= lastResId; ++idx)`.
   */
  function GblChngLastAsWritten(first: nat, n: nat): (r: nat)
    requires IsU32(first) && IsU32(n)
    ensures IsU32(r)
    ensures 1 <= n && first + n <= U32_LIMIT ==> r == first + n - 1
  {
    Wrap32(first + Wrap32(n - 1))
  }

  /**
   * A request for zero resources when id 0 is usable: the run of length
   * 0 fits at 0, so booking starts at 0 with lastResId = 0xFFFFFFFF, and
   * every uint32 index passes the loop test: the loop never ends.
   */
  lemma GblChngAsWrittenNeverEnds(m: Bits, end: nat)
    requires end < |m| && m[0]
    ensures Fits(m, 0, 0, end) && FirstFit(m, 0, 0, end) == 0
    ensures forall idx :: IsU32(idx) ==> idx <= GblChngLastAsWritten(0, 0)
  {
    assert Wrap32(0 - 1) == U32_LIMIT - 1;
  }

  /** The corrected booking: exactly the ids [first, first + n), none for n = 0. */
  method GblChngAllocContigRes(avlbl: Bits, first: nat, n: nat) returns (m: Bits)
    requires first + n <= |avlbl|
    ensures m == Cleared(avlbl, first, first + n)
  {
    m := avlbl;
    var idx := first;
    while idx < first + n
      invariant first <= idx <= first + n
      invariant m == Cleared(avlbl, first, idx)
    {
      m := m[idx := false];
      idx := idx + 1;
    }
  }

  // ---------------------------------------------------------------------
  // The entry points

  /**
   * allocContiguousResource once the handle and the type are known to be
   * good. A given first id books the run [first, first + n) id by id;
   * RES_ANY takes the first run of n usable ids in the searched bitmap
   * and books it (with the corrected gblChngAllocContigRes). The id
   * returned is the first of the run.
   */
  function ContigAllocIn(i: Instance, cfg: Config, ranges: Ranges, t: ResType, first: nat, n: nat): (r: Outcome)
    requires i.Sized() && cfg.Valid() && ranges == RangesOf(cfg) && t != OtherType
    requires IsU32(first) && IsU32(n)
    ensures r.inst.Sized() && r.inst == i.(avlbl := r.inst.avlbl)
    ensures r.status != Ok ==> r.id == first
  {
    var max := cfg.Count(t);
    CountFits(cfg, t);
    if first != RES_ANY then
      if AllocRangeRejected(first, n, max) then Outcome(InvalidParam, first, i)
      else
        AllocRangeAccepts(first, n, max);
        ContigGivenIn(i, t, first, n)
    else if n > max then Outcome(InvalidParam, first, i)
    else ContigAnyIn(i, cfg, ranges, t, n)
  }

  /** A given run that passed the range check, booked id by id. */
  function ContigGivenIn(i: Instance, t: ResType, first: nat, n: nat): (r: Outcome)
    requires i.Sized() && t != OtherType && first + n <= PoolSize(t)
    ensures r.inst.Sized() && r.inst == i.(avlbl := r.inst.avlbl) && r.id == first
  {
    PoolSizeOf(i.own, t);
    PoolSizeOf(i.avlbl, t);
    var c := ClaimRange(i.own.Of(t), i.avlbl.Of(t), first, first + n);
    Outcome(c.0, first, i.(avlbl := i.avlbl.With(t, c.1)))
  }

  /** RES_ANY: the first run of n usable ids, booked whole, or none. */
  function ContigAnyIn(i: Instance, cfg: Config, ranges: Ranges, t: ResType, n: nat): (r: Outcome)
    requires i.Sized() && cfg.Valid() && ranges == RangesOf(cfg) && t != OtherType
    ensures r.inst.Sized() && r.inst == i.(avlbl := r.inst.avlbl)
    ensures r.status != Ok ==> r.id == RES_ANY
  {
    var p := AnyRunStart(i, cfg, ranges, t, n);
    PoolSizeOf(i.avlbl, t);
    if p < 0 then Outcome(SpecifiedResNotAvailable, RES_ANY, i)
    else Outcome(Ok, p, i.(avlbl := i.avlbl.With(t, Cleared(i.avlbl.Of(t), p, p + n))))
  }

  /** The loops of allocContiguousResource on one instance. */
  method ContigAllocLoop(i: Instance, cfg: Config, ranges: Ranges, t: ResType, first: nat, n: nat)
    returns (o: Outcome)
    requires i.Sized() && cfg.Valid() && ranges == RangesOf(cfg) && t != OtherType
    requires IsU32(first) && IsU32(n)
    ensures o == ContigAllocIn(i, cfg, ranges, t, first, n)
  {
    var max := cfg.Count(t);
    CountFits(cfg, t);
    if first != RES_ANY {
      if AllocRangeRejected(first, n, max) {
        return Outcome(InvalidParam, first, i);
      }
      AllocRangeAccepts(first, n, max);
      o := ContigGivenLoop(i, t, first, n);
    } else if n > max {
      o := Outcome(InvalidParam, first, i);
    } else {
      o := ContigAnyLoop(i, cfg, ranges, t, n);
    }
  }

  /** The booking loop for a given run. */
  method ContigGivenLoop(i: Instance, t: ResType, first: nat, n: nat) returns (o: Outcome)
    requires i.Sized() && t != OtherType && first + n <= PoolSize(t)
    ensures o == ContigGivenIn(i, t, first, n)
  {
    PoolSizeOf(i.own, t);
    PoolSizeOf(i.avlbl, t);
    var status, m := ClaimRangeLoop(i.own.Of(t), i.avlbl.Of(t), first, first + n);
    o := Outcome(status, first, i.(avlbl := i.avlbl.With(t, m)));
  }

  /** The search and the booking loop for RES_ANY. */
  method ContigAnyLoop(i: Instance, cfg: Config, ranges: Ranges, t: ResType, n: nat) returns (o: Outcome)
    requires i.Sized() && cfg.Valid() && ranges == RangesOf(cfg) && t != OtherType && IsU32(n)
    ensures o == ContigAnyIn(i, cfg, ranges, t, n)
  {
    var pos := FindAnyRun(i, cfg, ranges, t, n);
    if pos < 0 {
      return Outcome(SpecifiedResNotAvailable, RES_ANY, i);
    }
    PoolSizeOf(i.avlbl, t);
    var m := GblChngAllocContigRes(i.avlbl.Of(t), pos, n);
    o := Outcome(Ok, pos, i.(avlbl := i.avlbl.With(t, m)));
  }

  /** EDMA3_RM_allocContiguousResource. */
  function AllocContiguous(rm: Rm, h: int, t: ResType, first: nat, n: nat): (r: Step)
    requires rm.WF() && -1 <= h < MAX_RM_INSTANCES && IsU32(first) && IsU32(n)
    ensures r.rm.WF() && r.rm.ctrl == rm.ctrl && r.rm.tables == rm.tables
    ensures r.status != Ok ==> r.id == first
    ensures forall k :: 0 <= k < |rm.slots| && k != h ==> r.rm.slots[k] == rm.slots[k]
    ensures !rm.Live(h) || t == OtherType ==> r == Step(rm, InvalidParam, first)
  {
    if !rm.Live(h) || t == OtherType then Step(rm, InvalidParam, first)
    else
      var o := ContigAllocIn(rm.slots[h], rm.ctrl.cfg, rm.ctrl.ranges, t, first, n);
      Step(rm.WithSlot(h, o.inst), o.status, o.id)
  }

  /**
   * freeContiguousResource once the handle and the type are known to be
   * good: rejects an empty run or one past the count, then frees
   * [first, first + n) id by id, stopping at the first failure; the id
   * returned is the last one tried.
   */
  function ContigFreeIn(i: Instance, cfg: Config, t: ResType, first: nat, n: nat): (r: Outcome)
    requires i.Sized() && cfg.Valid() && t != OtherType && IsU32(first) && IsU32(n)
    ensures r.inst.Sized() && r.inst == i.(avlbl := r.inst.avlbl)
  {
    var max := cfg.Count(t);
    CountFits(cfg, t);
    if FreeRangeRejected(first, n, max) then Outcome(InvalidParam, first, i)
    else
      FreeRangeAccepts(first, n, max);
      ContigFreeRunIn(i, t, first, n)
  }

  /** A run that passed the range check, freed id by id. */
  function ContigFreeRunIn(i: Instance, t: ResType, first: nat, n: nat): (r: Outcome)
    requires i.Sized() && t != OtherType && 1 <= n && first + n <= PoolSize(t)
    ensures r.inst.Sized() && r.inst == i.(avlbl := r.inst.avlbl)
  {
    PoolSizeOf(i.own, t);
    PoolSizeOf(i.avlbl, t);
    var f := FreeRange(i.own.Of(t), i.avlbl.Of(t), first, first + n - 1);
    Outcome(f.0, f.1, i.(avlbl := i.avlbl.With(t, f.2)))
  }

  /** The loop of freeContiguousResource on one instance. */
  method ContigFreeLoop(i: Instance, cfg: Config, t: ResType, first: nat, n: nat) returns (o: Outcome)
    requires i.Sized() && cfg.Valid() && t != OtherType && IsU32(first) && IsU32(n)
    ensures o == ContigFreeIn(i, cfg, t, first, n)
  {
    var max := cfg.Count(t);
    CountFits(cfg, t);
    if FreeRangeRejected(first, n, max) {
      return Outcome(InvalidParam, first, i);
    }
    FreeRangeAccepts(first, n, max);
    o := ContigFreeRunLoop(i, t, first, n);
  }

  /** The freeing loop for a run that passed the range check. */
  method ContigFreeRunLoop(i: Instance, t: ResType, first: nat, n: nat) returns (o: Outcome)
    requires i.Sized() && t != OtherType && 1 <= n && first + n <= PoolSize(t)
    ensures o == ContigFreeRunIn(i, t, first, n)
  {
    PoolSizeOf(i.own, t);
    PoolSizeOf(i.avlbl, t);
    var status, at, m := FreeRangeLoop(i.own.Of(t), i.avlbl.Of(t), first, first + n - 1);
    o := Outcome(status, at, i.(avlbl := i.avlbl.With(t, m)));
  }

  /** EDMA3_RM_freeContiguousResource. */
  function FreeContiguous(rm: Rm, h: int, t: ResType, first: nat, n: nat): (r: Step)
    requires rm.WF() && -1 <= h < MAX_RM_INSTANCES && IsU32(first) && IsU32(n)
    ensures r.rm.WF() && r.rm.ctrl == rm.ctrl && r.rm.tables == rm.tables
    ensures forall k :: 0 <= k < |rm.slots| && k != h ==> r.rm.slots[k] == rm.slots[k]
    ensures !rm.Live(h) || t == OtherType ==> r == Step(rm, InvalidParam, first)
  {
    if !rm.Live(h) || t == OtherType then Step(rm, InvalidParam, first)
    else
      var o := ContigFreeIn(rm.slots[h], rm.ctrl.cfg, t, first, n);
      Step(rm.WithSlot(h, o.inst), o.status, o.id)
  }

  // ---------------------------------------------------------------------
  // Properties

  /**
   * A given run is booked whole exactly when it lies below the count and
   * every id in it is owned and available; otherwise, past the range
   * check, the ids before the first failing one stay booked.
   */
  lemma AllocContiguousGiven(rm: Rm, h: int, t: ResType, first: nat, n: nat)
    requires rm.WF() && -1 <= h < MAX_RM_INSTANCES && IsU32(first) && IsU32(n)
    requires rm.Live(h) && t != OtherType && first != RES_ANY
    ensures var r := AllocContiguous(rm, h, t, first, n); var i := rm.slots[h];
      var max := rm.ctrl.cfg.Count(t);
      (r.status == Ok <==>
        first + n <= max && first < max &&
        forall k :: first <= k < first + n ==> i.own.Of(t)[k] && i.avlbl.Of(t)[k]) &&
      (r.status == Ok ==>
        r.id == first && r.rm.slots[h] == i.(avlbl := i.avlbl.With(t, Cleared(i.avlbl.Of(t), first, first + n)))) &&
      (r.status != Ok && r.status != InvalidParam ==>
        exists e :: first <= e < first + n &&
          r.rm.slots[h] == i.(avlbl := i.avlbl.With(t, Cleared(i.avlbl.Of(t), first, e))))
  {
    var max := rm.ctrl.cfg.Count(t);
    CountFits(rm.ctrl.cfg, t);
    AllocRangeAccepts(first, n, max);
    if first + n <= max && first < max {
      var i := rm.slots[h];
      ContigGivenBooks(i, t, first, n);
      var o := ContigGivenIn(i, t, first, n);
      assert AllocContiguous(rm, h, t, first, n) == Step(rm.WithSlot(h, o.inst), o.status, first);
    }
  }

  /** On one instance: the booking of a given run, whole or up to the first failing id. */
  lemma ContigGivenBooks(i: Instance, t: ResType, first: nat, n: nat)
    requires i.Sized() && t != OtherType && first + n <= PoolSize(t)
    ensures var r := ContigGivenIn(i, t, first, n);
      (r.status == Ok <==> forall k :: first <= k < first + n ==> i.own.Of(t)[k] && i.avlbl.Of(t)[k]) &&
      (r.status == Ok ==> r.inst == i.(avlbl := i.avlbl.With(t, Cleared(i.avlbl.Of(t), first, first + n)))) &&
      (r.status != Ok ==>
        r.status != InvalidParam &&
        exists e :: first <= e < first + n &&
          r.inst == i.(avlbl := i.avlbl.With(t, Cleared(i.avlbl.Of(t), first, e))))
  {
    PoolSizeOf(i.own, t);
    PoolSizeOf(i.avlbl, t);
    ClaimRangeBooks(i.own.Of(t), i.avlbl.Of(t), first, first + n);
  }

  /**
   * A run booked for RES_ANY starts at the returned id, is owned,
   * available and not reserved throughout, lies inside the searched
   * range, and no run of that length starts lower.
   */
  lemma AllocContiguousAny(rm: Rm, h: int, t: ResType, n: nat)
    requires rm.WF() && -1 <= h < MAX_RM_INSTANCES && IsU32(n)
    requires rm.Live(h) && t != OtherType
    ensures var r := AllocContiguous(rm, h, t, RES_ANY, n);
      r.status == Ok ==> AnyBooked(rm.slots[h], rm.ctrl.cfg, rm.ctrl.ranges, t, n, r.id, r.rm.slots[h])
  {
    var i := rm.slots[h];
    CountFits(rm.ctrl.cfg, t);
    if n <= rm.ctrl.cfg.Count(t) {
      var o := ContigAnyIn(i, rm.ctrl.cfg, rm.ctrl.ranges, t, n);
      assert ContigAllocIn(i, rm.ctrl.cfg, rm.ctrl.ranges, t, RES_ANY, n) == o;
      ContigAnyFinds(i, rm.ctrl.cfg, rm.ctrl.ranges, t, n);
    }
  }

  /**
   * `after` is `i` with the run [id, id + n) booked, every id in it owned,
   * available and unreserved before, and no earlier start fits a run of n.
   */
  ghost predicate AnyBooked(i: Instance, cfg: Config, ranges: Ranges, t: ResType, n: nat, id: nat, after: Instance)
    requires i.Sized() && cfg.Valid() && ranges == RangesOf(cfg) && t != OtherType
  {
    id + n <= PoolSize(t) &&
    (forall k :: id <= k < id + n ==>
      i.own.Of(t)[k] && i.avlbl.Of(t)[k] && !i.resvd.Of(t)[k]) &&
    after == i.(avlbl := i.avlbl.With(t, Cleared(i.avlbl.Of(t), id, id + n))) &&
    forall p: nat :: p < id ==> !Fits(ContigBits(i, cfg, t), p, n, ContigEnd(t, ranges))
  }

  /** On one instance: the run booked for RES_ANY and why it is the first. */
  lemma ContigAnyFinds(i: Instance, cfg: Config, ranges: Ranges, t: ResType, n: nat)
    requires i.Sized() && cfg.Valid() && ranges == RangesOf(cfg) && t != OtherType
    ensures var r := ContigAnyIn(i, cfg, ranges, t, n);
      r.status == Ok ==> AnyBooked(i, cfg, ranges, t, n, r.id, r.inst)
  {
    ContigSearchable(i, cfg, ranges, t);
    var r := ContigAnyIn(i, cfg, ranges, t, n);
    if r.status == Ok {
      var m := ContigBits(i, cfg, t);
      forall k | r.id <= k < r.id + n
        ensures i.own.Of(t)[k] && i.avlbl.Of(t)[k] && !i.resvd.Of(t)[k]
      {
        assert m[k];
      }
    }
  }

  /** freeContiguousResource never accepts a run of zero resources. */
  lemma FreeContiguousRejectsEmpty(rm: Rm, h: int, t: ResType, first: nat)
    requires rm.WF() && -1 <= h < MAX_RM_INSTANCES && IsU32(first)
    ensures FreeContiguous(rm, h, t, first, 0).status == InvalidParam
  {
    if rm.Live(h) && t != OtherType {
      CountFits(rm.ctrl.cfg, t);
      FreeRangeAccepts(first, 0, rm.ctrl.cfg.Count(t));
    }
  }

  /** Replacing a pool's bitmap and then putting the old one back restores the pools. */
  lemma WithRestored(p: Pools, t: ResType, m: Bits)
    requires t != OtherType
    ensures p.With(t, m).With(t, p.Of(t)) == p
  {
  }

  /** On one instance: freeing the run just booked succeeds and restores the bitmap. */
  lemma FreeRangeAfterClaim(own: Bits, avlbl: Bits, first: nat, n: nat)
    requires |own| == |avlbl| && 1 <= n && first + n <= |own|
    requires forall k :: first <= k < first + n ==> own[k] && avlbl[k]
    ensures FreeRange(own, Cleared(avlbl, first, first + n), first, first + n - 1)
      == (Ok, first + n - 1, avlbl)
  {
    FilledCleared(avlbl, first, first + n);
  }

  /** Freeing a run just booked by a given-run request restores the instance. */
  lemma AllocFreeContiguousRoundTrip(rm: Rm, h: int, t: ResType, first: nat, n: nat)
    requires rm.WF() && -1 <= h < MAX_RM_INSTANCES && IsU32(first) && IsU32(n)
    requires first != RES_ANY && 1 <= n
    ensures var a := AllocContiguous(rm, h, t, first, n);
      a.status == Ok ==>
        var f := FreeContiguous(a.rm, h, t, first, n);
        f.status == Ok && f.rm == rm
  {
    var a := AllocContiguous(rm, h, t, first, n);
    if a.status == Ok {
      var i := rm.slots[h];
      var cfg := rm.ctrl.cfg;
      CountFits(cfg, t);
      AllocRangeAccepts(first, n, cfg.Count(t));
      var o := ContigGivenIn(i, t, first, n);
      ContigGivenRoundTrip(i, cfg, t, first, n);
      assert a.rm == rm.WithSlot(h, o.inst);
      assert rm.slots[h := o.inst][h := i] == rm.slots;
    }
  }

  /** On one instance: freeing a given run just booked restores the instance. */
  lemma ContigGivenRoundTrip(i: Instance, cfg: Config, t: ResType, first: nat, n: nat)
    requires i.Sized() && cfg.Valid() && t != OtherType && IsU32(first) && IsU32(n)
    requires 1 <= n && first + n <= cfg.Count(t)
    ensures cfg.Count(t) <= PoolSize(t)
    ensures var a := ContigGivenIn(i, t, first, n);
      a.status == Ok ==> ContigFreeIn(a.inst, cfg, t, first, n) == Outcome(Ok, first + n - 1, i)
  {
    CountFits(cfg, t);
    var a := ContigGivenIn(i, t, first, n);
    if a.status == Ok {
      ContigGivenBooks(i, t, first, n);
      FreeRangeAccepts(first, n, cfg.Count(t));
      FreeRangeAfterClaim(i.own.Of(t), i.avlbl.Of(t), first, n);
      var c := Cleared(i.avlbl.Of(t), first, first + n);
      WithRestored(i.avlbl, t, c);
    }
  }
}
