# AM335x drivers of the ER-301 firmware in Dafny

This project models and proves properties of the low-level drivers of the ER-301 sound computer firmware on the TI AM335x:

- **EDMA3 resource manager** (`edma3resmgr.c`). It keeps the ownership, availability and reservation bitmaps of DMA channels, QDMA channels, TCCs and PaRAM sets. On top of those it provides:
  - `allocResource` and `freeResource`;
  - contiguous allocation through `findBit`, `allocAnyContigRes` and `gblChngAllocContigRes`;
  - logical channels, which bind a channel to a PaRAM set and a TCC;
  - the TCC callback table;
  - create, delete, open, close and Ioctl of the controller object and its instances.

  The modules are `Bitmap`, `Edma3Rm`, `Edma3RmChannel`, `Edma3RmContig` and `Edma3RmLife`. The class `Edma3RmManager.ResourceManager` holds the same state in fields and runs the same loops in place.
- **EDMA3 driver** (`edma3_drv_basic.c`, `edma3_drv_adv.c`):
  - requesting and freeing logical channels, with rollback when a later allocation fails;
  - the PaRAM word and field writes of the transfer set-up calls;
  - linking and chaining;
  - event-queue mapping;
  - the trigger-mode checks of enable and disable;
  - the channel status read.

  The modules are `Edma3Drv`, `Edma3DrvAdv`, `Edma3DrvBasic` and `Edma3DrvRequest`. The class `Edma3Driver.Driver` keeps the PaRAM, DMAQNUM and bookkeeping in arrays updated in place.
- **UART** (`uart.c`, `uart.h`):
  - divisor rounding;
  - the FIFO_CONFIG and FCR packing macros;
  - line-character, parity, FIFO, interrupt, flow-control, modem-control and wake-up configuration.

  These are modelled as read-modify-write sequences on the register fields of the class `Uart.UartRegs`.
- **USB device class** (`USBDevice.cpp`):
  - descriptor copying and walking;
  - FIFO sizing and placement;
  - the endpoint-0 state machine (IDLE, TX, RX, STATUS, STALL) and the standard requests it answers;
  - configuration and alternate-setting selection.

  The modules are `UsbDescriptors` and `UsbDevice`, which holds the class `UsbDevice.UsbDevice`.
- **USB mass storage** (`MassStorage.cpp`):
  - the Bulk-Only Transport state machine (IDLE, SEND_BLOCKS, SEND_STATUS, SENT_STATUS, RECEIVE_BLOCKS);
  - CBW and CSW encoding;
  - the SCSI command handlers;
  - the ping-pong read-ahead of READ(10) and the block-by-block write path of WRITE(10).

  This is the module `MassStorage`, which holds the class `MassStorage.MassStorageDevice`.

Each stateful operation has two forms:

- a function from the old state to the new state and its status, which the lemmas are proved about;
- a method of the corresponding class that updates the fields in place. Its `ensures` states that the new state is that function of the old state.

Hardware registers are fields or arrays of the class. Values the hardware or an unmodelled callee supplies are parameters. Examples are the card I/O outcome, the bytes in a FIFO and the EP0 status bits. C `uint32_t` arithmetic is written out with `Word32.Wrap32`.

Several quirks of the code are kept as written on the main path:

- the logical `&&` in the PREVENT ALLOW MEDIUM REMOVAL test, which `MassStorage.PreventRemovalAsWrittenMisreads` contrasts with the PREVENT field;
- the REASSIGN BLOCKS fall-through into PREVENT ALLOW MEDIUM REMOVAL;
- the `&&` in `setPaRAMField`'s QDMA check;
- the reload count ORed into LINK_BCNTRLD by `setTransferParams`;
- the string descriptor that does not fit the EP0 buffer: GET_DESCRIPTOR then sends the requested length of the unchanged buffer (`USBDevice.cpp` lines 135-138 and 858-872). Where that length runs past the 64-byte buffer, the source sends whatever memory follows it; the model (`UsbDevice.Chunk`) sends zeros for those bytes.

Where the code is evidently wrong, both readings are modelled, and the corrected one is used elsewhere (see "## Findings").

## Model

| member | source | states |
|---|---|---|
| Word32.Wrap32 | arch/am335x/hal/usb/MassStorage.cpp:356-357 | a `uint32_t` result is always a 32-bit value and equals the exact result when that already fits |
| Bitmap.Word | arch/am335x/ti/edma3/rm/edma3resmgr.c:6234-6262 | word w of a resource bitmap is entries 32w .. 32w+31, bit q of the word being entry 32w+q |
| Bitmap.FirstInWord | arch/am335x/ti/edma3/rm/edma3resmgr.c:6114-6176 | the first bit at or after `from` in a word with the wanted value, or -1: the result has that value and every bit before it does not |
| Bitmap.FindBitInWord | arch/am335x/ti/edma3/rm/edma3resmgr.c:6114-6176 | findBitInWord returns the absolute id of the first wanted bit at or after bit start % 32 of the word, or -1 when there is none or the bit asked for is neither 0 nor 1 |
| Bitmap.FirstFrom | arch/am335x/ti/edma3/rm/edma3resmgr.c:6229-6320 | the first id in [from, limit) whose entry is the wanted value, or -1; every id before the result differs |
| Bitmap.InWord | arch/am335x/ti/edma3/rm/edma3resmgr.c:6114-6176 | searching word i from bit q is the same as searching ids 32i+q .. 32i+31 of the bitmap |
| Bitmap.FirstFromSplit | arch/am335x/ti/edma3/rm/edma3resmgr.c:6234-6269 | a search over [a, c) is the search over [a, b) followed, when that misses, by the search over [b, c) |
| Bitmap.FirstWordStep | arch/am335x/ti/edma3/rm/edma3resmgr.c:6234-6239 | the search of the first word: a hit there is the answer of the whole findBit; a miss means no wanted bit in [start, end of the first word) |
| Bitmap.WholeWordStep | arch/am335x/ti/edma3/rm/edma3resmgr.c:6243-6252 | the search of a middle word: a hit is findBit's answer; a miss extends the empty range over that word |
| Bitmap.RangeStep | arch/am335x/ti/edma3/rm/edma3resmgr.c:6243-6269 | once nothing was found from start up to lo, a hit in [lo, hi) is findBit's answer and a miss extends the empty range to hi |
| Bitmap.FirstFromMiss | arch/am335x/ti/edma3/rm/edma3resmgr.c:6240-6269 | nothing wanted in [a, b): the search of [a, c) equals the search of [b, c) |
| Bitmap.FirstFromHit | arch/am335x/ti/edma3/rm/edma3resmgr.c:6236-6250 | a hit inside [a, b) is also the hit of any longer range [a, c) |
| Bitmap.WholeWordSearch | arch/am335x/ti/edma3/rm/edma3resmgr.c:6245 | findBitInWord from bit 0 of word i searches exactly ids 32i .. 32i+31 |
| Bitmap.FindBit | arch/am335x/ti/edma3/rm/edma3resmgr.c:6182-6321 | findBit returns the first wanted bit at or after `start` in words start/32 .. end/32 (bits of the last word past `end` included), or -1; a bit argument other than 0 or 1 gives -1 |
| Bitmap.LastWordStep | arch/am335x/ti/edma3/rm/edma3resmgr.c:6255-6320 | the search of the last word: a hit at or past `start` is findBit's answer, a hit below `start` is turned into -1 as the return statement does |
| Bitmap.TailStep | arch/am335x/ti/edma3/rm/edma3resmgr.c:6255-6320 | a hit of [lo, hi) kept only when it is at or past `start` is the hit of [start, hi) once nothing was found before lo |
| Bitmap.AllocAnyContigRes | arch/am335x/ti/edma3/rm/edma3resmgr.c:6327-6432 | allocAnyContigRes finds a run of n set entries ending at or below `end` exactly when one exists, and then returns the lowest such start |
| Bitmap.NoOneLeft | arch/am335x/ti/edma3/rm/edma3resmgr.c:6384-6413 | when no entry from `start` on is set, no run fits from `start` on, so stopping with failure is right |
| Bitmap.RunBetween | arch/am335x/ti/edma3/rm/edma3resmgr.c:6384-6407 | one round: the entries between the first set entry f and the next clear entry z form a maximal run, so a run of n starts in [start, z) only at f and only when z - f >= n |
| Bitmap.RoundCallsAsWritten | arch/am335x/ti/edma3/rm/edma3resmgr.c:6384-6393 | the (start, end) arguments of the two findBit calls of one round as the source makes them: the second starts at first_one + 1 even when first_one is `end` |
| Bitmap.RoundCallsAsWrittenPastEnd | arch/am335x/ti/edma3/rm/edma3resmgr.c:6388 | with only DMA channel 63 free the second call searches from 64 to 63: past `end`, breaking findBit's `start <= end`, and past the two words of the DMA bitmap |
| Edma3Rm.Status.Code | arch/am335x/ti/edma3/edma3_rm.h:384-432 | EDMA3_RM_SOK is 0 and only it is 0; every error code lies in the header's block from EDMA3_RM_E_BASE (-155) down |
| Edma3Rm.Pools.With | arch/am335x/ti/edma3/rm/edma3resmgr.c:1133-1530 | replacing the bitmap of one resource type leaves the bitmaps of the other three types as they were |
| Edma3Rm.PoolSizeOf | arch/am335x/ti/edma3/rm/edma3resmgr.c:1117-1120 | each bitmap of a well-sized instance has one entry per id of the EDMA3_MAX_* bound of its type |
| Edma3Rm.CountFits | arch/am335x/ti/edma3/rm/edma3resmgr.c:1112-1115 | the configured count of a type (numDmaChannels, numQdmaChannels, numTccs, numPaRAMSets) never exceeds the bitmap size, so the scans stay inside it |
| Edma3Rm.RangesContiguous | arch/am335x/ti/edma3/rm/edma3resmgr.c:487-493 | create's uint32 range arithmetic gives, for a valid configuration, DMA [0, numDma - 1], link [numDma, numDma + numParam - 1] and QDMA the numQdma channels after it, with no wrap-around and inside the logical channel table |
| Edma3Rm.Instance.MarkAvailable | arch/am335x/ti/edma3/rm/edma3resmgr.c:1133-1134 | setting or clearing one availability bit changes that entry of that type's bitmap and nothing else of the instance |
| Edma3Rm.ZeroInstance | arch/am335x/ti/edma3/rm/edma3resmgr.c:500-507 | a memzeroed instance slot is unclaimed and owns, reserves and offers nothing |
| Edma3Rm.Usable | arch/am335x/ti/edma3/rm/edma3resmgr.c:1117-1120 | the RES_ANY test `own & avlbl & ~resvd`, entry by entry |
| Edma3Rm.UsableOf | arch/am335x/ti/edma3/rm/edma3resmgr.c:1117-1120 | the usable entries of one type have one entry per id of its bitmap |
| Edma3Rm.AllocIn | arch/am335x/ti/edma3/rm/edma3resmgr.c:1106-1569 | allocResource on a good handle: a failure changes nothing and hands back the id asked for; a success is of a known type, below the count, owned and available, clears exactly that availability bit, and for a specific id returns that id |
| Edma3Rm.FreeIn | arch/am335x/ti/edma3/rm/edma3resmgr.c:1666-1890 | freeResource on a good handle succeeds exactly for an in-range, owned, not yet available id of a known type; success sets exactly that availability bit, failure changes nothing |
| Edma3Rm.AllocAnyLowest | arch/am335x/ti/edma3/rm/edma3resmgr.c:1110-1166 | RES_ANY returns the lowest id that is owned, available and not reserved; it fails only with ALL_RES_NOT_AVAILABLE, and exactly when no id below the count is usable |
| Edma3Rm.AllocSpecificOrder | arch/am335x/ti/edma3/rm/edma3resmgr.c:1168-1235 | a specific id is refused with INVALID_PARAM iff out of range, RES_NOT_OWNED iff in range but not owned, SPECIFIED_RES_NOT_AVAILABLE iff owned but taken, and granted iff in range, owned and available |
| Edma3Rm.AllocSpecificIgnoresReserved | arch/am335x/ti/edma3/rm/edma3resmgr.c:1168-1235 | the outcome of a request for a specific id is the same whatever the reserved bitmaps hold |
| Edma3Rm.AllocFreeRoundTrip | arch/am335x/ti/edma3/rm/edma3resmgr.c:1026-1906 | allocating a resource and then freeing the id returned succeeds and restores the instance exactly |
| Edma3Rm.FreeAllocRoundTrip | arch/am335x/ti/edma3/rm/edma3resmgr.c:1026-1906 | freeing an allocated id and then asking for that id again succeeds and restores the instance exactly |
| Edma3Rm.FreeTwice | arch/am335x/ti/edma3/rm/edma3resmgr.c:1674-1708 | a second free of the same id reports RES_ALREADY_FREE and changes nothing |
| Edma3Rm.ScanUsable | arch/am335x/ti/edma3/rm/edma3resmgr.c:1112-1166 | the RES_ANY loop returns the first id below the count that is owned, available and not reserved, or -1 when the loop runs out |
| Edma3Rm.Rm.WithSlot | arch/am335x/ti/edma3/rm/edma3resmgr.c:1061-1062 | replacing one instance slot leaves the controller, its tables and the other slots unchanged |
| Edma3Rm.AllocResource | arch/am335x/ti/edma3/rm/edma3resmgr.c:1026-1608 | EDMA3_RM_allocResource: a NULL or unclaimed handle, or a controller without registers, gives INVALID_PARAM and no change; otherwise the outcome on that instance's slot, with the controller and its tables untouched |
| Edma3Rm.FreeResource | arch/am335x/ti/edma3/rm/edma3resmgr.c:1610-1906 | EDMA3_RM_freeResource: the same handle check, then the outcome on that instance's slot; the id handed back is the id given |
| Edma3RmChannel.MarksCommute | arch/am335x/ti/edma3/rm/edma3resmgr.c:1133-1134 | clearing or setting availability bits of two different resource types can be done in either order |
| Edma3RmChannel.MarkUndone | arch/am335x/ti/edma3/rm/edma3resmgr.c:1680 | marking an available entry taken and then free again restores the instance exactly |
| Edma3RmChannel.AllocThenFree | arch/am335x/ti/edma3/rm/edma3resmgr.c:1026-1906 | a resource that allocResource granted is given back by freeResource with status OK, and the instance table is then as it was before the allocation |
| Edma3RmChannel.WithBinding | arch/am335x/ti/edma3/rm/edma3resmgr.c:2258 | recording a channel's PaRAM/TCC binding changes only that entry of edma3RmChBoundRes; instances and controller are untouched |
| Edma3RmChannel.FreeLinks | arch/am335x/ti/edma3/rm/edma3resmgr.c:2239-2243 | entry k of the link scan's bitmap is set exactly when logical channel k is bound to no PaRAM set (paRAMId == -1) |
| Edma3RmChannel.BoundTo | arch/am335x/ti/edma3/rm/edma3resmgr.c:2788-2796 | entry k is set exactly when logical channel k is bound to PaRAM set p |
| Edma3RmChannel.FindFreeLink | arch/am335x/ti/edma3/rm/edma3resmgr.c:2239-2243 | the while loop stops at the first link channel from linkMin to linkMax whose paRAMId is -1, or reports none (-1); proved against the bitmap search FirstFrom |
| Edma3RmChannel.ReleaseLink | arch/am335x/ti/edma3/rm/edma3resmgr.c:2788-2796 | freeing a PaRAM set clears the binding of the first link channel in the range bound to it and changes nothing else; when no channel in the range is bound to it, the table is unchanged |
| Edma3RmChannel.ReleaseLinkLoop | arch/am335x/ti/edma3/rm/edma3resmgr.c:2788-2796 | the loop over link channels computes ReleaseLink over linkMin .. linkMax inclusive |
| Edma3RmChannel.ReleaseLinkAsWrittenMissesLast | arch/am335x/ti/edma3/rm/edma3resmgr.c:2789 | when the set is bound to channel linkMax only, the loop bound `linkCh < linkMax` leaves the binding in place (the channel stays occupied), while the inclusive bound clears it |
| Edma3RmChannel.TccRollback | arch/am335x/ti/edma3/rm/edma3resmgr.c:2368-2377 | when the TCC allocation fails, the PaRAM set is freed, the binding's paRAMId reset to -1 and the channel freed; the result stays well formed with the same controller |
| Edma3RmChannel.BindChannel | arch/am335x/ti/edma3/rm/edma3resmgr.c:2292-2390 | the second stage (PaRAM set, then TCC, with rollback) keeps the model well formed and reports the channel it was given; its effects are stated by BindChannelTakes, BindChannelFails and BindChannelSucceeds |
| Edma3RmChannel.AllocDmaChannel | arch/am335x/ti/edma3/rm/edma3resmgr.c:1997-2135 | the DMA branch keeps the model well formed and the controller unchanged; its stages are stated by AllocDmaChannelStages |
| Edma3RmChannel.AllocQdmaChannel | arch/am335x/ti/edma3/rm/edma3resmgr.c:2137-2197 | the QDMA branch keeps the model well formed and the controller unchanged; its stages are stated by AllocQdmaChannelStages |
| Edma3RmChannel.QdmaSlotFits | arch/am335x/ti/edma3/rm/edma3resmgr.c:2153 | a QDMA channel id below numQdmaChannels, shifted by qdmaMin, is a valid index into the logical channel table |
| Edma3RmChannel.AllocParamChannelAsWritten | arch/am335x/ti/edma3/rm/edma3resmgr.c:2199-2272 | the link-channel branch as written keeps the model well formed; AllocParamChannelAsWrittenNoLink states its flaw |
| Edma3RmChannel.AllocParamChannelAsWrittenNoLink | arch/am335x/ti/edma3/rm/edma3resmgr.c:2246-2253 | when every link channel is bound, the source frees the PaRAM set and then overwrites the INVALID_PARAM result with freeResource's OK: the call reports success with no channel bound and nothing allocated |
| Edma3RmChannel.AllocParamChannel | arch/am335x/ti/edma3/rm/edma3resmgr.c:2199-2272 | the link-channel branch with the failure status kept keeps the model well formed; its outcomes are stated by Edma3RmLife.NoFreeLinkRefused and Edma3RmLife.CloseKeepsLinksFree |
| Edma3RmChannel.AllocLogicalChannel | arch/am335x/ti/edma3/rm/edma3resmgr.c:1908-2501 | a closed handle, a TCC or an unknown resource type is refused with INVALID_PARAM and nothing changes; otherwise the result stays well formed with the same controller |
| Edma3RmChannel.UnbindChannel | arch/am335x/ti/edma3/rm/edma3resmgr.c:2575-2770 | freeing a bound channel frees its PaRAM set, its TCC and the channel and resets the binding; it reports the channel it was given |
| Edma3RmChannel.FreeLogicalChannel | arch/am335x/ti/edma3/rm/edma3resmgr.c:2503-2824 | a closed handle, a TCC or an unknown type is refused with INVALID_PARAM and nothing changes; the result keeps the model well formed and reports the id asked for |
| Edma3RmChannel.FreeLinkChannel | arch/am335x/ti/edma3/rm/edma3resmgr.c:2772-2805 | freeing a PaRAM/link channel keeps the model well formed and reports the id asked for; the link table update is ReleaseLink |
| Edma3RmChannel.FreeResourceFrame | arch/am335x/ti/edma3/rm/edma3resmgr.c:1610-1906 | freeResource reads only the instance table and the controller: two models equal there give the same status and instances |
| Edma3RmChannel.BindChannelFails | arch/am335x/ti/edma3/rm/edma3resmgr.c:2368-2388 | when the PaRAM or TCC stage fails after the channel was granted, every allocation is rolled back: the instance table is as before the channel was allocated |
| Edma3RmChannel.BindChannelSucceeds | arch/am335x/ti/edma3/rm/edma3resmgr.c:2292-2390 | when both stages succeed, the channel, a PaRAM set and a TCC were taken from the caller's instance and the binding records the two |
| Edma3RmChannel.BindChannelTakes | arch/am335x/ti/edma3/rm/edma3resmgr.c:2298-2331 | success means the PaRAM and TCC allocations on the instance both succeeded and the binding records exactly their ids |
| Edma3RmChannel.AllocsTake | arch/am335x/ti/edma3/rm/edma3resmgr.c:1133-1530 | three successful allocations (channel, PaRAM set, TCC) take three owned, available entries and change nothing else of the instance |
| Edma3RmChannel.FreeTaken | arch/am335x/ti/edma3/rm/edma3resmgr.c:1666-1890 | entries taken by three allocations can be freed in turn, which returns the instance to what it was |
| Edma3RmChannel.UnbindAfterTook | arch/am335x/ti/edma3/rm/edma3resmgr.c:2575-2770 | freeing a channel that holds a PaRAM set and TCC it took succeeds, restores the instance and resets the binding to (-1, EDMA3_MAX_TCC) |
| Edma3RmChannel.AllocDmaChannelStages | arch/am335x/ti/edma3/rm/edma3resmgr.c:1997-2135 | the DMA branch asks for the given channel or RES_ANY; with the channel granted it binds the PaRAM set (mapped, requested or the channel's own) and a TCC (the requested one, the mapped one for TCC_ANY, or any); a requested PaRAM set other than the channel's own without a channel map fails and frees the channel; a refused channel changes nothing |
| Edma3RmChannel.AllocDmaChannelFails | arch/am335x/ti/edma3/rm/edma3resmgr.c:1997-2135 | a failing DMA request leaves every instance as it was |
| Edma3RmChannel.AllocDmaChannelSucceeds | arch/am335x/ti/edma3/rm/edma3resmgr.c:1997-2135 | a successful DMA request returns a channel below 64 that holds a PaRAM set and TCC taken from the caller's instance, in its own binding entry |
| Edma3RmChannel.AllocQdmaChannelStages | arch/am335x/ti/edma3/rm/edma3resmgr.c:2137-2197 | the QDMA branch refuses an id at or beyond numQdmaChannels with INVALID_PARAM, passes a refused channel's status back unchanged, and otherwise binds at entry id + qdmaMin with no TCC map |
| Edma3RmChannel.AllocQdmaChannelBinds | arch/am335x/ti/edma3/rm/edma3resmgr.c:2153-2178 | a granted QDMA channel is bound at logical entry id + qdmaMin |
| Edma3RmChannel.AllocQdmaChannelFails | arch/am335x/ti/edma3/rm/edma3resmgr.c:2137-2197 | a failing QDMA request leaves every instance as it was |
| Edma3RmChannel.AllocQdmaChannelSucceeds | arch/am335x/ti/edma3/rm/edma3resmgr.c:2137-2197 | a successful QDMA request holds a PaRAM set and TCC taken from the caller's instance at entry id + qdmaMin |
| Edma3RmChannel.AllocLogicalChannelRollsBack | arch/am335x/ti/edma3/rm/edma3resmgr.c:1908-2501 | every failing allocLogicalChannel leaves every instance as it was |
| Edma3RmChannel.AllocLogicalChannelBinds | arch/am335x/ti/edma3/rm/edma3resmgr.c:1908-2501 | a successful DMA or QDMA allocLogicalChannel holds a channel, a PaRAM set and a TCC taken from the caller's own instance, recorded in the channel's binding |
| Edma3RmChannel.FreeAfterTook | arch/am335x/ti/edma3/rm/edma3resmgr.c:2503-2824 | freeing a channel whose binding records resources it took succeeds and restores the instance |
| Edma3RmChannel.FreeAfterHolds | arch/am335x/ti/edma3/rm/edma3resmgr.c:2503-2824 | freeing what allocLogicalChannel left holding returns the instance table to what it was before the allocation |
| Edma3RmChannel.AllocFreeLogicalChannel | arch/am335x/ti/edma3/rm/edma3resmgr.c:1908-2824 | allocLogicalChannel followed by freeLogicalChannel of the returned channel succeeds, restores every instance and leaves the binding (-1, EDMA3_MAX_TCC) |
| Edma3RmChannel.RegisterTccCb | arch/am335x/ti/edma3/rm/edma3resmgr.c:3063-3198 | registration succeeds exactly when the handle is open, the callback is non-NULL, the TCC is below numTccs with no callback yet and the channel is in range for its type; it then stores the callback and records the channel-to-TCC mapping and nothing else; a refusal changes nothing |
| Edma3RmChannel.UnregisterTccCb | arch/am335x/ti/edma3/rm/edma3resmgr.c:3200-3330 | unregistration succeeds exactly when the handle is open and the channel is in range for its type; a refusal changes nothing |
| Edma3RmChannel.RegisterUnregisterRoundTrip | arch/am335x/ti/edma3/rm/edma3resmgr.c:3063-3330 | unregistering what was registered succeeds, clears the callback again and resets the channel's TCC mapping to EDMA3_MAX_TCC |
| Edma3RmChannel.RegisterTwiceRefused | arch/am335x/ti/edma3/rm/edma3resmgr.c:3125 | a second registration on the same TCC is refused with CALLBACK_ALREADY_REGISTERED whatever channel or callback it names |
| Edma3RmContig.Cleared | arch/am335x/ti/edma3/rm/edma3resmgr.c:3476-3530 | clearing availability bits a .. b-1 changes those entries to false and no other |
| Edma3RmContig.Filled | arch/am335x/ti/edma3/rm/edma3resmgr.c:3915-3925 | freeing entries a .. b-1 sets those entries to true and no other |
| Edma3RmContig.FilledCleared | arch/am335x/ti/edma3/rm/edma3resmgr.c:3476-3530 | entries that were all available come back exactly when a cleared range is filled again |
| Edma3RmContig.ClearedFilled | arch/am335x/ti/edma3/rm/edma3resmgr.c:3915-3925 | entries that were all taken come back exactly when a filled range is cleared again |
| Edma3RmContig.Claimable | arch/am335x/ti/edma3/rm/edma3resmgr.c:3482-3485 | an entry can be claimed exactly when it is owned and available |
| Edma3RmContig.ClaimRangeBooks | arch/am335x/ti/edma3/rm/edma3resmgr.c:3474-3540 | the specific-range claim succeeds exactly when every entry first .. last-1 is owned and available, and then clears them all; on failure it reports RES_NOT_OWNED or SPECIFIED_RES_NOT_AVAILABLE for the first bad entry e, having cleared first .. e-1 (the source does not undo them) |
| Edma3RmContig.ClaimRangeLoop | arch/am335x/ti/edma3/rm/edma3resmgr.c:3476-3538 | the per-entry for loop computes ClaimRange |
| Edma3RmContig.Freeable | arch/am335x/ti/edma3/rm/edma3resmgr.c:1672-1674 | an entry can be freed exactly when it is owned and not available |
| Edma3RmContig.FreeRangeFrees | arch/am335x/ti/edma3/rm/edma3resmgr.c:3915-3925 | freeing first .. last one by one succeeds exactly when every entry is owned and taken and then sets them all available; on failure it stops at the first bad entry with RES_NOT_OWNED or RES_ALREADY_FREE, having freed those before it |
| Edma3RmContig.FreeRangeLoop | arch/am335x/ti/edma3/rm/edma3resmgr.c:3915-3925 | the for loop calling freeResource per entry computes FreeRange |
| Edma3RmContig.AllocRangeAccepts | arch/am335x/ti/edma3/rm/edma3resmgr.c:3436-3441 | with uint32 arithmetic the specific-range check refuses exactly the ranges that start at or past the pool end or run past it, and for an accepted range first + n does not wrap |
| Edma3RmContig.FreeRangeAccepts | arch/am335x/ti/edma3/rm/edma3resmgr.c:3905-3912 | the free check accepts exactly the non-empty ranges inside the pool, and there first + (n - 1) does not wrap |
| Edma3RmContig.ContigBits | arch/am335x/ti/edma3/rm/edma3resmgr.c:3740-3775 | the bitmap searched for RES_ANY has entry k set exactly when k is owned, available and not reserved, PaRAM sets limited to the whole words below numPaRAMSets, QDMA to one 32-bit word |
| Edma3RmContig.ContigSearchable | arch/am335x/ti/edma3/rm/edma3resmgr.c:3790 | the searched bitmap is long enough for allocAnyContigRes's word loop, its end fits a signed 32-bit id and nothing is set past the end |
| Edma3RmContig.FirstFit | arch/am335x/ti/edma3/rm/edma3resmgr.c:6327-6432 | the lowest start from `from` of n consecutive usable entries ending by `end`, or -1; every earlier start does not fit |
| Edma3RmContig.AnyRunStart | arch/am335x/ti/edma3/rm/edma3resmgr.c:3784-3800 | the run found for RES_ANY, if any, lies inside the pool |
| Edma3RmContig.FindAnyRun | arch/am335x/ti/edma3/rm/edma3resmgr.c:3784-3800 | building the bitmap and running allocAnyContigRes gives AnyRunStart |
| Edma3RmContig.FirstFitIs | arch/am335x/ti/edma3/rm/edma3resmgr.c:6327-6432 | a position that fits with no earlier fitting start is what FirstFit returns, and -1 when nothing fits |
| Edma3RmContig.GblChngLastAsWritten | arch/am335x/ti/edma3/rm/edma3resmgr.c:6479 | the uint32 last id `first + (n - 1)` is first + n - 1 for a non-empty run; for n = 0 it wraps |
| Edma3RmContig.GblChngAsWrittenNeverEnds | arch/am335x/ti/edma3/rm/edma3resmgr.c:6479-6481 | a request for 0 resources at RES_ANY fits at position 0, and there the last id wraps to 0xFFFFFFFF, so the loop `avlblIdx <= lastResId` has no uint32 value that stops it |
| Edma3RmContig.GblChngAllocContigRes | arch/am335x/ti/edma3/rm/edma3resmgr.c:6439-6577 | marking a found run taken clears exactly entries first .. first+n-1 of the availability bitmap |
| Edma3RmContig.ContigAllocIn | arch/am335x/ti/edma3/rm/edma3resmgr.c:3456-3810 | contiguous allocation changes only the instance's availability bitmaps; a failure reports the first id asked for |
| Edma3RmContig.ContigGivenIn | arch/am335x/ti/edma3/rm/edma3resmgr.c:3459-3720 | the specific-range branch changes only availability and reports the first id |
| Edma3RmContig.ContigAnyIn | arch/am335x/ti/edma3/rm/edma3resmgr.c:3727-3810 | the RES_ANY branch changes only availability; a failure reports RES_ANY |
| Edma3RmContig.ContigAllocLoop | arch/am335x/ti/edma3/rm/edma3resmgr.c:3456-3810 | the imperative allocation computes ContigAllocIn |
| Edma3RmContig.ContigGivenLoop | arch/am335x/ti/edma3/rm/edma3resmgr.c:3459-3720 | the imperative specific-range allocation computes ContigGivenIn |
| Edma3RmContig.ContigAnyLoop | arch/am335x/ti/edma3/rm/edma3resmgr.c:3727-3810 | the imperative RES_ANY allocation computes ContigAnyIn |
| Edma3RmContig.AllocContiguous | arch/am335x/ti/edma3/rm/edma3resmgr.c:3332-3838 | a closed handle or unknown type is refused with INVALID_PARAM and nothing changes; otherwise only the caller's instance changes and a failure reports the first id asked for |
| Edma3RmContig.ContigFreeIn | arch/am335x/ti/edma3/rm/edma3resmgr.c:3907-3930 | contiguous free changes only the instance's availability bitmaps |
| Edma3RmContig.ContigFreeRunIn | arch/am335x/ti/edma3/rm/edma3resmgr.c:3915-3925 | freeing an accepted run changes only availability |
| Edma3RmContig.ContigFreeLoop | arch/am335x/ti/edma3/rm/edma3resmgr.c:3907-3930 | the imperative free computes ContigFreeIn |
| Edma3RmContig.ContigFreeRunLoop | arch/am335x/ti/edma3/rm/edma3resmgr.c:3915-3925 | the imperative per-entry free computes ContigFreeRunIn |
| Edma3RmContig.FreeContiguous | arch/am335x/ti/edma3/rm/edma3resmgr.c:3840-3939 | a closed handle or unknown type is refused with INVALID_PARAM and nothing changes; otherwise only the caller's instance changes |
| Edma3RmContig.AllocContiguousGiven | arch/am335x/ti/edma3/rm/edma3resmgr.c:3427-3540 | a specific-range request succeeds exactly when the range lies in the pool and every entry is owned and available, and then takes exactly that range; a resource failure leaves first .. e-1 taken for some e in the range |
| Edma3RmContig.ContigGivenBooks | arch/am335x/ti/edma3/rm/edma3resmgr.c:3474-3720 | the instance-level statement of AllocContiguousGiven's three cases |
| Edma3RmContig.AllocContiguousAny | arch/am335x/ti/edma3/rm/edma3resmgr.c:3727-3810 | a RES_ANY request that succeeds takes the lowest run of n owned, available, unreserved entries, and only those |
| Edma3RmContig.ContigAnyFinds | arch/am335x/ti/edma3/rm/edma3resmgr.c:3784-3810 | the instance-level statement of AllocContiguousAny |
| Edma3RmContig.FreeContiguousRejectsEmpty | arch/am335x/ti/edma3/rm/edma3resmgr.c:3909-3911 | freeing 0 resources is refused with INVALID_PARAM, since the last id falls below the first |
| Edma3RmContig.WithRestored | arch/am335x/ti/edma3/rm/edma3resmgr.c:1133-1530 | putting a type's old bitmap back restores the pools |
| Edma3RmContig.FreeRangeAfterClaim | arch/am335x/ti/edma3/rm/edma3resmgr.c:3915-3925 | freeing a run just claimed succeeds and restores the availability bitmap |
| Edma3RmContig.AllocFreeContiguousRoundTrip | arch/am335x/ti/edma3/rm/edma3resmgr.c:3332-3939 | allocating a specific non-empty range and freeing the same range succeeds and restores the whole resource manager |
| Edma3RmContig.ContigGivenRoundTrip | arch/am335x/ti/edma3/rm/edma3resmgr.c:3459-3930 | the instance-level round trip: a claimed range freed again gives back the instance |
| Edma3RmLife.IdentityBelow | arch/am335x/ti/edma3/rm/edma3resmgr.c:475-481 | with no static channel-to-PaRAM map, entry k of the map becomes k for every DMA channel below numDmaChannels and stays as configured above |
| Edma3RmLife.IdentityBelowLoop | arch/am335x/ti/edma3/rm/edma3resmgr.c:477-480 | create's for loop computes IdentityBelow |
| Edma3RmLife.FillBelow | arch/am335x/ti/edma3/rm/edma3resmgr.c:511-523 | the first n entries of a TCC mapping table become EDMA3_MAX_TCC and the rest are kept |
| Edma3RmLife.FillBelowLoop | arch/am335x/ti/edma3/rm/edma3resmgr.c:511-523 | create's for loops compute FillBelow |
| Edma3RmLife.Unbound | arch/am335x/ti/edma3/rm/edma3resmgr.c:527-531 | every logical channel's binding is (-1, EDMA3_MAX_TCC) |
| Edma3RmLife.UnboundLoop | arch/am335x/ti/edma3/rm/edma3resmgr.c:527-531 | create's reset loop over all EDMA3_MAX_LOGICAL_CH entries gives Unbound |
| Edma3RmLife.Memzeroed | arch/am335x/ti/edma3/rm/edma3resmgr.c:1005-1006 | memzero of the binding table leaves every entry (0, 0) |
| Edma3RmLife.CopyWords | arch/am335x/ti/edma3/rm/edma3resmgr.c:831-846 | the first `words` 32-bit words of the destination bitmap are taken from the source, the rest are kept |
| Edma3RmLife.CopyWordsLoop | arch/am335x/ti/edma3/rm/edma3resmgr.c:831-846 | the word-copy loops of open compute CopyWords |
| Edma3RmLife.ReserveBelow | arch/am335x/ti/edma3/rm/edma3resmgr.c:855-858 | open reserves the PaRAM sets below numDmaChannels (their channel's own set) on top of the configured reservations |
| Edma3RmLife.ReserveBelowLoop | arch/am335x/ti/edma3/rm/edma3resmgr.c:855-858 | open's for loop computes ReserveBelow |
| Edma3RmLife.Claimed | arch/am335x/ti/edma3/rm/edma3resmgr.c:734-755 | entry k is set exactly when instance slot k is in use |
| Edma3RmLife.FirstFreeSlot | arch/am335x/ti/edma3/rm/edma3resmgr.c:734-755 | open takes the first instance slot that is not in use, or none (-1); proved against FirstFrom |
| Edma3RmLife.Initial | arch/am335x/ti/edma3/rm/edma3resmgr.c:168-317 | before any call the object is DELETED and has no register block |
| Edma3RmLife.CreatedConfig | arch/am335x/ti/edma3/rm/edma3resmgr.c:453-481 | the configuration kept by create is the caller's, except that without a static map every DMA channel below numDmaChannels maps to its own PaRAM set |
| Edma3RmLife.Create | arch/am335x/ti/edma3/rm/edma3resmgr.c:394-560 | create succeeds exactly on a DELETED object and otherwise returns OBJ_NOT_DELETED and changes nothing |
| Edma3RmLife.CreateSetsUp | arch/am335x/ti/edma3/rm/edma3resmgr.c:441-534 | a created object is CREATED with no opens, the DMA, link and QDMA ranges follow from the counts, the PaRAM map is the identity when none is given, all bindings are (-1, EDMA3_MAX_TCC), the DMA TCC map is EDMA3_MAX_TCC and no instance slot is in use |
| Edma3RmLife.Delete | arch/am335x/ti/edma3/rm/edma3resmgr.c:562-613 | delete succeeds exactly when nothing is open and the object is CLOSED or CREATED; it then marks it DELETED and clears the configuration, and a refusal changes nothing |
| Edma3RmLife.DeleteRefusals | arch/am335x/ti/edma3/rm/edma3resmgr.c:582-594 | delete returns OBJ_NOT_CLOSED exactly for a never-opened object in the wrong state and INVALID_STATE exactly while an instance is open |
| Edma3RmLife.CreateDeleteRoundTrip | arch/am335x/ti/edma3/rm/edma3resmgr.c:394-613 | a created object can be deleted, which returns it to DELETED with a cleared configuration, and created again |
| Edma3RmLife.OpenWords | arch/am335x/ti/edma3/rm/edma3resmgr.c:810-829 | the number of words open copies is count / 32, at least 1 for counts below 32 |
| Edma3RmLife.OpenAvailable | arch/am335x/ti/edma3/rm/edma3resmgr.c:831-846 | open's availability bitmaps are the owned bitmaps for the words it copies; the QDMA word is copied whole |
| Edma3RmLife.CloseAvailable | arch/am335x/ti/edma3/rm/edma3resmgr.c:963-979 | close clears the first count / 32 words of each availability bitmap and the QDMA word |
| Edma3RmLife.OpenedInstance | arch/am335x/ti/edma3/rm/edma3resmgr.c:734-895 | an opened slot is in use, has the caller's master flag and owns what the caller's configuration says |
| Edma3RmLife.OpenChecks | arch/am335x/ti/edma3/rm/edma3resmgr.c:649-726 | open's checks pass exactly when there is a semaphore, the region exists, fewer than EDMA3_MAX_RM_INSTANCES are open, the state matches the open count and no second master is asked for; otherwise the error is one of INVALID_PARAM, INVALID_STATE, MAX_RM_INST_OPENED, MASTER_ALREADY_EXISTS |
| Edma3RmLife.Open | arch/am335x/ti/edma3/rm/edma3resmgr.c:615-922 | a successful open returns a handle to a slot that was not in use, fills only that slot, counts one more open, sets OPENED and records a master; a failure returns no handle and leaves the object's state as it was |
| Edma3RmLife.OpenSucceeds | arch/am335x/ti/edma3/rm/edma3resmgr.c:734-895 | an opened instance takes the lowest free slot, its region, availability copied from what it owns word by word, the PaRAM sets of the DMA channels reserved, and the configured option flags |
| Edma3RmLife.OpenWordsCover | arch/am335x/ti/edma3/rm/edma3resmgr.c:810-829 | for counts below 32 or a multiple of 32, the copied words cover every resource |
| Edma3RmLife.CloseWith | arch/am335x/ti/edma3/rm/edma3resmgr.c:924-1024 | close succeeds exactly for an instance in use on an OPENED object; it releases the slot, counts one open fewer with uint32 arithmetic, clears the master flag for the master, and on the last close sets CLOSED and resets the binding table; other slots are untouched |
| Edma3RmLife.CloseAsWritten | arch/am335x/ti/edma3/rm/edma3resmgr.c:1003-1008 | the last close as written memzeroes the binding table, so every channel is bound to PaRAM set 0 |
| Edma3RmLife.NoFreeLinkRefused | arch/am335x/ti/edma3/rm/edma3resmgr.c:2239-2253 | with every link channel bound, a link-channel request never succeeds (corrected definition) |
| Edma3RmLife.CloseAsWrittenBlocksLinks | arch/am335x/ti/edma3/rm/edma3resmgr.c:1005-1006 | after the last close as written no channel counts as a free link, so once reopened no link channel can ever be allocated |
| Edma3RmLife.Close | arch/am335x/ti/edma3/rm/edma3resmgr.c:924-1024 | the corrected close leaves every binding (-1, EDMA3_MAX_TCC), as create does |
| Edma3RmLife.CloseKeepsLinksFree | arch/am335x/ti/edma3/rm/edma3resmgr.c:2199-2272 | after the corrected last close, a reopened object hands out the first link channel whenever the PaRAM set can be allocated |
| Edma3RmLife.ClaimedCount | arch/am335x/ti/edma3/rm/edma3resmgr.c:734-755 | the number of instance slots in use is at most the number of slots |
| Edma3RmLife.ClaimedCountUpdate | arch/am335x/ti/edma3/rm/edma3resmgr.c:901 | changing one slot changes the count by the change of that slot's flag |
| Edma3RmLife.ClaimedCountZero | arch/am335x/ti/edma3/rm/edma3resmgr.c:1002-1003 | no slot is in use exactly when the count is 0 |
| Edma3RmLife.ClaimedCountFull | arch/am335x/ti/edma3/rm/edma3resmgr.c:702-704 | every slot is in use exactly when the count equals the number of slots |
| Edma3RmLife.ClaimedCountSame | arch/am335x/ti/edma3/rm/edma3resmgr.c:734-755 | slot sequences with the same in-use flags have the same count |
| Edma3RmLife.ClaimSlot | arch/am335x/ti/edma3/rm/edma3resmgr.c:866-901 | claiming a free slot keeps numOpens equal to the slots in use and the master flag true exactly while one master is open |
| Edma3RmLife.ReleaseSlot | arch/am335x/ti/edma3/rm/edma3resmgr.c:984-1002 | releasing a slot in use keeps the same bookkeeping with one open fewer |
| Edma3RmLife.SameFlags | arch/am335x/ti/edma3/rm/edma3resmgr.c:734-755 | the bookkeeping depends only on the slots' in-use and master flags |
| Edma3RmLife.InitialInv | arch/am335x/ti/edma3/rm/edma3resmgr.c:168-317 | the initial object satisfies the bookkeeping invariant: numOpens counts the slots in use, masterExists says whether a master is open, there is at most one master, and the object is OPENED exactly while something is open |
| Edma3RmLife.CreateKeepsInv | arch/am335x/ti/edma3/rm/edma3resmgr.c:394-560 | create keeps the invariant |
| Edma3RmLife.DeleteKeepsInv | arch/am335x/ti/edma3/rm/edma3resmgr.c:562-613 | delete keeps the invariant |
| Edma3RmLife.OpenKeepsInv | arch/am335x/ti/edma3/rm/edma3resmgr.c:615-922 | open keeps the invariant |
| Edma3RmLife.CloseKeepsInv | arch/am335x/ti/edma3/rm/edma3resmgr.c:924-1024 | close keeps the invariant |
| Edma3RmLife.FlagsFrameKeepsInv | arch/am335x/ti/edma3/rm/edma3resmgr.c:1026-1906 | any step that leaves the controller and every slot's in-use and master flags alone keeps the invariant |
| Edma3RmLife.AllocResourceKeepsInv | arch/am335x/ti/edma3/rm/edma3resmgr.c:1026-1608 | allocResource keeps the invariant |
| Edma3RmLife.FreeResourceKeepsInv | arch/am335x/ti/edma3/rm/edma3resmgr.c:1610-1906 | freeResource keeps the invariant |
| Edma3RmLife.SecondMasterRefused | arch/am335x/ti/edma3/rm/edma3resmgr.c:723-726 | while a master instance is open, a second master's open fails |
| Edma3RmLife.OpenFindsSlot | arch/am335x/ti/edma3/rm/edma3resmgr.c:702-759 | under the invariant open reports MAX_RM_INST_OPENED only when every slot is in use |
| Edma3RmLife.OpenCloseRoundTrip | arch/am335x/ti/edma3/rm/edma3resmgr.c:615-1024 | open followed by close of the returned handle succeeds and restores the open count and master flag, releases the slot, and leaves the object CLOSED exactly when nothing was open before |
| Edma3RmLife.Ioctl | arch/am335x/ti/edma3/rm/edma3resmgr.c:4928-5098 | Ioctl succeeds exactly for an open handle, a command inside the range and an argument that is 0 or 1 for the two set commands and non-NULL otherwise; a success changes at most the caller's two option flags, a failure changes nothing |
| Edma3RmLife.IoctlSetGet | arch/am335x/ti/edma3/rm/edma3resmgr.c:4975-5060 | a get after a set returns the value set, and setting one option leaves what the other get returns unchanged |
| Edma3RmLife.IoctlKeepsInv | arch/am335x/ti/edma3/rm/edma3resmgr.c:4928-5098 | Ioctl keeps the invariant |
| Edma3RmLife.MemCpy | arch/am335x/ti/edma3/rm/edma3resmgr.c:6064-6086 | the first len / 4 words of the destination become the source's and the rest stay as they were |
| Edma3RmManager.ResourceManager.constructor | arch/am335x/ti/edma3/rm/edma3resmgr.c:168-317 | the object starts as the memzeroed globals: DELETED, no register block |
| Edma3RmManager.ResourceManager.Create | arch/am335x/ti/edma3/rm/edma3resmgr.c:394-560 | create updates the controller and tables in place to exactly the state and status of Edma3RmLife.Create |
| Edma3RmManager.ResourceManager.Delete | arch/am335x/ti/edma3/rm/edma3resmgr.c:562-613 | delete leaves exactly Edma3RmLife.Delete's state and status |
| Edma3RmManager.ResourceManager.Open | arch/am335x/ti/edma3/rm/edma3resmgr.c:615-922 | open, with its slot search and word-copy loops, leaves exactly Edma3RmLife.Open's state, status and handle |
| Edma3RmManager.ResourceManager.Close | arch/am335x/ti/edma3/rm/edma3resmgr.c:924-1024 | close, with its word-clearing loops, leaves exactly the corrected Edma3RmLife.Close's state and status |
| Edma3RmManager.ResourceManager.Ioctl | arch/am335x/ti/edma3/rm/edma3resmgr.c:4928-5098 | Ioctl leaves exactly Edma3RmLife.Ioctl's state, status and returned value |
| Edma3RmManager.ResourceManager.AllocResource | arch/am335x/ti/edma3/rm/edma3resmgr.c:1026-1608 | allocResource leaves Edma3Rm.AllocResource's state, status and id; a granted id is below the configured count of its type |
| Edma3RmManager.ResourceManager.FreeResource | arch/am335x/ti/edma3/rm/edma3resmgr.c:1610-1906 | freeResource leaves Edma3Rm.FreeResource's state and status |
| Edma3RmManager.ResourceManager.AllocContiguous | arch/am335x/ti/edma3/rm/edma3resmgr.c:3332-3838 | allocContiguousResource, with its claim loops and allocAnyContigRes search, leaves Edma3RmContig.AllocContiguous's state, status and first id |
| Edma3RmManager.ResourceManager.FreeContiguous | arch/am335x/ti/edma3/rm/edma3resmgr.c:3840-3939 | freeContiguousResource leaves Edma3RmContig.FreeContiguous's state and status |
| Edma3RmManager.ResourceManager.Bind | arch/am335x/ti/edma3/rm/edma3resmgr.c:2258 | recording a binding changes exactly that entry of the binding table |
| Edma3RmManager.ResourceManager.BindChannel | arch/am335x/ti/edma3/rm/edma3resmgr.c:2292-2390 | the second stage of allocLogicalChannel (PaRAM set, TCC, rollback) leaves Edma3RmChannel.BindChannel's state and status |
| Edma3RmManager.ResourceManager.AllocDmaChannel | arch/am335x/ti/edma3/rm/edma3resmgr.c:1997-2135 | the DMA branch leaves Edma3RmChannel.AllocDmaChannel's state, status and channel |
| Edma3RmManager.ResourceManager.AllocQdmaChannel | arch/am335x/ti/edma3/rm/edma3resmgr.c:2137-2197 | the QDMA branch leaves Edma3RmChannel.AllocQdmaChannel's state, status and channel |
| Edma3RmManager.ResourceManager.BindQdmaChannel | arch/am335x/ti/edma3/rm/edma3resmgr.c:2393-2490 | after the QDMA channel was granted, the second stage completes Edma3RmChannel.AllocQdmaChannel |
| Edma3RmManager.ResourceManager.AllocParamChannel | arch/am335x/ti/edma3/rm/edma3resmgr.c:2199-2272 | the link-channel branch, with its search loop, leaves the corrected Edma3RmChannel.AllocParamChannel's state, status and id |
| Edma3RmManager.ResourceManager.AllocLogicalChannel | arch/am335x/ti/edma3/rm/edma3resmgr.c:1908-2501 | allocLogicalChannel leaves Edma3RmChannel.AllocLogicalChannel's state, status and channel |
| Edma3RmManager.ResourceManager.UnbindChannel | arch/am335x/ti/edma3/rm/edma3resmgr.c:2575-2770 | freeing a bound channel's resources leaves Edma3RmChannel.UnbindChannel's state and status |
| Edma3RmManager.ResourceManager.FreeLogicalChannel | arch/am335x/ti/edma3/rm/edma3resmgr.c:2503-2824 | freeLogicalChannel leaves Edma3RmChannel.FreeLogicalChannel's state and status |
| Edma3RmManager.ResourceManager.FreeLinkChannel | arch/am335x/ti/edma3/rm/edma3resmgr.c:2772-2805 | freeing a link channel, with its release loop over linkMin .. linkMax, leaves Edma3RmChannel.FreeLinkChannel's state and status |
| Edma3RmManager.ResourceManager.RegisterTccCb | arch/am335x/ti/edma3/rm/edma3resmgr.c:3063-3198 | registerTccCb leaves Edma3RmChannel.RegisterTccCb's state and status |
| Edma3RmManager.ResourceManager.UnregisterTccCb | arch/am335x/ti/edma3/rm/edma3resmgr.c:3200-3330 | unregisterTccCb leaves Edma3RmChannel.UnregisterTccCb's state and status |
| Edma3Drv.DrvStatus.Code | arch/am335x/ti/edma3/edma3_drv.h:115-181 | EDMA3_DRV_SOK is 0 and the driver's own errors lie in its block counting down from EDMA3_DRV_E_BASE (-128) |
| Edma3Drv.OfRm | arch/am335x/ti/edma3/drv/edma3_drv_basic.c:505-523 | a resource-manager result passed up by the driver is success exactly when it was OK and keeps its numeric code |
| Edma3Drv.Drv.WithWord | arch/am335x/ti/edma3/drv/edma3_drv_adv.c:823-908 | writing one word of one PaRAM set changes exactly that word of the PaRAM and nothing else of the driver |
| Edma3Drv.SlotsDiffer | arch/am335x/ti/edma3/drv/edma3_drv_adv.c:823-908 | distinct (set, entry) pairs address distinct PaRAM words |
| Edma3Drv.WordAfterWrite | arch/am335x/ti/edma3/drv/edma3_drv_adv.c:823-993 | reading a word after a write gives the written value at that word and the old value everywhere else |
| Edma3Drv.RangesFit | arch/am335x/ti/edma3/rm/edma3resmgr.c:487-493 | with a register block, the channel ranges the driver tests lCh against are contiguous: DMA below 64, link right after, QDMA right after the link range and inside the logical channel table, the counts inside their bitmaps |
| Edma3Drv.SetOf | arch/am335x/ti/edma3/drv/edma3_drv_adv.c:823-850 | a channel that holds a PaRAM set holds one below numPaRAMSets: the one recorded in its binding |
| Edma3Drv.HalfWrites | arch/am335x/ti/edma3/drv/edma3_drv_basic.c:1523-1530 | writing the low half of an index word replaces the low 16 bits and keeps the high 16 bits, and writing the high half does the converse |
| Edma3Drv.HalvesDetermine | arch/am335x/ti/edma3/drv/edma3_drv_basic.c:1520-1540 | a 32-bit word is determined by its two 16-bit halves |
| Edma3Drv.TccField | arch/am335x/ti/edma3/drv/edma3_drv_adv.c:2632-2633 | writing the TCC into OPT stores its low 6 bits in the TCC field and leaves every other OPT bit as it was |
| Edma3Drv.OptTccFits | arch/am335x/ti/edma3/drv/edma3_drv_adv.c:253-258 | the TCC read from OPT is a 6-bit value below 64 |
| Edma3Drv.FlagField | arch/am335x/ti/edma3/drv/edma3_drv_adv.c:441-468 | setting or clearing an OPT flag sets exactly its mask bits and keeps the rest of OPT |
| Edma3Drv.QueueRoundTrip | arch/am335x/ti/edma3/drv/edma3_drv_adv.c:1486-1507 | after writing queue q for channel k of a DMAQNUM or QDMAQNUM word, reading that channel's field gives q's low 3 bits |
| Edma3Drv.QueueKeepsOthers | arch/am335x/ti/edma3/drv/edma3_drv_adv.c:1486-1507 | writing one channel's queue field leaves the other seven fields of the word as they were |
| Edma3DrvAdv.LinkChannel | arch/am335x/ti/edma3/drv/edma3_drv_adv.c:150-272 | linkChannel succeeds exactly when both channels hold a PaRAM set below numPaRAMSets, and otherwise returns INVALID_PARAM and writes nothing; it changes only PaRAM words |
| Edma3DrvAdv.LinkChannelWords | arch/am335x/ti/edma3/drv/edma3_drv_adv.c:232-262 | the link field of the first set becomes the low half of the second set's address, and when the second channel has no TCC of its own the first set's TCC is copied into its OPT; no other word changes |
| Edma3DrvAdv.LinkKeepsOtherWords | arch/am335x/ti/edma3/drv/edma3_drv_adv.c:232-262 | linking writes only the first set's LINK_BCNTRLD word and the second set's OPT word |
| Edma3DrvAdv.LinkedWords | arch/am335x/ti/edma3/drv/edma3_drv_adv.c:235-242 | the link write leaves both OPT words as they were |
| Edma3DrvAdv.LinkChannelWrites | arch/am335x/ti/edma3/drv/edma3_drv_adv.c:232-262 | after linkChannel the first set links to the second's address and keeps its BCNTRLD half; the second's OPT carries the first's TCC (and its other bits) when the second has no TCC, and is unchanged otherwise |
| Edma3DrvAdv.UnlinkChannel | arch/am335x/ti/edma3/drv/edma3_drv_adv.c:274-364 | unlinkChannel succeeds exactly when the channel holds a PaRAM set and otherwise writes nothing; it changes only PaRAM words |
| Edma3DrvAdv.UnlinkChannelWrites | arch/am335x/ti/edma3/drv/edma3_drv_adv.c:338-346 | the link field becomes 0xFFFF (no link), BCNTRLD is kept and no other word changes |
| Edma3DrvAdv.LinkThenUnlink | arch/am335x/ti/edma3/drv/edma3_drv_adv.c:150-364 | unlinking a linked channel succeeds and leaves it with no link and its original BCNTRLD |
| Edma3DrvAdv.ChainOptTcc | arch/am335x/ti/edma3/drv/edma3_drv_adv.c:478-481 | the chained OPT's TCC field holds the chained channel's number |
| Edma3DrvAdv.ChainOptFlags | arch/am335x/ti/edma3/drv/edma3_drv_adv.c:438-483 | each of TCCHEN, ITCCHEN, TCINTEN and ITCINTEN is set in the chained OPT exactly when the chain options enable it |
| Edma3DrvAdv.ChainFlagsSet | arch/am335x/ti/edma3/drv/edma3_drv_adv.c:441-481 | writing the TCC after the four flags keeps the flags as set |
| Edma3DrvAdv.ChainOptKeeps | arch/am335x/ti/edma3/drv/edma3_drv_adv.c:438-483 | chaining changes no OPT bit outside the four flags and the TCC field |
| Edma3DrvAdv.ChainFlagsKeep | arch/am335x/ti/edma3/drv/edma3_drv_adv.c:441-481 | the flag and TCC writes keep every other OPT bit |
| Edma3DrvAdv.ChainChannel | arch/am335x/ti/edma3/drv/edma3_drv_adv.c:366-499 | chainChannel succeeds exactly when the first channel holds a PaRAM set and the second is a DMA channel, and otherwise writes nothing |
| Edma3DrvAdv.ChainChannelWrites | arch/am335x/ti/edma3/drv/edma3_drv_adv.c:436-490 | chaining writes only the first set's OPT word, as ChainOpt with the second channel as TCC, and copies the first channel's trigger mode to the second; nothing else of the channel table changes |
| Edma3DrvAdv.UnchainOptFields | arch/am335x/ti/edma3/drv/edma3_drv_adv.c:566-573 | unchaining clears TCCHEN and ITCCHEN and keeps every other OPT bit |
| Edma3DrvAdv.UnchainChannel | arch/am335x/ti/edma3/drv/edma3_drv_adv.c:501-585 | unchainChannel succeeds exactly when the channel holds a PaRAM set and otherwise writes nothing |
| Edma3DrvAdv.ChainThenUnchain | arch/am335x/ti/edma3/drv/edma3_drv_adv.c:366-585 | unchaining a chained channel succeeds and leaves the chained OPT with the two chaining enables cleared |
| Edma3DrvAdv.SetPaRAMEntry | arch/am335x/ti/edma3/drv/edma3_drv_adv.c:823-908 | setPaRAMEntry succeeds exactly for an entry index 0 .. 7 of a channel holding a PaRAM set, and otherwise writes nothing |
| Edma3DrvAdv.GetPaRAMEntry | arch/am335x/ti/edma3/drv/edma3_drv_adv.c:910-993 | getPaRAMEntry succeeds under the same condition and returns 0 with INVALID_PARAM otherwise |
| Edma3DrvAdv.EntryRoundTrip | arch/am335x/ti/edma3/drv/edma3_drv_adv.c:823-993 | reading an entry after writing it returns the written value, other entries read as before, and only that word changed |
| Edma3DrvAdv.FieldEntry | arch/am335x/ti/edma3/drv/edma3_drv_adv.c:1060-1160 | every PaRAM field lives in one of the set's 8 words |
| Edma3DrvAdv.FieldWriteRead | arch/am335x/ti/edma3/drv/edma3_drv_adv.c:1060-1160 | reading a field after writing it gives the value written (its low 16 bits for a half-word field), and writing a half-word field keeps the other half of the word |
| Edma3DrvAdv.LowIsLow | arch/am335x/ti/edma3/drv/edma3_drv_adv.c:1086-1087 | taking the low half twice is taking it once |
| Edma3DrvAdv.QdmaRejectedCases | arch/am335x/ti/edma3/drv/edma3_drv_adv.c:1051 | the QDMA guard as written (lCh <= qdmaMin and lCh >= qdmaMax) rejects a QDMA channel only when there is exactly one, with none it rejects the last link channel and the first id past it, and with two or more it rejects nothing |
| Edma3DrvAdv.SetPaRAMField | arch/am335x/ti/edma3/drv/edma3_drv_adv.c:995-1171 | setPaRAMField succeeds exactly for a known field of a channel holding a PaRAM set that the guard at line 1051 does not reject, and otherwise writes nothing |
| Edma3DrvAdv.GetPaRAMField | arch/am335x/ti/edma3/drv/edma3_drv_adv.c:1173-1325 | getPaRAMField succeeds exactly for a known field of a channel holding a PaRAM set, and returns 0 with INVALID_PARAM otherwise |
| Edma3DrvAdv.FieldRoundTrip | arch/am335x/ti/edma3/drv/edma3_drv_adv.c:995-1325 | reading a field after writing it gives the value written, or its low half for a 16-bit field |
| Edma3DrvAdv.FieldWriteFrame | arch/am335x/ti/edma3/drv/edma3_drv_adv.c:1060-1160 | a field write changes only the word holding the field, and only the field's half of it for a 16-bit field |
| Edma3DrvAdv.WholeFieldIsEntry | arch/am335x/ti/edma3/drv/edma3_drv_adv.c:995-1171 | writing a whole-word field is writing its PaRAM entry |
| Edma3DrvAdv.MapChToEvtQ | arch/am335x/ti/edma3/drv/edma3_drv_adv.c:1415-1530 | mapChToEvtQ succeeds exactly with a register block, a channel up to logMax that is a DMA or QDMA channel and a queue below numEvtQueue; it changes only the queue registers, and a refusal changes nothing |
| Edma3DrvAdv.QueueFits | arch/am335x/ti/edma3/drv/edma3_drv_adv.c:1488-1489 | a queue number below 8 fits the 3-bit queue field |
| Edma3DrvAdv.MapDmaChWords | arch/am335x/ti/edma3/drv/edma3_drv_adv.c:1479-1490 | for a DMA channel only DMAQNUM word ch / 8 changes, at field ch % 8 |
| Edma3DrvAdv.MapQdmaChWords | arch/am335x/ti/edma3/drv/edma3_drv_adv.c:1497-1508 | for a QDMA channel only QDMAQNUM changes, at field ch - qdmaMin |
| Edma3DrvAdv.MapChToEvtQMaps | arch/am335x/ti/edma3/drv/edma3_drv_adv.c:1415-1530 | after a successful call the channel's queue field reads back the queue asked for |
| Edma3DrvAdv.MapDmaChKeeps | arch/am335x/ti/edma3/drv/edma3_drv_adv.c:1486-1489 | the other channels' fields of that DMAQNUM word are kept |
| Edma3DrvAdv.MapQdmaChKeeps | arch/am335x/ti/edma3/drv/edma3_drv_adv.c:1504-1507 | the other QDMA channels' fields of QDMAQNUM are kept and DMAQNUM is untouched |
| Edma3DrvAdv.MapTccLinkCh | arch/am335x/ti/edma3/drv/edma3_drv_adv.c:2577-2644 | mapTccLinkCh succeeds exactly with a register block, a link channel holding a PaRAM set and a TCC below numTccs, and otherwise writes nothing |
| Edma3DrvAdv.MapTccLinkChWords | arch/am335x/ti/edma3/drv/edma3_drv_adv.c:2621-2636 | the link channel's OPT gets the TCC in its TCC field, no other PaRAM word changes, and its binding records the TCC and nothing else in the table changes |
| Edma3DrvAdv.TccFits | arch/am335x/ti/edma3/drv/edma3_drv_adv.c:2633 | a TCC below 64 fits the 6-bit TCC field |
| Edma3DrvAdv.MapTccLinkChBinds | arch/am335x/ti/edma3/drv/edma3_drv_adv.c:2621-2636 | after the call the binding and the OPT word both name the TCC, with the rest of OPT and the PaRAM set kept |
| Edma3DrvAdv.LinkAfterMapTccKeepsOpt | arch/am335x/ti/edma3/drv/edma3_drv_adv.c:249-259 | once a link channel has a TCC of its own, linking to it leaves its OPT alone |
| Edma3DrvAdv.BadBindingWritesNothing | arch/am335x/ti/edma3/drv/edma3_drv_adv.c:213-230 | a channel bound to no PaRAM set, or to one at or beyond numPaRAMSets, is refused with INVALID_PARAM by link, unlink, chain, unchain, setPaRAMEntry, setPaRAMField and mapTccLinkCh, and none of them changes anything |
| Edma3DrvAdv.GetInstHandleFinds | arch/am335x/ti/edma3/drv/edma3_drv_adv.c:2112-2162 | getInstHandle returns the instance of that controller and region exactly when it was opened; an unopened instance of a valid region gives INST_NOT_OPENED, anything out of range INVALID_PARAM, and neither gives a handle |
| Edma3DrvAdv.StatusWordFlags | arch/am335x/ti/edma3/drv/edma3_drv_adv.c:2505-2563 | the status word has the error, event-pending and transfer-complete bits set exactly as observed and no other bit |
| Edma3DrvAdv.ChannelStatus | arch/am335x/ti/edma3/drv/edma3_drv_adv.c:2431-2575 | getChannelStatus succeeds exactly for a channel up to logMax that is not a link channel and whose TCC is below numTccs, and returns 0 with INVALID_PARAM otherwise |
| Edma3DrvAdv.ChannelStatusFlags | arch/am335x/ti/edma3/drv/edma3_drv_adv.c:2505-2563 | the returned word reports an error from EMR/QEMR, a pending event from ER and completion from IPR, each exactly when the register bit is set |
| Edma3DrvBasic.QueueInFits | arch/am335x/ti/edma3/drv/edma3_drv_basic.c:1258 | a queue field read from a DMAQNUM or QDMAQNUM word is below 8 |
| Edma3DrvBasic.FifoQueue | arch/am335x/ti/edma3/drv/edma3_drv_basic.c:1254-1266 | the event queue (and so the transfer controller) that serves a FIFO transfer on the channel, read from its queue field; it is a valid TC index |
| Edma3DrvBasic.FifoQueueAsWritten | arch/am335x/ti/edma3/drv/edma3_drv_basic.c:1262-1265 | the QDMA read as written shifts QDMAQNUM by 4 * lCh instead of 4 * (lCh - qdmaMin), and for every QDMA channel the result is queue 0 |
| Edma3DrvBasic.MaskedSlotShifted | arch/am335x/ti/edma3/drv/edma3_drv_basic.c:1264 | a queue field shifted by at least its own end reads as 0 |
| Edma3DrvBasic.FifoQueueAsWrittenMisreads | arch/am335x/ti/edma3/drv/edma3_drv_basic.c:1264 | a QDMA channel mapped to any queue but 0 has its burst size checked against TC 0 instead of its own TC |
| Edma3DrvBasic.FifoQueueIsMapped | arch/am335x/ti/edma3/drv/edma3_drv_basic.c:1254-1266 | for a DMA or QDMA channel the corrected read gives the queue the channel is mapped to |
| Edma3DrvBasic.FifoQueueAfterMap | arch/am335x/ti/edma3/drv/edma3_drv_adv.c:1415-1530 | after mapChToEvtQ maps a channel to queue q, the FIFO check uses TC q |
| Edma3DrvBasic.SmallSame | arch/am335x/ti/edma3/drv/edma3_drv_basic.c:1258 | two numbers below 8 with the same 32-bit pattern are equal |
| Edma3DrvBasic.SrcModeOptFields | arch/am335x/ti/edma3/drv/edma3_drv_basic.c:1287-1297 | setSrcParams sets SAM exactly for FIFO mode, puts the FIFO width in FWID and keeps every other OPT bit |
| Edma3DrvBasic.DestModeOptFields | arch/am335x/ti/edma3/drv/edma3_drv_basic.c:1427-1437 | setDestParams does the same with DAM |
| Edma3DrvBasic.SetAddrParams | arch/am335x/ti/edma3/drv/edma3_drv_basic.c:1171-1449 | setSrcParams/setDestParams succeed exactly for a mode and width in range, an address 32-byte aligned in FIFO mode, a channel holding a PaRAM set, and in FIFO mode a burst no larger than the serving TC's default burst size; a misaligned FIFO address gives ADDRESS_NOT_ALIGNED, a too-wide FIFO gives FIFO_WIDTH_NOT_SUPPORTED, any failure writes nothing, and only PaRAM words change |
| Edma3DrvBasic.SetAddrParamsWords | arch/am335x/ti/edma3/drv/edma3_drv_basic.c:1281-1297 | on success only the SRC (or DST) word, now the address, and OPT, now with the mode and width, change |
| Edma3DrvBasic.SmallArgs | arch/am335x/ti/edma3/drv/edma3_drv_basic.c:1197 | in-range mode and width fit their OPT fields, and mode 1 is FIFO |
| Edma3DrvBasic.SetSrcParamsWrites | arch/am335x/ti/edma3/drv/edma3_drv_basic.c:1171-1309 | after setSrcParams the SRC word is the address, SAM says FIFO, FWID holds the width and no other OPT bit changed |
| Edma3DrvBasic.SetDestParamsWrites | arch/am335x/ti/edma3/drv/edma3_drv_basic.c:1311-1449 | after setDestParams the DST word is the address, DAM says FIFO, FWID holds the width and no other OPT bit changed |
| Edma3DrvBasic.SetIndex | arch/am335x/ti/edma3/drv/edma3_drv_basic.c:1451-1656 | setSrcIndex/setDestIndex succeed exactly for B and C indexes in the signed 16-bit range and a channel holding a PaRAM set, and otherwise write nothing |
| Edma3DrvBasic.SetIndexWords | arch/am335x/ti/edma3/drv/edma3_drv_basic.c:1520-1540 | on success only the BIDX and CIDX words change, each in the side (source or destination) the call writes |
| Edma3DrvBasic.SetSrcIndexWrites | arch/am335x/ti/edma3/drv/edma3_drv_basic.c:1520-1540 | setSrcIndex puts the indexes in the low halves and keeps the destination halves |
| Edma3DrvBasic.SetDestIndexWrites | arch/am335x/ti/edma3/drv/edma3_drv_basic.c:1623-1643 | setDestIndex puts the indexes in the high halves and keeps the source halves |
| Edma3DrvBasic.SrcThenDestIndex | arch/am335x/ti/edma3/drv/edma3_drv_basic.c:1451-1656 | after setSrcIndex and then setDestIndex both pairs of indexes are in place, neither overwriting the other |
| Edma3DrvBasic.SetTransferParams | arch/am335x/ti/edma3/drv/edma3_drv_basic.c:1658-1764 | setTransferParams succeeds exactly for counts of at most 0xFFFF, a known sync type and a channel holding a PaRAM set, and otherwise writes nothing |
| Edma3DrvBasic.SetTransferParamsWords | arch/am335x/ti/edma3/drv/edma3_drv_basic.c:1728-1751 | on success ACNT_BCNT, CCNT, LINK_BCNTRLD and OPT are rewritten and no other PaRAM word changes |
| Edma3DrvBasic.AbCntFields | arch/am335x/ti/edma3/drv/edma3_drv_basic.c:1730-1733 | the ACNT_BCNT word holds aCnt in its low half and bCnt in its high half |
| Edma3DrvBasic.OrReloadFields | arch/am335x/ti/edma3/drv/edma3_drv_basic.c:1738-1743 | the reload is ORed into the high half of LINK_BCNTRLD and the link half is kept |
| Edma3DrvBasic.SyncOptFields | arch/am335x/ti/edma3/drv/edma3_drv_basic.c:1745-1751 | SYNCDIM is set exactly for AB-synchronised transfers and the rest of OPT is kept |
| Edma3DrvBasic.SetTransferParamsWrites | arch/am335x/ti/edma3/drv/edma3_drv_basic.c:1728-1751 | after the call the counts read back, the link is kept, the old reload bits are ORed with the new ones and SYNCDIM follows the sync type |
| Edma3DrvBasic.OrReloadTwice | arch/am335x/ti/edma3/drv/edma3_drv_basic.c:1738-1743 | two reload writes accumulate: the high half is the OR of the old value and both reloads |
| Edma3DrvBasic.ReloadsAccumulate | arch/am335x/ti/edma3/drv/edma3_drv_basic.c:1738-1743 | calling setTransferParams twice leaves the OR of both reload values, since the old reload is never cleared |
| Edma3DrvBasic.WithTrigMode | arch/am335x/ti/edma3/drv/edma3_drv_basic.c:1857-1893 | recording a trigger mode changes that channel's mode |
| Edma3DrvBasic.EnableTransferAsWritten | arch/am335x/ti/edma3/drv/edma3_drv_basic.c:1766-1913 | enableTransfer as written succeeds exactly when its checks pass: the hardware-event check is skipped for a channel at or above 64 |
| Edma3DrvBasic.EventBeyondDmaAsWritten | arch/am335x/ti/edma3/drv/edma3_drv_basic.c:1831-1837 | event-triggering a channel from 64 up to logMax passes the checks as written, while the corrected check refuses it |
| Edma3DrvBasic.EnableTransfer | arch/am335x/ti/edma3/drv/edma3_drv_basic.c:1766-1913 | the corrected enableTransfer succeeds exactly when its checks pass, changes only that channel's trigger mode and otherwise changes nothing |
| Edma3DrvBasic.EnableTransferModes | arch/am335x/ti/edma3/drv/edma3_drv_basic.c:1818-1837 | manual mode is for DMA channels, QDMA mode for QDMA channels, event mode for DMA channels tied to a hardware event |
| Edma3DrvBasic.DisableTransfer | arch/am335x/ti/edma3/drv/edma3_drv_basic.c:1915-2084 | disableTransfer succeeds exactly when the same checks as written pass, and otherwise returns INVALID_PARAM |
| Edma3DrvBasic.EnableThenDisable | arch/am335x/ti/edma3/drv/edma3_drv_basic.c:1766-2084 | a channel enabled in a mode records it and can be disabled in that mode |
| Edma3DrvBasic.GetVersion | arch/am335x/ti/edma3/edma3_drv.h:106 | the version is 2.12.1.24, one byte per part |
| Edma3DrvRequest.Classify | arch/am335x/ti/edma3/drv/edma3_drv_basic.c:237-371 | a request is accepted exactly when the instance has global registers and it is a DMA or QDMA request (specific or ANY) with a queue below numEvtQueue and a non-NULL pTcc, or a link request (any link, or a specific or TCC-carrying link whose TCC, if given, is below numTccs, the TCC-carrying one requiring it); the accepted channel type is DMA, QDMA or link-with-TCC exactly for those requests, and the requested channel and PaRAM set are the specific number or ANY |
| Edma3DrvRequest.RequestLink | arch/am335x/ti/edma3/drv/edma3_drv_basic.c:452-486 | a link request allocates a PaRAM set from the resource manager; on refusal nothing changes and the RM status is passed on, on success the logical channel is the PaRAM number and its bookkeeping names that set, the requested TCC for a link-with-TCC channel, and no trigger mode |
| Edma3DrvRequest.AllocInRange | arch/am335x/ti/edma3/rm/edma3resmgr.c:1026-1608 | a resource the resource manager grants lies in an open instance, below the configured count of its type and below the pool size |
| Edma3DrvRequest.AllocChannel | arch/am335x/ti/edma3/drv/edma3_drv_basic.c:373-450 | step 1: the DMA or QDMA channel is allocated from the resource manager; exactly when it refuses, nothing changes and the result is DMA_CHANNEL_UNAVAIL or QDMA_CHANNEL_UNAVAIL; on success the logical channel is the channel itself (DMA) or the channel plus the first QDMA logical number (QDMA), within the range of its type |
| Edma3DrvRequest.ParamStage | arch/am335x/ti/edma3/drv/edma3_drv_basic.c:452-497 | step 2: the PaRAM set is allocated; exactly when that fails, the channel from step 1 is freed again and the RM error is returned; on success the set is below numPaRAMSets |
| Edma3DrvRequest.TccStage | arch/am335x/ti/edma3/drv/edma3_drv_basic.c:499-623 | step 3: the TCC is allocated; exactly when that fails, the PaRAM set and then the channel are freed and TCC_UNAVAIL is returned; on success the TCC is below numTccs and the channel's bookkeeping names its PaRAM set and TCC, nothing else changing |
| Edma3DrvRequest.SetOptTcc | arch/am335x/ti/edma3/drv/edma3_drv_basic.c:553-554 | clearing and setting the TCC field of a PaRAM set's OPT word leaves that field equal to the TCC and changes nothing but the PaRAM memory |
| Edma3DrvRequest.ProgramChannel | arch/am335x/ti/edma3/drv/edma3_drv_basic.c:531-607 | steps 5 to 7 keep the RM state and record the channel's trigger mode as NONE for a DMA channel and QDMA for a QDMA channel |
| Edma3DrvRequest.ProgramChannelQueue | arch/am335x/ti/edma3/drv/edma3_drv_basic.c:538-539 | after programming, the DMAQNUM or QDMAQNUM field of the channel reads back the requested event queue |
| Edma3DrvRequest.ProgramChannelOpt | arch/am335x/ti/edma3/drv/edma3_drv_basic.c:553-554 | after programming, the TCC field of the OPT word of the channel's PaRAM set reads back the allocated TCC |
| Edma3DrvRequest.Registered | arch/am335x/ti/edma3/drv/edma3_drv_basic.c:519-525 | registering the TCC callback changes only the resource manager's callback table, not its instances or configuration |
| Edma3DrvRequest.FinishChannel | arch/am335x/ti/edma3/drv/edma3_drv_basic.c:519-607 | step 4 and on: the request succeeds exactly when no callback is given or the RM registers it; on success the channel is programmed, otherwise the channel is freed through freeChannel and the result is TCC_REGISTER_FAIL |
| Edma3DrvRequest.BindDrvChannel | arch/am335x/ti/edma3/drv/edma3_drv_basic.c:452-623 | a DMA or QDMA request that reaches the callback step has passed steps 2 and 3, returns the allocated TCC through pTcc, and ends programmed on success or freed on TCC_REGISTER_FAIL |
| Edma3DrvRequest.RequestChannel | arch/am335x/ti/edma3/drv/edma3_drv_basic.c:167-643 | requestChannel: success implies the request was accepted and the logical channel is below EDMA3_MAX_LOGICAL_CH; a refused request returns INVALID_PARAM and changes nothing |
| Edma3DrvRequest.RequestDmaChannel | arch/am335x/ti/edma3/drv/edma3_drv_basic.c:373-623 | the DMA and QDMA path of requestChannel keeps the driver well formed and grants a logical channel below EDMA3_MAX_LOGICAL_CH |
| Edma3DrvRequest.RequestDispatchesDma | arch/am335x/ti/edma3/drv/edma3_drv_basic.c:373-450 | an accepted DMA or QDMA request has global registers, a valid queue and a non-NULL pTcc, and takes the DMA and QDMA path |
| Edma3DrvRequest.RequestDispatchesLink | arch/am335x/ti/edma3/drv/edma3_drv_basic.c:452-486 | an accepted link request, whose TCC (if carried) is below numTccs, takes the link path |
| Edma3DrvRequest.RemoveMapping | arch/am335x/ti/edma3/drv/edma3_drv_basic.c:2227-2347 | edma3RemoveMapping keeps the bookkeeping, PaRAM memory, RM instances and configuration; on failure nothing changes, and success needs global registers |
| Edma3DrvRequest.ReleaseChannel | arch/am335x/ti/edma3/drv/edma3_drv_basic.c:758-800 | the release steps of freeChannel change only the RM instance tables and the channel's own bookkeeping entry, keeping its trigger mode, the PaRAM memory and the queue registers |
| Edma3DrvRequest.FreeChannel | arch/am335x/ti/edma3/drv/edma3_drv_basic.c:645-811 | freeChannel keeps the driver well formed and never touches PaRAM memory or the RM configuration |
| Edma3DrvRequest.ParamFailRestores | arch/am335x/ti/edma3/drv/edma3_drv_basic.c:487-497 | when the PaRAM set cannot be allocated after the channel was, the rollback leaves the driver exactly as before the request |
| Edma3DrvRequest.TccFailRestores | arch/am335x/ti/edma3/drv/edma3_drv_basic.c:611-622 | when the TCC cannot be allocated, the rollback leaves the driver exactly as before the request |
| Edma3DrvRequest.TccFailFreesParam | arch/am335x/ti/edma3/drv/edma3_drv_basic.c:613-619 | the TCC rollback frees the PaRAM set and then the channel, in that order |
| Edma3DrvRequest.RequestRollsBack | arch/am335x/ti/edma3/drv/edma3_drv_basic.c:167-643 | every failure of requestChannel except TCC_REGISTER_FAIL leaves the driver exactly as it was |
| Edma3DrvRequest.DmaRollsBack | arch/am335x/ti/edma3/drv/edma3_drv_basic.c:373-623 | every failure of the DMA and QDMA path except TCC_REGISTER_FAIL leaves the driver exactly as it was |
| Edma3DrvRequest.AllocChannelSlot | arch/am335x/ti/edma3/drv/edma3_drv_basic.c:379-381 | a granted channel was taken from the driver's own RM instance, which alone changes |
| Edma3DrvRequest.ParamStageSlot | arch/am335x/ti/edma3/drv/edma3_drv_basic.c:457 | a granted PaRAM set was taken from the driver's own RM instance, which alone changes |
| Edma3DrvRequest.TccStageSlot | arch/am335x/ti/edma3/drv/edma3_drv_basic.c:505 | a granted TCC was taken from the driver's own RM instance, which alone changes |
| Edma3DrvRequest.TakeResources | arch/am335x/ti/edma3/drv/edma3_drv_basic.c:373-623 | steps 1 to 3 together: on success the channel holds a PaRAM set below numPaRAMSets and a TCC below numTccs, of the requested channel type |
| Edma3DrvRequest.StagesHold | arch/am335x/ti/edma3/drv/edma3_drv_basic.c:373-623 | after steps 1 to 3 the channel holds its three resources and its bookkeeping records the PaRAM set and TCC and nothing else |
| Edma3DrvRequest.StagesTake | arch/am335x/ti/edma3/drv/edma3_drv_basic.c:373-623 | after steps 1 to 3 the channel, PaRAM set and TCC were taken from the driver's instance and no other instance changed |
| Edma3DrvRequest.TakenHolds | arch/am335x/ti/edma3/drv/edma3_drv_basic.c:373-623 | a channel whose three resources were taken from the driver's instance, with bookkeeping naming them, holds them |
| Edma3DrvRequest.StagesSlots | arch/am335x/ti/edma3/drv/edma3_drv_basic.c:373-623 | steps 1 to 3 take exactly the channel, the PaRAM set and the TCC from the driver's instance |
| Edma3DrvRequest.DmaStages | arch/am335x/ti/edma3/drv/edma3_drv_basic.c:373-623 | a DMA or QDMA request that succeeds or fails registering its callback passed steps 1 to 3, returns its TCC, and is programmed on success or freed on TCC_REGISTER_FAIL |
| Edma3DrvRequest.ReleaseFreesBack | arch/am335x/ti/edma3/drv/edma3_drv_basic.c:758-800 | releasing the PaRAM set, TCC and channel of a channel that took them from instance i0 gives back i0 exactly and marks the bookkeeping unbound |
| Edma3DrvRequest.RemoveMappingHolding | arch/am335x/ti/edma3/drv/edma3_drv_basic.c:2227-2347 | removing the mapping of a held channel whose trigger mode can be disabled succeeds and keeps the bookkeeping and instances |
| Edma3DrvRequest.FreeChannelReleases | arch/am335x/ti/edma3/drv/edma3_drv_basic.c:715-800 | freeChannel on a held channel is removeMapping followed by the release of exactly the channel, PaRAM set and TCC it holds |
| Edma3DrvRequest.HoldingFreesBack | arch/am335x/ti/edma3/drv/edma3_drv_basic.c:715-800 | the resources a held channel names are exactly those to hand back to restore the instance before the request |
| Edma3DrvRequest.ReleaseHolding | arch/am335x/ti/edma3/drv/edma3_drv_basic.c:758-800 | releasing a held channel restores every RM instance and marks the channel's PaRAM set and TCC unbound |
| Edma3DrvRequest.FreeHolding | arch/am335x/ti/edma3/drv/edma3_drv_basic.c:645-811 | freeChannel on a held channel whose trigger mode can be disabled succeeds, restores every instance and marks the channel unbound |
| Edma3DrvRequest.HoldingFrame | arch/am335x/ti/edma3/drv/edma3_drv_basic.c:531-607 | holding is kept by a change that keeps the instances and the channel's PaRAM set and TCC |
| Edma3DrvRequest.ProgramHolds | arch/am335x/ti/edma3/drv/edma3_drv_basic.c:531-607 | programming a staged channel keeps it holding its resources and records its trigger mode, nothing else in the bookkeeping changing |
| Edma3DrvRequest.RequestBinds | arch/am335x/ti/edma3/drv/edma3_drv_basic.c:167-643 | a successful DMA or QDMA request leaves the channel holding a PaRAM set and TCC taken from the driver's instance, returns that TCC, and changes only that channel's bookkeeping, whose trigger mode is NONE or QDMA |
| Edma3DrvRequest.DmaBinds | arch/am335x/ti/edma3/drv/edma3_drv_basic.c:373-623 | the same for the DMA and QDMA path |
| Edma3DrvRequest.StagesProgramHold | arch/am335x/ti/edma3/drv/edma3_drv_basic.c:373-623 | the same for steps 1 to 3 followed by programming |
| Edma3DrvRequest.StagesGrantAsked | arch/am335x/ti/edma3/drv/edma3_drv_basic.c:379-505 | a specific channel request is granted that channel and a specific TCC request that TCC |
| Edma3DrvRequest.RequestGrantsAsked | arch/am335x/ti/edma3/drv/edma3_drv_basic.c:167-643 | a successful requestChannel for a specific channel grants that channel, and for a specific TCC returns that TCC |
| Edma3DrvRequest.DmaGrantsAsked | arch/am335x/ti/edma3/drv/edma3_drv_basic.c:373-623 | the same for the DMA and QDMA path |
| Edma3DrvRequest.ProgramChannelProgrammed | arch/am335x/ti/edma3/drv/edma3_drv_basic.c:531-607 | programming a channel whose bookkeeping names its PaRAM set and TCC leaves its queue field at the requested queue and the OPT TCC field at its TCC |
| Edma3DrvRequest.RequestPrograms | arch/am335x/ti/edma3/drv/edma3_drv_basic.c:167-643 | after a successful DMA or QDMA request, the channel's event queue reads back the requested queue and its PaRAM set's OPT carries its TCC |
| Edma3DrvRequest.DmaPrograms | arch/am335x/ti/edma3/drv/edma3_drv_basic.c:373-623 | the same for the DMA and QDMA path |
| Edma3DrvRequest.StagesProgrammed | arch/am335x/ti/edma3/drv/edma3_drv_basic.c:373-623 | the same for steps 1 to 3 followed by programming |
| Edma3DrvRequest.ProgramProgrammed | arch/am335x/ti/edma3/drv/edma3_drv_basic.c:531-607 | programming a staged channel leaves it programmed as requested |
| Edma3DrvRequest.RequestThenFree | arch/am335x/ti/edma3/drv/edma3_drv_basic.c:167-811 | freeChannel after a successful DMA or QDMA requestChannel succeeds, restores every RM instance to its state before the request and marks the channel's PaRAM set and TCC unbound |
| Edma3DrvRequest.DmaThenFree | arch/am335x/ti/edma3/drv/edma3_drv_basic.c:373-811 | the same for the DMA and QDMA path |
| Edma3DrvRequest.StagesThenFree | arch/am335x/ti/edma3/drv/edma3_drv_basic.c:373-811 | the same for steps 1 to 3 followed by programming |
| Edma3DrvRequest.ProgramThenFree | arch/am335x/ti/edma3/drv/edma3_drv_basic.c:531-811 | freeing a programmed staged channel restores the instances before the request |
| Edma3DrvRequest.RegisterFailFrees | arch/am335x/ti/edma3/drv/edma3_drv_basic.c:526-530 | on TCC_REGISTER_FAIL the channel is below EDMA3_MAX_LOGICAL_CH, and when its previous trigger mode can be disabled, the rollback through freeChannel restores every RM instance and marks it unbound |
| Edma3DrvRequest.DmaRegisterFailFrees | arch/am335x/ti/edma3/drv/edma3_drv_basic.c:526-530 | the same for the DMA and QDMA path |
| Edma3DrvRequest.StagesFreeBack | arch/am335x/ti/edma3/drv/edma3_drv_basic.c:526-530 | freeing right after steps 1 to 3 restores every instance when the previous trigger mode can be disabled |
| Edma3DrvRequest.StagedFreesBack | arch/am335x/ti/edma3/drv/edma3_drv_basic.c:526-530 | the same for a staged channel |
| Edma3DrvRequest.HeldFreesBack | arch/am335x/ti/edma3/drv/edma3_drv_basic.c:645-811 | freeing a held channel whose trigger mode is unchanged since before the request restores every instance when that mode can be disabled |
| Edma3DrvRequest.ModeDisablesFrame | arch/am335x/ti/edma3/drv/edma3_drv_basic.c:2262-2272 | whether the trigger mode can be disabled depends only on the configuration and the recorded trigger mode |
| Edma3DrvRequest.LinkRequestThenFree | arch/am335x/ti/edma3/drv/edma3_drv_basic.c:167-811 | freeChannel after a successful link request at or above the first link channel succeeds, restores every instance and marks the PaRAM set unbound |
| Edma3DrvRequest.LinkThenFree | arch/am335x/ti/edma3/drv/edma3_drv_basic.c:452-811 | the same for the link path |
| Edma3Driver.Driver.constructor | arch/am335x/ti/edma3/drv/edma3_drv_basic.c:167-196 | a driver object is built over a well-formed driver state: PaRAM memory, DMAQNUM words and per-channel bookkeeping held in arrays the methods update in place |
| Edma3Driver.Driver.ReadWord | arch/am335x/ti/edma3/drv/edma3_drv_adv.c:980 | reading a word of a PaRAM set returns that word of the driver state |
| Edma3Driver.Driver.WriteWord | arch/am335x/ti/edma3/drv/edma3_drv_adv.c:889-890 | writing a word of a PaRAM set in place changes that word and nothing else |
| Edma3Driver.Driver.SetPaRAMEntry | arch/am335x/ti/edma3/drv/edma3_drv_adv.c:823-908 | setPaRAMEntry updates the PaRAM memory in place exactly as the value-level Edma3DrvAdv.SetPaRAMEntry does, and returns its status |
| Edma3Driver.Driver.GetPaRAMEntry | arch/am335x/ti/edma3/drv/edma3_drv_adv.c:910-993 | getPaRAMEntry returns the status and word Edma3DrvAdv.GetPaRAMEntry gives, changing nothing |
| Edma3Driver.Driver.SetPaRAMField | arch/am335x/ti/edma3/drv/edma3_drv_adv.c:995-1171 | setPaRAMField updates the PaRAM memory in place exactly as Edma3DrvAdv.SetPaRAMField does |
| Edma3Driver.Driver.GetPaRAMField | arch/am335x/ti/edma3/drv/edma3_drv_adv.c:1173-1325 | getPaRAMField returns the status and value Edma3DrvAdv.GetPaRAMField gives, changing nothing |
| Edma3Driver.Driver.LinkChannel | arch/am335x/ti/edma3/drv/edma3_drv_adv.c:150-272 | linkChannel updates the PaRAM memory in place exactly as Edma3DrvAdv.LinkChannel does |
| Edma3Driver.Driver.UnlinkChannel | arch/am335x/ti/edma3/drv/edma3_drv_adv.c:274-364 | unlinkChannel updates the PaRAM memory in place exactly as Edma3DrvAdv.UnlinkChannel does |
| Edma3Driver.Driver.ChainChannel | arch/am335x/ti/edma3/drv/edma3_drv_adv.c:366-499 | chainChannel updates the PaRAM memory and bookkeeping in place exactly as Edma3DrvAdv.ChainChannel does |
| Edma3Driver.Driver.UnchainChannel | arch/am335x/ti/edma3/drv/edma3_drv_adv.c:501-585 | unchainChannel updates the PaRAM memory in place exactly as Edma3DrvAdv.UnchainChannel does |
| Edma3Driver.Driver.MapChToEvtQ | arch/am335x/ti/edma3/drv/edma3_drv_adv.c:1415-1530 | mapChToEvtQ updates the DMAQNUM words or the QDMAQNUM register in place exactly as Edma3DrvAdv.MapChToEvtQ does |
| Edma3Driver.Driver.WriteDmaQueue | arch/am335x/ti/edma3/drv/edma3_drv_adv.c:1486-1489 | the read-modify-write of one DMAQNUM word changes only that channel's queue field |
| Edma3Driver.Driver.WriteQdmaQueue | arch/am335x/ti/edma3/drv/edma3_drv_adv.c:1503-1506 | the read-modify-write of QDMAQNUM changes only that channel's queue field |
| Edma3Driver.Driver.MapTccLinkCh | arch/am335x/ti/edma3/drv/edma3_drv_adv.c:2577-2644 | mapTccLinkCh updates the PaRAM memory and bookkeeping in place exactly as Edma3DrvAdv.MapTccLinkCh does |
| Edma3Driver.Driver.SetAddrParams | arch/am335x/ti/edma3/drv/edma3_drv_basic.c:1171-1449 | setSrcParams and setDestParams update the PaRAM memory in place exactly as Edma3DrvBasic.SetAddrParams does |
| Edma3Driver.Driver.WriteAddr | arch/am335x/ti/edma3/drv/edma3_drv_basic.c:1284-1297 | the address word is written first, then the OPT word with the addressing mode and FIFO width merged in |
| Edma3Driver.Driver.SetIndex | arch/am335x/ti/edma3/drv/edma3_drv_basic.c:1451-1656 | setSrcIndex and setDestIndex update the PaRAM memory in place exactly as Edma3DrvBasic.SetIndex does |
| Edma3Driver.Driver.SetTransferParams | arch/am335x/ti/edma3/drv/edma3_drv_basic.c:1658-1764 | setTransferParams updates the PaRAM memory in place exactly as Edma3DrvBasic.SetTransferParams does |
| Edma3Driver.Driver.WriteCounts | arch/am335x/ti/edma3/drv/edma3_drv_basic.c:1733-1743 | the A/B count word and C count word are written, then BCNTRLD is ORed into the link word |
| Edma3Driver.Driver.EnableTransfer | arch/am335x/ti/edma3/drv/edma3_drv_basic.c:1766-1913 | enableTransfer records the trigger mode in place exactly as Edma3DrvBasic.EnableTransfer does |
| Edma3Driver.Driver.DisableTransfer | arch/am335x/ti/edma3/drv/edma3_drv_basic.c:1915-2084 | disableTransfer returns the status Edma3DrvBasic.DisableTransfer gives |
| Edma3Driver.Driver.Store | arch/am335x/ti/edma3/drv/edma3_drv_basic.c:167-811 | storing a computed driver state writes it into the object's arrays and fields, after which the object's state is that value |
| Edma3Driver.Driver.CopyWords | arch/am335x/ti/edma3/drv/edma3_drv_basic.c:167-811 | copying a word sequence into an array leaves the array equal to it |
| Edma3Driver.Driver.RequestChannel | arch/am335x/ti/edma3/drv/edma3_drv_basic.c:167-643 | requestChannel leaves the object in the state Edma3DrvRequest.RequestChannel computes, returning its status, logical channel and TCC |
| Edma3Driver.Driver.FreeChannel | arch/am335x/ti/edma3/drv/edma3_drv_basic.c:645-811 | freeChannel leaves the object in the state Edma3DrvRequest.FreeChannel computes |
| Uart.ParityFlag | arch/am335x/ti/am335x/uart.h:139-160 | every parity flag lies inside the three LCR parity bits; parity is enabled exactly when the flag is not NONE, TYPE2 (stick parity) is set exactly for the forced-1 and forced-0 representations, TYPE1 exactly for even and forced-0 |
| Uart.WordLengthFlag | arch/am335x/ti/am335x/uart.h:171-178 | word lengths 5 to 8 map to CHAR_LENGTH values 0 to 3, inside the CHAR_LENGTH field |
| Uart.StopBitsFlag | arch/am335x/ti/am335x/uart.h:164-167 | the stop-bit flag lies inside NB_STOP and is non-zero exactly for 1.5 or 2 stop bits |
| Uart.RegisterModeConstants | arch/am335x/ti/am335x/uart.h:577-579 | configuration mode A has LCR bit 7 set and differs from mode B, mode B is 0xBF, and operational mode has bit 7 clear |
| Uart.DivideRoundClosest | arch/am335x/ti/am335x/uart.c:66-70 | the rounded quotient is a 32-bit value and does not overshoot the (wrapped) dividend plus half the divisor |
| Uart.QuotientBounds | arch/am335x/ti/am335x/uart.c:66-70 | a floor quotient of a non-negative number lies between 0 and the number and its product with the divisor does not exceed it |
| Uart.ShiftedRemainder | arch/am335x/ti/am335x/uart.c:66-70 | moving a centred remainder by any non-zero multiple of the divisor does not bring it closer to 0 |
| Uart.RoundClosestRemainder | arch/am335x/ti/am335x/uart.c:66-70 | when the sum does not wrap, the remainder of the rounded quotient lies in [-(d/2), d - d/2) |
| Uart.RoundClosestIsNearest | arch/am335x/ti/am335x/uart.c:66-70 | when the sum does not wrap, the rounded quotient is within half a divisor of the dividend and no other quotient is closer |
| Uart.DivisorValCompute | arch/am335x/ti/am335x/uart.c:72-104 | the divisor is a 32-bit value, and is 0 for FIR and every mode that is not 16x, SIR, 13x or MIR |
| Uart.DivisorValIsNearest | arch/am335x/ti/am335x/uart.c:72-104 | for 16x, SIR, 13x and MIR, when clk plus half of oversampling times baud does not wrap, the divisor is the integer nearest to clk / (oversampling * baud): within half a step, and no other integer is closer |
| Uart.FifoConfigDecode | arch/am335x/ti/am335x/uart.c:290-300 | decoding a FIFO configuration word yields every field already masked to its width |
| Uart.FifoConfigPack | arch/am335x/ti/am335x/uart.h:582-591 | packing masks each field to its width and places it so that decoding recovers the masked fields; bits 30 and 31 stay clear |
| Uart.FifoConfigMasksDisjoint | arch/am335x/ti/am335x/uart.h:602-609 | the eight UART_FIFO_CONFIG masks are pairwise disjoint and together cover bits 0 to 29 |
| Uart.DecodeThenPack | arch/am335x/ti/am335x/uart.c:290-300 | decoding a word and packing it again gives back the word's low 30 bits |
| Uart.FcrProgram | arch/am335x/ti/am335x/uart.h:594-600 | UART_FCR_PROGRAM places rxTrig in bits 7:6, txTrig in 5:4, DMA mode in 3, txClr in 2, rxClr in 1 and fifoEn in 0, each masked, and nothing above bit 7 |
| Uart.GranularityOneSplit | arch/am335x/ti/am335x/uart.c:349-357 | with granularity 1 a trigger level is split into a four-bit TLR part and a two-bit FCR part that recombine to the level's low six bits |
| Uart.ModemControlSetValue | arch/am335x/ti/am335x/uart.c:1374-1382 | setting modem control bits sets exactly the flag's bits inside the MCR modem mask and keeps every other bit |
| Uart.ModemControlClearValue | arch/am335x/ti/am335x/uart.c:1384-1392 | clearing modem control bits clears exactly the flag's bits inside the mask and keeps every other bit |
| Uart.ModemControlSetThenClear | arch/am335x/ti/am335x/uart.c:1374-1392 | set followed by clear of the same flag leaves MCR with exactly those bits removed |
| Uart.WakeUpEnableValue | arch/am335x/ti/am335x/uart.c:1438-1454 | enabling wake-up events sets exactly the flag's bits inside the WER event mask and keeps every other bit |
| Uart.WakeUpDisableValue | arch/am335x/ti/am335x/uart.c:1456-1472 | disabling wake-up events clears exactly the flag's bits inside the mask and keeps every other bit |
| Uart.WakeUpEnableThenDisable | arch/am335x/ti/am335x/uart.c:1438-1472 | enable followed by disable of the same flag leaves WER with exactly those bits removed |
| Uart.FlowCtrlTcrValue | arch/am335x/ti/am335x/uart.c:1307-1320 | TCR holds the halt level in bits 3:0 and the start level in bits 7:4, and nothing above bit 7 |
| Uart.TcrTlrRestoreAsWrittenLosesBit | arch/am335x/ti/am335x/uart.c:696-731 | as written, restoring the value saved from an MCR with TCR_TLR set (0x40) clears TCR_TLR, because the saved bit is written back unshifted into a one-bit field |
| Uart.TcrTlrRestore | arch/am335x/ti/am335x/uart.c:696-731 | the corrected restore keeps every MCR bit outside TCR_TLR and sets TCR_TLR to the saved bit |
| Uart.TcrTlrSaveRestore | arch/am335x/ti/am335x/uart.c:610-731 | saving MCR's TCR_TLR bit and restoring it later gives back the bit as it was, whatever happened in between |
| Uart.ScrOwnedSplit | arch/am335x/ti/am335x/uart.c:419-443 | the SCR bits the DMA-mode write owns lie in SCR[2:0] |
| Uart.TlrClearThenWrite | arch/am335x/ti/am335x/uart.c:319-364 | clearing a TLR trigger field and then writing it is the same as writing it |
| Uart.RxTrigFcrFrame | arch/am335x/ti/am335x/uart.c:316-365 | the receive-trigger step changes only FCR's receive-trigger bits |
| Uart.TxTrigFcrFrame | arch/am335x/ti/am335x/uart.c:368-417 | the transmit-trigger step changes only FCR's transmit-trigger bits |
| Uart.DmaFcrFrame | arch/am335x/ti/am335x/uart.c:419-443 | the DMA step changes only FCR's DMA-mode bit |
| Uart.RxTrigScrFrame | arch/am335x/ti/am335x/uart.c:316-365 | the receive-trigger step changes only SCR's RX_TRIG_GRANU1 bit |
| Uart.TxTrigScrFrame | arch/am335x/ti/am335x/uart.c:368-417 | the transmit-trigger step changes only SCR's TX_TRIG_GRANU1 bit |
| Uart.DmaScrFrame | arch/am335x/ti/am335x/uart.c:419-443 | the DMA step changes only the SCR bits it owns |
| Uart.RxTrigTlrFrame | arch/am335x/ti/am335x/uart.c:316-365 | the receive-trigger step changes only TLR's receive-trigger field |
| Uart.TxTrigTlrFrame | arch/am335x/ti/am335x/uart.c:368-417 | the transmit-trigger step changes only TLR's transmit-trigger field |
| Uart.RxTriggerPlaced | arch/am335x/ti/am335x/uart.c:316-365 | the receive trigger is placed as the granularity selects: split across TLR and FCR with SCR[7] set for granularity 1; otherwise SCR[7] clear and the level in FCR when it is one of the four FCR levels, in TLR when not |
| Uart.TxTriggerPlaced | arch/am335x/ti/am335x/uart.c:368-417 | the transmit trigger is placed the same way, with SCR[6], TLR[3:0] and FCR[5:4] |
| Uart.DmaModePlaced | arch/am335x/ti/am335x/uart.c:419-443 | the DMA mode goes into FCR[3] with SCR[0] clear on the FCR path, or into SCR[2:1] with SCR[0] set and FCR[3] clear on the SCR path |
| Uart.RxTriggerKept | arch/am335x/ti/am335x/uart.c:368-443 | later steps that keep the receive-trigger fields keep the receive trigger placed |
| Uart.TxTriggerKept | arch/am335x/ti/am335x/uart.c:419-443 | later steps that keep the transmit-trigger fields keep the transmit trigger placed |
| Uart.FcrStages | arch/am335x/ti/am335x/uart.c:313-447 | across the steps of UARTFIFOConfig each FCR field keeps what its own step wrote, FIFO_EN stays set and the clear bits land in FCR[2:1] |
| Uart.ScrStages | arch/am335x/ti/am335x/uart.c:316-443 | across the steps SCR changes only in the granularity bits and the DMA bits, each keeping its own step's value |
| Uart.TlrStages | arch/am335x/ti/am335x/uart.c:316-417 | across the steps TLR changes only in its low byte, each trigger field keeping its own step's value |
| Uart.FifoConfigRegsSpec | arch/am335x/ti/am335x/uart.c:287-459 | the FCR, SCR and TLR values computed for any configuration word meet FifoConfigApplied for the decoded fields |
| Uart.FifoConfigFcrBits | arch/am335x/ti/am335x/uart.c:313-447 | the computed FCR has FIFO_EN set, fits in eight bits and carries the two clear bits |
| Uart.FifoConfigScrFrame | arch/am335x/ti/am335x/uart.c:316-443 | the computed SCR differs from the old one only in the bits the configuration owns |
| Uart.FifoConfigTlrFrame | arch/am335x/ti/am335x/uart.c:316-417 | the computed TLR differs from the old one only in its low byte |
| Uart.FifoConfigFcrTriggers | arch/am335x/ti/am335x/uart.c:316-417 | the computed FCR's trigger fields are those of the receive and transmit trigger steps |
| Uart.FifoConfigScrRxBit | arch/am335x/ti/am335x/uart.c:316-365 | the computed SCR's RX_TRIG_GRANU1 bit is that of the receive step |
| Uart.FifoConfigScrTxBit | arch/am335x/ti/am335x/uart.c:368-417 | the computed SCR's TX_TRIG_GRANU1 bit is that of the transmit step |
| Uart.FifoConfigTlrTriggers | arch/am335x/ti/am335x/uart.c:316-417 | the computed TLR's receive field is that of the receive step |
| Uart.FifoConfigRxPlaced | arch/am335x/ti/am335x/uart.c:316-365 | the whole configuration leaves the receive trigger placed |
| Uart.FifoConfigTxPlaced | arch/am335x/ti/am335x/uart.c:368-417 | the whole configuration leaves the transmit trigger placed |
| Uart.FifoConfigDmaPlaced | arch/am335x/ti/am335x/uart.c:419-443 | the whole configuration leaves the DMA mode placed |
| Uart.FifoConfigRegsCompose | arch/am335x/ti/am335x/uart.c:287-459 | the computed registers meet FifoConfigApplied: FIFO_EN set, FCR in eight bits, clear bits, both triggers and the DMA mode placed, SCR and TLR unchanged outside their owned bits |
| Uart.McrSaveRestore | arch/am335x/ti/am335x/uart.c:610-731 | setting TCR_TLR and then restoring the saved bit gives back MCR exactly |
| Uart.Bit4SaveRestore | arch/am335x/ti/am335x/uart.c:118-176 | writing a one-bit field and then writing back its old value gives back the register |
| Uart.EfrSaveRestore | arch/am335x/ti/am335x/uart.c:530-565 | setting EFR[4] and restoring its saved value gives back EFR exactly |
| Uart.UartRegs.LatchedDivisor | arch/am335x/ti/am335x/uart.c:144-145 | the divisor read from DLL and DLH is a 14-bit value |
| Uart.UartRegs.ParityModeGet | arch/am335x/ti/am335x/uart.c:280-285 | UARTParityModeGet returns exactly LCR's three parity bits |
| Uart.UartRegs.OperatingModeSelect | arch/am335x/ti/am335x/uart.c:52-64 | returns the old MDR1 mode field and writes the new mode into that field only |
| Uart.UartRegs.RegConfigModeEnable | arch/am335x/ti/am335x/uart.c:198-221 | returns LCR as it was; modes A and B write the flag's low byte, operational mode clears bit 7 only (so the divisor latch is off), and any other flag leaves LCR alone |
| Uart.UartRegs.LineCharacConfig | arch/am335x/ti/am335x/uart.c:236-260 | LCR bits above 5 are kept, word length and stop bits come from the flag, and the parity read back is the parity flag's three bits |
| Uart.UartRegs.ParityModeSet | arch/am335x/ti/am335x/uart.c:262-278 | only LCR's parity bits change, and UARTParityModeGet then returns exactly the parity written |
| Uart.UartRegs.EnhanFuncEnable | arch/am335x/ti/am335x/uart.c:530-549 | returns the old EFR[4], sets EFR[4] and leaves LCR as it was |
| Uart.UartRegs.EnhanFuncBitValRestore | arch/am335x/ti/am335x/uart.c:551-565 | writes the saved bit back into EFR[4] and leaves LCR as it was |
| Uart.UartRegs.SubConfigTcrTlrModeEn | arch/am335x/ti/am335x/uart.c:610-651 | returns MCR's TCR_TLR bit in place, sets that bit, and leaves LCR and EFR as they were |
| Uart.UartRegs.TcrTlrBitValRestoreAsWritten | arch/am335x/ti/am335x/uart.c:696-731 | as written, the saved value is written unshifted into the one-bit TCR_TLR field, so a saved set bit (0x40) restores as clear |
| Uart.UartRegs.TcrTlrBitValRestore | arch/am335x/ti/am335x/uart.c:696-731 | the corrected restore writes the saved bit back into TCR_TLR and leaves LCR and EFR as they were |
| Uart.UartRegs.DivisorLatchWrite | arch/am335x/ti/am335x/uart.c:106-182 | returns the previous 14-bit divisor, sets DLL = d & 0xFF and DLH = (d & 0x3F00) >> 8 so the latched divisor is d & 0x3FFF, and restores LCR, EFR, IER and MDR1 |
| Uart.UartRegs.DivisorLatchSleepOff | arch/am335x/ti/am335x/uart.c:126-171 | with the sleep bit cleared around the write, returns the previous divisor, writes DLL and DLH and restores LCR, IER and MDR1 |
| Uart.UartRegs.DivisorLatchProgram | arch/am335x/ti/am335x/uart.c:140-161 | in configuration mode B with the module disabled, returns the previous divisor, writes DLL and DLH and restores LCR and MDR1 |
| Uart.UartRegs.FifoRegisterWrite | arch/am335x/ti/am335x/uart.c:481-507 | FCR is written with the given value; the divisor is written back truncated to its 14 bits, and LCR, EFR, IER and MDR1 are restored |
| Uart.UartRegs.FifoConfigWrite | arch/am335x/ti/am335x/uart.c:287-459 | UARTFIFOConfig returns the FCR value and leaves FCR, SCR and TLR as FifoConfigRegs computes from the decoded word and the old SCR and TLR, with MCR, LCR, EFR, IER and MDR1 restored |
| Uart.UartRegs.FifoConfigRegsWrite | arch/am335x/ti/am335x/uart.c:308-456 | the register writes of UARTFIFOConfig under EFR[4] leave FCR, SCR and TLR at the given values and restore EFR |
| Uart.UartRegs.FifoTcrTlrModeWrite | arch/am335x/ti/am335x/uart.c:310-453 | the writes made with TCR_TLR set leave FCR, SCR and TLR at the given values and restore MCR |
| Uart.UartRegs.IntEnable | arch/am335x/ti/am335x/uart.c:733-799 | with any bit of 0xF0 in the flag, IER is first overwritten with those bits; the flag's low nibble is then ORed in; LCR and EFR are restored |
| Uart.UartRegs.IntDisable | arch/am335x/ti/am335x/uart.c:801-843 | IER loses exactly the flag's low eight bits; LCR and EFR are restored |
| Uart.UartRegs.FlowCtrlTrigLvlConfig | arch/am335x/ti/am335x/uart.c:1307-1320 | TCR becomes the halt level in bits 3:0 and the start level in bits 7:4 |
| Uart.UartRegs.ModemControlSet | arch/am335x/ti/am335x/uart.c:1374-1382 | MCR becomes the set value: the flag's bits inside the modem mask set, the rest kept |
| Uart.UartRegs.ModemControlClear | arch/am335x/ti/am335x/uart.c:1384-1392 | MCR becomes the cleared value: the flag's bits inside the modem mask clear, the rest kept |
| Uart.UartRegs.WakeUpEventsEnable | arch/am335x/ti/am335x/uart.c:1438-1454 | WER gains exactly the flag's bits inside the event mask |
| Uart.UartRegs.WakeUpEventsDisable | arch/am335x/ti/am335x/uart.c:1456-1472 | WER loses exactly the flag's bits inside the event mask |
| UsbDescriptors.Prefix | arch/am335x/hal/usb/USBDevice.cpp:92 | the first n bytes of a source, byte by byte, with missing bytes read as 0 |
| UsbDescriptors.Word16At | arch/am335x/hal/usb/USBDevice.cpp:113 | a little-endian 16-bit descriptor field is below 0x10000 |
| UsbDescriptors.MaxPacketSize | arch/am335x/hal/usb/USBDevice.cpp:1060 | an endpoint's packet size is wMaxPacketSize masked to the packet-count field, so at most that mask |
| UsbDescriptors.CopyLength | arch/am335x/hal/usb/USBDevice.cpp:82-97 | safeCopy returns 0 or the source length; with a destination it never exceeds the room, and it returns the source length exactly when there is no destination or the source fits |
| UsbDescriptors.CopiedInto | arch/am335x/hal/usb/USBDevice.cpp:92 | a copy of n bytes puts the source's first n bytes at the start of the buffer and keeps the rest |
| UsbDescriptors.SafeCopy | arch/am335x/hal/usb/USBDevice.cpp:82-97 | safeCopy returns CopyLength and, with a destination, leaves it holding the copied prefix and otherwise unchanged |
| UsbDescriptors.CopyDeviceDescriptor | arch/am335x/hal/usb/USBDevice.cpp:99-106 | with no device descriptor returns 0 and writes nothing; otherwise copies bLength bytes when they fit |
| UsbDescriptors.ConfigurationByIndex | arch/am335x/hal/usb/USBDevice.cpp:168-176 | a configuration is found by index exactly when the index is below the table's length, and it is that entry |
| UsbDescriptors.CopyConfigurationDescriptor | arch/am335x/hal/usb/USBDevice.cpp:108-119 | copies wTotalLength bytes of the indexed configuration when it exists and fits; returns 0 for a missing index |
| UsbDescriptors.ConfigurationFrom | arch/am335x/hal/usb/USBDevice.cpp:178-194 | the search from entry i finds an entry whose bConfigurationValue is the value, and no earlier entry from i has it; none found means no entry from i has it |
| UsbDescriptors.GetConfigurationDescriptorByValue | arch/am335x/hal/usb/USBDevice.cpp:178-194 | the loop returns the first configuration with the requested value, or none |
| UsbDescriptors.Utf16 | arch/am335x/hal/usb/USBDevice.cpp:140-147 | the UTF-16 form of a string is twice its length |
| UsbDescriptors.FromUtf16 | arch/am335x/hal/usb/USBDevice.cpp:140-147 | reading back UTF-16 units gives half as many bytes |
| UsbDescriptors.Utf16RoundTrip | arch/am335x/hal/usb/USBDevice.cpp:140-147 | reading back the UTF-16 form of a string gives the string |
| UsbDescriptors.Utf16Append | arch/am335x/hal/usb/USBDevice.cpp:143-147 | each further character adds the character followed by a zero byte |
| UsbDescriptors.Utf16Units | arch/am335x/hal/usb/USBDevice.cpp:145-146 | unit k of the UTF-16 form is the k-th character then 0 |
| UsbDescriptors.StringDescriptorContents | arch/am335x/hal/usb/USBDevice.cpp:121-155 | index 0 yields the 4-byte language descriptor when it fits and nothing otherwise; index 1..count returns n = 2 * length + 2, writing nothing when n exceeds the buffer and otherwise exactly n bytes: n, the STRING type and the string in UTF-16; a larger index returns 0 and writes nothing |
| UsbDescriptors.StringDescriptorUnits | arch/am335x/hal/usb/USBDevice.cpp:143-147 | in a written string descriptor, bytes 2 + 2k and 3 + 2k hold character k and 0 |
| UsbDescriptors.PutAt | arch/am335x/hal/usb/USBDevice.cpp:140-147 | a write of data at an offset changes exactly those bytes |
| UsbDescriptors.PutUtf16 | arch/am335x/hal/usb/USBDevice.cpp:143-147 | the conversion loop leaves the buffer holding the UTF-16 form at the offset and nothing else changed |
| UsbDescriptors.CopyStringDescriptor | arch/am335x/hal/usb/USBDevice.cpp:121-155 | copyStringDescriptor returns the length StringDescriptor gives and writes exactly its bytes at the start of the buffer |
| UsbDescriptors.NextDescriptor | arch/am335x/hal/usb/USBDevice.cpp:157-166 | the next descriptor exists exactly when the one bLength bytes on has a non-zero length and a non-zero type, and it lies after the current one inside the buffer |
| UsbDescriptors.Walk | arch/am335x/hal/usb/USBDevice.cpp:200-201 | the descriptors visited from a position all lie after it inside the buffer |
| UsbDescriptors.InterfaceAfterIsFirstMatch | arch/am335x/hal/usb/USBDevice.cpp:196-216 | the interface found is one visited by the walk and matches number and alternate setting, and no earlier visited descriptor does |
| UsbDescriptors.GetInterfaceDescriptor | arch/am335x/hal/usb/USBDevice.cpp:196-216 | getInterfaceDescriptor returns none for a missing configuration and otherwise the first matching interface after the configuration descriptor |
| UsbDescriptors.Endpoints | arch/am335x/hal/usb/USBDevice.cpp:222-233 | the endpoint descriptors among those visited |
| UsbDescriptors.EndpointAfterIsKth | arch/am335x/hal/usb/USBDevice.cpp:218-237 | the search returns the k-th endpoint descriptor visited after the interface, or none when fewer exist |
| UsbDescriptors.GetEndpointDescriptor | arch/am335x/hal/usb/USBDevice.cpp:218-237 | getEndpointDescriptor returns the k-th endpoint after the interface, only when there is an interface and k is below its bNumEndpoints |
| UsbDescriptors.FifoBytes | arch/am335x/hal/usb/USBDevice.cpp:988 | every FIFO size code stands for at least 8 bytes |
| UsbDescriptors.FifoBytesMonotonic | arch/am335x/hal/usb/USBDevice.cpp:985-988 | larger size codes stand for larger FIFOs |
| UsbDescriptors.QuantizeCode | arch/am335x/hal/usb/USBDevice.cpp:985-1009 | the search from a code stops at a code between it and one past the largest |
| UsbDescriptors.QuantizeCodeSmallest | arch/am335x/hal/usb/USBDevice.cpp:985-1009 | the code found is the smallest whose size holds the request, or the search runs past 8192 bytes only when none does |
| UsbDescriptors.QuantizePicksSmallest | arch/am335x/hal/usb/USBDevice.cpp:973-1015 | quantizeEndpointFIFOSize reports 0 bytes exactly when the request exceeds 8192; otherwise it picks the smallest size code that holds the request, flags double buffering and uses twice the size for it |
| UsbDescriptors.QuantizeCovers | arch/am335x/hal/usb/USBDevice.cpp:973-1015 | a request of at most 8192 bytes is always covered by the bytes used |
| UsbDescriptors.QuantizeEndpointFifoSize | arch/am335x/hal/usb/USBDevice.cpp:973-1015 | the loop returns the flag and bytes Quantize gives for maxPacketSize * multiplier, wrapped to 32 bits |
| UsbDescriptors.FifoRequirements | arch/am335x/hal/usb/USBDevice.cpp:1040-1067 | one FIFO requirement per endpoint slot |
| UsbDescriptors.FifoRequirementsAreMaxima | arch/am335x/hal/usb/USBDevice.cpp:1040-1067 | each slot's requirement is at least every visited endpoint's packet size for that slot, and is 0 or equal to one of them: the maximum |
| UsbDescriptors.CollectFifoSizes | arch/am335x/hal/usb/USBDevice.cpp:1040-1067 | the collection loop fails exactly when some endpoint number is 0 or beyond the last endpoint, and otherwise returns the per-slot maxima |
| UsbDescriptors.FifoRequirementsSnoc | arch/am335x/hal/usb/USBDevice.cpp:1045-1066 | visiting one more endpoint raises its slot's requirement to its packet size when larger and changes nothing else |
| UsbDescriptors.LayoutFromPlaced | arch/am335x/hal/usb/USBDevice.cpp:1098-1146 | the layout loop places FIFOs contiguously from its start address, in increasing slot order, each covering its slot's requirement |
| UsbDescriptors.SlotRoundTrip | arch/am335x/hal/usb/USBDevice.cpp:1099-1146 | a placement made for a slot maps back to that slot |
| UsbDescriptors.PlacedLower | arch/am335x/hal/usb/USBDevice.cpp:1098-1146 | placements valid from a slot are valid from any lower slot |
| UsbDescriptors.PlacedCons | arch/am335x/hal/usb/USBDevice.cpp:1098-1146 | one more placement at the current address in front of valid placements keeps them contiguous |
| UsbDescriptors.FifoLayoutContiguous | arch/am335x/hal/usb/USBDevice.cpp:1098-1146 | setConfiguration's FIFO layout starts right after endpoint 0's MAX_PACKET_SIZE_EP0 bytes and is contiguous, in slot order, each FIFO covering its requirement |
| UsbDescriptors.LayoutFromSucceeds | arch/am335x/hal/usb/USBDevice.cpp:1098-1146 | when every remaining requirement is at most the packet-count mask, every slot fits |
| UsbDescriptors.FifoLayoutSucceeds | arch/am335x/hal/usb/USBDevice.cpp:1040-1146 | the requirements collected from valid endpoints always fit, so the layout never fails |
| UsbDevice.NoAlternates | arch/am335x/hal/usb/USBDevice.cpp:1511-1518 | a cleared selection has MAX_INTERFACE_COUNT alternate settings, all 0 |
| UsbDevice.Chunk | arch/am335x/hal/usb/USBDevice.cpp:286-336 | n bytes of a transfer buffer from an offset, reading 0 past its end |
| UsbDevice.TransmitStep | arch/am335x/hal/usb/USBDevice.cpp:286-336 | sending the next IN packet on endpoint 0 changes only endpoint 0 and the controller |
| UsbDevice.SetupEp0RequestStep | arch/am335x/hal/usb/USBDevice.cpp:339-375 | starting an endpoint-0 request changes only endpoint 0 and the controller |
| UsbDevice.RequestCompleteStep | arch/am335x/hal/usb/USBDevice.cpp:257-284 | completing an endpoint-0 request changes only endpoint 0 and the controller |
| UsbDevice.FifoRead | arch/am335x/hal/usb/USBDevice.cpp:1344 | reading the endpoint-0 FIFO yields at most the requested count: a prefix of what the FIFO holds, all of it or exactly the count; a failed read yields nothing |
| UsbDevice.ReceiveWith | arch/am335x/hal/usb/USBDevice.cpp:1325-1395 | one step of the RX data stage changes only endpoint 0 and the controller |
| UsbDevice.ReceiveAsWrittenEndsEarly | arch/am335x/hal/usb/USBDevice.cpp:1360 | as written, a 100-byte OUT data stage returns to IDLE after its first 64-byte packet with 36 bytes still expected |
| UsbDevice.ReceiveCompletesWhenDone | arch/am335x/hal/usb/USBDevice.cpp:1325-1395 | in the corrected RX branch each packet is appended to the received data and taken off the remaining count, and the stage returns to IDLE exactly when nothing remains; otherwise it stays in RX |
| UsbDevice.GetStatusStep | arch/am335x/hal/usb/USBDevice.cpp:737-774 | answering GET_STATUS changes only endpoint 0, the controller and the output buffer |
| UsbDevice.DescriptorReady | arch/am335x/hal/usb/USBDevice.cpp:860-880 | sending a descriptor prepared in the output buffer changes only endpoint 0 and the controller |
| UsbDevice.GetDescriptorStep | arch/am335x/hal/usb/USBDevice.cpp:789-881 | answering GET_DESCRIPTOR changes only endpoint 0, the controller and the output buffer |
| UsbDevice.GetDeviceDescriptorSends | arch/am335x/hal/usb/USBDevice.cpp:789-881 | a GET_DESCRIPTOR for the device sends nothing when its length is 0 or over 64, and sends its bLength bytes as one packet and moves to STATUS when it fits in a packet |
| UsbDevice.EndpointConfigsFrom | arch/am335x/hal/usb/USBDevice.cpp:1193-1247 | configuring endpoints from index i succeeds exactly when every remaining endpoint of the interface exists, and then yields one configuration per endpoint |
| UsbDevice.EndpointConfigAt | arch/am335x/hal/usb/USBDevice.cpp:1195-1246 | configuring one endpoint continues the whole loop's result |
| UsbDevice.EndpointConfigs | arch/am335x/hal/usb/USBDevice.cpp:1189-1250 | the endpoint loop returns exactly the success flag and configurations EndpointConfigsFrom gives |
| UsbDevice.ConfigureInterfacesFrom | arch/am335x/hal/usb/USBDevice.cpp:1073-1091 | configuring interfaces changes only the controller's endpoint configurations, and only by adding to them |
| UsbDevice.SetConfigurationStep | arch/am335x/hal/usb/USBDevice.cpp:1018-1150 | setConfiguration keeps the device state well formed |
| UsbDevice.AlternateIndexAsWrittenOutOfBounds | arch/am335x/hal/usb/USBDevice.cpp:1163 | as written, with a configuration active an interface number of MAX_INTERFACE_COUNT indexes the alternate-settings array one past its end |
| UsbDevice.AlternateIndex | arch/am335x/hal/usb/USBDevice.cpp:1157-1163 | the corrected lookup finds an alternate-setting slot exactly when a configuration is active and the interface number is below MAX_INTERFACE_COUNT, and it is that number |
| UsbDevice.AlternateSettingStep | arch/am335x/hal/usb/USBDevice.cpp:1152-1187 | setAlternateSetting keeps the device state well formed |
| UsbDevice.SetConfigurationRequestStep | arch/am335x/hal/usb/USBDevice.cpp:883-922 | a SET_CONFIGURATION request keeps the state well formed and the address unchanged |
| UsbDevice.SetInterfaceRequestStep | arch/am335x/hal/usb/USBDevice.cpp:930-941 | a SET_INTERFACE request keeps the state well formed and the bus state unchanged |
| UsbDevice.SetupPacketStep | arch/am335x/hal/usb/USBDevice.cpp:671-735 | dispatching a setup packet keeps the state well formed and the address unchanged |
| UsbDevice.SetupStageStep | arch/am335x/hal/usb/USBDevice.cpp:1277-1299 | reading and handling a setup packet in IDLE keeps the state well formed and the address unchanged |
| UsbDevice.Ep0EventStep | arch/am335x/hal/usb/USBDevice.cpp:1252-1415 | an endpoint-0 event keeps the state well formed and never changes the address itself |
| UsbDevice.UsbEventStep | arch/am335x/hal/usb/USBDevice.cpp:585-668 | a USB event keeps the state well formed |
| UsbDevice.FlattenCons | arch/am335x/hal/usb/USBDevice.cpp:286-336 | the bytes of a packet list are the first packet's bytes followed by the rest's |
| UsbDevice.ChunkSplit | arch/am335x/hal/usb/USBDevice.cpp:286-336 | a chunk of m + n bytes is the chunk of m followed by the next chunk of n |
| UsbDevice.PacketsCarryData | arch/am335x/hal/usb/USBDevice.cpp:286-336 | splitting a transfer into packets gives remain / 64 + 1 packets that together carry exactly the data; all but the last are full and the last is short, which ends the transfer |
| UsbDevice.TransmitSendsAll | arch/am335x/hal/usb/USBDevice.cpp:286-336 | running the transmit step remain / 64 + 1 times sends exactly those packets and leaves endpoint 0 in STATUS with nothing remaining |
| UsbDevice.InRequestSendsAll | arch/am335x/hal/usb/USBDevice.cpp:339-375 | an IN request without a zero-length packet, once set up and transmitted, appends packets to those already sent that carry exactly the request's data, all but the last full, and ends in STATUS |
| UsbDevice.StatusStageCompletes | arch/am335x/hal/usb/USBDevice.cpp:1301-1317 | an event in STATUS after an IN request without a zero-length packet completes the request and returns to IDLE |
| UsbDevice.SetAddressIsDeferred | arch/am335x/hal/usb/USBDevice.cpp:776-787 | SET_ADDRESS only records the pending address and moves to STATUS; the next USB event (neither disconnect nor reset) applies it, and without an endpoint-0 interrupt leaves the device ADDRESSED with no update pending |
| UsbDevice.DisconnectAndResetClear | arch/am335x/hal/usb/USBDevice.cpp:593-626 | disconnect and reset both clear the configuration and alternate settings, return endpoint 0 to IDLE and the device to RESET; disconnect also clears the address, reset keeps it |
| UsbDevice.SetConfigurationSelects | arch/am335x/hal/usb/USBDevice.cpp:1018-1150 | an unknown configuration value fails with nothing changed; on success the configuration with that value is active, every alternate setting is 0, every endpoint number was valid, and the FIFOs were laid out contiguously after endpoint 0's, each covering its slot's largest packet |
| UsbDevice.SetConfigurationSucceeds | arch/am335x/hal/usb/USBDevice.cpp:1018-1150 | for a known value setConfiguration succeeds exactly when the interface count is at most MAX_INTERFACE_COUNT, every endpoint number is valid and every interface's endpoints configure |
| UsbDevice.AlternateSettingSelects | arch/am335x/hal/usb/USBDevice.cpp:1152-1187 | setAlternateSetting succeeds exactly when a configuration is active, the interface is in range, and the setting is already selected or the interface with that setting exists and its endpoints configure; on success only that interface's setting changes, on failure none, and the active configuration is kept |
| UsbDevice.PlaceFifo | arch/am335x/hal/usb/USBDevice.cpp:1101-1145 | placing one slot's FIFO continues the layout loop's result |
| UsbDevice.LayoutFifos | arch/am335x/hal/usb/USBDevice.cpp:1098-1146 | the FIFO layout loop returns exactly FifoLayout of the requirements |
| UsbDevice.FifoRequirementsBounded | arch/am335x/hal/usb/USBDevice.cpp:1040-1067 | every collected requirement is a 32-bit value |
| UsbDevice.UsbDevice.constructor | arch/am335x/hal/usb/USBDevice.cpp:1570-1621 | a started device has endpoint 0 idle, no address, no configuration and all alternate settings 0 |
| UsbDevice.UsbDevice.HandleEp0TransmitState | arch/am335x/hal/usb/USBDevice.cpp:286-336 | handleEP0TransmitState leaves the device in the state TransmitStep gives |
| UsbDevice.UsbDevice.SetupEp0Request | arch/am335x/hal/usb/USBDevice.cpp:339-375 | setupEP0Request leaves the device in the state SetupEp0RequestStep gives |
| UsbDevice.UsbDevice.OnEp0RequestComplete | arch/am335x/hal/usb/USBDevice.cpp:257-284 | onEP0RequestComplete leaves the device in the state RequestCompleteStep gives |
| UsbDevice.UsbDevice.StallEp0 | arch/am335x/hal/usb/USBDevice.cpp:924-928 | stallEP0 puts endpoint 0 in STALL |
| UsbDevice.UsbDevice.HandleSetAddressRequest | arch/am335x/hal/usb/USBDevice.cpp:776-787 | handleSetAddressRequest records the pending address |
| UsbDevice.UsbDevice.HandleGetStatusRequest | arch/am335x/hal/usb/USBDevice.cpp:737-774 | handleGetStatusRequest leaves the device and output buffer as GetStatusStep gives |
| UsbDevice.UsbDevice.SendDescriptor | arch/am335x/hal/usb/USBDevice.cpp:860-880 | sends the prepared descriptor as DescriptorReady gives |
| UsbDevice.UsbDevice.HandleGetDescriptorRequest | arch/am335x/hal/usb/USBDevice.cpp:789-881 | handleGetDescriptorRequest leaves the device and output buffer as GetDescriptorStep gives |
| UsbDevice.UsbDevice.ResetConfiguration | arch/am335x/hal/usb/USBDevice.cpp:1511-1518 | resetConfiguration clears the active configuration and alternate settings |
| UsbDevice.UsbDevice.ResetAddress | arch/am335x/hal/usb/USBDevice.cpp:1637-1644 | resetAddress clears the address and any pending address |
| UsbDevice.UsbDevice.ConfigureInterfaceEndpoints | arch/am335x/hal/usb/USBDevice.cpp:1189-1250 | configureInterfaceEndpoints returns whether every endpoint existed and records their configurations |
| UsbDevice.UsbDevice.ConfigureInterfaces | arch/am335x/hal/usb/USBDevice.cpp:1073-1091 | the interface loop of setConfiguration returns and leaves what ConfigureInterfacesFrom gives |
| UsbDevice.UsbDevice.SetConfiguration | arch/am335x/hal/usb/USBDevice.cpp:1018-1150 | setConfiguration leaves the device and returns what SetConfigurationStep gives |
| UsbDevice.UsbDevice.SetAlternateSetting | arch/am335x/hal/usb/USBDevice.cpp:1152-1187 | setAlternateSetting leaves the device and returns what AlternateSettingStep gives |
| UsbDevice.UsbDevice.HandleSetConfigurationRequest | arch/am335x/hal/usb/USBDevice.cpp:883-922 | handleSetConfigurationRequest leaves the device as SetConfigurationRequestStep gives |
| UsbDevice.UsbDevice.HandleSetInterfaceRequest | arch/am335x/hal/usb/USBDevice.cpp:930-941 | handleSetInterfaceRequest leaves the device as SetInterfaceRequestStep gives |
| UsbDevice.UsbDevice.HandleSetupPacket | arch/am335x/hal/usb/USBDevice.cpp:671-735 | handleSetupPacket leaves the device as SetupPacketStep gives |
| UsbDevice.UsbDevice.ReadSetupPacket | arch/am335x/hal/usb/USBDevice.cpp:1284-1288 | reads at most 64 bytes from the FIFO into the start of the input buffer |
| UsbDevice.UsbDevice.HandleSetupStage | arch/am335x/hal/usb/USBDevice.cpp:1277-1299 | the IDLE branch leaves the device as SetupStageStep gives |
| UsbDevice.UsbDevice.FinishReceive | arch/am335x/hal/usb/USBDevice.cpp:1370-1394 | the end of an OUT data stage leaves the device as ReceiveDone gives |
| UsbDevice.UsbDevice.ReceiveEp0Data | arch/am335x/hal/usb/USBDevice.cpp:1325-1395 | the RX branch leaves the device as the corrected ReceiveStep gives |
| UsbDevice.UsbDevice.HandleEp0Event | arch/am335x/hal/usb/USBDevice.cpp:1252-1415 | handleEP0Event leaves the device as Ep0EventStep gives |
| UsbDevice.UsbDevice.CommitAddress | arch/am335x/hal/usb/USBDevice.cpp:628-640 | a pending address change is applied and the device becomes ADDRESSED |
| UsbDevice.UsbDevice.HandleUsbEvent | arch/am335x/hal/usb/USBDevice.cpp:585-668 | handleUSBEvent leaves the device as UsbEventStep gives |
| MassStorage.Be32 | arch/am335x/hal/usb/MassStorage.cpp:892-895 | four command bytes read most significant first give a 32-bit value |
| MassStorage.Be32Bytes | arch/am335x/hal/usb/MassStorage.cpp:731-734 | a 32-bit value is written as four bytes, most significant first |
| MassStorage.Be16 | arch/am335x/hal/usb/MassStorage.cpp:897 | two command bytes read most significant first give a 16-bit value |
| MassStorage.Le32 | arch/am335x/hal/usb/MassStorage.cpp:402-416 | a CBW field overlaid on gCommandBuffer is read as a little-endian 32-bit value |
| MassStorage.Le32Bytes | arch/am335x/hal/usb/MassStorage.cpp:377-387 | a CSW field is sent as four little-endian bytes |
| MassStorage.Be32RoundTrip | arch/am335x/hal/usb/MassStorage.cpp:731-734 | reading back the four big-endian bytes of a 32-bit value gives that value |
| MassStorage.Be32BytesRoundTrip | arch/am335x/hal/usb/MassStorage.cpp:892-895 | re-encoding a decoded big-endian word gives the same four bytes |
| MassStorage.Le32RoundTrip | arch/am335x/hal/usb/MassStorage.cpp:377-387 | reading back the four little-endian bytes of a 32-bit value gives that value |
| MassStorage.Le32BytesRoundTrip | arch/am335x/hal/usb/MassStorage.cpp:402-416 | re-encoding a decoded little-endian word gives the same four bytes |
| MassStorage.DecodeCbw | arch/am335x/hal/usb/MassStorage.cpp:399-416 | the CBW read from the first 31 bytes of gCommandBuffer has fields in their 32-bit and 8-bit ranges |
| MassStorage.EncodeCbw | arch/am335x/hal/usb/MassStorage.cpp:399-416 | a CBW is 31 bytes long |
| MassStorage.CbwRoundTrip | arch/am335x/hal/usb/MassStorage.cpp:399-416 | decoding an encoded CBW gives it back |
| MassStorage.CbwBytesRoundTrip | arch/am335x/hal/usb/MassStorage.cpp:399-416 | every 31-byte buffer is the encoding of the CBW decoded from it, so no byte is ignored |
| MassStorage.EncodeCsw | arch/am335x/hal/usb/MassStorage.cpp:377-387 | the CSW sent by sendCSW is 13 bytes long |
| MassStorage.CswRoundTrip | arch/am335x/hal/usb/MassStorage.cpp:377-387 | the host decodes the 13 CSW bytes back to the CSW that was sent |
| MassStorage.CdbLba | arch/am335x/hal/usb/MassStorage.cpp:892-895 | the LBA of READ(10) and WRITE(10) is a 32-bit value |
| MassStorage.CdbBlockCount | arch/am335x/hal/usb/MassStorage.cpp:897 | the block count of READ(10) and WRITE(10) is a 16-bit value |
| MassStorage.Cdb10 | arch/am335x/hal/usb/MassStorage.cpp:968-973 | a 10-byte command block sits in the 16-byte CBWCB field |
| MassStorage.Cdb10Decodes | arch/am335x/hal/usb/MassStorage.cpp:968-973 | the LBA is decoded big-endian from CBWCB[2..5] and the block count from CBWCB[7..8] |
| MassStorage.InquiryResponse | arch/am335x/hal/usb/MassStorage.cpp:615-662 | the INQUIRY answer is 36 bytes: direct-access device, removable, additional length 31 |
| MassStorage.InquiryHeader | arch/am335x/hal/usb/MassStorage.cpp:622-631 | the INQUIRY header is 8 bytes |
| MassStorage.LastLba | arch/am335x/hal/usb/MassStorage.cpp:722-728 | the last LBA is size-1 for a non-empty card and 0 for an empty one, and fits in 32 bits |
| MassStorage.ReadCapacityResponse | arch/am335x/hal/usb/MassStorage.cpp:731-748 | the READ CAPACITY answer is 8 bytes |
| MassStorage.ReadCapacityReports | arch/am335x/hal/usb/MassStorage.cpp:722-742 | bytes 0..3 hold max(size-1, 0) big-endian and bytes 4..7 the 512-byte block size |
| MassStorage.ReadFormatCapacitiesResponse | arch/am335x/hal/usb/MassStorage.cpp:672-695 | the READ FORMAT CAPACITIES answer is 12 bytes |
| MassStorage.ReadFormatCapacitiesReports | arch/am335x/hal/usb/MassStorage.cpp:668-689 | capacity list length 8, the full block count big-endian in bytes 4..7, descriptor code 2 and the 512-byte block length in bytes 9..11 |
| MassStorage.RequestSenseResponse | arch/am335x/hal/usb/MassStorage.cpp:773-798 | the REQUEST SENSE answer is 18 bytes |
| MassStorage.RequestSenseReports | arch/am335x/hal/usb/MassStorage.cpp:773-792 | the error code is byte 0, the sense key byte 2, the additional length byte 7 (10) and ASC/ASCQ bytes 12/13 |
| MassStorage.ModeSense6Response | arch/am335x/hal/usb/MassStorage.cpp:1006-1014 | the MODE SENSE(6) answer is 4 bytes whose first byte gives the length that follows |
| MassStorage.Overlay | arch/am335x/hal/usb/MassStorage.cpp:622-649 | writing an answer into gCommandBuffer changes its first bytes and keeps the rest |
| MassStorage.PreventRemovalAsWritten | arch/am335x/hal/usb/MassStorage.cpp:470 | the test `CBWCB[4] && 0x3` prevents removal for every non-zero byte 4, reserved bits included |
| MassStorage.PreventRemoval | arch/am335x/hal/usb/MassStorage.cpp:470 | removal is prevented exactly when one of the two PREVENT bits is set |
| MassStorage.PreventRemovalIgnoresReservedBits | arch/am335x/hal/usb/MassStorage.cpp:470 | the PREVENT field depends only on the low two bits of byte 4 |
| MassStorage.PreventRemovalAsWrittenMisreads | arch/am335x/hal/usb/MassStorage.cpp:470 | byte 4 = 0x04 prevents removal as written though its PREVENT bits say allow |
| MassStorage.ModeSense6Residue | arch/am335x/hal/usb/MassStorage.cpp:1019 | the residue is never above the requested length and is length-4 when the host asked for at least 4 bytes |
| MassStorage.ModeSense6ResidueAsWrittenExceeds | arch/am335x/hal/usb/MassStorage.cpp:1019 | with a requested length of 0 the residue as written wraps to 0xFFFFFFFC |
| MassStorage.Queue | arch/am335x/hal/usb/MassStorage.cpp:380-385 | setupRequest appends the request to the log and changes nothing else; an IN transfer is counted in mPendingTransmits |
| MassStorage.OnDisconnectStep | arch/am335x/hal/usb/MassStorage.cpp:1047-1054 | after a disconnect the card is no longer in raw mode, and a card that was not in raw mode is left alone |
| MassStorage.ResetScsiStateStep | arch/am335x/hal/usb/MassStorage.cpp:206-217 | the state returns to IDLE with no pending transmits, a zeroed CSW with its signature, and the request log kept |
| MassStorage.ReceiveCbwStep | arch/am335x/hal/usb/MassStorage.cpp:219-228 | an OUT request for the next CBW is queued and the state is IDLE, nothing else changes |
| MassStorage.SendCswStep | arch/am335x/hal/usb/MassStorage.cpp:377-387 | the encoded CSW is queued on the IN endpoint and the state becomes SENT_STATUS |
| MassStorage.ReceiveBlocksStep | arch/am335x/hal/usb/MassStorage.cpp:352-375 | the block is written at the current LBA, the LBA goes up and the count down by one, and at zero a passing CSW is sent |
| MassStorage.ReadAmount | arch/am335x/hal/usb/MassStorage.cpp:812-822 | the blocks read are at most the blocks left, the read-ahead and 16, and at least one when both are positive |
| MassStorage.ReadPingPongStream | arch/am335x/hal/usb/MassStorage.cpp:810-847 | the stream counters stay 32-bit values |
| MassStorage.ReadPingPongStep | arch/am335x/hal/usb/MassStorage.cpp:810-847 | readPingPong reports the card read's result and changes only the stream |
| MassStorage.SendPingPongStep | arch/am335x/hal/usb/MassStorage.cpp:849-882 | the selected buffer's blocks are queued, its count leaves mBlocksToSend, and the ping-pong flag flips |
| MassStorage.SendBlocksStep | arch/am335x/hal/usb/MassStorage.cpp:941-960 | sending blocks only appends requests, counts each IN transfer and keeps the state well formed |
| MassStorage.Respond | arch/am335x/hal/usb/MassStorage.cpp:651-656 | an answer in gCommandBuffer is queued as one counted IN transfer |
| MassStorage.ScsiInquiryStep | arch/am335x/hal/usb/MassStorage.cpp:615-662 | INQUIRY counts its IN transfer and keeps the CSW tag |
| MassStorage.ScsiTestUnitReadyStep | arch/am335x/hal/usb/MassStorage.cpp:496-538 | TEST UNIT READY queues nothing and keeps the CSW tag |
| MassStorage.ScsiReadFormatCapacitiesStep | arch/am335x/hal/usb/MassStorage.cpp:664-716 | READ FORMAT CAPACITIES counts its IN transfer and keeps the CSW tag |
| MassStorage.ScsiReadCapacityStep | arch/am335x/hal/usb/MassStorage.cpp:718-768 | READ CAPACITY counts its IN transfer and keeps the CSW tag |
| MassStorage.ScsiRequestSenseStep | arch/am335x/hal/usb/MassStorage.cpp:770-808 | REQUEST SENSE counts its IN transfer and keeps the CSW tag |
| MassStorage.Read10FirstRead | arch/am335x/hal/usb/MassStorage.cpp:886-910 | the first read of READ(10) sends nothing and leaves the CSW and the SCSI state alone |
| MassStorage.Read10Transfer | arch/am335x/hal/usb/MassStorage.cpp:913-938 | the transfer part of READ(10) counts its IN transfers and keeps the CSW tag |
| MassStorage.ScsiRead10Step | arch/am335x/hal/usb/MassStorage.cpp:884-939 | READ(10) counts its IN transfers and keeps the CSW tag |
| MassStorage.ScsiWrite10Step | arch/am335x/hal/usb/MassStorage.cpp:962-999 | WRITE(10) counts its transfers and keeps the CSW tag |
| MassStorage.ScsiModeSense6Step | arch/am335x/hal/usb/MassStorage.cpp:1001-1035 | MODE SENSE(6) counts its IN transfer and keeps the CSW tag |
| MassStorage.ScsiStartStopUnitStep | arch/am335x/hal/usb/MassStorage.cpp:540-587 | START STOP UNIT queues nothing and keeps the CSW tag |
| MassStorage.ScsiUnsupportedCommandStep | arch/am335x/hal/usb/MassStorage.cpp:589-613 | an unsupported command queues nothing and keeps the CSW tag |
| MassStorage.PreventAllowStep | arch/am335x/hal/usb/MassStorage.cpp:469-480 | removal is allowed exactly when byte 4 of the command block is zero |
| MassStorage.DispatchStep | arch/am335x/hal/usb/MassStorage.cpp:419-485 | every command, the REASSIGN BLOCKS fall-through included, counts its IN transfers and keeps the state well formed and the CSW tag |
| MassStorage.ScsiHandleCommandStep | arch/am335x/hal/usb/MassStorage.cpp:399-494 | handling a command counts its IN transfers and keeps the state well formed |
| MassStorage.DataInStep | arch/am335x/hal/usb/MassStorage.cpp:236-262 | an IN completion keeps the state well formed |
| MassStorage.DataOutStep | arch/am335x/hal/usb/MassStorage.cpp:263-296 | an OUT completion keeps the state well formed |
| MassStorage.HandleCommandChecksSignature | arch/am335x/hal/usb/MassStorage.cpp:404-413 | a command is accepted exactly when the CBW signature is right; a rejected one changes nothing, an accepted one carries the CBW tag into the CSW |
| MassStorage.NoDataCommandIsAnswered | arch/am335x/hal/usb/MassStorage.cpp:487-491 | an accepted command with no data phase ends with a CSW carrying its tag on the IN endpoint and the state SENT_STATUS |
| MassStorage.RequestSenseReportsAndClears | arch/am335x/hal/usb/MassStorage.cpp:770-808 | REQUEST SENSE sends the current sense data, clears the VALID flag and passes |
| MassStorage.ReadCapacityAnswers | arch/am335x/hal/usb/MassStorage.cpp:718-768 | a connected card gets its capacity answer; otherwise nothing is sent and the sense says medium not present |
| MassStorage.TestUnitReadyReportsConnection | arch/am335x/hal/usb/MassStorage.cpp:496-538 | the unit is ready exactly when a card is present and connected in raw mode, and the inhibit flag follows the source's rules |
| MassStorage.StartStopUnitConnects | arch/am335x/hal/usb/MassStorage.cpp:540-587 | LOEJ with START connects and passes only if connected; LOEJ alone disconnects and inhibits reconnection; no LOEJ changes nothing |
| MassStorage.UnsupportedCommandFails | arch/am335x/hal/usb/MassStorage.cpp:589-613 | an unsupported command fails with the full residue, illegal-request sense, and a status phase only when data was expected |
| MassStorage.HandleEndpointsCountsTransmits | arch/am335x/hal/usb/MassStorage.cpp:230-320 | mPendingTransmits never goes below zero and always equals the IN transfers queued minus those completed |
| MassStorage.StatusCompletionRearmsCommand | arch/am335x/hal/usb/MassStorage.cpp:255-258 | the IN completion after SENT_STATUS queues the next CBW reception and returns to IDLE |
| MassStorage.Read10ReadAheadFailKeepsStale | arch/am335x/hal/usb/MassStorage.cpp:913-923 | when the first read succeeds and the read-ahead fails, the failure is ignored: the card stays mounted, the first buffer still goes out, and when blocks remain the buffer sent next is the stale Pong slot from before the command |
| MassStorage.Read10StartsStream | arch/am335x/hal/usb/MassStorage.cpp:884-923 | a READ(10) on a connected card whose first read and read-ahead both succeed sends the first n = min(count, count/8+1, 16) blocks from the decoded LBA and reads the next ones into the other buffer |
| MassStorage.SendBlocksAdvancesStream | arch/am335x/hal/usb/MassStorage.cpp:941-960 | each IN completion sends the next buffer's blocks from where the last ended, alternating buffers, until none are left and a passing CSW goes out |
| MassStorage.ReceiveMany | arch/am335x/hal/usb/MassStorage.cpp:352-375 | repeated OUT completions keep the CSW fields in range |
| MassStorage.Consecutive | arch/am335x/hal/usb/MassStorage.cpp:356-357 | k block addresses starting at an LBA |
| MassStorage.ReceiveBlocksWritesConsecutive | arch/am335x/hal/usb/MassStorage.cpp:352-375 | k OUT completions write k blocks at consecutive LBAs, count mBlocksToReceive down by k, and send a passing CSW exactly after the last one |
| MassStorage.MassStorageDevice.constructor | arch/am335x/hal/usb/MassStorage.cpp:187-217 | a new device is in its reset state with nothing queued and is valid |
| MassStorage.MassStorageDevice.SetupRequest | arch/am335x/hal/usb/MassStorage.cpp:380-385 | the new state is the old one with the request queued |
| MassStorage.MassStorageDevice.ResetScsiState | arch/am335x/hal/usb/MassStorage.cpp:206-217 | the new state is ResetScsiStateStep of the old one |
| MassStorage.MassStorageDevice.ReceiveCbw | arch/am335x/hal/usb/MassStorage.cpp:219-228 | the new state is ReceiveCbwStep of the old one |
| MassStorage.MassStorageDevice.SendCsw | arch/am335x/hal/usb/MassStorage.cpp:377-387 | the new state is SendCswStep of the old one |
| MassStorage.MassStorageDevice.ReceiveBlocks | arch/am335x/hal/usb/MassStorage.cpp:352-375 | the new state is ReceiveBlocksStep of the old one |
| MassStorage.MassStorageDevice.ReadPingPong | arch/am335x/hal/usb/MassStorage.cpp:810-847 | the new state and the result are ReadPingPongStep of the old state |
| MassStorage.MassStorageDevice.SendPingPong | arch/am335x/hal/usb/MassStorage.cpp:849-882 | the new state is SendPingPongStep of the old one |
| MassStorage.MassStorageDevice.SendBlocks | arch/am335x/hal/usb/MassStorage.cpp:941-960 | the new state is SendBlocksStep of the old one |
| MassStorage.MassStorageDevice.IsCardConnected | arch/am335x/hal/usb/MassStorage.cpp:1037-1045 | reports raw mode and clears the inhibit flag when connected |
| MassStorage.MassStorageDevice.OnDisconnect | arch/am335x/hal/usb/MassStorage.cpp:1047-1054 | the new state is OnDisconnectStep of the old one |
| MassStorage.MassStorageDevice.CopyToCommandBuffer | arch/am335x/hal/usb/MassStorage.cpp:633-649 | the given bytes replace gCommandBuffer at the offset and the rest of the state is unchanged |
| MassStorage.MassStorageDevice.QueueResponse | arch/am335x/hal/usb/MassStorage.cpp:651-656 | the new state is Respond of the old one |
| MassStorage.MassStorageDevice.FailNoMedium | arch/am335x/hal/usb/MassStorage.cpp:701-715 | the CSW fails with no residue and the sense says medium not present |
| MassStorage.MassStorageDevice.ScsiInquiry | arch/am335x/hal/usb/MassStorage.cpp:615-662 | the new state is ScsiInquiryStep of the old one |
| MassStorage.MassStorageDevice.ScsiTestUnitReady | arch/am335x/hal/usb/MassStorage.cpp:496-538 | the new state is ScsiTestUnitReadyStep of the old one |
| MassStorage.MassStorageDevice.ScsiStartStopUnit | arch/am335x/hal/usb/MassStorage.cpp:540-587 | the new state is ScsiStartStopUnitStep of the old one |
| MassStorage.MassStorageDevice.ScsiUnsupportedCommand | arch/am335x/hal/usb/MassStorage.cpp:589-613 | the new state is ScsiUnsupportedCommandStep of the old one |
| MassStorage.MassStorageDevice.ScsiReadFormatCapacities | arch/am335x/hal/usb/MassStorage.cpp:664-716 | the new state is ScsiReadFormatCapacitiesStep of the old one |
| MassStorage.MassStorageDevice.ScsiReadCapacity | arch/am335x/hal/usb/MassStorage.cpp:718-768 | the new state is ScsiReadCapacityStep of the old one |
| MassStorage.MassStorageDevice.ScsiRequestSense | arch/am335x/hal/usb/MassStorage.cpp:770-808 | the new state is ScsiRequestSenseStep of the old one |
| MassStorage.MassStorageDevice.StartReading | arch/am335x/hal/usb/MassStorage.cpp:886-910 | the new state is Read10FirstRead of the old one |
| MassStorage.MassStorageDevice.TransferRead | arch/am335x/hal/usb/MassStorage.cpp:913-938 | the new state is Read10Transfer of the old one |
| MassStorage.MassStorageDevice.ScsiRead10 | arch/am335x/hal/usb/MassStorage.cpp:884-939 | the new state is ScsiRead10Step of the old one |
| MassStorage.MassStorageDevice.ScsiWrite10 | arch/am335x/hal/usb/MassStorage.cpp:962-999 | the new state is ScsiWrite10Step of the old one |
| MassStorage.MassStorageDevice.ScsiModeSense6 | arch/am335x/hal/usb/MassStorage.cpp:1001-1035 | the new state is ScsiModeSense6Step of the old one |
| MassStorage.MassStorageDevice.Dispatch | arch/am335x/hal/usb/MassStorage.cpp:419-485 | the new state is DispatchStep of the old one |
| MassStorage.MassStorageDevice.ScsiHandleCommand | arch/am335x/hal/usb/MassStorage.cpp:399-494 | the new state and the result are ScsiHandleCommandStep of the old state |
| MassStorage.MassStorageDevice.DataInComplete | arch/am335x/hal/usb/MassStorage.cpp:236-262 | the new state is DataInStep of the old one |
| MassStorage.MassStorageDevice.DataOutComplete | arch/am335x/hal/usb/MassStorage.cpp:263-296 | the new state is DataOutStep of the old one |
| MassStorage.MassStorageDevice.HandleEndpoints | arch/am335x/hal/usb/MassStorage.cpp:230-320 | the new state is HandleEndpointsStep of the old one and stays valid |

## Left out

- MassStorage.ScsiModeSense6Step: uses the corrected residue `ModeSense6Residue`. As written, `MassStorage.cpp` line 1019 wraps to 0xFFFFFFFC for a requested length below 4. See Findings.
- MassStorage.MassStorageDevice.ScsiModeSense6: the same corrected residue as `MassStorage.ScsiModeSense6Step`.
- UsbDevice.Ep0EventStep: the RX branch uses the corrected `ReceiveStep`, which ends the OUT data stage when nothing remains. As written (`USBDevice.cpp` line 1360) it ends once at most 64 bytes remain. See Findings.
- UsbDevice.UsbDevice.ReceiveEp0Data: the same corrected RX branch as `UsbDevice.Ep0EventStep`.
- UsbDevice.UsbDevice.HandleEp0Event: the same corrected RX branch as `UsbDevice.Ep0EventStep`.
- UsbDevice.AlternateSettingStep: refuses an interface number of MAX_INTERFACE_COUNT or more. As written (`USBDevice.cpp` line 1163) `mAlternateSettings` is indexed without a bound. See Findings.
- UsbDevice.UsbDevice.SetAlternateSetting: the same bound as `UsbDevice.AlternateSettingStep`.
- Uart.UartRegs.FifoTcrTlrModeWrite: restores MCR[6] with the corrected `TcrTlrBitValRestore`, so MCR ends as it was. As written (`uart.c` line 718) the unshifted saved value is shifted again and MCR[6] always ends clear. See Findings.
- Uart.UartRegs.FifoConfigWrite: the same corrected restore as `Uart.UartRegs.FifoTcrTlrModeWrite`.
- Edma3DrvBasic.EnableTransfer: refuses EVENT mode for a channel from 64 on. As written (`edma3_drv_basic.c` lines 1831-1838) it accepts it and then shifts past the 32-bit register. See Findings.
- Edma3Driver.Driver.EnableTransfer: the same check as `Edma3DrvBasic.EnableTransfer`.
- Edma3DrvBasic.SetAddrParams: checks the FIFO width against the queue a QDMA channel is mapped to (`FifoQueue`). As written (`edma3_drv_basic.c` line 1264) the shift by `lCh * 4` reads queue 0, or is undefined from 32 bits on. See Findings.
- Edma3Driver.Driver.SetAddrParams: the same queue as `Edma3DrvBasic.SetAddrParams`.
- Edma3RmChannel.AllocParamChannel: returns INVALID_PARAM when no link channel is free. As written (`edma3resmgr.c` lines 2246-2253) the status of the rollback's free, which is success, replaces it. See Findings.
- Edma3RmChannel.AllocLogicalChannel: the same link-channel outcome as `Edma3RmChannel.AllocParamChannel`.
- Edma3RmManager.ResourceManager.AllocParamChannel: the same link-channel outcome as `Edma3RmChannel.AllocParamChannel`.
- Edma3RmManager.ResourceManager.AllocLogicalChannel: the same link-channel outcome as `Edma3RmChannel.AllocParamChannel`.
- Edma3RmChannel.FreeLogicalChannel: searches the link channels up to linkMax inclusive. As written (`edma3resmgr.c` line 2789) the loop stops before linkMax. See Findings.
- Edma3RmManager.ResourceManager.FreeLogicalChannel: the same search as `Edma3RmChannel.FreeLogicalChannel`.
- Edma3RmLife.Close: the last close leaves every logical channel unbound, as create does. As written (`edma3resmgr.c` lines 1005-1006) the table is memzeroed, which binds every channel to PaRAM set 0. See Findings.
- Edma3RmManager.ResourceManager.Close: the same table reset as `Edma3RmLife.Close`.
- Bitmap.AllocAnyContigRes: does not make the second findBit call when the first '1' is at `end`. As written (`edma3resmgr.c` line 6388) it calls findBit with start > end. See Findings.
- Edma3RmContig.ContigAllocLoop: books with the corrected `GblChngAllocContigRes`, which books nothing for n = 0. As written (`edma3resmgr.c` line 6479) `first + (n - 1)` wraps and the loop never ends. See Findings.
- Edma3RmContig.ContigAllocIn: a RES_ANY request for 0 resources, with id 0 usable, returns Ok and books nothing, because it books through `ContigAllocLoop`. As written, `edma3resmgr.c` checks only `numResources > maxNumResources` at line 3449, and line 6479 then wraps `lastResId` to 0xFFFFFFFF so the booking loop never ends. See Findings.
- Edma3RmContig.ContigAnyIn: the same corrected n = 0 behaviour as the ContigAllocIn line above (`edma3resmgr.c` lines 3727-3810 and 6479).
- Edma3RmContig.ContigAnyLoop: the same corrected n = 0 behaviour as the ContigAllocIn line above (`edma3resmgr.c` lines 3727-3810 and 6479).
- Edma3RmContig.AllocContiguous: the same corrected n = 0 behaviour as the ContigAllocIn line above (`edma3resmgr.c` lines 3332-3838 and 6479).
- Edma3RmManager.ResourceManager.AllocContiguous: the same corrected n = 0 behaviour as the ContigAllocIn line above, because it runs `Edma3RmContig.AllocContiguous` on the object.
- Edma3RmLife.Create: requires `Config.Valid`. That predicate bounds every count by the size of the array it indexes, and it requires `1 <= numDma` and `1 <= numParam`. In the source, numDmaCh = 0 wraps dmaMax at lines 488-492. numPaRAMSets = 0 only yields an empty link-channel range at line 490, so the model excludes that one configuration although the source accepts it.
  - The source checks only the controller id (line 421).
  - Counts above EDMA3_MAX_* would overflow the tables at lines 477-480.
  - A DMA channel count of 0 wraps dmaMax at lines 488-492.
  - One controller is modelled, so the controller-id check is left out.
- Uart.DivisorValCompute: requires a non-zero divisor (`DivisorDefined`). `uart.c` lines 72-104 divide without a check, and the behaviour of a division by zero is not modelled.
- Edma3RmChannel.AllocLogicalChannel: the `allocatedTCCs` bitmap is not kept. It is read only by the completion interrupt handler (`edma3ComplHandler`), which is not part of this model.
- Interrupt service routines: `edma3ComplHandler`, `edma3CCErrHandler`, `edma3TCErrHandler` and the `lisr*` wrappers run asynchronously and call user callbacks. The callback table is modelled; the handlers are not.
- OS services: `edma3OsSemTake/Give` and `edma3OsProtectEntry/Exit` are no-ops in the model. Concurrent callers are not modelled.
- Logging: `logDebug`, `logWarn`, `logError` and the EDMA3 instrumentation hooks have no effect on the model.
- NULL arguments: handles are indices, with -1 for NULL. An out-parameter is a returned value, with `Edma3DrvRequest.PtrArg` where the source tests it for NULL.
- EDMA3 region and shadow registers: the writes to DRAE, QRAE, IESR, DCHMAP, QCHMAP and QEESR are not modelled, nor are the shadow-region registers. The driver's DMAQNUM, QDMAQNUM and PaRAM writes are modelled.
- Crossbar event mapping: `mapXbarToChan` and `configScrMapXbarToEvt` are callbacks supplied by the user and are not modelled.
- Edma3DrvBasic.EnableTransfer: only the recorded trigger mode and the status are modelled. The EESR, SER and QEESR register writes that start the transfer are not.
- Edma3DrvBasic.DisableTransfer: only the checks and the status are modelled. The register writes that stop the transfer are not.
- Edma3Driver.Driver.RequestChannel: computes the new driver state with `Edma3DrvRequest.RequestChannel` and writes it back through `Store`. The order in which the source writes the PaRAM, the queue registers and the bookkeeping is not modelled.
- Edma3Driver.Driver.FreeChannel: writes back the state of `Edma3DrvRequest.FreeChannel` through `Store`, in the same way.
- EDMA3 driver calls outside this model:
  - `setOptField` and `getOptField`;
  - `setPaRAM` and `getPaRAM`;
  - `setQdmaTrigWord`;
  - `setEvtQPriority` and `getMapChToEvtQ`;
  - `setCCRegister` and `getCCRegister`;
  - `waitAndClearTcc` and `checkAndClearTcc`;
  - `getPaRAMPhyAddr`;
  - the driver's `Ioctl`, `registerTccCb` and `unregisterTccCb`;
  - `setTcErrorInt`, `clearErrorBits`, `disableLogicalChannel` and `getAllocatedPARAMId`.

  The resource manager's Ioctl and TCC callback registration are modelled.
- Busy waits: `EDMA3_RM_waitAndClearTcc`, `UARTCharGet`, `UARTCharPut`, the `UARTCharGetTimeout*` calls, `UARTModuleReset` and `USBReset` poll hardware and are not modelled.
- UART: only the configuration functions named above are modelled. Character I/O, the FIFO write loop, the status and level reads, and the other single-register controls of `uart.c` are not. Examples of those controls are autobaud, DMA mode, loopback and idle mode.
- UART registers: the LCR-mode dependent register decoding of the device is not modelled. Each register is its own field.
- USB controller: the musb register traffic, the CPPI 4.1 DMA and `Events_push` are not modelled. A queued transfer is a request appended to a log. A FIFO's contents and the EP0 status bits are step parameters.
- MassStorage.ResetScsiStateStep: the `cancelPendingRequest` calls on both bulk endpoints are not modelled, and the request log is kept.
- MassStorage.OnDisconnectStep: `USBDevice::onDisconnect`, which it calls at the end, is not modelled.
- Mass-storage class requests: `handleNonstandardRequest` (GET MAX LUN and the Bulk-Only mass storage reset) is not modelled.
- The storage card:
  - The `Card_*` calls are outside the model.
  - `Card_readAlignedBlocks` and `Card_connect` report their outcome through the `CardIo` parameter. READ(10) reads twice, so `CardIo` carries one outcome for the first read (`MassStorage.cpp` line 905), which unmounts the card when it fails, and one for the read-ahead (line 921), whose result is ignored.
  - Data read into the ping and pong buffers is represented by the range of blocks read.
  - A block written is appended to `written`.
  - `Card_unmount` and `Card_disconnect` are assumed to leave the card not connected.
- MassStorage: `mPendingTransmits` is a natural number, so its 32-bit wrap-around is not modelled.
- MassStorage: the model's COMMAND_BUFFER_SIZE is the tracked size of `gCommandBuffer`, which is MAX_TRANSFER_SIZE (`MassStorage.cpp` line 178). The source's unused COMMAND_BUFFER_SIZE macro (64) is not modelled.
- Constants from headers that are not part of this model are assumed:
  - the CBW and CSW layouts and signatures, and the SCSI operation codes and sense values, taken from the USB Mass Storage Bulk-Only Transport and SCSI Primary Commands standards;
  - MAX_PACKET_SIZE_EP0 = 64;
  - the endpoint FIFO size encoding (code i means 8 << i bytes);
  - MAX_INTERFACE_COUNT = 4;
  - NUM_USB_EP = 16 endpoints including EP0, assumed equal to USBLIB_NUM_EP;
  - request 0 starts as an OUT request with no data when the device is reset;
  - HW_WR_FIELD32 and HW_RD_FIELD32 (`hw_types.h`): a write shifts the value left by the field's shift and masks it into the register, and a read masks the register and shifts right. The `uart.c` line 718 finding rests on this reading;
  - EDMA3_MAX_DMA_CH = 64, EDMA3_MAX_QDMA_CH = 8, EDMA3_MAX_TCC = 64, EDMA3_MAX_PARAM_SETS = 512, 8 event queues, 8 transfer controllers, 8 regions and 8 resource-manager instances;
  - the EDMA3 OPT field masks, the DMAQNUM slot layout, the channel status bits and the driver's `*_MAX_VAL` limits.
- Files not part of this model: `edma3_drv_init.c`, `edma3_cfg.c`, `edma3_am335x_cfg.c`, `musb.c` and the SD controller. The configuration and initialisation they perform appears in the model as parameters.

## Findings

| source | as written | input that shows it | evidently intended | confidence | as-written member | corrected member |
|---|---|---|---|---|---|---|
| arch/am335x/ti/edma3/rm/edma3resmgr.c:1005-1006 | the last close memzeroes `edma3RmChBoundRes`, binding every logical channel to PaRAM set 0 and TCC 0 | open one instance, close it, open again: with every link channel bound to set 0, no link channel counts as free and `allocLogicalChannel` for a PaRAM set always fails | reset the table to unbound (-1, EDMA3_MAX_TCC) as create does | not executed | Edma3RmLife.CloseAsWritten, Edma3RmLife.CloseAsWrittenBlocksLinks | Edma3RmLife.Close, Edma3RmLife.CloseKeepsLinksFree |
| arch/am335x/ti/edma3/rm/edma3resmgr.c:2789 | `freeLogicalChannel` searches the link channels with `linkCh < linkMax` | free the PaRAM set bound to the last link channel linkMax: the entry stays bound and that link channel is never handed out again | search up to linkMax inclusive, the range `allocLogicalChannel` uses | not executed | Edma3RmChannel.ReleaseLinkAsWrittenMissesLast | Edma3RmChannel.FreeLogicalChannel |
| arch/am335x/ti/edma3/rm/edma3resmgr.c:2246-2253 | when no link channel is free, the status of freeing the PaRAM set overwrites INVALID_PARAM | request a link channel with every link channel bound: the call reports success, hands back a PaRAM set that is free again, and binds no channel | keep INVALID_PARAM after the rollback | not executed | Edma3RmChannel.AllocParamChannelAsWritten, Edma3RmChannel.AllocParamChannelAsWrittenNoLink | Edma3RmChannel.AllocParamChannel, Edma3RmLife.NoFreeLinkRefused |
| arch/am335x/ti/edma3/rm/edma3resmgr.c:6388 | after finding a '1' at `first_one`, `findBit(first_one + 1, end)` is called even when `first_one == end` | contiguous DMA request with only channel 63 free: findBit(64, 63) breaks findBit's `start <= end` assertion and reads past the two-word bitmap | stop the scan when the '1' is the last id of the range | not executed | Bitmap.RoundCallsAsWritten, Bitmap.RoundCallsAsWrittenPastEnd | Bitmap.AllocAnyContigRes |
| arch/am335x/ti/edma3/rm/edma3resmgr.c:6479 | `lastResId = firstResId + (numResources - 1U)` in uint32 | `allocContiguousResource` with EDMA3_RM_RES_ANY and n = 0 while id 0 is usable: lastResId = 0xFFFFFFFF and the booking loop `idx <= lastResId` never ends | book exactly the ids [first, first + n), none for n = 0 | not executed | Edma3RmContig.GblChngLastAsWritten, Edma3RmContig.GblChngAsWrittenNeverEnds | Edma3RmContig.GblChngAllocContigRes |
| arch/am335x/ti/edma3/drv/edma3_drv_basic.c:1264 | the QDMA queue slot is masked in place and then shifted right by `lCh * 4` instead of by its slot offset | a QDMA channel mapped to queue 1: the shift is past the slot (undefined from 32 bits on), so the FIFO width is checked against queue 0's burst size | shift by 4 times the QDMA slot index | not executed; the shift is undefined behaviour in C, and "reads 0" is the reading modelled | Edma3DrvBasic.FifoQueueAsWritten, Edma3DrvBasic.FifoQueueAsWrittenMisreads | Edma3DrvBasic.FifoQueue, Edma3DrvBasic.FifoQueueIsMapped |
| arch/am335x/ti/edma3/drv/edma3_drv_basic.c:1831-1838 | the EVENT-mode check is made only for `lCh < EDMA3_MAX_DMA_CH` | `enableTransfer(64, EDMA3_DRV_TRIG_MODE_EVENT)`: accepted, and the event-enable write then shifts by lCh - 32 >= 32 bits | refuse EVENT mode outside the DMA channels | not executed | Edma3DrvBasic.EnableTransferAsWritten, Edma3DrvBasic.EventBeyondDmaAsWritten | Edma3DrvBasic.EnableTransfer |
| arch/am335x/ti/am335x/uart.c:718 | the value saved by `UARTSubConfigTCRTLRModeEn` (MCR & TCR_TLR mask, still at bit 6) is written with `HW_WR_FIELD32`, which shifts it by 6 again | MCR[6] = 1 before `UARTFIFOConfig`: the saved value 0x40 lands outside the field and MCR[6] ends 0 | write the saved bit back into bit 6 | not executed | Uart.TcrTlrRestoreAsWritten, Uart.TcrTlrRestoreAsWrittenLosesBit, Uart.UartRegs.TcrTlrBitValRestoreAsWritten | Uart.TcrTlrRestore, Uart.UartRegs.TcrTlrBitValRestore |
| arch/am335x/hal/usb/USBDevice.cpp:1360 | the RX branch asks for more data only while `mEP0DataRemain > MAX_PACKET_SIZE_EP0` | a 100-byte OUT data stage: after the first 64-byte packet, 36 bytes remain but endpoint 0 returns to IDLE and the next packet is taken for a SETUP packet | keep receiving while any data remains | not executed | UsbDevice.ReceiveStepAsWritten, UsbDevice.ReceiveAsWrittenEndsEarly | UsbDevice.ReceiveStep, UsbDevice.ReceiveCompletesWhenDone |
| arch/am335x/hal/usb/USBDevice.cpp:1163 | `mAlternateSettings[interfaceId]` is indexed with the host's interface number, unchecked | SET_INTERFACE for interface 4 with a configuration active reads past the four alternate settings | refuse interface numbers of MAX_INTERFACE_COUNT or more | not executed | UsbDevice.AlternateIndexAsWritten, UsbDevice.AlternateIndexAsWrittenOutOfBounds | UsbDevice.AlternateIndex, UsbDevice.AlternateSettingStep |
| arch/am335x/hal/usb/MassStorage.cpp:1019 | the MODE SENSE(6) residue is `dCBWDataTransferLength - 4` in uint32 | MODE SENSE(6) with dCBWDataTransferLength = 0: the CSW residue is 0xFFFFFFFC, more than the host asked for | a residue of at most the requested length: length - 4, or 0 below 4 | not executed | MassStorage.ModeSense6ResidueAsWritten, MassStorage.ModeSense6ResidueAsWrittenExceeds | MassStorage.ModeSense6Residue, MassStorage.ScsiModeSense6Step |
