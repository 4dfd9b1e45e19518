# Verified model of the Rockchip GStreamer plugins

This project models the hand-written logic of the Rockchip multimedia plugins (hardware encoder and
decoder elements, RGA 2D converter and compositor) and proves properties of it. Library, driver and
hardware calls are nondeterministic steps with small contracts; everything else follows the C code
branch by branch. Paths below are relative to the repository root; line numbers refer to the modelled revision.

## What is modelled

**The asynchronous RGA converter** (`gst/rockchiprga/gstrgaconvert.c`). `RgaFrames` has one function for
each critical section, `RgaElement` the same sections as methods on the element's fields that keep its reference
books balanced, `RgaPipeline` the state machine in which the streaming thread, FLUSH_START, state changes, stop, two
concurrent reap calls, the process-lifetime reaper and the hardware interleave freely. `RgaOwnership` proves who owns
the DMA buffers, `RgaDelivery` what is pushed downstream and in which order, `RgaTerminal` that no buffer is
pushed before its job is over, `RgaStateChange` exactly which drains break that, `RgaFlushed` where flushed inputs
are, `RgaCalls` what the two call counters count, `RgaLeases` that the users of every cached import are its holders.
`ImportCache` is the LRU cache of DMA-BUF imports, `ImportWorld` the process around it, in which descriptors are
closed and reused and inode numbers are recycled.
`DeliveryLedger` is the abstract record of deliveries that `RgaDelivery` refines.

**The kernel-fault bridge** (`gst/rockchipmpp/gstmppfaultbridge.c`). `FaultLog` states the correlator over an
unbounded log, `FaultCorrelator` is the 256-slot ring that refines it, `FaultHistory` says what a verdict
means in terms of past events alone, `FaultKernel` is the kernel's task queues beside it, and `FaultAttribution`
says exactly when a verdict can be false of them.
`FaultWindow` counts owned faults. `TraceText` and `TracePrint` parse and print trace lines, and
`TraceReader` reads them in chunks and drives all of it.

**The encoder element** (`gst/rockchipmpp/gstmppenc.c`). `EncoderPipeline` is the frame pipeline as a state
machine, `EncoderElement` its routines as methods on the element's fields, `EncoderPairing` what every run
keeps, `EncoderGeometry` which rescales mislabel a frame. `RestartBudget` bounds context restarts. `RateInfo`,
`LevelChoice`, `LevelsH264` and `LevelsH265` are the selection of a conforming level, on the machine words the code
uses.

**The decoder's parameter-set recognisers** (`gst/rockchipmpp/gstmppdec.c`): `ParameterSets` for the
length-prefixed form, `ByteStream` for the start-code form, both against printers.

**The RGA backend** (`gst/rockchipmpp/gstmpprgatuple.c`, `gst/rockchipmpp/gstmpprgabackend.c`): `TupleTable`
is the circuit breaker per conversion tuple, `RgaBackend` the begin/finish protocol around it. `MachineWords`
holds the ranges of the C integer types.

**The compositor** (`gst/rockchiprga/gstrgacompositor.c`): `CompositorFrames` for the accepted buffer
layouts, `CompositorLayout` for the preset rectangles.

## Assumptions

- `async-depth` and the presence of the asynchronous librga entry point do not change during a run.
- A buffer that `submit_input_buffer` refused is not followed by another one until a drain, flush or stop.
- A submission that returns fence -1 was never taken by the hardware; one that succeeds returns a sync file;
  a fence becomes terminal only when its job is over.
- `start` is called while the streaming thread rests. The two reap activities are not tied to the calls that
  cause them: any two may be in progress at any time, which includes every order the element produces.
- MPP returns packets in the order frames were submitted, one for each frame it holds.
- The kernel never gives two live objects one inode number; `fcntl` and librga answer with unused numbers.
- Whether a geometry can be aligned depends on the geometry alone, and the converter switch is latched at its first
  use (`gst/rockchipmpp/gstmpp.c:112-135`).
- Monotonic times are positive. Numbers in trace events other than the unassigned-core marker are arbitrary.

## Findings

Places where the code does not do what its comments or its neighbours suggest, each with a proof.

- Leaving PAUSED or READY drains the converter without announcing a flush
  (`gst/rockchiprga/gstrgaconvert.c:2101-2107`). A submission in progress then finds its slot empty and wraps the
  same output a second time as already complete (`gst/rockchiprga/gstrgaconvert.c:1526-1531`).
  `RgaStateChange.EarlyPushIsReached` is a run that pushes a buffer the hardware still writes, and
  `RgaStateChange.DrainMakesPushesEarlyIffExposed` says which drains make that possible: those between publishing a
  record and placing it, with no flush announced and the job unfinished. Order and accounting hold regardless.
- A lost trace event can do more than lose an attribution, against the comment at
  `gst/rockchipmpp/gstmppfaultbridge.c:267-269`: `FaultKernel.LostEventMisattributes`. Dropping an ambiguous task id
  is enough for two queues but not for three: `FaultKernel.ThreeQueuesMisattribute`. Nor does a lossless trace
  of two queues help a task that waits while 256 more are queued: `FaultKernel.SlowSelectionMisattributes`. One
  event decides: `FaultAttribution.SelectionMisattributesIffMisleading` says that a selection makes a false verdict
  possible if and only if the one record it can join belongs to another session, and
  `FaultAttribution.UnmisledVerdictsAreTrue` that without such a selection no verdict is false, for any number of
  queues, any losses and any delays.
- The fault window asks at most once for each disjoint group of `threshold` faults (`FaultWindow.CrossingIsBacked`),
  not once in every two-second interval: `FaultWindow.TwoCrossingsInOneWindow`. It asks again within two seconds if
  and only if `threshold` more owned faults arrive in that time: `FaultWindow.CrossesAgainIff`.
- A rescale refused between its drain and the template leaves the picture info ahead of the template
  (`gst/rockchipmpp/gstmppenc.c:1878-1910`), and the next frame is submitted with dimensions it does not have. This
  needs a target whose alignment fails, `EncoderGeometry.RescaleMislabelsIffUnaligned` and, as a run,
  `EncoderGeometry.MislabelledRun`; the other two refusals on the way cannot mislead. No size a converter produces is
  shown to be such a target, and where every geometry aligns nothing is ever mislabelled:
  `EncoderGeometry.FittingFramesKeepTheirGeometry`.
- A frame refused because flushing ended its wait is finished with its uncoded picture still attached
  (`gst/rockchipmpp/gstmppenc.c:2506-2523`): `EncoderPairing.RawRefusalIsReached`, and in no other case:
  `EncoderPairing.RawRefusalsAreFlushedAccepts`.
- The compositor passes the row count before the chroma plane in 32 bits; the hardware finds the plane exactly
  when it fits: `CompositorFrames.HardwareFindsTheChroma`. An accepted layout for which it does not:
  `CompositorFrames.HardwareMissesTheChroma`.

## Model

| member | source | states |
|---|---|---|
| RgaOwnership.DmaOwnership | gst/rockchiprga/gstrgaconvert.c:1110-1408 | in every interleaving a record's reference count equals its holders, at most one of pending, ready, quarantine and reaper owns it, it is freed at most once, and it keeps both buffers while its job runs or no fence proves the job over |
| RgaOwnership.SlotAssertionsHold | gst/rockchiprga/gstrgaconvert.c:1517-1519 | the element's own assertions never fail: the ready slot is free when a buffer is rotated in, the pending slot when a record is published |
| RgaTerminal.NeverPushedBeforeTerminal | gst/rockchiprga/gstrgaconvert.c:1339-1444 | unless a state change drains an exposed record, no output is pushed or on its way downstream while the job that writes it runs or its fence is missing |
| RgaDelivery.InOrderDelivery | gst/rockchiprga/gstrgaconvert.c:1483-1558 | in every interleaving the pushed buffers are an in-order, duplicate-free subsequence of the inputs offered, also when the element falls back to synchronous conversion |
| RgaDelivery.EveryOkInputAccounted | gst/rockchiprga/gstrgaconvert.c:1339-1558 | in every interleaving every input whose chain call returned OK was pushed, skipped by QoS, counted as dropped, quarantined by a flush or stop, or is still in the pipeline; the drop counter is exact |
| RgaFlushed.FlushedInputsAreKept | gst/rockchiprga/gstrgaconvert.c:1271-1331 | an input answered OK that a flush or stop took has a record, and each record of it is in quarantine, escaping or with the reaper until its fence is terminal |
| RgaStateChange.StateChangeDrainLeadsToThePush | gst/rockchiprga/gstrgaconvert.c:2101-2107 | a draining state change in any exposed state, that is between publication and the second look at the slots with no flush announced and the job unfinished, can be continued by the element's own steps to a push of a buffer the hardware still writes |
| RgaStateChange.DrainMakesPushesEarlyIffExposed | gst/rockchiprga/gstrgaconvert.c:1500-1533 | after a draining state change an early push is possible without another such drain if and only if the drained record was exposed |
| RgaStateChange.EarlyPushIsReached | gst/rockchiprga/gstrgaconvert.c:2101-2107 | a run from the initial state that pushes a buffer the hardware still writes |
| RgaCalls.StartSeesEveryCall | gst/rockchiprga/gstrgaconvert.c:1560-1578 | in every interleaving start finds both counters at zero exactly when no take, reap or submit is in progress, and then no call holds a reference |
| RgaCalls.QuietStopLeavesNoReference | gst/rockchiprga/gstrgaconvert.c:1618-1643 | when a stop round finds everything quiet, every reference left belongs to a slot or to the reaper |
| RgaLeases.UsersAreTheHolders | gst/rockchiprga/gstrgaconvert.c:1841-1917 | in every interleaving the users of an import equal the frame records and submits in progress that hold it, it is listed while anybody does, and the list has at most 32 entries |
| RgaLeases.ReleasedOnlyAtZero | gst/rockchiprga/gstrgaconvert.c:459-498 | an import leaves the list, and its handle is released, only in a step that starts with nobody holding it |
| ImportCache.EvictionPolicy | gst/rockchiprga/gstrgaconvert.c:521-548 | a retired entry is never handed out; a miss evicts an idle retired entry if there is one, otherwise, when full, the idle entry nearest the old end, otherwise nothing; a hit evicts nothing |
| ImportCache.VictimMeaning | gst/rockchiprga/gstrgaconvert.c:521-541 | what the walk selects: nothing exactly when every entry is leased, a retired entry if an idle one exists, otherwise the first idle one |
| ImportCache.RequestKeepsWellFormed | gst/rockchiprga/gstrgaconvert.c:503-567 | a request keeps the list bounded, addresses unique and at most one live entry per descriptor; what it leases agrees with the request and is the most recently used |
| ImportCache.ClearKeepsWellFormed | gst/rockchiprga/gstrgaconvert.c:475-491 | invalidation leaves exactly leased entries, all retired |
| ImportCache.ImportList.Walk | gst/rockchiprga/gstrgaconvert.c:517-541 | the in-place walk stops at the first hit, retires what disagrees on the way and selects the specified victim |
| ImportCache.ImportList.ImportLocked | gst/rockchiprga/gstrgaconvert.c:503-567 | the in-place request is the specified one, on hits, evictions, refusals and failed imports |
| ImportCache.ImportList.PutLease | gst/rockchiprga/gstrgaconvert.c:493-498 | dropping a lease decrements exactly the users of that entry |
| ImportCache.ImportList.ClearLocked | gst/rockchiprga/gstrgaconvert.c:475-491 | the in-place invalidation removes exactly the idle entries and retires the rest |
| ImportWorld.CacheAgreesWithFreshImport | gst/rockchiprga/gstrgaconvert.c:500-567 | whatever was closed, reused or recycled before, a leased handle was made from the object the descriptor names now, with the layout asked for |
| ImportWorld.EvictionIsLeastRecentlyUsed | gst/rockchiprga/gstrgaconvert.c:521-548 | a live entry that is evicted was used no later than any other idle entry, and the list was full |
| RgaElement.RgaConvert.FrameUnref | gst/rockchiprga/gstrgaconvert.c:1124-1150 | the books stay balanced; the reference nobody else shares drops both leases and both buffers, once |
| RgaElement.RgaConvert.QuarantineLocked | gst/rockchiprga/gstrgaconvert.c:1271-1282 | ready, then pending, move to the end of quarantine with their references |
| RgaElement.RgaConvert.StartFlush | gst/rockchiprga/gstrgaconvert.c:1587-1592 | both slots are empty afterwards, every record has as many owners as before, and every submission that began earlier sees a newer generation |
| RgaElement.RgaConvert.ReapStart | gst/rockchiprga/gstrgaconvert.c:1290-1297 | every quarantined record is lent to the reap once per occurrence, and the snapshot is the quarantine reversed |
| RgaElement.RgaConvert.ReapDecide | gst/rockchiprga/gstrgaconvert.c:1310-1329 | a record seen terminal leaves quarantine if and only if it is still there, and its reference becomes the reap's |
| RgaElement.RgaConvert.TakeStart | gst/rockchiprga/gstrgaconvert.c:1350-1358 | a ready record is lent to the caller, who is counted |
| RgaElement.RgaConvert.TakeDecide | gst/rockchiprga/gstrgaconvert.c:1373-1395 | the books stay balanced: unless a flush came, the ready slot's reference goes to quarantine after a timeout and to the caller otherwise, and no reference count changes |
| RgaElement.RgaConvert.DrainRotate | gst/rockchiprga/gstrgaconvert.c:1426-1432 | a record is ready exactly if a slot held one, the older one if both did, and none changes owners |
| RgaElement.RgaConvert.Rotate | gst/rockchiprga/gstrgaconvert.c:1517-1520 | with the ready slot free, as the source asserts, room is made without any record losing its owner |
| RgaElement.RgaConvert.Publish | gst/rockchiprga/gstrgaconvert.c:1851-1869 | with the pending slot free, the caller holds a reference of a new record that owns both buffers, and the slot a second one exactly if no flush came first |
| RgaElement.RgaConvert.EndSubmission | gst/rockchiprga/gstrgaconvert.c:1873-1883 | no record changes the number of its owners; a refused one is in no slot afterwards |
| RgaElement.RgaConvert.CloseSubmit | gst/rockchiprga/gstrgaconvert.c:1886-1889 | the submit is over; after a lost device every import left is leased and can no longer be hit |
| RgaElement.RgaConvert.SubmitAsync | gst/rockchiprga/gstrgaconvert.c:1851-1890 | undisturbed, the whole asynchronous half leaves the new record to pending alone, to quarantine alone after a failure, or freed after a flush, and keeps no reference |
| RgaElement.RgaConvert.Place | gst/rockchiprga/gstrgaconvert.c:1525-1530 | either a new record, complete from the start, owns the output and is pending, or nothing changes |
| RgaElement.RgaConvert.StopRound | gst/rockchiprga/gstrgaconvert.c:1618-1643 | a round ends the stop when everything is quiet or too late, and then hands exactly the quarantine over; no record changes the number of its owners |
| FaultCorrelator.Correlator.Lookup | gst/rockchipmpp/gstmppfaultbridge.c:173-191 | the scan of the ring finds the newest live record of the window with this task and core |
| FaultCorrelator.Correlator.Unbound | gst/rockchipmpp/gstmppfaultbridge.c:197-218 | the scan finds the oldest live record without a core, and counts more than one exactly when a later one exists |
| FaultCorrelator.Correlator.Insert | gst/rockchipmpp/gstmppfaultbridge.c:220-231 | the next slot takes the new record, and the one it overwrites is the one that leaves the window |
| FaultCorrelator.Correlator.DropUnbound | gst/rockchipmpp/gstmppfaultbridge.c:240-253 | exactly the unbound records of the task are retired |
| FaultCorrelator.Correlator.AddSession | gst/rockchipmpp/gstmppfaultbridge.c:151-168 | a new session is appended, the oldest leaves a full list |
| FaultCorrelator.Correlator.Feed | gst/rockchipmpp/gstmppfaultbridge.c:255-366 | the ring refines the search over the unbounded log: same verdict, same counters, same records for every event |
| FaultHistory.VerdictJustified | gst/rockchipmpp/gstmppfaultbridge.c:151-366 | owned if and only if the history says so: queued by an owned session among the last 256, selected on that core while the only waiting task with its id, not consumed since, ownership resolved; likewise foreign and unattributed |
| FaultHistory.EveryFaultCounted | gst/rockchipmpp/gstmppfaultbridge.c:329-363 | the three fault counters add up to the error events |
| FaultHistory.OwnedAreTheAdded | gst/rockchipmpp/gstmppfaultbridge.c:132-168 | no session twice, never more than 32, only added ones, and exactly the added ones while at most 32 different were |
| FaultAttribution.UnmisledVerdictsAreTrue | gst/rockchipmpp/gstmppfaultbridge.c:197-366 | for any number of queues, any lost events and any delays: while no selection binds another session's record, an owned verdict means the task that failed belongs to an owned session, a foreign one that it does not |
| FaultAttribution.SelectionMisattributesIffMisleading | gst/rockchipmpp/gstmppfaultbridge.c:287-312 | after such a run a selection makes a false verdict possible if and only if it finds exactly one record to join and that record is another session's |
| FaultAttribution.AttributionIsTrue | gst/rockchipmpp/gstmppfaultbridge.c:197-366 | on every lossless trace of two task queues whose tasks are selected before 256 more are queued no selection misleads, so every verdict is true |
| FaultKernel.ThreeQueuesMisattribute | gst/rockchipmpp/gstmppfaultbridge.c:300-308 | a run with three queues in which a foreign fault is called owned |
| FaultKernel.LostEventMisattributes | gst/rockchipmpp/gstmppfaultbridge.c:267-273 | a run with two queues and one lost event in which a foreign fault is called owned |
| FaultKernel.SlowSelectionMisattributes | gst/rockchipmpp/gstmppfaultbridge.c:197-231 | a lossless run with two queues and a task that waits while 256 more are queued, in which a foreign fault is called owned |
| FaultWindow.Counter.Account | gst/rockchipmpp/gstmppfaultbridge.c:722-740 | one owned fault on the two window fields |
| FaultWindow.CrossingIsBacked | gst/rockchipmpp/gstmppfaultbridge.c:722-740 | each crossing is backed by exactly threshold faults spanning less than the window, none of which backed an earlier crossing |
| FaultWindow.BurstForcesCrossing | gst/rockchipmpp/gstmppfaultbridge.c:722-740 | from any state, 2 threshold - 1 faults within less than the window force a crossing |
| FaultWindow.BurstForcesCrossingInARun | gst/rockchipmpp/gstmppfaultbridge.c:722-740 | from a state that faults led to, 2 threshold - 2 are enough |
| FaultWindow.BurstBoundIsSharp | gst/rockchipmpp/gstmppfaultbridge.c:722-740 | 2 threshold - 3 faults within a microsecond need not cross |
| FaultWindow.CrossesAgainIff | gst/rockchipmpp/gstmppfaultbridge.c:735-739 | after a crossing there is another one less than a window later if and only if threshold more owned faults arrive in that time |
| FaultWindow.TwoCrossingsInOneWindow | gst/rockchipmpp/gstmppfaultbridge.c:735-739 | twice the threshold of faults within less than the window cross twice |
| TraceText.EventPayload | gst/rockchipmpp/gstmppfaultbridge.c:73-88 | the payload behind the first place where the name begins a token and is followed by a colon and a blank |
| TraceText.ParseField | gst/rockchipmpp/gstmppfaultbridge.c:93-122 | the number behind the first place where the key begins a token, if there is one and it is in range |
| TraceText.ParseLine | gst/rockchipmpp/gstmppfaultbridge.c:255-346 | the event a line stands for, in the order the element tries them |
| TracePrint.StrtollDecimal | gst/rockchipmpp/gstmppfaultbridge.c:107-118 | a canonical decimal is read back as its number |
| TracePrint.OnlyItsName | gst/rockchipmpp/gstmppfaultbridge.c:73-88 | a line whose prefix and tail name no event yields its own event's payload and no other's |
| TracePrint.PrintedIsParsed | gst/rockchipmpp/gstmppfaultbridge.c:67-366 | parsing a printed trace line gives back the event |
| TraceReader.ReadsAreTheLines | gst/rockchipmpp/gstmppfaultbridge.c:758-810 | however a text without NULs and overlong lines is cut into reads, exactly its lines come out in order |
| TraceReader.PrintChunkParse | gst/rockchipmpp/gstmppfaultbridge.c:67-810 | events printed, cut into reads at any points, read and parsed are the original events in order |
| TraceReader.PolledAsTheEvents | gst/rockchipmpp/gstmppfaultbridge.c:67-813 | however the text of printed events is cut into reads and the reads into polls, the correlator ends up as if it had been fed the events, and nothing is left over |
| TraceReader.FaultBridge.FeedLine | gst/rockchipmpp/gstmppfaultbridge.c:771-780 | one line is parsed, correlated and, if owned, accounted |
| TraceReader.FaultBridge.DrainLines | gst/rockchipmpp/gstmppfaultbridge.c:770-807 | all whole lines of the buffer are fed, the rest is kept unless longer than 64 KiB |
| TraceReader.FaultBridge.Poll | gst/rockchipmpp/gstmppfaultbridge.c:742-813 | a poll feeds exactly the lines its reads complete and reports a crossing if any of them crossed |
| EncoderPairing.PacketsMeetTheirFrames | gst/rockchipmpp/gstmppenc.c:2224-2533 | in every run the base class's list is the submitted, the unsubmitted and the handled frame, the counter is the sum of the first two and at most 16, and every packet went to the frame it was coded from |
| EncoderPairing.OldestFrameIsThePackets | gst/rockchipmpp/gstmppenc.c:2325-2331 | at poll time the oldest frame exists and is the one that produced the packet |
| EncoderPairing.FinishMeansEveryFrameDone | gst/rockchipmpp/gstmppenc.c:1416-1480 | if finish returns OK, every accepted frame was finished exactly once, in order |
| EncoderPairing.NeverFinishedTwice | gst/rockchipmpp/gstmppenc.c:1225-1480 | no accepted frame is finished twice, whatever is restarted, drained or flushed |
| EncoderPairing.RestartFinishesTheSubmitted | gst/rockchipmpp/gstmppenc.c:1225-1320 | a restart finishes exactly the submitted frames, in order and without output, and leaves the unsubmitted and the handled frame alone |
| EncoderPairing.RawRefusalsAreFlushedAccepts | gst/rockchipmpp/gstmppenc.c:2506-2523 | over every run the frames given back with an uncoded picture attached are exactly those whose wait for room was ended by flushing |
| EncoderPairing.RawRefusalIsReached | gst/rockchipmpp/gstmppenc.c:2506-2523 | a run in which that happens |
| EncoderGeometry.FramesKeepTheirGeometry | gst/rockchipmpp/gstmppenc.c:1789-1958 | every frame is submitted with the width, height and format it was converted to, unless a rescale was refused because its target does not align, with no other one pending |
| EncoderGeometry.FittingFramesKeepTheirGeometry | gst/rockchipmpp/gstmppenc.c:1789-1958 | without a converter, or where every geometry aligns, that holds on every run |
| EncoderGeometry.RescaleMislabelsIffUnaligned | gst/rockchipmpp/gstmppenc.c:1878-1910 | in every run a rescale that has come to its end makes a mislabelled submission possible if and only if no other is pending, there is a converter, the properties ask for one and the target they ask for does not align |
| EncoderGeometry.MislabelledRun | gst/rockchipmpp/gstmppenc.c:1878-1910 | for a width whose target does not align, a run from the initial state that submits a frame with other dimensions than it has |
| EncoderElement.MppEnc.DiscardSubmittedFrames | gst/rockchipmpp/gstmppenc.c:1225-1240 | the loop finishes as many of the oldest frames as the counter exceeds the unsubmitted ones |
| EncoderElement.MppEnc.RestartContext | gst/rockchipmpp/gstmppenc.c:1242-1320 | budget, discard and the new context, on the element's fields |
| EncoderElement.MppEnc.SendFrameLocked | gst/rockchipmpp/gstmppenc.c:2224-2279 | a successful send moves the first unsubmitted frame into MPP with the template's dimensions; a failed one changes nothing or restarts |
| EncoderElement.MppEnc.PollPacketLocked | gst/rockchipmpp/gstmppenc.c:2281-2406 | a packet finishes the oldest frame and decrements the counter; errors change nothing or restart |
| EncoderElement.MppEnc.DrainResolutionBoundary | gst/rockchipmpp/gstmppenc.c:1789-1824 | the drain is a run of sends and polls, and succeeds only with nothing left |
| EncoderElement.MppEnc.AcceptFrame | gst/rockchipmpp/gstmppenc.c:2506-2533 | list and counter stay paired and at most 16; the frame is the last to be sent and accepted, or given back with its picture and nothing else changed |
| EncoderElement.MppEnc.EndReset | gst/rockchipmpp/gstmppenc.c:1448-1479 | OK exactly if no flow error came and, for a drain, every frame ever accepted has been finished, although only the counter and the list are tested |
| RestartBudget.WindowAdmitsThree | gst/rockchipmpp/gstmppenc.c:1252-1266 | each accounting window admits at least one and at most three restart attempts |
| RestartBudget.SpanAdmitsFive | gst/rockchipmpp/gstmppenc.c:103-104 | any span shorter than ten seconds, in any run of errors, contains at most five attempts |
| RestartBudget.FiveIsReached | gst/rockchipmpp/gstmppenc.c:1252-1266 | a run that reaches five |
| RateInfo.AutoBitrateSaturates | gst/rockchipmpp/gstmppenc.c:746-762 | the automatic bitrate is one bit per eight pixels and frame, saturated at G_MAXINT, without wrap |
| RateInfo.ScaleBitrateSaturates | gst/rockchipmpp/gstmppenc.c:769-781 | scaling is exact, saturated at G_MAXINT, without wrap |
| RateInfo.TestedIsWritten | gst/rockchipmpp/gstmppenc.c:799-832 | the bitrate a level is tested against is the one the same pass writes, absent exactly when none is written, and the frame rate is the written one whenever that is positive |
| RateInfo.DerivedPeak | gst/rockchipmpp/gstmppenc.c:1085-1101 | the derived peak is never below the target and one sixteenth above it unless it saturates |
| LevelChoice.RateTestIsExact | gst/rockchipmpp/gstmpph264enc.c:262-279 | below the size limit the 64-bit cross-multiplication decides the rational comparison, without wrap |
| LevelChoice.ChosenAdmits | gst/rockchipmpp/gstmpph264enc.c:290-310 | the higher of the declared row and the least that fits really admits the stream |
| LevelsH264.LevelIndex | gst/rockchipmpp/gstmpph264enc.c:226-236 | the row of a declared level |
| LevelsH264.RequiredLevelIndex | gst/rockchipmpp/gstmpph264enc.c:250-288 | the least row other than 1b whose size, rate and bitrate limits all admit the stream, or the last row when none does |
| LevelsH264.EffectiveLevel | gst/rockchipmpp/gstmpph264enc.c:311-350 | refused exactly when no row fits, otherwise the higher in table order of declared and required; unchanged for incomplete geometry |
| LevelsH264.EffectiveLevelAdmits | gst/rockchipmpp/gstmpph264enc.c:290-310 | the effective level's limits admit the stream, for every profile factor |
| LevelsH264.RefusedMeansNoLevel | gst/rockchipmpp/gstmpph264enc.c:306-310 | a refusal means no level of the table, 1b included, carries the stream |
| LevelsH265.RequiredLevelIndex | gst/rockchipmpp/gstmpph265enc.c:239-274 | the least row defined for the tier whose limits all admit the stream |
| LevelsH265.EffectiveLevel | gst/rockchipmpp/gstmpph265enc.c:293-331 | refused exactly when no row of the tier fits, otherwise the higher in table order of declared and required |
| LevelsH265.EffectiveLevelAdmits | gst/rockchipmpp/gstmpph265enc.c:276-292 | the effective level is defined for the tier and admits the stream |
| ParameterSets.LengthPrefixedIsParameterSetAu | gst/rockchipmpp/gstmppdec.c:588-614 | the loop decides whether the data is a non-empty list of length-prefixed parameter sets |
| ParameterSets.LengthAuMeaning | gst/rockchipmpp/gstmppdec.c:588-614 | TRUE exactly for the prints of non-empty lists of parameter sets |
| ParameterSets.LengthPrintedIsRecognised | gst/rockchipmpp/gstmppdec.c:588-614 | a printed list is accepted exactly if every unit is a parameter set |
| ByteStream.FindStartCode | gst/rockchipmpp/gstmppdec.c:526-548 | the first start code prefix from a position on, and one byte earlier if a zero stands there |
| ByteStream.AnnexBIsParameterSetAu | gst/rockchipmpp/gstmppdec.c:550-586 | the loops decide whether the data is a byte stream of parameter sets |
| ByteStream.StreamAuMeaning | gst/rockchipmpp/gstmppdec.c:550-586 | TRUE exactly for the prints, with any mix of start codes, padding and leading zeros, of non-empty lists of clean parameter sets |
| ByteStream.StreamAuOfPrinted | gst/rockchipmpp/gstmppdec.c:550-586 | a printed list of clean units is accepted exactly if it is not empty and every unit is a parameter set |
| ByteStream.RecognisersAgree | gst/rockchipmpp/gstmppdec.c:550-614 | both recognisers answer alike on the two prints of one list |
| ByteStream.IsParameterSetAu | gst/rockchipmpp/gstmppdec.c:616-626 | the dispatch on the stream format |
| TupleTable.Table.Find | gst/rockchipmpp/gstmpprgatuple.c:25-48 | the linear search and the append change what the table says about no key |
| TupleTable.Table.ShouldTry | gst/rockchipmpp/gstmpprgatuple.c:65-76 | the search, the two counters and the answer are one check recorded in the array |
| TupleTable.Table.Failed | gst/rockchipmpp/gstmpprgatuple.c:87-103 | one failure recorded in the array; reports the demotion and the count |
| TupleTable.DemotedMeansEightFailures | gst/rockchipmpp/gstmpprgatuple.c:65-103 | a key is demoted exactly when its last eight or more outcomes were failures, also after the 32-bit counter wraps |
| TupleTable.OneInNine | gst/rockchipmpp/gstmpprgatuple.c:65-76 | of any nine checks of a demoted key without a success exactly one is let through |
| TupleTable.KeysAreIndependent | gst/rockchipmpp/gstmpprgatuple.c:25-48 | over every run of calls on the array each key has one entry, and what it says is what the key's own events alone say |
| TupleTable.TableDemotesAfterEight | gst/rockchipmpp/gstmpprgatuple.c:65-103 | after any run of calls the array demotes a key exactly when its last eight or more outcomes were failures |
| TupleTable.TableLetsOneInNineThrough | gst/rockchipmpp/gstmpprgatuple.c:65-76 | of nine checks of a demoted key without a success of it exactly one is let through, whatever happens to other keys in between |
| RgaBackend.Backend.Begin | gst/rockchipmpp/gstmpprgabackend.c:650-676 | unavailable without touching any tuple, or a check of exactly this tuple |
| RgaBackend.Backend.Finish | gst/rockchipmpp/gstmpprgabackend.c:678-709 | a lost device changes no tuple and ends availability; success and failure update exactly this tuple |
| RgaBackend.DeviceLossLatches | gst/rockchipmpp/gstmpprgabackend.c:581-709 | once any caller was told the device is gone every later begin is refused, whatever interleaves, probes included |
| RgaBackend.FailedProbeLatches | gst/rockchipmpp/gstmpprgabackend.c:581-624 | after a failed probe nothing is ever operated and the tuple table stays empty |
| RgaBackend.DemotedOnlyAfterEightFailures | gst/rockchipmpp/gstmpprgabackend.c:650-709 | whatever callers interleave, a conversion is refused as demoted only after eight failures in a row of its tuple, device losses aside |
| RgaBackend.HealthyTuplesAreTried | gst/rockchipmpp/gstmpprgabackend.c:650-676 | with fewer, and the device there, it is always let through |
| CompositorFrames.FrameFromBuffer | gst/rockchiprga/gstrgacompositor.c:395-504 | accepted exactly if meta and caps agree, the memory is one importable DMA-BUF and the layout is linear; sizes never overflow |
| CompositorFrames.Nv12SamplesAreInside | gst/rockchiprga/gstrgacompositor.c:448-477 | every luma sample lies before the chroma plane, every chroma sample inside the buffer, also where the hardware looks for it |
| CompositorFrames.HardwareFindsTheChroma | gst/rockchiprga/gstrgacompositor.c:455-467 | the hardware's chroma base is the buffer's exactly when the row count before it fits 32 bits |
| CompositorFrames.HardwareMissesTheChroma | gst/rockchiprga/gstrgacompositor.c:455-467 | an accepted layout whose chroma plane the hardware looks for elsewhere |
| CompositorFrames.BgraSamplesAreInside | gst/rockchiprga/gstrgacompositor.c:468-481 | every byte of an accepted BGRA frame lies in the buffer |
| CompositorLayout.CalculateRectangle | gst/rockchiprga/gstrgacompositor.c:529-610 | what is accepted is even and inside the output |
| CompositorLayout.PresetsFitDivisibleOutputs | gst/rockchiprga/gstrgacompositor.c:529-610 | a preset places both inputs exactly on even outputs of at least four on every axis it halves |
| CompositorLayout.SideBySidePartitions | gst/rockchiprga/gstrgacompositor.c:592-605 | the two side-by-side presets give every pixel to exactly one input |
| CompositorLayout.InsetGeometry | gst/rockchiprga/gstrgacompositor.c:564-591 | insets keep their margins, mirror each other and take at most a quarter of the frame |

## Left out

- RgaTerminal.NeverPushedBeforeTerminal: for runs in which no state change drains an exposed record; RgaStateChange.DrainMakesPushesEarlyIffExposed proves that no other drain does harm and each of those can.
- FaultHistory.VerdictJustified: events never carry core -1, which is the marker of an unassigned core.
- FaultAttribution.AttributionIsTrue: for at most two queues, a lossless trace from the first queued task on, and tasks selected before 256 more are queued; each condition is shown to be needed by a run, and FaultAttribution.UnmisledVerdictsAreTrue does without them.
- TraceReader.PrintChunkParse: for records whose prefix and tail name no event at a token boundary and do not hold both words of the marker of lost events.
- EncoderGeometry.FramesKeepTheirGeometry: strides and the AFBC bit of the format are not covered, because conversion may change strides in place.
- EncoderElement.MppEnc.DrainResolutionBoundary: time is the number of rounds before the no-progress deadline.
- EncoderPipeline: ends at a reset whose drain timed out, which zeroes the counters, and at a restart that got no new context; frames a subclass refuses before the base class, and a refused set_format, are not part of it.
- RgaPipeline: the test entry points gst_rga_convert_release_pipelined and the setters for tests, passthrough, the CPU fallback and the error messages and statistics other than the drop counter.
- RgaElement: frame records are named by their number in one sequence instead of being heap objects.
- RgaBackend: the version check, the format and colour tables and the asynchronous fence query.
- TraceReader: the poll interval, the number of reads per poll and the reading of trace_pipe itself; the session summary and thread ids in procfs.
- Compositor: custom rectangles are only checked, and the composition requests are not modelled.
- Decoder: packet and frame matching, timestamps and everything but the parameter-set recognisers.
- Caps negotiation, property tables, allocation, debug output, environment variables, display and window plumbing, and liveness of the hardware.
