# MZ0380 capture driver: a verified model

The MZ0380 is a PCIe HDMI capture card.  Its Linux driver shares memory with the card's firmware:
the card writes frames into host buffers and reports each one through a mailbox that must be
re-armed by hand.  This project models the parts of the driver where that goes wrong most easily,
and proves what they keep.

| file | subject |
|---|---|
| `Basics.dfy` | types and arithmetic that several modules share |
| `EventQueue.dfy` | the completion ring, as a class over an array, against a plain FIFO |
| `EventProtocol.dfy` | the same critical sections interleaved: card, acknowledger, worker, and the thread that starts and stops the stream |
| `CardLog.dfy`, `StartScript.dfy` | records of the commands sent to the card, and the commands a start consists of |
| `Recovery.dfy`, `Pipeline.dfy` | what an HDMI recovery pass decides; starting and stopping the pipeline, STREAMON, STREAMOFF and the pass itself |
| `Delivery.dfy` | who hands which buffer to the application, with every shared flag read and written in a step of its own |
| `AnnexB.dfy`, `ParameterCache.dfy`, `CachedSets.dfy`, `EncodedSlot.dfy` | H.264 byte streams: start codes, classification, the parameter-set cache and what it holds, and one encoded completion |
| `RawSlot.dfy`, `RawRotation.dfy`, `FrameLength.dfy` | raw frames: sentinels, pixel layouts, slot rotation, inferring a length from a poisoned buffer |
| `I2cBus.dfy` | the bit-banged I2C master against an independent bus monitor |
| `Receiver.dfy` | timing measurement and mode matching |
| `Reachability.dfy` | the worklist of the firmware control-flow script |

Code that changes state in place is a class or an array method proved against a function of the
old state; fields of one concern are kept together in one record.  Concurrency is a state machine over atomic steps, with theorems about every run from
the initial state.  Card replies, receiver readings, clocks and copies by the card are inputs or
step arguments, so they may be anything.

## What the proofs brought to light

* **The start's mailbox command is what keeps a late ACK out of the next session.**  The handler may
  decide to acknowledge a dropped report at once, because completions are refused and nothing is
  queued, and still be about to write that ACK when the stream is started again.  Only the command
  that every start sends first, which waits for the lock the handler holds
  (src/mz0380-mailbox.c:184-203), makes sure that the ACK comes before completions are accepted
  (`EventProtocol.OnlyTheDrainAcksWhileAccepting`).
* **An immediate ACK can precede a re-poison.**  While a stop's flush restores slots, a report read
  just before the stop may be acknowledged although the slot of an earlier one is not restored yet
  (`EventProtocol.AnAckCanPrecedeARepoison`); no other ACK ever finds a slot so
  (`EventProtocol.AckFindsNothingOutstanding`).
* **The line count is cut to 16 bits.**  A sample can be accepted although its true line count fits
  neither field order (`Receiver.AWideLineCountCanBeAccepted`); this happens exactly when the count
  exceeds 16 bits (`Receiver.AcceptedLinesAreTrueIffNarrow`), and never for a sample that then
  matches the mode table (`Receiver.MatchedLinesAreTrue`).
* **The interlaced rows of the mode table are dead.**  Their comment promises 1080i detection, but
  no accepted sample matches one (`Receiver.AcceptedSamplesMatchNoInterlacedRow`).
* **Two progressive modes cannot be reached at their standard totals.**  A source that sends 720p30
  or 1080p24 with the totals of CEA-861 is measured and accepted, but its horizontal total fits no
  row in any of the three clock domains (`Receiver.TwoStandardSourcesAreNot`); the other progressive
  formats of the table are all named for what they are (`Receiver.StandardSourcesAreNamed`).
* **TRY_FMT disturbs a running session.**  It overwrites the live delivery-format flag and puts it
  back, under a lock that neither the drain nor the placeholder replay takes.  A look inside that
  window delivers in the wrong format (`Delivery.APlaceholderCanReachARawNode`), which contradicts
  the comment at src/mz0380-no-signal.c:24-43.  With S_FMT out of the way it happens exactly then
  (`Delivery.SettledSessionsKeepTheirFormat`).
* **It can break the decoder, too.**  A raw frame let in by such a window ends the placeholder
  without the delivery lock, and dependent pictures without a reference follow
  (`Delivery.AWindowCanBreakTheDecoder`).  This takes a raw frame that fits the buffer: an H.264
  plane sized by the driver has 618,240 bytes, too few for a 1920x1080 frame but enough for 720x480,
  or for the geometry the same TRY_FMT has put in force.  Every picture is decodable in a session in
  which none is copied (`Delivery.WithoutARawCopyAllIsDecodable`), and in a settled encoded one in
  which no look is misled (`Delivery.UndisturbedSessionsAreDecodable`).
* **S_FMT tests and commits in two steps.**  STREAMON holds another lock, so a commit can land inside
  a session (`Delivery.ALateCommitCanReachTheWrongNode`).
* **The IDR gate is not safe by itself.**  STREAMOFF clears the flags the gate reads.  Only the look
  at `streaming` behind the gate keeps an undecodable picture from being delivered
  (`Delivery.TheGateAloneIsNotEnough`), and `Delivery.TheGateIsExact` says when that matters.
* **The inferred length can fall short.**  It is right exactly when the last dword written differs
  from the poison (`FrameLength.WriteIsRecovered`).

## Model

| member | source | states |
|---|---|---|
| EventQueue.SlotsRepeat | src/mz0380-dma.c:1016-1020 | the low three bits of a token name the slot, and only slots 0 to 3 have memory to re-poison |
| EventQueue.Ring.constructor | src/mz0380-dma.c:760-771 | a new ring means an empty queue of capacity N-1 that refuses completions |
| EventQueue.Ring.HandleEvent | src/mz0380-dma.c:983-1028 | the locked part of the snapshot hook does to the ring exactly what `Arrive` does to the FIFO: enqueue and kick once, or count the drop and either allow an immediate ACK or defer it with the slot |
| EventQueue.Ring.Defer | src/mz0380-dma.c:1006-1022 | a drop may be acknowledged at once only when nothing is queued and no drain is scheduled; otherwise the ACK is deferred and the slot remembered |
| EventQueue.Ring.PopEvent | src/mz0380-dma-drain.c:48-64 | the oldest queued report is taken, and nothing when there is none |
| EventQueue.Ring.Deferred | src/mz0380-dma-drain.c:1291-1296 | the deferred flag and the drop set are handed over and cleared together |
| EventQueue.Ring.Finish | src/mz0380-dma-drain.c:1317-1331 | the scheduled flag falls exactly when nothing is queued, deferred or dropped |
| EventQueue.Ring.Flush | src/mz0380-dma.c:1102-1124 | every queued report becomes a counted drop whose slot is re-poisoned; the ring ends empty, with every flag clear |
| EventQueue.Ring.Start | src/mz0380-dma.c:1051-1082 | counters, flags and indices restart from zero and completions are accepted |
| EventQueue.FlushEvents | src/mz0380-dma.c:1086-1132 | undisturbed, a flush refuses completions, turns every queued report into a counted drop, re-poisons exactly the slots of dropped and discarded reports, and acknowledges exactly when there was anything of the kind |
| EventQueue.BetweenPush | src/mz0380-dma.c:991-998 | with one cell unused, the full test fires exactly at N-1 queued reports, and storing appends at the end, round the ring |
| EventQueue.BetweenPop | src/mz0380-dma-drain.c:54-60 | the cell at tail is the oldest report, and advancing tail removes just that one |
| EventQueue.CopyBatch | src/mz0380-dma-drain.c:1283-1289 | the batch is everything queued, in arrival order |
| EventQueue.DrainVideo | src/mz0380-dma-drain.c:1263-1333 | undisturbed, the drain copies everything queued in order, re-poisons exactly the drop set, and acknowledges exactly when there was anything to do |
| EventProtocol.AckFindsNothingOutstanding | src/mz0380-dma-drain.c:1308-1331 | in every run, whoever writes the ownership ACK: nothing is queued, being copied or deferred; the slot of a deferred or discarded report awaits its re-poison only for an immediate ACK during the re-poison of a stop's flush, hence never while completions are accepted |
| EventProtocol.AnAckCanPrecedeARepoison | src/mz0380-dma.c:1102-1132 | a run in which that exception happens: a stop's flush has discarded one report, and the next one, already read, is acknowledged before the first one's slot is restored |
| EventProtocol.AtOnceOnlyWhenRefused | src/mz0380-dma.c:1006-1022 | in every run a dropped report is acknowledged at once if and only if completions are refused and nothing is queued or scheduled; its slot does not join those owed a re-poison |
| EventProtocol.OnlyTheDrainAcksWhileAccepting | src/mz0380-mailbox.c:184-203 | in every run, while completions are accepted only the drain's final transaction acknowledges; an immediate ACK is never in flight there, because the command of a start waits for event_lock before completions are accepted |
| EventProtocol.KeptWhileThereIsRoom | src/mz0380-dma.c:989-1005 | in every run a report read while completions are accepted is queued whenever there is room, with a drain scheduled and at work |
| EventProtocol.OverflowDefersItsAck | src/mz0380-dma.c:993-1022 | in every run a report that meets a full ring is counted, its ACK deferred and its slot remembered, with a drain already scheduled |
| EventProtocol.NothingIsStranded | src/mz0380-dma.c:996-1022 | in every run, anything queued, deferred or dropped has a drain scheduled; while accepting, scheduled means queued or running; after a flush all is clear |
| EventProtocol.DrainCompletes | src/mz0380-dma-drain.c:1271-1333 | from every reachable state the worker, left to itself, ends idle having taken everything in order, with exactly one ACK if there was something to acknowledge |
| EventProtocol.FlushCompletes | src/mz0380-dma.c:1086-1132 | a flush that has waited for the worker always completes: what is queued is discarded, every slot named by a discarded or dropped report is re-poisoned, and there is one ACK exactly if there was anything to acknowledge |
| EventProtocol.FirstInFirstOut | src/mz0380-dma.c:983-1005 | in every run, since the last restart: popped, then flushed, then queued reports are exactly the kept arrivals in order, and arrivals = popped + queued + drops |
| EventProtocol.SnapshottedExactlyOnce | src/mz0380-mailbox.c:110-131 | every video report an ACK reads while completions are accepted is snapshotted before it is cleared, and only once |
| CardLog.SoundMeansOneAtATime | src/mz0380-dma-stream.c:751-765 | in a sound command record no two SET_VICs ever lack a following STOP at the same moment |
| CardLog.SoundMeansKickedWithBuffers | src/mz0380-dma-stream.c:521-528 | in a sound command record every START comes after buffers registered since the latest spawn |
| Pipeline.OneEncoderAtATime | src/mz0380-dma-stream.c:404-421 | in every valid device state, of all SET_VICs ever sent at most one is without a following STOP |
| Pipeline.SourceFpsIsNearest | src/mz0380-signal.c:31-42 | the reported frame rate is the nearest whole one, a tie going up, and capped at 255 |
| StartScript.WhatAStartSends | src/mz0380-dma-stream.c:369-721 | what is due in a start, in stages: at most one SET_VIC and that first, buffers registered behind it in every case, one SET_ENC per stream, the preview command where it is due, and START_STREAMING last unless the Windows order does without |
| Pipeline.Device.Spawn | src/mz0380-dma-stream.c:397-443 | SET_VIC is sent unless `setvic_once` spares a later cycle, and counts as fired whatever the card answers |
| Pipeline.Device.Bringup | src/mz0380-dma-stream.c:369-735 | the commands due go out in order up to the first that is not answered with 0, whose answer is the result; what was spawned and armed on the way is reported exactly |
| Pipeline.Device.Attempt | src/mz0380-dma-stream.c:162-781 | a start succeeds if and only if the card answers every command due with 0, and then the record has grown by exactly those; otherwise by those up to the first refusal, then a STOP if and only if SET_VIC was among them and audio off if and only if this start had opened the gate |
| Pipeline.Device.DmaStart | src/mz0380-dma-stream.c:162-781 | only called with completions refused, which are accepted only after a command of this start; success if and only if every command due is answered with 0, the record as in `Attempt`; a failure leaves completions refused, poison inactive and the pipeline as it was, success leaves it running the input mode with no replacement pending |
| Pipeline.Device.Unwind | src/mz0380-dma-stream.c:751-780 | a STOP exactly when an encoder was fired, audio off exactly when this start armed it, completions and poison off |
| Pipeline.Device.DmaStop | src/mz0380-dma-stream.c:784-861 | one STOP exactly when a pipeline runs; recovery, placeholder and IDR wait all cleared |
| Recovery.LocatedMode | src/mz0380-vb2.c:178-212 | the mode a start is made with is the cached one, else the measured one, else the one remembered |
| Pipeline.Device.Query | src/mz0380-signal.c:52-117 | the cache answers exactly for a locked input measured lately; a measurement is adopted whole, a failed one forgets the signal but not the last good mode |
| Pipeline.Device.Attach | src/mz0380-vb2.c:119-146 | reattaching sends no command; it succeeds exactly when the geometry is the pipeline's, and starts unsynchronised behind the placeholder; a refusal changes nothing |
| Pipeline.Device.StartPlaceholderOnly | src/mz0380-vb2.c:58-87 | exact error by cause; success forgets the signal, clears the replacement and failure latches and spawns nothing; a refusal changes nothing |
| Pipeline.Device.StartDetached | src/mz0380-vb2.c:155-306 | without lock, or without a mode measured, cached or remembered, only the placeholder and no command; otherwise a start, which succeeds if and only if the geometry is not refused and the card accepts every command |
| Pipeline.Device.StreamOn | src/mz0380-vb2.c:89-323 | a running pipeline that needs no replacement hears nothing; one that does is stopped first; otherwise exactly when a pipeline is started, when the placeholder is shown, and which error is returned |
| Pipeline.Device.StreamOff | src/mz0380-vb2.c:325-350 | detaching sends nothing and leaves a running pipeline running, with both workers stopped |
| Pipeline.Device.DeferredStart | src/mz0380-signal.c:272-321 | which of the outcomes a stable mode leads to, and its whole effect: renegotiation on a refused geometry, nothing after a failure, else a start, whose failure is latched with the IDR wait set |
| Recovery.ALostLockIsNoticed | src/mz0380-signal.c:170-256 | unless an access unit has just come or STREAMOFF intervenes: a failed read, a lost lock, a silent encoder and a healthy state are each reported if and only if they are there |
| Recovery.MeasuredWhenAsked | src/mz0380-signal.c:248-270 | with the pipeline running, a measurement decides exactly when recovery or a replacement asks for it, the receiver shows lock, and it succeeds |
| Recovery.StartedWhenItCan | src/mz0380-signal.c:252-321 | without a pipeline, a start is tried exactly when a mode of acceptable geometry is measured and none has failed before; every other outcome exactly by its cause |
| Pipeline.Device.Watch | src/mz0380-signal.c:170-256 | the first half of a pass comes to the decision of `Recovery.Seen`, with exactly its effects: a lost lock forgets the signal, shows the placeholder and enters recovery, and so on |
| Pipeline.Device.Judge | src/mz0380-signal.c:323-368 | after a stable measurement a replacement is pending exactly when the live mode is not the running one |
| Pipeline.Device.Pass | src/mz0380-signal.c:154-381 | one recovery pass, with STREAMOFF possibly arriving before any look at `streaming`: its outcome is the one the `Recovery` lemmas single out and leaves exactly the flags, input and latches that outcome stands for; a running pipeline hears no command; a pass that ends while streaming has re-armed the worker |
| Pipeline.Device.Run | src/mz0380-vb2.c:89-360 | every run of STREAMON, STREAMOFF, recovery passes and format changes from power-up: at most one spawn per session, so never more spawns than STREAMONs, and never two unstopped encoders |
| Pipeline.Device.RunDetachedOrSettled | src/mz0380-signal.c:282-305 | every run without a STREAMON: a running pipeline, or one whose deferred start failed, hears nothing at all |
| Delivery.EveryNodeGetsItsFormat | src/mz0380-no-signal.c:45-48 | in every interleaving, with TRY_FMT and S_FMT at any moment, what is handed over has the format then negotiated unless exactly one thing happened: its look at the live flag fell into a TRY_FMT window, or S_FMTs have committed an odd number of times since |
| Delivery.SettledSessionsKeepTheirFormat | src/mz0380-dma-drain.c:865-891 | in a session whose STREAMON found no S_FMT under way, a unit of the other format is handed over if and only if its look fell into a TRY_FMT window |
| Delivery.AWindowIsATryFmt | src/mz0380-video.c:590-601 | a look is misled exactly while a TRY_FMT that asks for the other format is under way |
| Delivery.APlaceholderCanReachARawNode | src/mz0380-video.c:590-601 | a run in which TRY_FMT makes the replay hand a placeholder to a raw node |
| Delivery.ALateCommitCanReachTheWrongNode | src/mz0380-video.c:647-668 | a run in which an S_FMT that passed its busy test commits inside a session and a placeholder reaches a raw node |
| Delivery.EveryPictureIsDecodable | src/mz0380-dma-drain.c:331-411 | in every interleaving, a dependent picture delivered has a live IDR before it with no placeholder in between, if and only if no raw delivery had cut the decoder off |
| Delivery.UndisturbedSessionsAreDecodable | src/mz0380-dma-drain.c:865-891 | in a settled encoded session in which no drain look fell into a TRY_FMT window, every dependent picture is decodable |
| Delivery.WithoutARawCopyAllIsDecodable | src/mz0380-dma-drain.c:659-687 | in a session in which no raw frame was copied, because none was met or none fitted its buffer, every dependent picture is decodable, in every interleaving |
| Delivery.OnlyARawFrameThatFitsCrosses | src/mz0380-dma-drain.c:659-687 | a session is marked so by the copy of a raw frame that fits, and by nothing else |
| Delivery.AWindowCanBreakTheDecoder | src/mz0380-dma-drain.c:733-737 | a run in which a raw frame let in by TRY_FMT, and small enough for the buffer, ends the placeholder and an undecodable picture follows |
| Delivery.TheGateIsExact | src/mz0380-dma-drain.c:196-239 | in every interleaving, an accepted dependent picture is undecodable if and only if the decoder was cut off or STREAMOFF cleared under the gate the flag that held the picture back; the latter only once `streaming` has fallen |
| Delivery.TheGateHoldsWhileStreaming | src/mz0380-dma-drain.c:196-239 | while the session streams, what the gate accepts is decodable if and only if the decoder was not cut off, hence always in a settled encoded session without a misled drain look |
| Delivery.TheGateAloneIsNotEnough | src/mz0380-dma-drain.c:351-357 | a run in which the gate accepts an undecodable picture with a buffer at hand, after STREAMOFF cleared the wait under it |
| Delivery.NothingWithoutABuffer | src/mz0380-dma-drain.c:359-368 | with no buffer queued neither the drain nor the replay delivers, and both are done |
| Delivery.EveryBufferIsInOnePlace | src/mz0380-vb2.c:45-56 | in every interleaving each queued buffer is on the list, with exactly one holder, or returned once |
| Delivery.DetachedMeansAllReturned | src/mz0380-vb2.c:310-360 | once STREAMOFF or a failed STREAMON has returned, every buffer ever queued has been given back exactly once and none is held |
| Delivery.BuffersKeepTheirOrder | src/mz0380-dma-drain.c:707-721 | the list stays in queue order, also when a torn raw copy puts its buffer back |
| Delivery.StreamOnAlone | src/mz0380-vb2.c:89-306 | STREAMON undisturbed ends streaming with an IDR awaited: behind the placeholder on a pipeline that runs and is not to be replaced, else on a new pipeline |
| Delivery.StreamOffAlone | src/mz0380-vb2.c:325-360 | STREAMOFF undisturbed clears every flag of the session, gives all queued buffers back, and leaves the pipeline as the card is told |
| Delivery.FailedStartAlone | src/mz0380-vb2.c:288-323 | a start that fails, at whatever point, leaves neither stream nor pipeline and gives the buffers back |
| Delivery.DeferredStartAlone | src/mz0380-signal.c:286-321 | the deferred start undisturbed leaves a pipeline with an IDR awaited, or none, and drops a pending replacement only on success |
| Delivery.LostLockAlone | src/mz0380-signal.c:199-226 | the worker undisturbed answers a lost lock with the placeholder and an IDR awaited |
| Delivery.ReturnedModeAlone | src/mz0380-signal.c:341-368 | and a mode that has come back with an IDR awaited and no replacement owed |
| Delivery.InvAfter | src/mz0380-no-signal.c:50-169 | every run of steps of every actor, format ioctls included, keeps the invariant on phases, formats, synchronisation and custody |
| Delivery.LatestReference | src/mz0380-no-signal.c:59-116 | the decoder is on a live reference exactly when some live IDR has no placeholder after it |
| EncodedSlot.CardSlot | src/mz0380-dma-drain.c:282-286 | what the card writes over a slot: the length twice, the slot's number counted from one, and the payload behind the 4 KiB header |
| EncodedSlot.WrittenSlotIsComplete | src/mz0380-dma-drain.c:282-314 | an access unit written by the card into a slot is complete for that slot and for no other, is not taken for an untouched one, and is read back unaltered |
| EncodedSlot.PoisonedSlotIsUntouched | src/mz0380-dma-drain.c:287-303 | a slot of poison is untouched and complete for no index |
| EncodedSlot.GateAgrees | src/mz0380-dma-drain.c:181-240 | the interleaved gate, run without interference, accepts exactly what the sequential gate accepts |
| EncodedSlot.SettleAgrees | src/mz0380-dma-drain.c:397-410 | in the interleaved model too, a delivered IDR ends the wait, and a vouched-for one the placeholder; nothing else ends either |
| EncodedSlot.UnitsNeedACode | src/mz0380-dma-drain.c:305-314 | a slot that passes validation and holds any unit has a payload that begins with a start code |
| EncodedSlot.Session.RecoveryAccept | src/mz0380-dma-drain.c:181-240 | the gate's verdict, time stamp, IDR wait and prefix decision for every payload and flag combination |
| EncodedSlot.Session.Deliver | src/mz0380-dma-drain.c:331-411 | exact outcome; the plane receives prefix and payload and nothing else; a delivered IDR ends both the wait and the placeholder |
| EncodedSlot.Session.Snapshot | src/mz0380-dma-drain.c:257-412 | an incomplete or repeated slot changes nothing; a complete one uses its token and refreshes the cache even when it is not delivered; what is delivered parses as cached sets then payload |
| EncodedSlot.Session.Complete | src/mz0380-dma-drain.c:257-412 | from the card's memory to the application: what the card has written into a slot is what is cached and, if anything, what is delivered |
| AnnexB.StartCodes | src/mz0380-dma-drain.c:77-89 | a start code is 00 00 01 or 00 00 00 01 |
| AnnexB.HeaderNamesType | src/mz0380-dma-drain.c:112-116 | the type of a unit is the low five bits of its header byte |
| AnnexB.ClassOfTable | src/mz0380-dma-drain.c:159-168 | the three flags of an access unit by the table of unit types |
| AnnexB.FindStartCode | src/mz0380-dma-drain.c:72-90 | the search returns the least start code at or after the given position, and its length |
| AnnexB.NextCodeIsLeast | src/mz0380-dma-drain.c:77-89 | no start code lies before the one found |
| AnnexB.NalsTile | src/mz0380-dma-drain.c:103-134 | the units walked tile the payload from its first start code to its end, or to a dangling start code, and their types are the list the classifier is judged by |
| AnnexB.ClassifyAu | src/mz0380-dma-drain.c:137-172 | the second walker sets each flag exactly when the units enumerated by the first contain such a type, on every byte string |
| AnnexB.TypesConcat | src/mz0380-dma-drain.c:385-389 | bytes in front of a payload that begins with a start code leave its units alone, even if they end in zeros |
| CachedSets.CacheHoldsTheLatestSets | src/mz0380-dma-drain.c:112-134 | an access unit with an SPS leaves in the cache exactly the bytes of its last SPS and of the PPSs behind it, if and only if together they fit |
| CachedSets.CacheParsesIntoTheLatestSets | src/mz0380-dma-drain.c:112-134 | and the cache then parses into exactly those sets |
| CachedSets.WithoutSpsTheCacheStays | src/mz0380-dma-drain.c:121-129 | without an SPS a cache that holds anything stays as it is |
| CachedSets.AnEmptyCacheTakesThePps | src/mz0380-dma-drain.c:121-129 | without an SPS an empty cache takes the first PPS that fits, and nothing else |
| ParameterCache.ParameterSets.CacheFrom | src/mz0380-dma-drain.c:92-135 | the in-place walk leaves in the cache what the units, taken in order, make of it; `CachedSets` says what that is |
| ParameterCache.ParameterSets.CacheUnit | src/mz0380-dma-drain.c:117-129 | one unit of that fold, with the size subtraction never below zero |
| ParameterCache.CacheIsWellFormed | src/mz0380-dma-drain.c:117-129 | after any session the cache holds at most 4096 bytes and parses into whole parameter sets, an SPS only in front |
| ParameterCache.SpsResets | src/mz0380-dma-drain.c:117-120 | after an access unit with an SPS nothing of the earlier cache is left |
| ParameterCache.PrefixingPreservesParsing | src/mz0380-dma-drain.c:237-239 | cache ++ payload has the unit types of the cache followed by those of the payload |
| RawSlot.FrameIsThePicture | src/mz0380-dma-extent.c:147-156 | the size is one and a half times the lines rounded up to 16 samples, times the height, if and only if nothing wraps; its planes are then those of the picture |
| RawSlot.DefaultFrameIsFullHd | src/mz0380-dma-extent.c:147-156 | the size assumed before negotiation is that of 1920x1080 |
| RawSlot.BanksHaveTheirPoison | src/mz0380-dma-extent.c:140-145 | slots 0 to 3 are poisoned with a5, slots 4 to 7 with 5a |
| RawSlot.PlaceKeepsSamples | src/mz0380-dma-extent.c:405-431 | every Y, U and V sample goes from its place in I420 to its place in the chosen format |
| RawSlot.SentinelsSpread | src/mz0380-dma-extent.c:158-176 | the sentinels do not overlap: the last dword, and half, three quarters and fifteen sixteenths into the frame |
| RawSlot.PlacePermutes | src/mz0380-dma-extent.c:405-431 | each layout is a permutation of the frame's bytes, within bounds |
| RawSlot.FrameIsEven | src/mz0380-dma-extent.c:147-156 | for every width and height, 32-bit and 64-bit wrap included, the frame size is even, so the planes fill it |
| RawSlot.CopyFrame | src/mz0380-dma-extent.c:467-495 | the copy puts every source byte where the layout keeps it |
| RawSlot.SentinelSave | src/mz0380-dma-extent.c:372-393 | the four sentinel dwords are saved |
| RawSlot.SentinelRepoison | src/mz0380-dma-extent.c:498-520 | exactly the sentinel bytes become poison, and the slot no longer counts as landed |
| RawSlot.RestoreByte | src/mz0380-dma-extent.c:405-431 | exactly the byte at which the layout keeps the given offset is written, within the frame |
| RawSlot.SentinelRestore | src/mz0380-dma-extent.c:433-454 | restoring byte by byte in the chosen layout undoes the poison in the copy |
| RawSlot.CopyOut | src/mz0380-dma-drain.c:698-724 | save, poison, copy, check and restore: torn exactly when every sentinel is hit, and otherwise the plane holds what the copy read with the saved pixels in the sentinels, for writes at any moment of the copy |
| RawSlot.DeliveredBytes | src/mz0380-dma-drain.c:710-724 | every byte delivered is the frame's own at its place in the layout, unless the card wrote another into that offset before it was copied; sentinels and poison never show |
| RawSlot.QuietDelivery | src/mz0380-dma-drain.c:698-724 | a slot the card leaves alone is delivered unaltered in the chosen layout |
| RawSlot.DeliverSlot | src/mz0380-dma-drain.c:618-760 | exact outcome for any dimensions, plane and card writes; however it ends, a slot that was taken up is left poisoned plus what the card has written since, and what is delivered is what `DeliveredBytes` describes |
| RawSlot.TakenAgainNeedsEverySentinel | src/mz0380-dma-drain.c:684-721 | after a delivery, a torn copy or a drop, a slot is ready again only after the card has written into all four sentinels, during the copy or later |
| RawSlot.ReadyAgainNeedsEverySentinel | src/mz0380-dma-extent.c:176-224 | a slot just poisoned is ready again only after the card has written into all four sentinels |
| RawSlot.UnhitSentinelStays | src/mz0380-dma-extent.c:217-223 | writes elsewhere leave a sentinel as it is |
| RawRotation.DrainRaw | src/mz0380-dma-drain.c:771-841 | at most one slot per completion, the nearest ready one going round; only success moves on |
| RawRotation.PassedOverComesNearer | src/mz0380-dma-drain.c:824-833 | each delivery that passes a ready slot over brings the scan strictly nearer to it |
| RawRotation.NoSlotIsStarved | src/mz0380-dma-drain.c:824-833 | a slot that stays ready is taken within four deliveries |
| FrameLength.InferByDwords | src/mz0380-dma-extent.c:72-103 | the plain scan returns four times one plus the index of the last dword that is not poison |
| FrameLength.InferByQwords | src/mz0380-dma-drain.c:8-46 | the scan by 64-bit words returns the same verdict and length as the plain one |
| FrameLength.WriteIsRecovered | src/mz0380-dma-drain.c:25-45 | after any write from the start the length comes out rounded up to a dword if and only if the last dword written is not poison |
| I2cBus.Master.SendStart | src/mz0380-mst3367-bitbang.c:135-145 | the monitor decodes one START, or a repeated START on a busy bus |
| I2cBus.Master.SendStop | src/mz0380-mst3367-bitbang.c:147-155 | the monitor decodes one STOP and the bus is free |
| I2cBus.Master.WriteByte | src/mz0380-mst3367-bitbang.c:180-194 | the monitor decodes that byte, most significant bit first, with the device's acknowledge, and the master returns it |
| I2cBus.Master.ReadByte | src/mz0380-mst3367-bitbang.c:196-209 | the value returned is the byte the device put on the wire, closed with the master's acknowledge |
| I2cBus.Master.Run | src/mz0380-mst3367-bitbang.c:135-209 | for every legal sequence of calls: if the mailbox accepts every command all calls succeed, and the monitor decodes exactly those STARTs, repeated STARTs, bytes, acknowledges and STOPs; the sequence stops early only at a refused command |
| I2cBus.TopBitsValue | src/mz0380-mst3367-bitbang.c:185-186 | the first k bits on the wire are the k most significant of the byte |
| I2cBus.FrontIsValue | src/mz0380-mst3367-bitbang.c:201-206 | shifting the received bits into place rebuilds the value on the wire |
| Receiver.MeasureOnce | src/mz0380-mst3367-signal.c:343-501 | a sample is accepted exactly when it is locked, steady, in range and fits one field order, and its flag names that one; the reason of a refusal is a true one |
| Receiver.RegisterFields | src/mz0380-mst3367-signal.c:355-383 | which bits of the registers make up the counters |
| Receiver.LockBits | src/mz0380-mst3367-signal.c:350-353 | full lock is three bits of the detect register, whatever the others say |
| Receiver.StandardSourcesAreNamed | src/mz0380-mst3367-signal.c:38-67 | a standard source of any progressive format of the table but 720p30 and 1080p24 is accepted and matches a row of its own name |
| Receiver.TwoStandardSourcesAreNot | src/mz0380-mst3367-signal.c:38-67 | standard 720p30 and 1080p24 sources are accepted and match no row in any clock domain |
| Receiver.BoundsAreInclusive | src/mz0380-mst3367-signal.c:69-77 | the bounds of a row belong to it and nothing beyond them does |
| Receiver.FieldOrdersExclude | src/mz0380-mst3367-signal.c:413-426 | no sample fits both field orders, and the nearer one is the one that fits |
| Receiver.InterlaceRegisterIsIgnored | src/mz0380-mst3367-signal.c:413-426 | neither acceptance nor the field flag depends on the interlace register |
| Receiver.AcceptedLinesAreTrueIffNarrow | src/mz0380-mst3367-signal.c:410-411 | an accepted sample's true line count fits a field order if and only if it needs no more than 16 bits |
| Receiver.AWideLineCountCanBeAccepted | src/mz0380-mst3367-signal.c:410-411 | an accepted sample whose true line count is 65708 |
| Receiver.MatchIsUnambiguous | src/mz0380-mst3367-signal.c:38-67 | any two rows that match the same counters in any clock domains carry the same timing |
| Receiver.MatchMode | src/mz0380-mst3367-signal.c:116-149 | a timing is found exactly when some row matches in some domain, whatever the row and pass order |
| Receiver.MatchedLinesAreTrue | src/mz0380-mst3367-signal.c:410-411 | an accepted sample that names a mode has its true line count |
| Receiver.AcceptedSamplesMatchNoInterlacedRow | src/mz0380-mst3367-signal.c:58-62 | no accepted sample, in any clock domain, matches an interlaced row |
| Reachability.Reachable | scripts/mz0380-cfg.py:57-68 | the worklist ends on every finite edge map and returns exactly the nodes reachable by paths that avoid the blocked edge |
| Reachability.PathStaysInside | scripts/mz0380-cfg.py:57-68 | a set that holds the entry and is closed under unblocked edges holds every path from it |

## Left out

- Hardware access: MMIO, IOMMU and PCI setup, page allocation, delays, log output and procfs dumps.
- Module parameters that select diagnostics: `raw_bank_probe`, `stream_nosg`, poll-drain and the extent watch are off, `h264_probe` and `persistent_h264` on, `stop_on_streamoff` and the ownership-ACK knob as in a normal session.
- Weak memory: steps are sequentially consistent, and barriers have no counterpart.
- Real time: every comparison of a time stamp with an interval is an arbitrary input, except in `EncodedSlot`, where the clock is a number that is given.
- EventQueue.Ring.constructor: the ring size is a parameter of at least 2; the driver's is 64.
- EventProtocol.AckFindsNothingOutstanding: the slot of a report acknowledged at once is not among those owed a re-poison, because nothing re-poisons it before the next start does so for all of them, which is not modelled.
- EventProtocol.SnapshottedExactlyOnce: says nothing of an event that arrives while an ACK with no live event is being written, which the driver loses.
- EventProtocol.OnlyTheDrainAcksWhileAccepting: the unconditional clear of the ownership word before START is not modelled.
- Delivery.EveryPictureIsDecodable: what the receiver says at the gate is an arbitrary input, and the replay may run whenever the delivery lock is free; video sequence numbers and time stamps are not modelled.
- Delivery.EveryNodeGetsItsFormat: which of the three raw layouts is delivered is not part of that model.
- Delivery.EveryBufferIsInOnePlace: without an interrupt there is no drain, so a pipeline that runs with completions refused is not reattached to in that model.
- Pipeline.Device.DmaStart: parameter words of the commands are not modelled; SET_BUF and SET_ENC stand for the short command sequences of the same purpose.
- Pipeline.Device.Pass: interleaved with STREAMOFF only.  The format ioctls run under another lock, so TRY_FMT can rewrite and restore the whole capture state, and S_FMT its geometry, during a pass or a STREAMON; here both stay what they were at its start.  The attempt counter and the result of re-arming acquisition only affect log output.
- Pipeline.Device.Query: the source-change event and the caches' ages, which are inputs.
- EncodedSlot.Session.Snapshot: runs alone, on slot memory that the card does not change meanwhile; its interleaving with the other actors is `Delivery`.  A plane without a kernel address counts as one that is too small.
- RawSlot.DeliverSlot: runs alone, with one width, height and layout.  The driver reads them again for each of the readiness test, save, re-poison, copy and restore, and TRY_FMT or S_FMT can change them in between; then neither the layout delivered nor the place of the restored pixels is claimed.  The card's writes may fall anywhere between the re-poison and the second look at the sentinels; those between the first look and the re-poison are not modelled.  A card that overwrites only some sentinels during the copy is not detected by the driver, and `DeliveredBytes` is all that is then claimed.
- RawRotation.DrainRaw: whether a slot is filled as well as landed is an input; delivery in production order is not claimed.
- I2cBus.Master.Run: one master, no clock stretching, and a direction polarity that matches the wiring.
- Receiver.StandardSourcesAreNamed: a source without deep colour whose counters show the nominal totals and rates exactly; the tolerance of the rows is not explored.
- Receiver.MeasureOnce: register read errors, the active-width read behind the verdict, and agreement of several passes.
- Audio, V4L2 controls and format enumeration, receiver register setup, colour space choice, EDID upload, the embedded placeholder picture and the image-scoring scripts.
