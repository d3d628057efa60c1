# LAN audio: a verified model

This project models the parts of a LAN audio streamer whose correctness depends on long runs, wrapping counters or interleavings, and proves what they keep. It stands in for two programs: a Rust server that captures, encodes and sends audio, and an Android client that receives, reorders and plays it.

* **Playback buffers.** `SerialNumbers` and `SortedFrames` show that the 32-bit wrapping comparator orders frames as plain numbers do, within a window. `JitterModel` is the reordering buffer over unbounded numbers; `JitterInvariants`, `JitterRuns` and `JitterBounds` prove what it keeps over whole runs, `JitterPushes` and `JitterPops` what pushes, trims and pops do to its fields, `JitterPayloads` that frames carry their packets, `JitterOrder`, `JitterLosses` and `JitterLedger` exactly when its order and its drop counter can be trusted, and `JitterScenarios` has runs in which they cannot; `PlaybackJitterBuffer` is the object with its wrapping keys, proved to do what the model does. `PcmRing` and `PcmRingRuns` treat the lock-free ring as interleaved atomic steps, `PcmRingProgress` shows that no call waits for the other thread, `PcmRingBuffer` is it as an object over an array.
* **Loudness.** `Loudness` has the gain ramp, the peak guard and the soft clipper; `LoudnessRuns` the state over runs; `LoudnessLaws` target gains, analyses and the clipper on samples and fields; `PlaybackLoudnessNormalizer` the object that rewrites a byte array.
* **Control loops.** `KalmanTheory` is the two-state filter in matrix form; `SyncEngine` the filter, controller and engine objects; `ControlLaw` the controller's and the engine's laws as a textbook says them; `Watchdog` the tier machine; `AdaptiveRuntime` their coupling; `WatchdogLaws` both on raw signals and thresholds; `EncoderProfiles` the tier tables; `Reals` a few facts they share.
* **Client registry.** `RegistryModel` makes each locked section one step, `RegistryInvariants` and `RegistryRuns` prove what every step keeps and what follows over runs, `RegistryFields` what steps do to the clients' own fields, `RegistryUsb`, `RegistryMarks` and `RegistryStreams` what becomes of USB sessions, marks and streams, `ClientRegistry` is the object.
* **Wire path.** `WireFields`, `AudioProtocol` and `ProtocolRoundTrips` cover the three packet formats, `WireLayout` their bytes; `LasPacketParser` the Android parser; `DataPlane` and `Fragmentation` the cutting of PCM24 frames; `FrameDurations` what the millisecond field loses; `PcmAccumulator` and `OpusFraming` the two framing buffers; `PcmPayloads` and `AudioFrameEncoder` the encoder, `OpusTiers` its packets across tier changes, `EncodedFields` every field of what it sends; `EncodeWorker` grouping, fan-out and the shared sequence counter, `WireContents` what Opus and PCM24 datagrams say; `WorkerRuns` whole runs of jobs, from the registry to the parser, `WorkerOpus` and `OpusHearing` the same for Opus streams, `WorkerNumbers` what the groups do to each other's numbers; `WorkerThread` the worker with its pool of encoder objects.

An object that changes state is a class whose methods are proved equal, state for state, to a function on values; the lemmas about runs are about that function. Where a claim one would expect is false, a concrete run or input breaks it, and a lemma says exactly when it holds:

* order of playout across epochs (`JitterRuns.UnderrunForgetsOrder`; `JitterOrder.OrderHoldsExactly`, `JitterOrder.OrderBreaksExactly`);
* lost frames counted once (`JitterScenarios.OneLossCountsTwice`, `JitterScenarios.RestartIsNeverCharged`; `JitterLedger.DeliveriesTellExactly`);
* the frame limit under changing durations (`JitterScenarios.RejectedPacketMovesTheLimit`; `JitterBounds.RunLimitExactly`);
* consecutive numbers at each client (`WorkerNumbers.OtherGroupLeavesAGap`; `WorkerNumbers.ConsecutiveExactly`, `EncodeWorker.GaplessExactly`);
* Opus packets of neighbouring captures (`OpusTiers.RedIsPassedOver`; `OpusTiers.PacketsAcrossTiers`);
* a single USB session (`RegistryUsb.TwoUsbSessions`; `RegistryUsb.SingleUsbRun`);
* the session gauge (`RegistryUsb.GaugeLeakIsReached`; `RegistryRuns.GaugeLeaksEvictions`);
* no stream unused beside a waiting client (`RegistryUsb.StrandingIsReached`; `RegistryUsb.StrandedExactly`);
* the watchdog's streak as time in health (`Watchdog.PromotedAfterBadDwell`; `Watchdog.StreakIsHealthExactly`);
* the guard against clipping (`LoudnessRuns.FallingRampIsReached`; `LoudnessRuns.AnyBlockEscapesExactly`);
* a monotone output stage, which fails at every sample between the threshold and 0.92 of full scale (`Loudness.NotMonotoneExactly`);
* cheaper encoding in worse tiers, which fails where Ultra Low Latency turns Red (`EncoderProfiles.DegradingCostsLessExactly`);
* frame counts through the millisecond field (`FrameDurations.FramesLostAt44100`; `FrameDurations.FramesLost`).

In some places the code differs from what its comments promise, and the model follows the code. The streak kept for promotions is described as time the system looked healthy; below Green it is the time spent in the tier, under whatever load. The clipping curve is described as x - x^3/3 on [-1.5, 1.5]; the code divides by 4.5 and jumps to full level at 1. The fragment size is described as floor(1400/6)*6, which is 1398; the code uses 1392. A request for Opus on LAS1 is described as keeping the current codec; the code sets PCM16 and marks a new first packet. Only one USB session is said to be allowed; the code replaces only USB clients that hold a stream.

`dafny verify dfyconfig.toml` checks everything.

## Model

| member | source | states |
|---|---|---|
| SerialNumbers.DistanceOfWrapped | apps/android_flutter/android/app/src/main/kotlin/com/example/lan_audio_android_mvp/PlaybackJitterBuffer.kt:226-230 | the masked difference of two wrapped sequences is the true difference modulo 2^32 |
| SerialNumbers.WindowRefinesOrder | apps/android_flutter/android/app/src/main/kotlin/com/example/lan_audio_android_mvp/PlaybackJitterBuffer.kt:226-235 | while two numbers lie less than 2^31 apart, comparing their wrapped 32-bit sequences gives plain order, plain equality and plain age, across any number of wraps |
| SerialNumbers.AgreementIsExactly | apps/android_flutter/android/app/src/main/kotlin/com/example/lan_audio_android_mvp/PlaybackJitterBuffer.kt:226-235 | for numbers less than 2^32 apart, the comparator and the age test agree with plain order exactly on the stated half-open windows of width 2^32 (both directions) |
| SerialNumbers.NextIsSuccessor | apps/android_flutter/android/app/src/main/kotlin/com/example/lan_audio_android_mvp/PlaybackJitterBuffer.kt:237-239 | the next sequence is the wrapped successor, also across the wrap |
| SerialNumbers.ComparatorCycles | apps/android_flutter/android/app/src/main/kotlin/com/example/lan_audio_android_mvp/PlaybackJitterBuffer.kt:226-230 | without the window the comparator is no order: three sequences each before the next form a cycle |
| SortedFrames.KeyRankRefines | apps/android_flutter/android/app/src/main/kotlin/com/example/lan_audio_android_mvp/PlaybackJitterBuffer.kt:70-77 | inside the window, searching by the wrapping comparator finds the position plain order finds, and membership agrees |
| SortedFrames.PutRefines | apps/android_flutter/android/app/src/main/kotlin/com/example/lan_audio_android_mvp/PlaybackJitterBuffer.kt:70-84 | storing under the wrapped sequence stores the frame at its place in plain order |
| SortedFrames.RemoveRefines | apps/android_flutter/android/app/src/main/kotlin/com/example/lan_audio_android_mvp/PlaybackJitterBuffer.kt:104-130 | taking the expected sequence out of the sorted map yields the first frame when it is the expected one, else nothing |
| PlaybackJitterBuffer.PlaybackJitterBuffer.constructor | apps/android_flutter/android/app/src/main/kotlin/com/example/lan_audio_android_mvp/PlaybackJitterBuffer.kt:9-48 | a new object stands for the fresh buffer |
| PlaybackJitterBuffer.PlaybackJitterBuffer.Clear | apps/android_flutter/android/app/src/main/kotlin/com/example/lan_audio_android_mvp/PlaybackJitterBuffer.kt:36-48 | forgets frames, epoch, timer, counters and log, keeps the configuration |
| PlaybackJitterBuffer.PlaybackJitterBuffer.Reconfigure | apps/android_flutter/android/app/src/main/kotlin/com/example/lan_audio_android_mvp/PlaybackJitterBuffer.kt:50-58 | clamps the three limits, then trims, exactly as the model over unbounded numbers |
| PlaybackJitterBuffer.PlaybackJitterBuffer.Push | apps/android_flutter/android/app/src/main/kotlin/com/example/lan_audio_android_mvp/PlaybackJitterBuffer.kt:60-85 | on wrapping sequences does what the model does on unbounded numbers: duplicate, late, or accepted and trimmed |
| PlaybackJitterBuffer.PlaybackJitterBuffer.Pop | apps/android_flutter/android/app/src/main/kotlin/com/example/lan_audio_android_mvp/PlaybackJitterBuffer.kt:87-139 | start-up wait, hard floor, delivery with gap recovery and underrun are those of the model, for every reachable state |
| PlaybackJitterBuffer.PlaybackJitterBuffer.PopStarted | apps/android_flutter/android/app/src/main/kotlin/com/example/lan_audio_android_mvp/PlaybackJitterBuffer.kt:96-139 | after start-up: the low-latency hold, else the expected frame or recovery |
| PlaybackJitterBuffer.PlaybackJitterBuffer.TakeSought | apps/android_flutter/android/app/src/main/kotlin/com/example/lan_audio_android_mvp/PlaybackJitterBuffer.kt:104-111 | the expected frame is found exactly when it is the oldest one held, and is then delivered with gap 0 |
| PlaybackJitterBuffer.PlaybackJitterBuffer.TakeOldest | apps/android_flutter/android/app/src/main/kotlin/com/example/lan_audio_android_mvp/PlaybackJitterBuffer.kt:119-135 | the masked gap is the true number of skipped numbers, and the removal of the oldest key never misses |
| PlaybackJitterBuffer.PlaybackJitterBuffer.Underrun | apps/android_flutter/android/app/src/main/kotlin/com/example/lan_audio_android_mvp/PlaybackJitterBuffer.kt:112-118 | an underrun ends the epoch and is counted once |
| PlaybackJitterBuffer.PlaybackJitterBuffer.PopContiguousForBatch | apps/android_flutter/android/app/src/main/kotlin/com/example/lan_audio_android_mvp/PlaybackJitterBuffer.kt:141-150 | delivers only the exactly next frame of a running playout, else changes nothing |
| PlaybackJitterBuffer.PlaybackJitterBuffer.DropOldestMs | apps/android_flutter/android/app/src/main/kotlin/com/example/lan_audio_android_mvp/PlaybackJitterBuffer.kt:157-183 | drops as many whole frames as the time asks for, at least one, at most all, and realigns the expected sequence |
| PlaybackJitterBuffer.PlaybackJitterBuffer.Realign | apps/android_flutter/android/app/src/main/kotlin/com/example/lan_audio_android_mvp/PlaybackJitterBuffer.kt:170-182 | an emptied buffer ends the epoch, otherwise the expected sequence catches up with the oldest frame |
| PlaybackJitterBuffer.PlaybackJitterBuffer.TrimIfNeeded | apps/android_flutter/android/app/src/main/kotlin/com/example/lan_audio_android_mvp/PlaybackJitterBuffer.kt:185-192 | evicts the oldest frames down to the size limit |
| PlaybackJitterBuffer.PlaybackJitterBuffer.TrimLatencyTailIfNeeded | apps/android_flutter/android/app/src/main/kotlin/com/example/lan_audio_android_mvp/PlaybackJitterBuffer.kt:194-224 | the 250 ms overflow timer and the trim to the drop threshold are those of the model |
| PlaybackJitterBuffer.PlaybackJitterBuffer.Trim | apps/android_flutter/android/app/src/main/kotlin/com/example/lan_audio_android_mvp/PlaybackJitterBuffer.kt:80-84 | both trims and the published frame count, as every accepted push and reconfiguration ends |
| JitterInvariants.RankSplits | apps/android_flutter/android/app/src/main/kotlin/com/example/lan_audio_android_mvp/PlaybackJitterBuffer.kt:70-77 | the position of a number splits the held frames into smaller and not smaller ones; membership is exact |
| JitterInvariants.InsertAscends | apps/android_flutter/android/app/src/main/kotlin/com/example/lan_audio_android_mvp/PlaybackJitterBuffer.kt:78-79 | inserting keeps the frames ascending and adds exactly the new one |
| JitterInvariants.PushKeeps | apps/android_flutter/android/app/src/main/kotlin/com/example/lan_audio_android_mvp/PlaybackJitterBuffer.kt:60-85 | a push inside the window keeps shape, frame account and delivery order |
| JitterInvariants.PopKeeps | apps/android_flutter/android/app/src/main/kotlin/com/example/lan_audio_android_mvp/PlaybackJitterBuffer.kt:87-139 | a pop keeps shape, frame account and delivery order |
| JitterInvariants.PopContiguousKeeps | apps/android_flutter/android/app/src/main/kotlin/com/example/lan_audio_android_mvp/PlaybackJitterBuffer.kt:141-150 | a batch pop keeps the invariant |
| JitterInvariants.DropKeeps | apps/android_flutter/android/app/src/main/kotlin/com/example/lan_audio_android_mvp/PlaybackJitterBuffer.kt:157-183 | dropping the oldest milliseconds keeps the invariant |
| JitterInvariants.ReconfigureKeeps | apps/android_flutter/android/app/src/main/kotlin/com/example/lan_audio_android_mvp/PlaybackJitterBuffer.kt:50-58 | reconfiguring keeps the invariant |
| JitterInvariants.TrimKeeps | apps/android_flutter/android/app/src/main/kotlin/com/example/lan_audio_android_mvp/PlaybackJitterBuffer.kt:185-224 | the two trims keep the invariant |
| JitterInvariants.GapIsCount | apps/android_flutter/android/app/src/main/kotlin/com/example/lan_audio_android_mvp/PlaybackJitterBuffer.kt:119-124 | the gap before the oldest frame is non-negative and fits 31 bits, so masking does not change it |
| JitterRuns.RunKeeps | apps/android_flutter/android/app/src/main/kotlin/com/example/lan_audio_android_mvp/PlaybackJitterBuffer.kt:36-224 | every state of every windowed run keeps the invariant, the published frame count, and that playout runs only with an expected number |
| JitterRuns.RunFromFresh | apps/android_flutter/android/app/src/main/kotlin/com/example/lan_audio_android_mvp/PlaybackJitterBuffer.kt:36-224 | the same from a fresh buffer, for all runs |
| JitterRuns.EpochsDeliverInOrder | apps/android_flutter/android/app/src/main/kotlin/com/example/lan_audio_android_mvp/PlaybackJitterBuffer.kt:87-150 | over any run, two deliveries of one epoch strictly increase, at least as far as the counted gap says; none repeats |
| JitterRuns.FramesAreConserved | apps/android_flutter/android/app/src/main/kotlin/com/example/lan_audio_android_mvp/PlaybackJitterBuffer.kt:60-224 | since the last clear: pushes = accepted + duplicates + late; accepted = delivered + evicted + held as multisets; drops = duplicates + evicted + the sum of the gaps recorded with the deliveries; the published count is the size |
| JitterRuns.DeliveryAdvances | apps/android_flutter/android/app/src/main/kotlin/com/example/lan_audio_android_mvp/PlaybackJitterBuffer.kt:104-134 | a delivery hands out the oldest frame, its gap is the true number of missing numbers, and the expected number moves on by exactly gap + 1 |
| JitterRuns.FailsExactlyWhen | apps/android_flutter/android/app/src/main/kotlin/com/example/lan_audio_android_mvp/PlaybackJitterBuffer.kt:87-103 | pop asks an empty map for its first key exactly when playout is not started, nothing is held and the start-up time is not positive |
| JitterRuns.ReconfiguredNeverFails | apps/android_flutter/android/app/src/main/kotlin/com/example/lan_audio_android_mvp/PlaybackJitterBuffer.kt:50-103 | after any reconfiguration, and whatever operations follow, pop never asks an empty map for its first key |
| JitterLosses.SizeTrimCharges | apps/android_flutter/android/app/src/main/kotlin/com/example/lan_audio_android_mvp/PlaybackJitterBuffer.kt:87-134 | in every reachable state: when the pop after evicting k frames without moving the expected sequence delivers, the frames are charged, and if playout was running every lost number besides; right while playing exactly for k = 0, and before playout exactly when only the evicted numbers were lost |
| JitterLosses.TimedTrimCharges | apps/android_flutter/android/app/src/main/kotlin/com/example/lan_audio_android_mvp/PlaybackJitterBuffer.kt:87-134 | evicting k frames and moving the expected sequence charges exactly k, playing or not; right exactly when no number was missing before the delivered frame, too little when one was missing before the oldest |
| JitterLosses.TrimSizeCharges | apps/android_flutter/android/app/src/main/kotlin/com/example/lan_audio_android_mvp/PlaybackJitterBuffer.kt:185-192 | the size trim itself, while playing and before playout |
| JitterLosses.TrimLatencyCharges | apps/android_flutter/android/app/src/main/kotlin/com/example/lan_audio_android_mvp/PlaybackJitterBuffer.kt:194-224 | the timed trim itself, once its 250 ms are over |
| JitterLosses.DropOldestCharges | apps/android_flutter/android/app/src/main/kotlin/com/example/lan_audio_android_mvp/PlaybackJitterBuffer.kt:157-183 | dropOldestMs, whenever it leaves a frame and the next pop delivers |
| JitterLedger.DeliveriesTellExactly | apps/android_flutter/android/app/src/main/kotlin/com/example/lan_audio_android_mvp/PlaybackJitterBuffer.kt:60-224 | right after any delivery of any run played in increasing order: the numbers never played since the first frame are those counted in gaps and those passed over by the timed trim, by dropOldestMs and by starting again; so the drop counter, less duplicates, is their number exactly when the frames evicted and the gap before the first frame are as many as those passed over, which is also the sum of the uncounted jumps between deliveries |
| JitterLedger.LossesAreToldExactly | apps/android_flutter/android/app/src/main/kotlin/com/example/lan_audio_android_mvp/PlaybackJitterBuffer.kt:60-224 | the same account in every state in which playout does not stand at or before a frame it played |
| JitterLedger.RunAddsUp | apps/android_flutter/android/app/src/main/kotlin/com/example/lan_audio_android_mvp/PlaybackJitterBuffer.kt:36-224 | the ledger behind it, over every run, in order or not: from the first frame to where playout stands every number was played, counted in a gap or passed over by one of the three moves |
| JitterLedger.TrimMovesExactly | apps/android_flutter/android/app/src/main/kotlin/com/example/lan_audio_android_mvp/PlaybackJitterBuffer.kt:194-224 | a trim moves the expected sequence of a running playout exactly when the timed trim fires |
| JitterScenarios.OneLossCountsTwice | apps/android_flutter/android/app/src/main/kotlin/com/example/lan_audio_android_mvp/PlaybackJitterBuffer.kt:60-134 | a run from a fresh buffer in which one lost number is counted as two |
| JitterScenarios.RestartIsNeverCharged | apps/android_flutter/android/app/src/main/kotlin/com/example/lan_audio_android_mvp/PlaybackJitterBuffer.kt:112-118 | runs in which any number of lost frames is counted as none: those between the last frame before an underrun and the first after it |
| JitterRuns.TrimExpectsBeforePlayout | apps/android_flutter/android/app/src/main/kotlin/com/example/lan_audio_android_mvp/PlaybackJitterBuffer.kt:219-223 | the timed trim sets the expected number of a buffer whose playout has not started |
| JitterRuns.UnderrunForgetsOrder | apps/android_flutter/android/app/src/main/kotlin/com/example/lan_audio_android_mvp/PlaybackJitterBuffer.kt:112-118 | order does not hold across epochs: runs in which an older frame, or the same number again, is played after an underrun |
| JitterOrder.DeliveryKeepsOrderExactly | apps/android_flutter/android/app/src/main/kotlin/com/example/lan_audio_android_mvp/PlaybackJitterBuffer.kt:87-139 | one more delivery keeps the whole log increasing exactly when the oldest frame held is newer than the last one played |
| JitterOrder.SameEpochIsNewer | apps/android_flutter/android/app/src/main/kotlin/com/example/lan_audio_android_mvp/PlaybackJitterBuffer.kt:104-134 | inside an epoch that is always so |
| JitterOrder.OrderHoldsExactly | apps/android_flutter/android/app/src/main/kotlin/com/example/lan_audio_android_mvp/PlaybackJitterBuffer.kt:60-224 | over any run without a clear, frames are played in strictly increasing order exactly when every start of playout finds a frame newer than the last one played; nothing inside an epoch can break the order |
| JitterOrder.FreshOrderHoldsExactly | apps/android_flutter/android/app/src/main/kotlin/com/example/lan_audio_android_mvp/PlaybackJitterBuffer.kt:60-224 | the same from a fresh buffer |
| JitterOrder.StepForward | apps/android_flutter/android/app/src/main/kotlin/com/example/lan_audio_android_mvp/PlaybackJitterBuffer.kt:60-224 | everything held and expected stays past the last frame played, except by a push that is accepted at or below it |
| JitterOrder.ForwardRun | apps/android_flutter/android/app/src/main/kotlin/com/example/lan_audio_android_mvp/PlaybackJitterBuffer.kt:74-77 | over any run the first such push comes when no sequence is expected, so that the late test is skipped |
| JitterOrder.OrderBreaksExactly | apps/android_flutter/android/app/src/main/kotlin/com/example/lan_audio_android_mvp/PlaybackJitterBuffer.kt:60-224 | over any run without a clear, order breaks exactly when a frame that was accepted at or below the last one played is played at or below the last one played |
| JitterOrder.FreshOrderBreaksExactly | apps/android_flutter/android/app/src/main/kotlin/com/example/lan_audio_android_mvp/PlaybackJitterBuffer.kt:60-224 | the same from a fresh buffer |
| JitterBounds.TrimBounds | apps/android_flutter/android/app/src/main/kotlin/com/example/lan_audio_android_mvp/PlaybackJitterBuffer.kt:185-224 | after a trim: at most the size limit; the timer runs exactly when the threshold is exceeded and has not run out; never fewer than either limit allows |
| JitterBounds.AcceptedPushBounds | apps/android_flutter/android/app/src/main/kotlin/com/example/lan_audio_android_mvp/PlaybackJitterBuffer.kt:60-85 | no accepted push leaves the buffer above the drop threshold with a timer of 250 ms or more |
| JitterBounds.TrimmingNeverStarves | apps/android_flutter/android/app/src/main/kotlin/com/example/lan_audio_android_mvp/PlaybackJitterBuffer.kt:185-224 | with limits at or above the start-up time and at most 2000 start frames, the trim of an accepted push never takes the buffer below what pop needs to start |
| JitterBounds.ReconfigureNeverStarves | apps/android_flutter/android/app/src/main/kotlin/com/example/lan_audio_android_mvp/PlaybackJitterBuffer.kt:50-58 | nor does the trim of a reconfiguration, which orders the limits itself |
| JitterBounds.RunIsBounded | apps/android_flutter/android/app/src/main/kotlin/com/example/lan_audio_android_mvp/PlaybackJitterBuffer.kt:185-192 | with one frame duration the size never exceeds clamp(ceil(max/d), 8, 2000), over any run |
| JitterBounds.PushLimitExactly | apps/android_flutter/android/app/src/main/kotlin/com/example/lan_audio_android_mvp/PlaybackJitterBuffer.kt:60-85 | with changing durations a push ends within the limit of its own duration exactly when it is accepted or what was held fits already: late packets and duplicates move the limit and evict nothing |
| JitterBounds.LimitHoldsExactly | apps/android_flutter/android/app/src/main/kotlin/com/example/lan_audio_android_mvp/PlaybackJitterBuffer.kt:36-224 | from a buffer within its limit only such a rejected push leads out of it |
| JitterBounds.RunLimitExactly | apps/android_flutter/android/app/src/main/kotlin/com/example/lan_audio_android_mvp/PlaybackJitterBuffer.kt:36-224 | over any run, with any durations, the limit holds in every state exactly when no such push occurs |
| JitterScenarios.RejectedPacketMovesTheLimit | apps/android_flutter/android/app/src/main/kotlin/com/example/lan_audio_android_mvp/PlaybackJitterBuffer.kt:60-77 | runs in which a late packet, or a duplicate, leaves nine frames where eight are allowed |
| JitterPops.PopExactly | apps/android_flutter/android/app/src/main/kotlin/com/example/lan_audio_android_mvp/PlaybackJitterBuffer.kt:87-139 | on the buffer's own fields, in every state: pop delivers exactly when playout runs or enough frames are held to start, a frame is held, and not (hard floor and at most 8 ms, in 32-bit arithmetic); then it is the oldest one. Floor holds and underruns are counted exactly in their cases |
| JitterPops.PopInRun | apps/android_flutter/android/app/src/main/kotlin/com/example/lan_audio_android_mvp/PlaybackJitterBuffer.kt:87-139 | the same in every state of every run from a positive start-up time, in plain arithmetic while the buffered time is below 2^31 |
| JitterPops.PopContiguousExactly | apps/android_flutter/android/app/src/main/kotlin/com/example/lan_audio_android_mvp/PlaybackJitterBuffer.kt:141-150 | the batch pop delivers exactly when playout runs and the oldest frame is the expected one, and else leaves everything, underruns too, as it was |
| JitterPayloads.AcceptedIsHeld | apps/android_flutter/android/app/src/main/kotlin/com/example/lan_audio_android_mvp/PlaybackJitterBuffer.kt:60-85 | after an accepted packet, what is held under its number has the packet's own payload, rate, channels, sequence and duration, unless it was the oldest and trimmed at once |
| JitterPayloads.FramesCarryPackets | apps/android_flutter/android/app/src/main/kotlin/com/example/lan_audio_android_mvp/PlaybackJitterBuffer.kt:36-224 | over any run every frame held or delivered has the payload and format of a packet that arrived under its number |
| JitterPayloads.PoppedCarriesPacket | apps/android_flutter/android/app/src/main/kotlin/com/example/lan_audio_android_mvp/PlaybackJitterBuffer.kt:87-139 | so does the frame a pop hands out, in any state of any run |
| JitterPushes.RejectedPushExactly | apps/android_flutter/android/app/src/main/kotlin/com/example/lan_audio_android_mvp/PlaybackJitterBuffer.kt:60-77 | a number held already is counted as dropped, one before the expected as late; but for the duration, which is taken over, nothing else changes |
| JitterPushes.AcceptedPushExactly | apps/android_flutter/android/app/src/main/kotlin/com/example/lan_audio_android_mvp/PlaybackJitterBuffer.kt:60-85 | any other packet is put at its place by number, with the packet's duration or 10 ms, and then trimmed |
| JitterPushes.TrimExactly | apps/android_flutter/android/app/src/main/kotlin/com/example/lan_audio_android_mvp/PlaybackJitterBuffer.kt:185-224 | a trim in full: which frames go, with both limits counted in milliseconds (at least 8 and at most 2000 frames; at least one), what is counted, the 250 ms timer, and when the expected number moves |
| JitterPushes.DropExactly | apps/android_flutter/android/app/src/main/kotlin/com/example/lan_audio_android_mvp/PlaybackJitterBuffer.kt:157-183 | dropOldestMs takes the fewest frames that make up the time, at least one, at most all; what is counted and returned, and where playout stands afterwards |
| JitterPushes.ReconfigureExactly | apps/android_flutter/android/app/src/main/kotlin/com/example/lan_audio_android_mvp/PlaybackJitterBuffer.kt:50-58 | the start-up time is raised to 1 ms, the two limits to the start-up time, and the buffer is trimmed |
| PcmRingRuns.RingIsFifo | apps/android_flutter/android/app/src/main/cpp/oboe_sink.cpp:79-127 | every interleaving of one producer and one consumer: 0 to 8192 frames stored, pulled samples followed by stored ones are the pushed ones in order, each in its slot |
| PcmRingRuns.StepsAreQueueOperations | apps/android_flutter/android/app/src/main/cpp/oboe_sink.cpp:100-126 | only publishing and releasing change the queue: one appends a whole block, the other takes a prefix; all other steps are invisible |
| PcmRingRuns.PushDecision | apps/android_flutter/android/app/src/main/cpp/oboe_sink.cpp:83-90 | push gives up exactly when the block did not fit beside the frames stored when it loaded the read position |
| PcmRingRuns.PullDecision | apps/android_flutter/android/app/src/main/cpp/oboe_sink.cpp:108-115 | pull settles on the longest prefix available when it loaded the write position |
| PcmRingRuns.LoadsAreTrue | apps/android_flutter/android/app/src/main/cpp/oboe_sink.cpp:83-109 | a loaded position is the true frame count at the moment of the load |
| PcmRingRuns.CopiesNeverOverlap | apps/android_flutter/android/app/src/main/cpp/oboe_sink.cpp:91-124 | no slot of a block being copied in is a slot of a block being copied out |
| PcmRingRuns.LevelNeverUnderstates | apps/android_flutter/android/app/src/main/cpp/oboe_sink.cpp:129-133 | availableFrames, read in two loads with steps in between, overstates the level by exactly the frames released in between |
| PcmRingRuns.ProducerKeeps | apps/android_flutter/android/app/src/main/cpp/oboe_sink.cpp:79-102 | every producer step keeps the ring invariant |
| PcmRingRuns.ConsumerKeeps | apps/android_flutter/android/app/src/main/cpp/oboe_sink.cpp:104-127 | every consumer step keeps the ring invariant |
| PcmRingRuns.RunKeeps | apps/android_flutter/android/app/src/main/cpp/oboe_sink.cpp:79-133 | the invariant holds in every state of every interleaving |
| PcmRingProgress.CallsStart | apps/android_flutter/android/app/src/main/cpp/oboe_sink.cpp:79-107 | a call starts at an idle thread, a push only for 1 to 8192 whole frames, a pull for at least one; nothing else starts one |
| PcmRingProgress.PushAdvances | apps/android_flutter/android/app/src/main/cpp/oboe_sink.cpp:83-102 | every step of a push brings it one step nearer to its return |
| PcmRingProgress.PullAdvances | apps/android_flutter/android/app/src/main/cpp/oboe_sink.cpp:108-127 | the same for every step of a pull |
| PcmRingProgress.WaitFree | apps/android_flutter/android/app/src/main/cpp/oboe_sink.cpp:79-127 | the ring is wait-free: from every reachable state, whatever the other thread does or leaves undone, a call under way has returned after 16388 steps of its own thread |
| PcmRing.SlotOfIndex | apps/android_flutter/android/app/src/main/cpp/oboe_sink.cpp:91-99 | the two-chunk copy puts the k-th sample in the slot of its running index, also when the 64-bit position wraps |
| PcmRing.DistanceIsFill | apps/android_flutter/android/app/src/main/cpp/oboe_sink.cpp:85-86 | the wrapping 64-bit difference of the positions is the true number of frames between them |
| PcmRingBuffer.PcmRingBuffer.Push | apps/android_flutter/android/app/src/main/cpp/oboe_sink.cpp:79-102 | all or nothing: accepted exactly when it fits; accepted samples are appended, refused ones change nothing |
| PcmRingBuffer.PcmRingBuffer.Store | apps/android_flutter/android/app/src/main/cpp/oboe_sink.cpp:91-101 | two chunk copies into the array append the block to the stored samples |
| PcmRingBuffer.PcmRingBuffer.Pull | apps/android_flutter/android/app/src/main/cpp/oboe_sink.cpp:104-127 | hands out the longest available prefix up to the request and keeps the rest |
| PcmRingBuffer.PcmRingBuffer.Load | apps/android_flutter/android/app/src/main/cpp/oboe_sink.cpp:117-126 | two chunk copies out of the array yield the oldest samples in order |
| PcmRingBuffer.PcmRingBuffer.AvailableFrames | apps/android_flutter/android/app/src/main/cpp/oboe_sink.cpp:129-133 | with no one else at work, the exact number of stored frames |
| PcmRingBuffer.StoredBlock | apps/android_flutter/android/app/src/main/cpp/oboe_sink.cpp:91-99 | a first chunk to the end of the array and a rest from its start store every sample in the slot of its index |
| PcmRingBuffer.LoadedBlock | apps/android_flutter/android/app/src/main/cpp/oboe_sink.cpp:116-124 | reading in two chunks yields exactly the oldest samples |
| KalmanTheory.PredictionMatches | crates/lan_audio_server/src/sync_engine.rs:95-111 | the filter's three-number prediction is F P F' + Q |
| KalmanTheory.CorrectionMatches | crates/lan_audio_server/src/sync_engine.rs:113-132 | the filter's short covariance update is the general (Joseph) posterior at its own gain |
| KalmanTheory.GainIsOptimal | crates/lan_audio_server/src/sync_engine.rs:115-123 | no gain gives a smaller variance in either state, and equality holds exactly for the filter's gain |
| KalmanTheory.PredictionStaysPositive | crates/lan_audio_server/src/sync_engine.rs:95-111 | prediction keeps the covariance positive definite and makes the cross term positive for dt > 0 |
| KalmanTheory.CorrectionStaysPositive | crates/lan_audio_server/src/sync_engine.rs:113-132 | correction keeps it positive definite, its gain lies strictly between 0 and 1, and the level variance falls below prior and measurement noise |
| SyncEngine.HealthyStep | crates/lan_audio_server/src/sync_engine.rs:94-133 | with dt > 0: the degenerate exit is dead, the filter stays healthy, the new level lies strictly between prediction and measurement, and drift moves with the sign of the innovation |
| SyncEngine.BufferKalmanFilter.Step | crates/lan_audio_server/src/sync_engine.rs:94-133 | the field-by-field step is the textbook predict and correct step |
| SyncEngine.BufferKalmanFilter.SetJitterP95Us | crates/lan_audio_server/src/sync_engine.rs:83-88 | sets the measurement noise from the jitter and nothing else |
| SyncEngine.NoiseAtLeastBaseline | crates/lan_audio_server/src/sync_engine.rs:83-88 | the measurement noise never falls below 4 |
| SyncEngine.ResamplePidController.Step | crates/lan_audio_server/src/sync_engine.rs:192-233 | bang-bang, dead zone and linear range, with all state changes of each |
| SyncEngine.PidStepBounds | crates/lan_audio_server/src/sync_engine.rs:192-233 | the offset stays in its band, takes its full value for large errors, is zero in the dead zone; the integral stays clamped and moves only unfrozen in the linear range |
| SyncEngine.PidIsOdd | crates/lan_audio_server/src/sync_engine.rs:192-233 | too full and equally too empty are treated alike with the sign turned round, in output and in every remembered value |
| SyncEngine.AudioSyncEngine.Observe | crates/lan_audio_server/src/sync_engine.rs:269-288 | noise update, filter step, forecast and controller step in order |
| SyncEngine.ObserveKeeps | crates/lan_audio_server/src/sync_engine.rs:269-288 | an observation keeps the engine invariant, and a frozen controller keeps its integral |
| SyncEngine.RunKeeps | crates/lan_audio_server/src/sync_engine.rs:83-288 | over every run of observations, at any intervals and jitter, the covariance stays positive definite and the integral clamped |
| SyncEngine.RunFromNew | crates/lan_audio_server/src/sync_engine.rs:83-288 | the same from the constructor's state, for every target and first level |
| ControlLaw.LinearLaw | crates/lan_audio_server/src/sync_engine.rs:210-232 | between 5 and 30 ms of error the offset is kp * error + ki * integral + kd * slope cut at 20, with the integral grown by error * dt and cut at 50 unless frozen |
| ControlLaw.DerivativeLaw | crates/lan_audio_server/src/sync_engine.rs:218-229 | the filtered slope: the new difference quotient counts with the filter's share, the old value with the rest |
| ControlLaw.FirstOffset | crates/lan_audio_server/src/sync_engine.rs:192-233 | without memory and while nothing is cut the offset is (kp + ki * dt) * error |
| ControlLaw.OffsetRises | crates/lan_audio_server/src/sync_engine.rs:192-233 | within the linear band the offset never falls as the error, the integral or the remembered slope rises |
| ControlLaw.DeadZoneFades | crates/lan_audio_server/src/sync_engine.rs:204-208 | below 5 ms the offset is zero and the remembered slope fades by the filter's share |
| ControlLaw.BangBangLaw | crates/lan_audio_server/src/sync_engine.rs:196-201 | beyond 30 ms the offset is 20 towards the target and only the error is remembered |
| ControlLaw.NoiseLaw | crates/lan_audio_server/src/sync_engine.rs:83-88 | the measurement noise exceeds 4 by a quarter of the squared jitter in milliseconds |
| ControlLaw.ObservationMoves | crates/lan_audio_server/src/sync_engine.rs:269-288 | an observation moves the level strictly between where the drift had led it, over dt or at least 0.05 s, and the sum of the two reported levels, and the drift to the same side |
| ControlLaw.ObservationDecides | crates/lan_audio_server/src/sync_engine.rs:269-288 | the decision is the controller's answer to the level forecast over the horizon, and reports the new filter state |
| Watchdog.CpuPredictor.Observe | crates/lan_audio_server/src/watchdog.rs:60-70 | updates trend, average and last sample and returns the clamped forecast |
| Watchdog.SteadyLoadSettles | crates/lan_audio_server/src/watchdog.rs:60-70 | under a steady load the average's error and the trend shrink by exactly 0.7 per tick |
| Watchdog.ForecastSettles | crates/lan_audio_server/src/watchdog.rs:60-70 | so the forecast settles on the load: the bound on its error shrinks by 0.7 per tick |
| Watchdog.SamplesStayInRange | crates/lan_audio_server/src/watchdog.rs:60-70 | loads in percent keep average and forecast in percent, and the average moves towards the load without passing it |
| Watchdog.MoreLoadNeverHelps | crates/lan_audio_server/src/watchdog.rs:192-210 | more predicted load, dropped frames or queue fill never asks for a better tier |
| Watchdog.CpuWatchdog.Tick | crates/lan_audio_server/src/watchdog.rs:152-190 | one tick of predictor, tier and streak |
| Watchdog.TickDecides | crates/lan_audio_server/src/watchdog.rs:152-190 | the tier changes exactly when more load is seen, or less load and the hold time is reached; it is never better than what this tick asks for |
| Watchdog.PromotionsAreServed | crates/lan_audio_server/src/watchdog.rs:163-172 | a promotion follows at least the hold time in the tier |
| Watchdog.NeverFlaps | crates/lan_audio_server/src/watchdog.rs:152-190 | over any run: promotions times hold time is at most the tick time, demotions at most 2 * promotions + 2, and the streak is 0 in Green, else the time since the last change |
| Watchdog.RunKeeps | crates/lan_audio_server/src/watchdog.rs:152-190 | the invariant behind these counts, over every run |
| Watchdog.SteadyDwell | crates/lan_audio_server/src/watchdog.rs:173-181 | below Green the streak also grows while the same tier keeps being asked for |
| Watchdog.OneGoodTickAfterBadDwell | crates/lan_audio_server/src/watchdog.rs:163-181 | so after a hold time spent entirely under load a single good tick promotes |
| Watchdog.StreakIsHealthExactly | crates/lan_audio_server/src/watchdog.rs:112-190 | over any run, with health the tick time since the last tick that did not ask for a better tier: below Green the streak is that time exactly when every tick of positive length since the tier change asked for better, or the clock has run out; in Green both are zero |
| Watchdog.PromotedAfterBadDwell | crates/lan_audio_server/src/watchdog.rs:163-181 | a run with the default settings that is promoted after three seconds of dropped frames and one clean tick |
| WatchdogLaws.DesiredExactly | crates/lan_audio_server/src/watchdog.rs:192-210 | Red is asked for exactly when the forecast, the dropped frames or depth against threshold times capacity reach their red thresholds; Yellow exactly when only a yellow one is reached; a queue of no capacity counts as empty |
| WatchdogLaws.SampleMoves | crates/lan_audio_server/src/watchdog.rs:60-70 | a sample moves average and trend three tenths of the way; the forecast is average plus trend times horizon, cut to 0..100 |
| WatchdogLaws.TickExactly | crates/lan_audio_server/src/watchdog.rs:152-190 | a whole tick from the raw signals: forecast, tier and streak in every case |
| AdaptiveRuntime.AdaptiveRuntime.Tick | crates/lan_audio_server/src/adaptive_runtime.rs:118-162 | watchdog tick, tuning of the controller on a tier change, and observation, in order |
| AdaptiveRuntime.DecisionReportsState | crates/lan_audio_server/src/adaptive_runtime.rs:148-162 | the decision that is returned reports the tier, the forecast, and the engine's values or, without an observation, the resting ones |
| AdaptiveRuntime.TickCouples | crates/lan_audio_server/src/adaptive_runtime.rs:118-162 | the controller is frozen exactly below Green, and a tick that ends there leaves the integral unchanged |
| AdaptiveRuntime.DegradedRunFreezesIntegral | crates/lan_audio_server/src/adaptive_runtime.rs:132-146 | over any stretch of ticks below Green the integral does not move |
| WatchdogLaws.RuntimeExactly | crates/lan_audio_server/src/adaptive_runtime.rs:118-162 | a tick of the runtime from a raw sample: no load reading counts as idle, the controller is tuned by this tick's tier, and an observation is taken over the cadence in seconds |
| EncoderProfiles.DegradingCostsLessExactly | crates/lan_audio_server/src/adaptive_runtime.rs:43-89 | a worse tier asks for no more bitrate and complexity, except exactly where Ultra Low Latency turns Red; only Red forces PCM16 |
| RegistryInvariants.RegisterKeeps | crates/lan_audio_server/src/session.rs:589-680 | a registration keeps the registry invariant, and one that replaces somebody is accepted |
| RegistryInvariants.RemoveKeeps | crates/lan_audio_server/src/session.rs:714-724 | a removal keeps the invariant |
| RegistryInvariants.TuningKeeps | crates/lan_audio_server/src/session.rs:726-786 | a mode change keeps the invariant, in particular PCM16 on LAS1 |
| RegistryInvariants.AttachKeeps | crates/lan_audio_server/src/session.rs:788-831 | attaching a stream, with its expiry, keeps the invariant |
| RegistryInvariants.LosingKeeps | crates/lan_audio_server/src/session.rs:833-853 | losing a transport keeps the invariant |
| RegistryInvariants.BroadcastKeeps | crates/lan_audio_server/src/session.rs:855-881 | handing out the clients keeps the invariant |
| RegistryInvariants.AttachServesTheQueue | crates/lan_audio_server/src/session.rs:788-831 | the scan over all clients never finds one, and the head of the queue is always a live client in need, which gets the stream; with an empty queue the stream is queued |
| RegistryInvariants.ExpiredAreGone | crates/lan_audio_server/src/session.rs:791-806 | expiry removes exactly the expired ids from clients and queue and adds their number to the expired count |
| RegistryInvariants.ExpiresExactly | crates/lan_audio_server/src/session.rs:795-802 | a client expires exactly when one of its entries is older than the limit |
| RegistryInvariants.PurgeQueued | crates/lan_audio_server/src/session.rs:795-802 | expiry splits the queue: each waiting id is kept or expired, never both |
| RegistryInvariants.WithoutQueued | crates/lan_audio_server/src/session.rs:899-902 | removing a client takes exactly its id out of the queue |
| RegistryInvariants.StepKeeps | crates/lan_audio_server/src/session.rs:589-902 | every locked section keeps the invariant |
| RegistryFields.JoinExactly | crates/lan_audio_server/src/session.rs:589-680 | on client fields: an accepted registration throws out one client with its key or, when the key is new, one at the same WiFi address under the same name (for USB, one that holds a stream), and nobody exactly when there is none; all others keep every field, and the new client is as the request asks |
| RegistryFields.RefusedExactly | crates/lan_audio_server/src/session.rs:634-643 | a registration is refused exactly when four clients are registered and none of them gives way to it, and then changes nothing |
| RegistryFields.WifiKeepsTheOthers | crates/lan_audio_server/src/session.rs:613-632 | a WiFi registration removes and changes nobody who has another key and is not at its address under its name |
| RegistryFields.StepTouches | crates/lan_audio_server/src/session.rs:589-881 | while a client stays, no step changes its name, key, path or kind; only its own mode change touches mode, rate and codec; only its own loss or an attached stream touches its transport |
| RegistryFields.LeavesExactly | crates/lan_audio_server/src/session.rs:589-902 | a client leaves exactly when it is removed, replaced, or a stream is attached while it has waited for more than 60 s |
| RegistryFields.AppearsByJoining | crates/lan_audio_server/src/session.rs:589-680 | nobody appears but by an accepted registration of its own |
| RegistryFields.StaleExactly | crates/lan_audio_server/src/session.rs:795-802 | expiry concerns exactly the entries older than 60 s |
| RegistryFields.SnapshotExactly | crates/lan_audio_server/src/session.rs:855-881 | a snapshot is made exactly of the clients with a transport, and carries the client's name, path, codec, mode, rate, transport and marks |
| RegistryMarks.ModeChangeExactly | crates/lan_audio_server/src/session.rs:726-786 | a mode change sets mode, rate and marks of the one client, and ends on the requested codec exactly when its data plane carries it, else on PCM16 |
| RegistryRuns.RunFromEmpty | crates/lan_audio_server/src/session.rs:589-902 | over any run: at most 4 clients, unique keys, queue = distinct ids of exactly the USB clients without a stream, gauge never below zero and ahead of the registered and settling clients by exactly those expired, PCM16 on LAS1 |
| RegistryRuns.RunKeeps | crates/lan_audio_server/src/session.rs:589-902 | the invariant behind it, from any state that has it |
| RegistryRuns.GaugeLeaksEvictions | crates/lan_audio_server/src/session.rs:803-806 | over any run the gauge's lead over the clients grows by exactly the clients lost in stream attachments |
| RegistryUsb.GaugeLeakIsReached | crates/lan_audio_server/src/session.rs:788-831 | a run that leaves an empty registry with a gauge of one session |
| RegistryUsb.RejectedExactly | crates/lan_audio_server/src/session.rs:634-643 | a registration is refused exactly when the registry is full and nobody can be replaced, and then changes nothing |
| RegistryUsb.SingleUsbExactly | crates/lan_audio_server/src/session.rs:603-613 | a USB registration leaves one USB session exactly when the earlier one has the same key, or holds a stream while the key is new |
| RegistryUsb.SingleUsbRun | crates/lan_audio_server/src/session.rs:589-902 | over any run there is never more than one USB session exactly when every accepted USB registration takes the place of the earlier one |
| RegistryUsb.TwoUsbSessions | crates/lan_audio_server/src/session.rs:603-613 | a run in which two USB sessions stream at the same time |
| RegistryRuns.QueueIsFair | crates/lan_audio_server/src/session.rs:589-853 | no step lets one waiting client overtake another |
| RegistryUsb.StrandedExactly | crates/lan_audio_server/src/session.rs:833-853 | a stream lies unused beside a waiting client exactly when a USB client lost its transport while a spare stream was queued |
| RegistryUsb.StrandingIsReached | crates/lan_audio_server/src/session.rs:788-853 | a run that ends with a spare stream queued beside a waiting client |
| RegistryStreams.StreamsStayOwned | crates/lan_audio_server/src/session.rs:667-680 | over any run no stream is given to two clients, or given away while it is queued |
| RegistryMarks.ServedByRun | crates/lan_audio_server/src/session.rs:855-881 | the history of served clients is exactly those some broadcast of the run found with a transport |
| RegistryMarks.FirstSnapshotIsMarked | crates/lan_audio_server/src/session.rs:855-881 | over any run the first snapshot that names a client marks its first packet |
| RegistryMarks.SnapshotMarksExactly | crates/lan_audio_server/src/session.rs:726-881 | over any run a snapshot is marked as a first packet, or as a mode change, exactly when something marked the client and no broadcast has reached it since |
| RegistryRuns.SnapshotsCarry | crates/lan_audio_server/src/session.rs:865-875 | a snapshot carries its client's id, and PCM16 when the client is on LAS1 |
| SessionRegistry.ClientRegistry.RegisterClient | crates/lan_audio_server/src/session.rs:589-712 | the locked section, for whichever match the hash map yields, followed by the decrement for a replaced client |
| SessionRegistry.ClientRegistry.FindReplaceable | crates/lan_audio_server/src/session.rs:595-632 | finds some client to replace exactly when there is one: same key, else USB stream, else same name and address |
| SessionRegistry.ClientRegistry.RemoveClient | crates/lan_audio_server/src/session.rs:714-724 | removes and decrements once, or reports that there was nobody |
| SessionRegistry.ClientRegistry.SetClientMode | crates/lan_audio_server/src/session.rs:726-786 | changes only the named client |
| SessionRegistry.ClientRegistry.SplitExpired | crates/lan_audio_server/src/session.rs:793-802 | one pass splits the queue into kept entries and expired ids, in order |
| SessionRegistry.ClientRegistry.PurgeExpired | crates/lan_audio_server/src/session.rs:791-806 | removes every expired client |
| SessionRegistry.ClientRegistry.AttachUsbStream | crates/lan_audio_server/src/session.rs:788-831 | expiry, then head of the queue, scan or stream queue |
| SessionRegistry.ClientRegistry.MarkUsbTransportLost | crates/lan_audio_server/src/session.rs:833-853 | clears the transport and queues a USB client that is not queued yet |
| SessionRegistry.ClientRegistry.TakeBroadcastClients | crates/lan_audio_server/src/session.rs:855-881 | lists every client with a transport once, whatever the map order, and clears its marks |
| WireFields.EmittedReads | crates/lan_audio_protocol/src/lib.rs:494-590 | little-endian fields laid end to end are read back wherever they stand |
| WireFields.ReadsEmit | crates/lan_audio_protocol/src/lib.rs:514-590 | emitting the fields that were read gives the bytes back |
| ProtocolRoundTrips.LegacyDecodeOfEncode | crates/lan_audio_protocol/src/lib.rs:734-779 | a LAS1 packet survives encoding exactly when its payload is shorter than 65536 bytes, else decoding reports the length |
| ProtocolRoundTrips.LegacyEncodeOfDecode | crates/lan_audio_protocol/src/lib.rs:734-779 | every accepted LAS1 byte string is the encoding of what was decoded |
| ProtocolRoundTrips.V2DecodeOfEncode | crates/lan_audio_protocol/src/lib.rs:643-731 | the same for version 2, for every well-formed header |
| ProtocolRoundTrips.V2EncodeOfDecode | crates/lan_audio_protocol/src/lib.rs:643-731 | every accepted version 2 byte string is the encoding of what was decoded |
| ProtocolRoundTrips.V3DecodeOfEncode | crates/lan_audio_protocol/src/lib.rs:494-592 | the same for version 3 |
| ProtocolRoundTrips.V3EncodeOfDecode | crates/lan_audio_protocol/src/lib.rs:494-592 | every accepted version 3 byte string is the encoding of what was decoded |
| ProtocolRoundTrips.DecodersDisjoint | crates/lan_audio_protocol/src/lib.rs:632-641 | no byte string is accepted by two decoders, and packet detection agrees with whichever accepts |
| WireLayout.LegacyLayout | crates/lan_audio_protocol/src/lib.rs:734-779 | LAS1 byte by byte: which strings are accepted, where each field stands, and which error every other string gets |
| WireLayout.V2Layout | crates/lan_audio_protocol/src/lib.rs:643-731 | version 2 byte by byte, with the order in which errors are found |
| WireLayout.V3Layout | crates/lan_audio_protocol/src/lib.rs:494-592 | version 3 byte by byte, with the order in which errors are found |
| WireLayout.KindExactly | crates/lan_audio_protocol/src/lib.rs:632-641 | which family a datagram belongs to is told by its first four bytes alone |
| WireLayout.V2HeaderIs | crates/lan_audio_server/src/data_plane.rs:293-320 | what the server puts into a version 2 header: the packet's fields, reserved zero, and a duration within one millisecond of the frames' time |
| AudioProtocol.CodecByteRoundTrip | crates/lan_audio_protocol/src/lib.rs:402-410 | a codec byte decodes exactly to the codec that has it |
| LasPacketParser.AgreesOnLegacy | apps/android_flutter/android/app/src/main/kotlin/com/example/lan_audio_android_mvp/LasPacketParser.kt:52-83 | the Android parser accepts exactly the LAS1 strings the protocol crate accepts, with equal fields up to signed reading |
| LasPacketParser.AgreesOnV2 | apps/android_flutter/android/app/src/main/kotlin/com/example/lan_audio_android_mvp/LasPacketParser.kt:85-127 | with a 33-byte header it accepts exactly the version 2 strings with codec 1 or 3, with equal fields up to signed reading |
| LasPacketParser.RejectsV3 | apps/android_flutter/android/app/src/main/kotlin/com/example/lan_audio_android_mvp/LasPacketParser.kt:85-90 | it rejects every version 3 string |
| WireLayout.ParserLayout | apps/android_flutter/android/app/src/main/kotlin/com/example/lan_audio_android_mvp/LasPacketParser.kt:52-127 | the Android parser byte by byte: which strings it accepts, with LAV2 headers of any length from 33 on, and where it reads each field |
| WireLayout.NothingToPlay | apps/android_flutter/android/app/src/main/kotlin/com/example/lan_audio_android_mvp/LasPacketParser.kt:112-113 | a version 2 packet without a positive signed rate or duration holds no frames |
| DataPlane.EncodePacketsByDataPlane | crates/lan_audio_server/src/data_plane.rs:347-425 | the fragmentation loop yields the datagrams and the advanced counter of its specification |
| DataPlane.FragCount | crates/lan_audio_server/src/data_plane.rs:376-386 | the fragment count is the ceiling of the length over 1392, at least one, and fits a byte exactly up to 255*1392 bytes |
| Fragmentation.DatagramDecodes | crates/lan_audio_server/src/data_plane.rs:387-423 | the k-th datagram decodes as version 3 with index k, the total, the frame's logical number, wire number next + k modulo 2^32 and slice k |
| Fragmentation.EmptyExactlyWhen | crates/lan_audio_server/src/data_plane.rs:362-386 | nothing is sent exactly for PCM24 on LAS1 or beyond 255 fragments; the counter advances by the number of datagrams |
| Fragmentation.WholePayload | crates/lan_audio_server/src/data_plane.rs:387-423 | the slices in order are the payload |
| Fragmentation.CutsAreAligned | crates/lan_audio_server/src/data_plane.rs:387-423 | a payload of whole 6-byte pairs is cut between pairs |
| Fragmentation.ArrivalRebuildsExactly | crates/lan_audio_server/src/data_plane.rs:387-423 | datagrams of one frame, in any order and with repeats, rebuild the payload by index exactly when none is missing |
| FrameDurations.FramesLost | apps/android_flutter/android/app/src/main/kotlin/com/example/lan_audio_android_mvp/LasPacketParser.kt:112-113 | a frame count sent through the millisecond field comes back less ceil(((1000 f) mod r)/1000), hence unchanged exactly when r divides 1000 f |
| FrameDurations.DurationLosesAtMostOne | apps/android_flutter/android/app/src/main/kotlin/com/example/lan_audio_android_mvp/LasPacketParser.kt:23-24 | from 1 kHz up the parsed duration is the sent one or one less, the sent one exactly when 1000 divides rate times duration |
| FrameDurations.EncoderPacketsAreExact | crates/lan_audio_server/src/transport.rs:2367-2372 | at every normalised encoder rate 10 ms and 20 ms packets keep frame count and duration exactly |
| FrameDurations.NormalizeEncoderSampleRate | crates/lan_audio_server/src/transport.rs:2367-2372 | yields one of the five encoder rates |
| FrameDurations.ParsedFrames | apps/android_flutter/android/app/src/main/kotlin/com/example/lan_audio_android_mvp/LasPacketParser.kt:85-127 | what the parser computes from a version 2 datagram made by the server: frame count, payload and sequence |
| FrameDurations.FramesLostAt44100 | crates/lan_audio_server/src/data_plane.rs:308-312 | the loss is real: 221 frames at 44.1 kHz come back as 220 |
| EncodeWorker.NumbersPerFrame | crates/lan_audio_server/src/transport.rs:191-234 | N >= 1 fragments for R clients take exactly 1 + R*(N-1) sequence numbers |
| EncodeWorker.FramesAreApart | crates/lan_audio_server/src/transport.rs:177-235 | numbers of different encoded frames never meet: all of the earlier frame come first |
| EncodeWorker.TraceIsSent | crates/lan_audio_server/src/transport.rs:177-266 | a run's datagrams are exactly those of its frames |
| EncodeWorker.ClientNumbersIncrease | crates/lan_audio_server/src/transport.rs:145-270 | over any run, for any grouping and fragment counts, each client's numbers strictly increase |
| EncodeWorker.GaplessExactly | crates/lan_audio_server/src/transport.rs:191-234 | a client's numbers are consecutive from one of its frames to a later one exactly when no other frame is sent in between and no other recipient of the first needs a second datagram |
| EncodeWorker.WireCarriesItsNumber | crates/lan_audio_server/src/transport.rs:191-234 | every datagram decodes, in its format, to its own number modulo 2^32 |
| EncodeWorker.ReceiverSeesTheOrder | crates/lan_audio_server/src/transport.rs:145-270 | a receiver that compares modulo 2^32 sees a client's datagrams in sending order while fewer than 2^31 numbers lie between |
| EncodeWorker.Pcm16Arrives | crates/lan_audio_server/src/transport.rs:2174-2199 | a PCM16 frame reaches a client of either data plane in one datagram; the Android parser reads its payload, number, time stamp, rate, channels and, on LAS1 or for 10 ms at an encoder rate, its frame count, and the flags for silence, mode change and stream break |
| WireContents.OpusArrives | crates/lan_audio_server/src/transport.rs:191-234 | an Opus frame reaches a version 2 client in one datagram, and the Android parser reads its bytes, number, time stamp, rate, channels, flags and, for 20 ms, frame count |
| WireContents.HiresArrives | crates/lan_audio_server/src/data_plane.rs:362-425 | the k-th of ceil(length/1392) datagrams of a PCM24 frame carries bytes 1392k and on and all the frame's fields, numbers and marks |
| WireContents.GroupsExactly | crates/lan_audio_server/src/transport.rs:163-175 | two clients share an encoder exactly when codec, mode and encoder rate agree; a rate no encoder has counts as 48 kHz |
| EncodeWorker.MissedExactly | crates/lan_audio_server/src/data_plane.rs:362-386 | a gated client misses a frame exactly when it needs more than 255 fragments |
| EncodeWorker.RegistryFeedsWorker | crates/lan_audio_server/src/transport.rs:166-175 | what the registry hands out has distinct ids and PCM16 on every LAS1 client |
| EncodeWorker.JobIsSound | crates/lan_audio_server/src/transport.rs:166-205 | every frame of a job goes to distinct clients of exactly one encoder group |
| EncodeWorker.MembersAre | crates/lan_audio_server/src/transport.rs:163-175 | a client is in a group exactly when it is in the job and has the group's encoder key |
| EncodeWorker.GroupRecipients | crates/lan_audio_server/src/transport.rs:163-175 | the grouping loop builds, for each key in use, its clients in job order |
| EncodeWorker.SendFrame | crates/lan_audio_server/src/transport.rs:191-266 | the fan-out loop of one frame and the counter after it |
| EncodeWorker.TraceConcat | crates/lan_audio_server/src/transport.rs:145-270 | jobs follow one another: the next goes on from the counter of the last |
| WorkerRuns.Pcm16StreamIsExact | crates/lan_audio_server/src/transport.rs:145-275 | from the registry to the Android parser: over any run of jobs whose clients a reachable registry handed out, under any sequence of tiers and any order of the groups, a client with codec PCM16, on either data plane, hears exactly one datagram for each job that lists it, in job order, and the parser reads it as PCM16 under the datagram's number with that job's samples and the client's marks |
| WorkerRuns.Las1StreamIsExact | crates/lan_audio_server/src/transport.rs:145-275 | the same for every client on LAS1, because the registry gives it no other codec |
| WorkerRuns.Pcm16HearsEveryJobOnce | crates/lan_audio_server/src/transport.rs:145-275 | the step behind both: one job after any earlier jobs |
| WorkerRuns.Pcm16HearsOnlyPcm16 | crates/lan_audio_server/src/transport.rs:145-275 | over any such run, every datagram to a client with codec PCM16 carries the samples of a job that lists the client |
| WorkerRuns.FlagsTellTheRegistry | crates/lan_audio_server/src/transport.rs:2174-2199 | on version 2 the flags the parser reads say whether the client was marked for a mode change or a first packet since a broadcast last reached it, over any run of the registry |
| WorkerRuns.Las1HearsOnlyPcm16 | crates/lan_audio_server/src/transport.rs:145-275 | over any such run, every datagram to a client on LAS1 is PCM16 with the samples of a job that lists the client |
| WorkerRuns.RunGatesCodecs | crates/lan_audio_server/src/transport.rs:166-205 | over any such run, on either data plane: whoever is sent a frame is a client of the job whose own codec allows it in the job's tier, and it is a frame of that client's encoder |
| WorkerRuns.RunFits | crates/lan_audio_server/src/transport.rs:141-187 | over any run of jobs and tiers every encoder of the pool has its key's codec and rate, is forced to PCM16 exactly in Red, and its Opus settings are those of the last tier for its mode |
| WorkerOpus.GroupStream | crates/lan_audio_server/src/transport.rs:145-275 | over any run of jobs and tiers the frames a group gets are those of one encoder that lives on between its jobs, fed with their captures in turn |
| WorkerOpus.OpusGroupCarries | crates/lan_audio_server/src/transport.rs:145-275 | so the k-th Opus packet of a group is the library's k-th answer, to the 2k-th and (2k+1)-th captures outside Red of the jobs that use the group, with whatever groups in between |
| OpusHearing.HeardFromJob | crates/lan_audio_server/src/transport.rs:166-266 | of one job a client hears one datagram for each frame of its own group and nothing else, in whatever order the groups are visited |
| OpusHearing.GroupIsHeard | crates/lan_audio_server/src/transport.rs:145-275 | over any run of jobs from the registry, a client on Opus that is in its group whenever that is used hears one datagram for each frame of the group, in order |
| OpusHearing.OpusStreamIsExact | crates/lan_audio_server/src/transport.rs:145-275 | both together, from the registry to the wire: what such a client hears, and which captures the k-th Opus packet among it joins |
| WorkerRuns.RunNumbersIncrease | crates/lan_audio_server/src/transport.rs:145-275 | over any run of jobs each client's numbers strictly increase |
| WorkerNumbers.ConsecutiveExactly | crates/lan_audio_server/src/transport.rs:187-234 | from one job to the next, when all clients have codec PCM16: a client's numbers are consecutive exactly when its group comes last in the first job and first in the second; every group visited in between takes one number |
| WorkerNumbers.OtherGroupLeavesAGap | crates/lan_audio_server/src/transport.rs:187-234 | two clients on LAS1 with different rates, handed out by a run of the registry: in two jobs alike each of them skips a number |
| WorkerThread.EncodeThread.ApplyTier | crates/lan_audio_server/src/transport.rs:146-159 | the loop over the pool tunes every encoder |
| WorkerThread.EncodeThread.FindOrMake | crates/lan_audio_server/src/transport.rs:178-185 | an encoder is made, and set up for the tier, exactly when its key is new |
| WorkerThread.EncodeThread.EncodeJob | crates/lan_audio_server/src/transport.rs:161-269 | a whole job on the pool of encoder objects, for whatever order the hash map is walked in; its numbers lie between the two counter values and increase for every client |
| WorkerThread.EncodeThread.RunJob | crates/lan_audio_server/src/transport.rs:145-275 | one turn of the loop: re-baselining on a tier change, then the job |
| WorkerThread.RunWorker | crates/lan_audio_server/src/transport.rs:141-281 | the worker's loop from an empty pool yields the datagrams and the counter that the lemmas are about, numbered from the start up, increasing for every client |
| AudioEncoding.CodecsAreAllowed | crates/lan_audio_server/src/transport.rs:1537-1587 | which codec an encoder may emit, for every behaviour of the Opus library; forced down it emits PCM16 alone |
| AudioEncoding.Pcm24PayloadIsAligned | crates/lan_audio_server/src/transport.rs:2058-2113 | PCM24 payloads hold whole pairs, at the capture rate up to 96 kHz |
| AudioEncoding.OpusStream | crates/lan_audio_server/src/transport.rs:1553-1573 | with a library that does not fail, the encoder's stream is the library applied call by call to the paired blocks |
| AudioEncoding.OpusPacketsPair | crates/lan_audio_server/src/transport.rs:1553-1573 | n captured frames give n/2 Opus packets, packet k encoding frames 2k and 2k+1 |
| OpusTiers.PacketsAcrossTiers | crates/lan_audio_server/src/transport.rs:1553-1573 | across any sequence of tiers: packet k joins the captures fed 2k-th and (2k+1)-th outside Red, under the first one's time stamp; they are neighbours exactly when the capture after the first is not encoded in Red |
| OpusTiers.RedIsPassedOver | crates/lan_audio_server/src/transport.rs:1553-1573 | three captures, the second in Red: one packet joins the first to the third |
| EncodedFields.StreamCarries | crates/lan_audio_server/src/transport.rs:1747-1873 | field by field: packet k has as payload the library's k-th answer to both captures' samples in order, the first one's time stamp, the encoder's rate, two channels, rate/50 frames at the five encoder rates, and is silent exactly when both are |
| EncodedFields.TiersCarry | crates/lan_audio_server/src/transport.rs:1553-1573 | the same across tiers, for the two captures outside Red that packet k joins |
| EncodedFields.StepCarries | crates/lan_audio_server/src/transport.rs:1537-1587 | one capture, for every library: its answers to the frames now complete, each with its fields; or, when it fails on one of them, the capture as PCM16 alone |
| EncodedFields.Pcm16FrameIs | crates/lan_audio_server/src/transport.rs:2009-2048 | a PCM16 frame has the capture's time stamp and silence, the encoder's rate, two channels, rate/100 frames, and bytes that decode to the quantised samples |
| EncodedFields.Pcm24FrameIs | crates/lan_audio_server/src/transport.rs:2058-2113 | a PCM24 frame has the capture's time stamp and silence, its rate up to 96 kHz, two channels, and decodes to the left and right sample of every whole frame |
| EncodedFields.SidesAre | crates/lan_audio_server/src/transport.rs:2081-2100 | the left side of a PCM24 frame is its first sample, the right side its second, or the first again for mono |
| EncodedFields.NewEncoderIs | crates/lan_audio_server/src/transport.rs:1502-1528 | a new encoder: normalised rate, nothing pending, PCM16 not forced, Opus set up for its mode when it is asked for and starts |
| EncodedFields.SwitchedIs | crates/lan_audio_server/src/transport.rs:1850-1854 | an Opus call for another mode sets the library up for that mode first, otherwise nothing changes |
| EncodedFields.TunedIs | crates/lan_audio_server/src/adaptive_runtime.rs:43-89 | what each tier tells the Opus library in each mode; nothing else of the encoder but the forced codec moves |
| AudioEncoding.LastTierCounts | crates/lan_audio_server/src/transport.rs:1831-1848 | tier changes are idempotent: only the last one counts, and tuning a new encoder for Green changes nothing |
| AudioEncoding.AudioFrameEncoder.Encode | crates/lan_audio_server/src/transport.rs:1537-1587 | dispatch, pairing and fallback on the encoder's own state |
| AudioEncoding.AudioFrameEncoder.DrainBuffer | crates/lan_audio_server/src/transport.rs:1566-1583 | the drain loop encodes whole frames until none is left or the library fails |
| AudioEncoding.AudioFrameEncoder.ApplyTierProfile | crates/lan_audio_server/src/transport.rs:1530-1535 | a Red tier, and no other, forces PCM16; the Opus encoder gets the tier's bitrate, complexity and rate control for its mode |
| PcmPayloads.QuantisedIsClose | crates/lan_audio_server/src/transport.rs:2015-2019 | a quantised sample stays in range, within one step of the scaled one, and never away from zero |
| PcmPayloads.EncodePcm16 | crates/lan_audio_server/src/transport.rs:2009-2019 | the loop writes every sample |
| PcmPayloads.Pcm16Carries | crates/lan_audio_server/src/transport.rs:2009-2019 | bytes 2k and 2k+1 decode to the quantised k-th sample |
| PcmPayloads.EncodePcm24 | crates/lan_audio_server/src/transport.rs:2081-2100 | the loop writes every whole frame |
| PcmPayloads.Pcm24Carries | crates/lan_audio_server/src/transport.rs:2081-2100 | bytes 6f to 6f+5 decode to the quantised left and right sample of frame f, a mono sample to both |
| PcmAccumulator.FramesAreSlices | crates/lan_audio_server/src/audio_capture/pcm_accumulator.rs:47-94 | over any pushes and pops the frames are the consecutive slices of the pushed samples and flags, and the buffer is what follows them |
| PcmAccumulator.BoundariesDoNotMatter | crates/lan_audio_server/src/audio_capture/pcm_accumulator.rs:47-94 | two runs that push the same samples and flags pop the same frames, however they were packed |
| PcmAccumulator.DrainedPopsAll | crates/lan_audio_server/src/audio_capture/pcm_accumulator.rs:67-71 | a drained buffer has popped every whole frame |
| PcmAccumulator.KindMatchesFlags | crates/lan_audio_server/src/audio_capture/pcm_accumulator.rs:76-85 | silence flag and packet kind say exactly which sorts of sample a frame holds |
| PcmAccumulator.FrameExactly | crates/lan_audio_server/src/audio_capture/pcm_accumulator.rs:73-94 | all a frame says: its samples, silence exactly when every flag says so, the kind for each mix of flags, and the mean square as the energy shared by the samples |
| PcmAccumulator.PopExactly | crates/lan_audio_server/src/audio_capture/pcm_accumulator.rs:67-75 | a frame is taken exactly when there are samples enough, from the front; the rest stays |
| PcmAccumulator.PushExactly | crates/lan_audio_server/src/audio_capture/pcm_accumulator.rs:47-65 | a push appends its samples under one flag; a push of silence appends zeros that count as silent |
| PcmAccumulator.PeakIsLargest | crates/lan_audio_server/src/audio_capture/pcm_accumulator.rs:115-127 | the peak of a frame is the largest magnitude of its samples |
| PcmAccumulator.ComputePeakAndMeanSquare | crates/lan_audio_server/src/audio_capture/pcm_accumulator.rs:115-127 | one loop yields peak and mean square of the samples |
| PcmAccumulator.PcmFrameAccumulator.PushSamples | crates/lan_audio_server/src/audio_capture/pcm_accumulator.rs:47-54 | appends samples and flags |
| PcmAccumulator.PcmFrameAccumulator.PushSilenceSamples | crates/lan_audio_server/src/audio_capture/pcm_accumulator.rs:56-65 | appends flagged zeros |
| PcmAccumulator.PcmFrameAccumulator.PopFrame | crates/lan_audio_server/src/audio_capture/pcm_accumulator.rs:67-94 | takes a whole frame from the front, or nothing |
| OpusFraming.SamplesAreConserved | crates/lan_audio_server/src/transport.rs:1747-1804 | over any pushes and pops, popped and then buffered samples are the pushed ones in order |
| OpusFraming.FramesAreWhole | crates/lan_audio_server/src/transport.rs:1747-1804 | over any pushes and pops every popped frame holds exactly 20 ms |
| OpusFraming.PopFailsExactly | crates/lan_audio_server/src/transport.rs:1772-1776 | a pop fails exactly for lack of samples, never for lack of a time stamp |
| OpusFraming.PushExactly | crates/lan_audio_server/src/transport.rs:1747-1770 | a push on fields: the first block's time stamp stays, silence holds while every block is silent, the largest peak and the sum of squares count |
| OpusFraming.PopExactly | crates/lan_audio_server/src/transport.rs:1772-1804 | a pop on fields: when it yields a frame and which, leftovers stamped 10 ms later up to the largest stamp, and their description reset |
| OpusFraming.TwentyMilliseconds | crates/lan_audio_server/src/transport.rs:1737-1745 | a frame holds 20 ms of stereo at each encoder rate |
| OpusFraming.AlignedBlocksPair | crates/lan_audio_server/src/transport.rs:1747-1804 | n aligned blocks, drained after each, give n/2 frames; frame k joins blocks 2k and 2k+1 with the first time stamp, both silent, the larger peak and the mean square of both |
| OpusFraming.OpusFrameBuffer.Push10Ms | crates/lan_audio_server/src/transport.rs:1747-1770 | appends the block and merges its description |
| OpusFraming.OpusFrameBuffer.Pop20Ms | crates/lan_audio_server/src/transport.rs:1772-1804 | takes one whole frame and resets the description, leftovers stamped 10 ms later |
| Loudness.RampIsLinear | apps/android_flutter/android/app/src/main/kotlin/com/example/lan_audio_android_mvp/PlaybackLoudnessNormalizer.kt:127-136 | during a ramp the distance to the target shrinks in proportion to the steps left |
| Loudness.RampLands | apps/android_flutter/android/app/src/main/kotlin/com/example/lan_audio_android_mvp/PlaybackLoudnessNormalizer.kt:127-136 | a ramp whose target does not change lands exactly on it, and stays there |
| Loudness.RampStaysBetween | apps/android_flutter/android/app/src/main/kotlin/com/example/lan_audio_android_mvp/PlaybackLoudnessNormalizer.kt:127-136 | the gain never leaves the stretch between its start and the target |
| Loudness.GuardHolds | apps/android_flutter/android/app/src/main/kotlin/com/example/lan_audio_android_mvp/PlaybackLoudnessNormalizer.kt:156-178 | after the guard target times peak is at most 28000, the target was not raised, and was lowered no further than needed |
| Loudness.RisingIsNeverClipped | apps/android_flutter/android/app/src/main/kotlin/com/example/lan_audio_android_mvp/PlaybackLoudnessNormalizer.kt:85-98 | with a guarded target a rising or finished ramp never reaches the soft clipper |
| Loudness.FallingIsQuiet | apps/android_flutter/android/app/src/main/kotlin/com/example/lan_audio_android_mvp/PlaybackLoudnessNormalizer.kt:85-98 | on a falling ramp no sample of any block reaches the clipper when the first gain keeps the peak quiet |
| Loudness.ClippedOnRampExactly | apps/android_flutter/android/app/src/main/kotlin/com/example/lan_audio_android_mvp/PlaybackLoudnessNormalizer.kt:85-136 | within a ramp each sample reaches the clipper exactly when its magnitude times its place on the line from first gain to target exceeds the threshold |
| Loudness.BlockEscapesExactly | apps/android_flutter/android/app/src/main/kotlin/com/example/lan_audio_android_mvp/PlaybackLoudnessNormalizer.kt:85-178 | for every block with a guarded target: no sample reaches the clipper exactly when none within the ramp does by its place on the line |
| Loudness.OpeningPeakClipsExactly | apps/android_flutter/android/app/src/main/kotlin/com/example/lan_audio_android_mvp/PlaybackLoudnessNormalizer.kt:85-98 | a block that opens with its peak escapes the clipper on a falling ramp exactly when the first gain keeps that peak within the threshold |
| Loudness.StageFits | apps/android_flutter/android/app/src/main/kotlin/com/example/lan_audio_android_mvp/PlaybackLoudnessNormalizer.kt:95-124 | every output sample fits 16 bits, in fact 0.92 of full scale |
| Loudness.StageRisesOnEachSide | apps/android_flutter/android/app/src/main/kotlin/com/example/lan_audio_android_mvp/PlaybackLoudnessNormalizer.kt:95-124 | the output stage keeps the order of two samples that are both clipped or both not |
| Loudness.DipExactly | apps/android_flutter/android/app/src/main/kotlin/com/example/lan_audio_android_mvp/PlaybackLoudnessNormalizer.kt:95-124 | above the threshold the output falls below the threshold level exactly up to the limit: the stage is not monotone |
| Loudness.StageIsOdd | apps/android_flutter/android/app/src/main/kotlin/com/example/lan_audio_android_mvp/PlaybackLoudnessNormalizer.kt:95-124 | both signs are treated alike |
| Loudness.NotMonotoneExactly | apps/android_flutter/android/app/src/main/kotlin/com/example/lan_audio_android_mvp/PlaybackLoudnessNormalizer.kt:95-124 | some quieter sample comes out louder exactly for samples between threshold and limit |
| Loudness.NotMonotoneExactlyBelow | apps/android_flutter/android/app/src/main/kotlin/com/example/lan_audio_android_mvp/PlaybackLoudnessNormalizer.kt:95-124 | and its mirror image for negative samples |
| Loudness.PeakIsLargest | apps/android_flutter/android/app/src/main/kotlin/com/example/lan_audio_android_mvp/PlaybackLoudnessNormalizer.kt:157-166 | the scanned peak is the largest magnitude of the block and at most 32768 |
| Loudness.TargetGainReaches | apps/android_flutter/android/app/src/main/kotlin/com/example/lan_audio_android_mvp/PlaybackLoudnessNormalizer.kt:65-83 | a block whose level is within reach gets exactly the gain that brings it to the target level |
| LoudnessRuns.RunKeeps | apps/android_flutter/android/app/src/main/kotlin/com/example/lan_audio_android_mvp/PlaybackLoudnessNormalizer.kt:18-53 | over any run both gains stay in [0.5, 1.6], and a third window of high gain in a row is capped at 1.3 |
| LoudnessRuns.AnyBlock | apps/android_flutter/android/app/src/main/kotlin/com/example/lan_audio_android_mvp/PlaybackLoudnessNormalizer.kt:37-53 | at any point of any run: gains in range, every output sample fits, none clipped unless the ramp falls |
| LoudnessRuns.AnyBlockEscapesExactly | apps/android_flutter/android/app/src/main/kotlin/com/example/lan_audio_android_mvp/PlaybackLoudnessNormalizer.kt:37-53 | at any point of any run: a block stays out of the clipper exactly when each sample within the ramp does by its place on the line |
| LoudnessRuns.FallingRampIsReached | apps/android_flutter/android/app/src/main/kotlin/com/example/lan_audio_android_mvp/PlaybackLoudnessNormalizer.kt:37-53 | a run from a new normaliser that ends on a falling ramp which clips, guard or no guard |
| LoudnessRuns.OutputCarries | apps/android_flutter/android/app/src/main/kotlin/com/example/lan_audio_android_mvp/PlaybackLoudnessNormalizer.kt:101-102 | the bytes written decode to the gained samples |
| LoudnessRuns.RampSpansBlocks | apps/android_flutter/android/app/src/main/kotlin/com/example/lan_audio_android_mvp/PlaybackLoudnessNormalizer.kt:127-136 | the ramp of the next block goes on where the last one ended |
| LoudnessRuns.RampLasts100Ms | apps/android_flutter/android/app/src/main/kotlin/com/example/lan_audio_android_mvp/PlaybackLoudnessNormalizer.kt:138-140 | without 32-bit overflow the ramp lasts 100 ms to within a sample, and one sample where that is longer |
| LoudnessLaws.TargetExactly | apps/android_flutter/android/app/src/main/kotlin/com/example/lan_audio_android_mvp/PlaybackLoudnessNormalizer.kt:65-83 | the target gain in every case: 1 when every sample is zero, 0.5 or 1.6 where the ideal gain lies outside, else exactly the gain that brings the level to the target |
| LoudnessLaws.FullScaleIsOne | apps/android_flutter/android/app/src/main/kotlin/com/example/lan_audio_android_mvp/PlaybackLoudnessNormalizer.kt:65-76 | the summed squares are those of the samples, full scale counting as one |
| LoudnessLaws.AnalysisExactly | apps/android_flutter/android/app/src/main/kotlin/com/example/lan_audio_android_mvp/PlaybackLoudnessNormalizer.kt:41-46 | a block is analysed exactly when it is the first or 500 ms have passed; the third request in a row for 1.4 or more is cut to 1.3 |
| LoudnessLaws.SwitchingExactly | apps/android_flutter/android/app/src/main/kotlin/com/example/lan_audio_android_mvp/PlaybackLoudnessNormalizer.kt:18-30 | switching off, or to low latency, resets gain, target, ramp, clock and count; otherwise only the switch changes |
| LoudnessLaws.IdlePassesThrough | apps/android_flutter/android/app/src/main/kotlin/com/example/lan_audio_android_mvp/PlaybackLoudnessNormalizer.kt:37-40 | a normaliser that is off, or in low latency mode, hands blocks through and changes nothing |
| LoudnessLaws.IdleIsUnity | apps/android_flutter/android/app/src/main/kotlin/com/example/lan_audio_android_mvp/PlaybackLoudnessNormalizer.kt:18-53 | over any run, whenever it is off or in low latency mode its gain is one |
| LoudnessLaws.StageExactly | apps/android_flutter/android/app/src/main/kotlin/com/example/lan_audio_android_mvp/PlaybackLoudnessNormalizer.kt:93-100 | only beyond 28000 is a sample clipped |
| LoudnessLaws.ClipperExactly | apps/android_flutter/android/app/src/main/kotlin/com/example/lan_audio_android_mvp/PlaybackLoudnessNormalizer.kt:108-125 | up to 0.92 of full scale the clipper takes off the cube over 4.5, with the limit as one; beyond, it gives the limit |
| LoudnessNormalizer.PlaybackLoudnessNormalizer.Process | apps/android_flutter/android/app/src/main/kotlin/com/example/lan_audio_android_mvp/PlaybackLoudnessNormalizer.kt:37-53 | analysis, guard and gain in order; an inactive normaliser returns its input |
| LoudnessNormalizer.PlaybackLoudnessNormalizer.ApplyGain | apps/android_flutter/android/app/src/main/kotlin/com/example/lan_audio_android_mvp/PlaybackLoudnessNormalizer.kt:85-106 | rewrites a copy in place, sample by sample, with the ramp's next gain each time |
| LoudnessNormalizer.PlaybackLoudnessNormalizer.ApplyPeakAheadGuard | apps/android_flutter/android/app/src/main/kotlin/com/example/lan_audio_android_mvp/PlaybackLoudnessNormalizer.kt:156-178 | scans the block and lowers the target as the guard says |
| LoudnessNormalizer.PlaybackLoudnessNormalizer.ComputeTargetGain | apps/android_flutter/android/app/src/main/kotlin/com/example/lan_audio_android_mvp/PlaybackLoudnessNormalizer.kt:65-83 | the loop over the samples yields the target gain |
| LoudnessNormalizer.PlaybackLoudnessNormalizer.NextGain | apps/android_flutter/android/app/src/main/kotlin/com/example/lan_audio_android_mvp/PlaybackLoudnessNormalizer.kt:127-136 | one step of the ramp |
| LoudnessNormalizer.PlaybackLoudnessNormalizer.ApplyHighGainHysteresis | apps/android_flutter/android/app/src/main/kotlin/com/example/lan_audio_android_mvp/PlaybackLoudnessNormalizer.kt:186-195 | counts windows of high gain and caps the target from the third on |
| LoudnessNormalizer.PlaybackLoudnessNormalizer.SetEnabled | apps/android_flutter/android/app/src/main/kotlin/com/example/lan_audio_android_mvp/PlaybackLoudnessNormalizer.kt:18-23 | switching off resets the gain state |

## Left out

- Sockets, WebSocket JSON, tokio tasks and timeouts, mDNS and beacons, adb, WASAPI, Tauri, Android services: input and output. Clocks are arguments (`now`, `dt`, `cadence`).
- libopus, rubato and Oboe: foreign code. Every Opus answer is an arbitrary total function of call number and input; resampled blocks are arguments.
- Floating-point rounding: filter, controller, predictor, gains and sample conversion are over `real`; float to integer conversion truncates towards zero.
- Square roots, logarithms and powers: the loudness analysis takes the exact root mean square as an argument that must satisfy its square, and the target level as a parameter; the statistics of frames and blocks stay mean squares; `gainDb` is absent.
- C++ memory orders, `PcmRingBuffer::reset` during use and null data pointers: the ring runs in sequentially consistent steps, and the sequential object starts empty.
- The biquad equaliser, audio sink life cycle and their statistics.
- Equal session ids, and a session gauge beyond its 64 bits: ids are fresh, the gauge is unbounded.
- Overflow of 32-bit statistics counters in the jitter buffer, of the high-gain window counter, and of the jitter clock: unbounded.
- `TreeMap` outside the window of 2^31 live numbers, where the comparator is not an order (`SerialNumbers.ComparatorCycles`): pushes are assumed to lie in the window, as the lemmas about runs state.
- SessionRegistry.ClientRegistry.RegisterClient: control messages to other clients, metrics names and the multi-client licence check, which always allows, are not modelled.
- The encode thread's channels: a run is the sequence of jobs it receives. Its log lines, the echo of frame metadata and the failing result channel that ends it are absent.
- Resetting the PID controller, `client_count` and other plain getters.
- `ConnectionStateMachine`, `PlaybackStateMachine`, mode tables, `DataPlaneRouter`, the release gate, `PlaybackPacingEngine` and `PlaybackJitterCoordinator`: finite tables or small branch tables, easy members only.
