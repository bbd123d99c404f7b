# Verified model of the Mini AEC audio engine

A Dafny 4.11 model of the real-time core of the Mini AEC engine: how captured packets become 480-sample
frames, how the bounded queues between the threads lose and keep frames, how microphone frames are paired
with render frames, what the processing loop may do when its canceller, its clocks or its sink misbehave,
and what holds under every interleaving of the threads. Two smaller parts are modelled beside it: the
converter and session state of the Windows output, and the clock-evidence and alignment arithmetic of the
offline laboratory. `dafny verify dfyconfig.toml` checks everything.

## How it is organised

| file | component |
|---|---|
| `EngineTypes.dfy` | the states and errors the engine shows |
| `AudioTypes.dfy` | packets, samples, saturating arithmetic, cutting a stream into 480-sample chunks |
| `Framing.dfy` | `FrameAccumulator` and `pcm16` |
| `TimedFraming.dfy` | `TimedFrameAccumulator` and its tick arithmetic |
| `LatestWins.dfy` | both bounded queues, one generic model (capacity 4 and capacity 8) |
| `Pairing.dfy` | `select_render_frame` and the optimality of greedy pairing |
| `AecLoop.dfy` | the loop of `aec_processing_worker`, imperatively and as a function |
| `AecTheorems.dfy` | what every run of that loop keeps |
| `AecHistory.dfy` | what the loop shows, rebuilds, feeds and writes, told from its inputs and records alone |
| `LockStep.dfy` | its run on two gap-free streams |
| `Bypass.dfy` | bypass mode as interleaved steps of capture, sink and controller |
| `AecProtocol.dfy` | AEC mode as interleaved steps of two inputs, processing and controller |
| `ProcessingTime.dfy` | the processing-time histogram |
| `OutputConverter.dfy`, `VbCableOutput.dfy` | output format conversion; sequence and session state of the output |
| `ClockEvidence.dfy`, `Alignment.dfy` | clean segments, clock windows, growing queues; track alignment |

Code that updates state in place is a class whose methods are proved equal to a function on values
(`Apply`, `Feed`, `Iterate`, `EncodedFrames`, ...). The theorems are about runs of these functions, so
through the methods' postconditions they are about the imperative code. Each of these functions is also pinned by
statements that do not use it: what it computes is told from the packets, the calls, the events or the records of
a run, with the constants of the code written out.

What the surroundings decide is an argument that every theorem quantifies over: what each pop of a queue
finds, whether a canceller can be created, what it returns, whether a frame took too long, whether the sink
accepts. The two interleaving models are step relations at lock and atomic granularity: the
compare-and-swap of the failure latch, raising `stop_requested`, failing each queue and publishing the
error are separate steps, and so are a push and the counter update that follows it. Ghost histories say
which frames were emitted, accepted, popped and written, and which error won the latch.

Samples are `Finite(real) | NonFinite`, scaling is over reals, and `round` is half away from zero.
Timestamps and positions saturate at the 64-bit limit as in the code.

## Results that differ from what one might expect

* **`Failed` is not absorbing in AEC mode.** `FailedIsNotAbsorbing` builds a run in which the render worker
  has latched and published its error while the processing worker is between two state writes; the engine
  then shows `Degraded` beside that error. `AecProtocol.FailedStaysExactly` gives the exact condition: from a
  reachable state that shows `Failed`, every continuation without the state writes of a stop goes on showing
  it if and only if the processing worker is not selecting or cancelling at that moment. Once lost, it is
  never shown again in the run (`LostFailedStaysLost`). The latch itself (`last_error`, the failed and empty
  queues) is never undone. In bypass mode a continuation goes on showing `Failed` if and only if no stop
  writes the state (`Bypass.FailedStaysExactly`).
* **`i16::MIN` does not survive 24- and 32-bit output.** Normalisation divides by 32767 and clamps at -1, so
  it comes back as -32767. `EncodeRoundTrip` says that this is the only exception.
* **The skew limit of 1,000,000 ticks decides nothing.** Above and below it the code returns the same
  triple; `AecProcessor.ExamineCandidate` keeps both branches and is proved against a function without them.
* **A microphone frame may be counted and not written.** At an exit `paired + silent` exceeds `accepted` by
  one exactly when the selection was recorded and its frame never reached the sink (`Conservation`).
* **A close that fails leaves the session marked open.** The stream is gone but the state and the next
  sequence number stay (`ClosedDown`); `SessionsAreExact` is stated so that it holds then too.

## Model

| member | source | states |
|---|---|---|
| AudioTypes.ChunksResume | crates/mini-aec-engine/src/framing.rs:38-47 | cutting a stream into 480-sample frames can be resumed from the partial frame alone: nothing else of the past matters |
| Framing.Pcm16IsNearest | crates/mini-aec-engine/src/framing.rs:57-69 | determines value and flag of every sample: flagged exactly when non-finite or beyond full scale; 0, the limit, or the nearest value on the scale of its sign, halves away from zero |
| Framing.Pcm16RoundTrip | crates/mini-aec-engine/src/framing.rs:57-69 | every i16 value survives the trip through the float it denotes, unflagged, under both asymmetric scales |
| Framing.Pcm16Monotone | crates/mini-aec-engine/src/framing.rs:57-69 | conversion keeps order over all reals, clipping included |
| Framing.FramesAreSegmentChunks | crates/mini-aec-engine/src/framing.rs:25-50 | for any packets the frames are exactly the full 480-chunks of the stretches between flagged packets, and the partial frame is the rest of the last stretch: no frame straddles a flag |
| Framing.FramingConservation | crates/mini-aec-engine/src/framing.rs:25-50 | samples received = 480 * frames + pending + dropped, and each of the flagged packets drops fewer than 480 |
| Framing.SplitPacket | crates/mini-aec-engine/src/framing.rs:25-50 | cutting any packet of any run in two changes neither the frames nor the partial frame |
| Framing.FramesStem | crates/mini-aec-engine/src/framing.rs:25-69 | sample j of frame k is the PCM16 value of what is heard at one place of one packet, a place that follows from the lengths and flags alone |
| Framing.SanitizedExactly | crates/mini-aec-engine/src/framing.rs:30-37 | the sanitised count of a packet is the number of its samples that are non-finite or beyond full scale; a silent packet has none |
| Framing.FrameAccumulator.Clear | crates/mini-aec-engine/src/framing.rs:20-23 | nothing of the partial frame is left |
| Framing.FrameAccumulator.PushSample | crates/mini-aec-engine/src/framing.rs:38-47 | the sample joins the partial frame, or completes it and the buffer starts empty |
| Framing.FrameAccumulator.PushPacket | crates/mini-aec-engine/src/framing.rs:25-50 | the per-sample loop emits the chunks of partial frame + packet, in order, keeps the rest, and counts the sanitised samples |
| TimedFraming.SampleOffsetThirds | crates/mini-aec-engine/src/synchronization.rs:98-104 | closed form of the rounded offset: 625 ticks per three samples, then 0, 208 or 417 |
| TimedFraming.OffsetsCancel | crates/mini-aec-engine/src/synchronization.rs:98-104 | rounding errors of two adjoining spans cancel whenever together they are a multiple of three samples |
| TimedFraming.ExactTimeline | crates/mini-aec-engine/src/synchronization.rs:53-104 | for every partition into packets stamped base + offset(s), frame k is stamped exactly base + 100,000 k and positioned exactly at start + 480 k (saturating) |
| TimedFraming.TimedRefinesBypass | crates/mini-aec-engine/src/synchronization.rs:53-95 | `pcm16` of the timed frames and of the partial frame gives exactly the bypass accumulator's, for any packets |
| TimedFraming.SameSanitizedCount | crates/mini-aec-engine/src/synchronization.rs:63-73 | both accumulators count the same samples as sanitised |
| TimedFraming.ResetExactlyAfterFlag | crates/mini-aec-engine/src/synchronization.rs:53-95 | a frame carries `reset_epoch` exactly when a flagged packet arrived since the packet that completed the previous frame |
| TimedFraming.FramesStem | crates/mini-aec-engine/src/synchronization.rs:53-95 | for any packets, every sample of every frame and of the partial frame is what is heard at one place of one packet: itself inside [-1, 1], 1 above, -1 below, 0 when non-finite; each frame carries the stamps of its first sample |
| TimedFraming.TimedFrameAccumulator.Clear | crates/mini-aec-engine/src/synchronization.rs:47-51 | back to the fresh state |
| TimedFraming.TimedFrameAccumulator.PushSample | crates/mini-aec-engine/src/synchronization.rs:70-93 | the first sample of a frame fixes its stamps; a full frame leaves with them and with the reset mark |
| TimedFraming.TimedFrameAccumulator.PushPacket | crates/mini-aec-engine/src/synchronization.rs:53-95 | the per-sample loop equals the chunk-wise description that the timeline theorems are about, and counts the sanitised samples |
| LatestWins.QueueRefinesHistory | crates/mini-aec-engine/src/queue.rs:56-120 | for any operations and any capacity: content = the newest `depth` accepted pushes, pops strictly increase, accepted = popped + discarded + depth + cleared, overflows = discarded, depth <= high water <= capacity |
| LatestWins.PopIsFresh | crates/mini-aec-engine/src/queue.rs:75-95 | a popped frame is one of the last `capacity` accepted ones and newer than every frame popped before |
| LatestWins.NoLossNoGap | crates/mini-aec-engine/src/synchronization.rs:153-218 | without overflow and clearing the pops are the pushes, in order and without a gap |
| LatestWins.FailedStaysEmpty | crates/mini-aec-engine/src/queue.rs:56-60 | after `fail` no later operation lets a frame in or out |
| LatestWins.DrainIsBounded | crates/mini-aec-engine/src/queue.rs:75-100 | a consumer that is alone with a finished queue makes exactly depth + 1 pops and gets everything still queued |
| LatestWins.AcceptedExactly | crates/mini-aec-engine/src/queue.rs:56-60 | the frames accepted are those pushed before the first failure or end of the producer; both flags tell whether such a call was made |
| LatestWins.PopAnswers | crates/mini-aec-engine/src/queue.rs:75-95 | what a pop and a look answer, decided by the history: the oldest frame left, or finished after a failure or end, or a timeout |
| LatestWins.PushLosesOnlyWhenFull | crates/mini-aec-engine/src/queue.rs:56-73 | an accepted push loses a frame only when the queue is full, and then exactly the oldest |
| LatestWins.HighWaterIsReached | crates/mini-aec-engine/src/queue.rs:56-73 | the high-water mark is the largest depth at any moment of the history |
| LatestWins.FrameQueue.Push | crates/mini-aec-engine/src/queue.rs:56-73 | refused when failed or done; otherwise the oldest frame makes room; the history, which explains the queue before and after, gains the frame |
| LatestWins.FrameQueue.Pop | crates/mini-aec-engine/src/queue.rs:75-95 | failed wins over content, content over done, done over timeout; the history gains the index popped |
| LatestWins.FrameQueue.TryPop | crates/mini-aec-engine/src/synchronization.rs:193-198 | takes the oldest frame if there is one, without looking at the flags; the history gains the index popped |
| LatestWins.FrameQueue.FinishProducer | crates/mini-aec-engine/src/queue.rs:97-100 | marks the producer done and keeps the content |
| LatestWins.FrameQueue.Fail | crates/mini-aec-engine/src/queue.rs:102-109 | failed and empty, what was queued counted as cleared in the history |
| LatestWins.FrameQueue.Clear | crates/mini-aec-engine/src/queue.rs:111-116 | empty, flags and counters kept, metrics returned, what was queued counted as cleared in the history |
| Pairing.SelectConserves | crates/mini-aec-engine/src/runtime.rs:1348-1407 | whatever the queue and the factory answer, the frames held and to come = stale ++ paired ++ the frames held and to come afterwards |
| Pairing.SelectIsSound | crates/mini-aec-engine/src/runtime.rs:1373-1406 | every dropped frame is more than 50,000 ticks older than this microphone frame, so no later one can match it either; a pair is within 50,000; a miss holds a head more than 50,000 ahead; the delta is the exact tick difference of the pair or head, and none means no frame |
| Pairing.SelectRebuilds | crates/mini-aec-engine/src/runtime.rs:1373-1434 | the rebuilds of a selection are the marked frames it looked at, dropped, paired or held, one factory answer each; it fails exactly when one of these answers is a failure |
| Pairing.AssignIsMatching | crates/mini-aec-engine/src/runtime.rs:1373-1406 | the greedy assignment is a one-to-one, order-preserving matching within tolerance |
| Pairing.GreedyIsMaximum | crates/mini-aec-engine/src/runtime.rs:1373-1406 | for nondecreasing stamps no one-to-one matching within tolerance, in any order, has more pairs |
| Pairing.SelectAllIsGreedy | crates/mini-aec-engine/src/runtime.rs:1348-1407 | with render frames available when asked for, iterating the selection computes the greedy assignment, frame by frame |
| Pairing.PairingIsMaximum | crates/mini-aec-engine/src/runtime.rs:1348-1407 | hence iterating `select_render_frame` pairs as many frames as any one-to-one matching within tolerance |
| AecLoop.AecProcessor.constructor | crates/mini-aec-engine/src/runtime.rs:1155-1162 | the counters and the held render frame with which the loop is entered |
| AecLoop.AecProcessor.RebuildEcho | crates/mini-aec-engine/src/runtime.rs:1409-1434 | counts only a successful reconstruction, and an epoch only for a discontinuity |
| AecLoop.AecProcessor.ExamineCandidate | crates/mini-aec-engine/src/runtime.rs:1373-1404 | one pass of the stale loop: dropped and replaced, paired and replaced, or kept as a miss, with its rebuild counted |
| AecLoop.AecProcessor.ScanRenderFrames | crates/mini-aec-engine/src/runtime.rs:1373-1406 | the loop ends and computes the scan, with every stale frame and rebuild counted |
| AecLoop.AecProcessor.SelectRenderFrame | crates/mini-aec-engine/src/runtime.rs:1348-1407 | with the wait-or-try pop before it, the selection whose soundness, conservation and optimality are proved |
| AecLoop.AecProcessor.RecordSelection | crates/mini-aec-engine/src/runtime.rs:1200-1236 | totals, delta and largest skew; the miss and health streaks; the state written, `RunningAec` from the tenth healthy frame on |
| AecLoop.AecProcessor.RunEcho | crates/mini-aec-engine/src/runtime.rs:1249-1296 | the canceller gets the reference, then the microphone frame; an error or a non-finite output silences the frame, counts and rebuilds, or exhausts the canceller |
| AecLoop.AecProcessor.WriteFrame | crates/mini-aec-engine/src/runtime.rs:1298-1333 | deadline, write, numbering and the periodic diagnostics |
| AecLoop.AecProcessor.ProcessFrame | crates/mini-aec-engine/src/runtime.rs:1163-1334 | one loop pass equals one step of the model, with every early exit |
| AecLoop.AecProcessor.ProcessAll | crates/mini-aec-engine/src/runtime.rs:1163-1334 | the loop equals the run that the theorems below are about |
| AecTheorems.RunningGate | crates/mini-aec-engine/src/runtime.rs:1218-1236 | an iteration writes `RunningAec` exactly when its frame was paired and the nine before it were paired and processed without failure; the state itself is `AecHistory.RunningExactly` |
| AecTheorems.SkewFailureExactly | crates/mini-aec-engine/src/runtime.rs:1226-1247 | the run ends in the synchronisation failure exactly when its last 50 selections all were misses |
| AecTheorems.MissesLookAhead | crates/mini-aec-engine/src/runtime.rs:1396-1406 | a miss is exactly a selection that is left holding a render head more than 50,000 ticks ahead and pairs nothing |
| AecTheorems.SilenceNeverFails | crates/mini-aec-engine/src/runtime.rs:1226-1247 | from any loop head of any run at which no render frame is held or to come, no list of further inputs ends in the synchronisation failure |
| AecTheorems.HeadIsMissedAtMost50 | crates/mini-aec-engine/src/runtime.rs:1226-1247 | two misses of the same render head are less than 50 iterations apart and everything between them is a miss of it: a held future frame is missed at most 50 times |
| AecTheorems.ExhaustionExactly | crates/mini-aec-engine/src/runtime.rs:1251-1277 | the run gives the canceller up exactly when its last three frames all failed |
| AecTheorems.CountersAreStreaks | crates/mini-aec-engine/src/runtime.rs:1218-1297 | at every loop head the three counters are the lengths of the current streaks of healthy, missed and failed frames |
| AecTheorems.SinkFramesAreSafe | crates/mini-aec-engine/src/runtime.rs:1251-1327 | frame n is written under number n; all zero after a canceller error or non-finite output, otherwise the encoding of an all-finite output; only the last pass can fail to write |
| AecTheorems.AtMostTwoSilenced | crates/mini-aec-engine/src/runtime.rs:1251-1277 | a third failed frame in a row is the last of the run and is not written |
| AecTheorems.Conservation | crates/mini-aec-engine/src/runtime.rs:1163-1334 | at every loop head sequence = accepted = paired + silent = processed + rebuilds - alignment resets, resets = rebuilds, epoch = 1 + alignment resets; at an exit off by at most the frame in flight |
| AecTheorems.TotalsCountHistory | crates/mini-aec-engine/src/runtime.rs:1200-1217 | the snapshot totals count the pairs, silences, drops and writes that happened |
| AecTheorems.OutcomesAreCounted | crates/mini-aec-engine/src/runtime.rs:1251-1327 | at every loop head, and at an exit through the sink, the invalid outputs, processed frames, missed deadlines and sink failures are exactly those of the inputs consumed |
| AecTheorems.SkewIsLargest | crates/mini-aec-engine/src/runtime.rs:1200-1211 | the reported maximum skew is exactly the largest timestamp distance any selection of the run saw |
| AecTheorems.RenderConservation | crates/mini-aec-engine/src/runtime.rs:1118-1157 | over a whole run the render frames popped are, in FIFO order, the stale and the paired ones and the one held: none lost, reordered or replayed |
| AecTheorems.PoppedIsAccountedFor | crates/mini-aec-engine/src/runtime.rs:1118-1157 | over a whole run, start-up pop included: popped = paired + stale + held, in the snapshot's own totals |
| AecHistory.RunningExactly | crates/mini-aec-engine/src/runtime.rs:1218-1236 | at every loop head the engine shows `RunningAec` if and only if the last ten frames were paired and processed without failure and the last one met its deadline |
| AecHistory.ShownIsLastCause | crates/mini-aec-engine/src/runtime.rs:1163-1334 | at every loop head state and degradation are those of the last cause in the history: missed deadline, canceller failure, silent reference, recovery or rebuild |
| AecHistory.RebuildsAreCounted | crates/mini-aec-engine/src/runtime.rs:1409-1434 | at every loop head alignment resets = marked microphone frames consumed + marked render frames looked at; rebuilds = those + canceller failures survived; epoch = 1 + alignment resets |
| AecHistory.RebuildFailsExactly | crates/mini-aec-engine/src/runtime.rs:1409-1434 | each rebuild takes one answer of the canceller factory in order, and the run ends for lack of a canceller if and only if the last answer taken was a failure |
| AecHistory.FramesAreDelivered | crates/mini-aec-engine/src/runtime.rs:1249-1333 | for each frame of a run: the canceller gets the paired render frame or zeros with the microphone frame; the frame is written unless the run ends before; a refusal of the sink, or of diagnostics after every hundredth frame, ends it exactly then |
| AecHistory.DeltaIsLast | crates/mini-aec-engine/src/runtime.rs:1200-1211 | the delta shown is that of the last selection |
| AecHistory.WaitsNeedFrames | crates/mini-aec-engine/src/runtime.rs:1354-1372 | missing render holds the microphone up at most once: the loop does not wait for render again before a render frame has arrived |
| LockStep.LockStepTheorem | crates/mini-aec-engine/src/runtime.rs:1218-1247 | two gap-free streams: exactly ceil((D - 50,000) / 100,000) silent references or stale drops, then every frame paired at one delta with no drop; skew failure exactly when D > 4,950,000 and 50 frames come, and then at the fiftieth |
| Bypass.ReachableInv | crates/mini-aec-engine/src/runtime.rs:656-870 | every interleaving of capture, sink and controller keeps the queue history, the frame flow, the sink order, the latch and the totals |
| Bypass.SinkSequence | crates/mini-aec-engine/src/runtime.rs:696-735 | the sink accepts frames 0, 1, 2, ..., which are an in-order subsequence of the 480-chunks of the sanitised stream |
| Bypass.StoppedRunIsConserved | crates/mini-aec-engine/src/runtime.rs:812-870 | a run that is `Stopped` without failure has output frames = accepted + discarded, all of them frames of the captured stream |
| Bypass.AtMostOneFrameAfterFailure | crates/mini-aec-engine/src/runtime.rs:37-51 | at most one frame reaches the sink after the queue was failed |
| Bypass.FirstErrorIsReported | crates/mini-aec-engine/src/runtime.rs:37-51 | at most one thread runs the failure body; `last_error` is the error that won the latch, and is there once all threads are through |
| Bypass.FailureIsLatched | crates/mini-aec-engine/src/runtime.rs:37-51 | over any continuation the latched error and the report stay, and a failed queue stays failed, empty and unread |
| Bypass.SinkLoopIsBounded | crates/mini-aec-engine/src/runtime.rs:696-735 | from any reachable state whose producer is done, any continuation makes at most depth + 1, so at most five, pops of the sink loop; exactly as many as bring it to its end unless a failure cuts them short |
| Bypass.FailedStaysExactly | crates/mini-aec-engine/src/runtime.rs:507-531 | from any reachable `Failed` state, a continuation still shows `Failed` if and only if no stop wrote the state |
| Bypass.FailsExactlyOnFault | crates/mini-aec-engine/src/runtime.rs:656-735 | a run that is over reports an error if and only if one of its threads came upon a fault, and reports one of these faults |
| Bypass.ShownIsExact | crates/mini-aec-engine/src/runtime.rs:217-336 | in every reachable state what is shown follows from how far the controller is and whether a failure was published |
| Bypass.SinkFailuresAreCounted | crates/mini-aec-engine/src/runtime.rs:696-756 | in every reachable state the sink failures shown are those that happened, less one being counted; no packet beyond 16,384 frames was used |
| Bypass.DiagnosesEveryHundred | crates/mini-aec-engine/src/runtime.rs:696-735 | the sink loop fetches diagnostics after every hundredth accepted frame and at no other time |
| Bypass.ResourcesAreReleased | crates/mini-aec-engine/src/runtime.rs:656-850 | whatever fails and whoever stops, the source is stopped exactly once if it was opened and the session closed exactly once, each when its worker is through with it |
| Bypass.MetricsAreShown | crates/mini-aec-engine/src/runtime.rs:812-870 | in every reachable state high water, overflows and discarded frames shown are the queue's, but for the push being counted; when the run is over no frame is shown queued |
| AecProtocol.ReachableInv | crates/mini-aec-engine/src/runtime.rs:906-978 | every interleaving of two inputs, processing and controller keeps both queue histories, the frame flow of both sides, the order of the frames written, the write bound and the latch |
| AecProtocol.MicrophoneSequence | crates/mini-aec-engine/src/runtime.rs:1163-1334 | frame k reaches the sink under number k and stems from the k-th microphone frame popped; those are an in-order subsequence of the microphone's timed frames, and at most the last one popped is not written |
| AecProtocol.FirstErrorIsReported | crates/mini-aec-engine/src/runtime.rs:53-74 | at most one thread runs the failure body; a reported error is the one that won, and then stop is raised and both queues are failed and empty |
| AecProtocol.AtMostOneFrameAfterStop | crates/mini-aec-engine/src/runtime.rs:1163-1334 | at most one frame reaches the sink after `stop_requested`, by whomever it was raised |
| AecProtocol.FailureIsLatched | crates/mini-aec-engine/src/runtime.rs:53-74 | over any continuation the first error stays and failed queues stay failed and empty |
| AecProtocol.FailedStaysExactly | crates/mini-aec-engine/src/runtime.rs:1218-1236 | from a reachable `Failed` state every continuation without a stop's writes keeps `Failed`, if and only if the processing worker is not between two of its own state writes |
| AecProtocol.LostFailedStaysLost | crates/mini-aec-engine/src/runtime.rs:53-74 | once an error is reported and `Failed` is not shown, no continuation shows it again, and the error stays reported |
| AecProtocol.FailedIsNotAbsorbing | crates/mini-aec-engine/src/runtime.rs:1218-1236 | a concrete reachable state that shows `Degraded` beside a reported error |
| AecProtocol.FailsExactlyOnFault | crates/mini-aec-engine/src/runtime.rs:906-978 | a run that is over reports an error if and only if one of its threads came upon a fault, and reports one of these faults |
| AecProtocol.ShownIsExact | crates/mini-aec-engine/src/runtime.rs:342-496 | until a failure is published or a stop writes, the engine shows the last state write of the processing worker, or else what start has come to |
| AecProtocol.PacketsFit | crates/mini-aec-engine/src/runtime.rs:906-978 | no packet beyond the capture buffer was ever framed on either side |
| AecProtocol.InputsAreReleased | crates/mini-aec-engine/src/runtime.rs:906-978 | whatever fails and whoever stops, each input is stopped exactly once if it was opened, when its worker is through with it |
| ProcessingTime.SortedHasRank | crates/mini-aec-engine/src/runtime.rs:1478-1491 | nearest rank defined by counting is the element of that rank of any sorted arrangement |
| ProcessingTime.PercentileIsClose | crates/mini-aec-engine/src/runtime.rs:1478-1491 | a percentile is never below the true nearest-rank percentile of all recorded durations and lies in the same bucket |
| ProcessingTime.PercentileIsExact | crates/mini-aec-engine/src/runtime.rs:1457-1491 | the percentile is exactly the published limit above the duration of nearest rank, in any sorted arrangement of all recorded ones, capped by the largest |
| ProcessingTime.PercentilesAreOrdered | crates/mini-aec-engine/src/runtime.rs:1468-1476 | p50 <= p95 <= p99 <= max(maximum, 1) |
| ProcessingTime.CumulativeIsAtMost | crates/mini-aec-engine/src/runtime.rs:1483-1489 | the running bucket sum counts exactly the recorded durations up to the bucket's limit |
| ProcessingTime.ProcessingHistogram.Record | crates/mini-aec-engine/src/runtime.rs:1457-1466 | buckets, count and maximum stay exactly those of the history, one duration longer |
| ProcessingTime.ProcessingHistogram.GetPercentile | crates/mini-aec-engine/src/runtime.rs:1478-1491 | the loop over the buckets computes the percentile of the history that the lemmas bound |
| OutputConverter.ResampleIsBounded | crates/mini-aec-windows-output/src/lib.rs:544-561 | every resampled value lies between its two source neighbours |
| OutputConverter.ResampleIsMonotone | crates/mini-aec-windows-output/src/lib.rs:544-561 | nondecreasing input gives nondecreasing output, at every rate |
| OutputConverter.ResampleIsExact | crates/mini-aec-windows-output/src/lib.rs:544-561 | with 480 m output frames every m-th value is the input sample |
| OutputConverter.ResampleIsLinear | crates/mini-aec-windows-output/src/lib.rs:547-558 | every output frame lies on the straight line between the two input samples around it: value and slope are determined at every rate |
| OutputConverter.SignedRoundTrip | crates/mini-aec-windows-output/src/lib.rs:580-606 | little-endian two's complement bytes decode to the integer encoded, at any width |
| OutputConverter.EncodeRoundTrip | crates/mini-aec-windows-output/src/lib.rs:580-606 | decoding returns the PCM16 sample if and only if the width is 16 or the sample is not i16::MIN |
| OutputConverter.EncodeIsNearest | crates/mini-aec-windows-output/src/lib.rs:580-606 | the bytes of any sample, interpolated or not, decode to the nearest integer of its clipped level in 16, 24 and 32 bits, and to the pattern of that level as a float |
| OutputConverter.SampleAt | crates/mini-aec-windows-output/src/lib.rs:544-569 | the bytes at the offset of any output frame and channel are the encoding of that frame's sample |
| OutputConverter.FrameLayout | crates/mini-aec-windows-output/src/lib.rs:544-569 | offset and length spelled out: sample (frame, channel) is at (frame * channels + channel) * width, and the buffer ends with the last one |
| OutputConverter.ConversionPreservesSamples | crates/mini-aec-windows-output/src/lib.rs:544-606 | end to end, at m times 48 kHz in any integer format: every m-th frame decodes to the input sample on every channel, with the one exception above |
| OutputConverter.FrameConverter.constructor | crates/mini-aec-windows-output/src/lib.rs:497-542 | buffer size and the conversion flag, false exactly for 48 kHz mono 16-bit integers |
| OutputConverter.FrameConverter.EncodeSample | crates/mini-aec-windows-output/src/lib.rs:580-606 | writes the encoding at the offset and leaves what is before and after it |
| OutputConverter.FrameConverter.ResampleFrame | crates/mini-aec-windows-output/src/lib.rs:547-558 | the interpolated sample of one output frame |
| OutputConverter.FrameConverter.WriteChannels | crates/mini-aec-windows-output/src/lib.rs:559-566 | one sample on every channel, directly after the frames already written, which stay, as do the bytes after it |
| OutputConverter.FrameConverter.Convert | crates/mini-aec-windows-output/src/lib.rs:544-569 | the whole buffer is the encoding of this input and of nothing else |
| OutputConverter.FrameConverter.Clear | crates/mini-aec-windows-output/src/lib.rs:571-573 | every byte is zero |
| VbCableOutput.SessionsAreExact | crates/mini-aec-windows-output/src/lib.rs:213-298 | over any calls with any failures: accepted numbers are 0, 1, 2, ...; accepted, converted, rendered, underrun and high-water counters and the last sequence are exactly those of the frames accepted since the last open |
| VbCableOutput.CountingCallerIsInSequence | crates/mini-aec-windows-output/src/lib.rs:238-281 | a caller that numbers by accepted frames never gets a sequence violation in an open session |
| VbCableOutput.OtherNumbersAreRefused | crates/mini-aec-windows-output/src/lib.rs:238-245 | any other number is refused, and the refusal count is all of the output that changes |
| VbCableOutput.CallsAreAnswered | crates/mini-aec-windows-output/src/lib.rs:213-298 | over any calls with any failures, each one is answered as the calls before it decide: whether the stream is open and which number is due, told from the calls alone |
| VbCableOutput.DiagnosticsAreExact | crates/mini-aec-windows-output/src/lib.rs:213-298 | state, session, failures, invalidations and closes are exactly those of the calls since the last open |
| VbCableOutput.WindowsVbCableOutput.BeginSession | crates/mini-aec-windows-output/src/lib.rs:214-236 | refused when open; a failed open changes nothing; a successful one starts from fresh diagnostics |
| VbCableOutput.WindowsVbCableOutput.Write | crates/mini-aec-windows-output/src/lib.rs:238-281 | sequence before session before device, each with its counters |
| VbCableOutput.WindowsVbCableOutput.EndSession | crates/mini-aec-windows-output/src/lib.rs:286-298 | idempotent, and a failed stop keeps everything but the stream |
| ClockEvidence.SegmentsAreMaximalRuns | crates/mini-aec-lab/src/stability.rs:477-575 | the segments are exactly the maximal clean runs of two or more observations: both directions |
| ClockEvidence.SegmentsAreSlices | crates/mini-aec-lab/src/stability.rs:477-522 | each segment holds the observations of its run, complete, and the runs come in order without overlap |
| ClockEvidence.SegmentsHoldEvents | crates/mini-aec-lab/src/stability.rs:477-542 | each observation of a segment carries the very fields of its event |
| ClockEvidence.CutExactly | crates/mini-aec-lab/src/stability.rs:544-575 | neighbours are cut if and only if one is incomplete, the gap exceeds 2,000 ms, the canceller, the epoch or any of the four counters differs, or a position or clock fails to rise |
| ClockEvidence.ExclusionExactly | crates/mini-aec-lab/src/stability.rs:477-514 | the exclusion at an event, told from the events: incomplete, or the first of these separations in the order of the code, or none |
| ClockEvidence.ScoredIsFilter | crates/mini-aec-lab/src/stability.rs:477-514 | the events scored are the periodic and the final ones, in order |
| ClockEvidence.SegmentsAreMonotone | crates/mini-aec-lab/src/stability.rs:544-575 | inside a segment both positions and both clocks strictly increase, within one epoch of one canceller, and all four discontinuity and error counters are constant |
| ClockEvidence.UsableIsCleanTime | crates/mini-aec-lab/src/stability.rs:593-608 | the usable duration is exactly the time between neighbours that belong together, and at most the observed duration, when elapsed time is monotone |
| ClockEvidence.WindowsAreTight | crates/mini-aec-lab/src/stability.rs:684-711 | every candidate window lasts 300,000 to under 302,000 ms and consecutive ones share one observation |
| ClockEvidence.WindowsAreAll | crates/mini-aec-lab/src/stability.rs:684-711 | each window is the shortest of 300,000 ms from its start, the next starts where it ends, and after the last no other fits |
| ClockEvidence.ReportsAreExact | crates/mini-aec-lab/src/stability.rs:684-711 | reported are exactly the windows of 250 or more observations whose analysis succeeds, in order |
| ClockEvidence.SegmentsHaveNoGap | crates/mini-aec-lab/src/stability.rs:544-551 | every segment meets what the window bound asks for |
| ClockEvidence.WindowsWithinSegment | crates/mini-aec-lab/src/stability.rs:684-711 | the windows of a segment together last no longer than it |
| ClockEvidence.ClockBudget | crates/mini-aec-lab/src/stability.rs:593-711 | window time <= usable time <= observed time, for any events in elapsed order |
| ClockEvidence.ExcludedAreBoundaries | crates/mini-aec-lab/src/stability.rs:477-514 | the excluded entries are exactly the missing observations and the boundaries between two observations, with their reasons, in order and one each; and every cut is one of them or follows a missing observation |
| ClockEvidence.CleanSegments | crates/mini-aec-lab/src/stability.rs:477-514 | the loop computes the segmentation and the list of exclusions |
| ClockEvidence.FinishSegment | crates/mini-aec-lab/src/stability.rs:516-522 | a single observation is no segment |
| ClockEvidence.SegmentWindows | crates/mini-aec-lab/src/stability.rs:684-711 | the window loop terminates and reports exactly the tight windows, so its minimum-duration test rejects none |
| ClockEvidence.ClockWindows | crates/mini-aec-lab/src/stability.rs:673-714 | the reports of all segments in order, or none when a nominal rate is unknown |
| ClockEvidence.HasGrowingQueue | crates/mini-aec-lab/src/stability.rs:1273-1298 | true if and only if four consecutive periodic depths strictly increase |
| ClockEvidence.DepthsAreFilter | crates/mini-aec-lab/src/stability.rs:1273-1298 | the depths examined are those of the periodic events, in order, of the queue asked for |
| Alignment.SamplesRoundTrip | crates/mini-aec-lab/src/offline.rs:310-315 | samples to ticks (as the engine stamps) and back is the identity for every count |
| Alignment.TicksRoundTrip | crates/mini-aec-lab/src/offline.rs:310-315 | ticks to samples and back is within 104 ticks |
| Alignment.SignedDeltaMsIsExact | crates/mini-aec-lab/src/offline.rs:317-333 | splitting into seconds and rest loses nothing, with the right sign |
| Alignment.PlanIsTight | crates/mini-aec-lab/src/offline.rs:281-308 | one offset is 0; the common length is a multiple of 480, fits both tracks and adds less than a frame |
| Alignment.PlanIsNearest | crates/mini-aec-lab/src/offline.rs:281-315 | for any two stamps the offsets differ by the tick difference to the nearest sample, the earlier track at 0 |
| Alignment.PlacedElsewhere | crates/mini-aec-lab/src/offline.rs:295-300 | outside the track there is silence |
| Alignment.SpanRoundTrip | crates/mini-aec-lab/src/offline.rs:310-315 | the ticks between any two samples of a timeline, each rounded by the engine, give back their distance in samples |
| Alignment.AlignmentIsExact | crates/mini-aec-lab/src/offline.rs:281-315 | tracks cut from one timeline anywhere, whichever starts first, align sample by sample |
| Alignment.CopyTrack | crates/mini-aec-lab/src/offline.rs:295-300 | the track intact at its offset, zeros elsewhere |
| Alignment.AlignTracks | crates/mini-aec-lab/src/offline.rs:281-308 | both tracks placed by the plan, with their offsets and start difference |

## Left out

- Framing.Pcm16: exact rounding over reals stands for `f32` multiplication and `round`; NaN and the infinities are one value.
- OutputConverter.FrameConverter.EncodeSample: `f64` rounding is exact arithmetic, and the IEEE bit pattern of a 32-bit float sample is a parameter.
- OutputConverter.FrameConverter.ResampleFrame: interpolation is exact over reals where the code rounds to `f64`.
- OutputConverter.FrameConverter.constructor: parsing and rejecting a device's wave format; the formats it accepts are its precondition.
- AecLoop.AecProcessor.WriteFrame: frame numbers and counters are unbounded, so `saturating_add` on 64-bit counters and the epoch is plain addition; 32-bit streaks saturate as in the code.
- LatestWins.DrainIsBounded: no other thread takes part; with all threads running the bound is `Bypass.SinkLoopIsBounded`.
- LatestWins.FrameQueue.Pop: the condition-variable wait; a pop is modelled from the moment its wait is over.
- LatestWins.FrameQueue.Push: the frame element is moved, not copied into preallocated storage; allocation is not modelled.
- AecLoop.AecProcessor.PopRender: both the waiting pop and `try_pop` of the render queue, which the loop sees only through what they return.
- AecLoop.AecProcessor.ProcessAll: a stop request, an exhausted microphone queue and a timeout all only end or skip a list of inputs; what is then written to shared state is in AecProtocol.
- AecProtocol.ReachableInv: the processing worker may choose any selection and any canceller result between two shared accesses, so it covers more runs than the code has; diagnostics may fail on any frame.
- AecProtocol.FailedStaysExactly: which of its state writes the processing worker makes depends on data; here it may make any of them from its selection up to its write to the sink.
- Bypass.ReachableInv: a run starts with the sink session open; connecting the sink, its ready signal and spawn failures come before.
- Bypass.SinkFailuresAreCounted: the snapshot counters of captured packets, sanitised samples and capture discontinuities are not part of the two interleaving models; framing counts its own.
- OutputConverter.EncodeIsNearest: the float pattern is assumed to have 32 bits; which pattern it is comes from outside.
- Bypass.FailedStaysExactly: one run; starting again after a stop begins a new run from the initial state, and join timeouts, after which the code gives up isolation between runs, are not modelled.
- VbCableOutput.WindowsVbCableOutput.BeginSession: every failure to open a device is one error kind, and the clock position fields are omitted.
- ClockEvidence.ClockWindows: `analyze_window`, the regression and the drift classification, which are floating-point statistics; the analysis is a parameter.
- ClockEvidence.CleanSegments: the texts of the exclusion reasons; each is a named reason.
- ProcessingTime.PercentilesAreOrdered: needs at least one sample and fewer than 2^64 / 100; beyond that the target saturates.
- Pairing.PairingIsMaximum: needs render frames to be in the queue when asked for; a late frame can only be found by a later selection.
- The class methods PushSample, WriteChannels, ResampleFrame, ExamineCandidate, ScanRenderFrames, RecordSelection, RunEcho, WriteFrame, SegmentWindows and CopyTrack are parts of longer functions of the source, split where a loop or a phase ends.
- WASAPI, COM and device enumeration: foreign calls; the sink and the sources are their outcomes.
- WebRTC AEC3: the canceller is an arbitrary outcome.
- Configuration checks of `start`, pair resolution, tray, command line, WAV and JSON files, release scripts: input and output, or single-branch filters.
- Wall-clock time: timeouts, deadlines and budgets are booleans.
- `Engine::stop` on an engine that is already stopped returns at once; the early return is not modelled.
- Concurrent calls of the controller's own commands, which the code serialises with a lock.
