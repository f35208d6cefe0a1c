# A model of mAirDrop's transfer protocol, presence registry and address tests

mAirDrop sends batches of files between two browsers over a WebRTC data channel; a small
server keeps track of who is online and in which network group. This project states in
Dafny what the program promises there and proves it.

**The transfer protocol.** Each peer is a value with one function per callback
(`SenderModel`, `ReceiverModel`). `Protocol` puts the two together with both queues, the
timers and the set of outstanding finalisations, and lets 18 kinds of step happen in any
order: reads that complete or fail, sends that throw, draining, low-water events queued and
dispatched late, timeouts, cancellations, lost connections, and verifications, `then` and `finally`
callbacks in any interleaving. `Safety` holds the results about every reachable state, `Answers` what the receiver replies,
`Termination` and `Completion` those about whole runs. `SenderConnection` and
`ReceiverConnection` are the mutable records of the program; each of their methods is proved
to change the record exactly as the function the protocol results are about.

**Where the program does less than its comments say.** `Limits`, `LateEvents`, `Restart`,
`ConnectionTable` and `Presence` give the exact condition or the hypothesis needed, each with
a run that shows it is needed:

- The comments at `webrtc-service.js:129-131` and `507-509` say that an ack carries the final
  byte count only once the file is verified. The forced ack carries the bytes *received*,
  so in a batch of several files the first file's ack can already be the final one.
- `tryStartTransfer` has no guard against a second start.
- A delayed close knows the peer, not the connection.
- A low-water event raised before a pause ends it at once, with the buffer still full. Each
  crossing of the low mark is taken to queue its own event.
- A channel that goes down during a read ends the transfer without any message, for good.
- A `done` whose send throws is dropped without notice; success can still be reported, and
  the receiver waits for ever.
- A device that re-registers in another group stays on the lists of the group it left.

**The presence registry.** `Registry` has the two maps as a value, with the log of events as
the reference; `Presence` has the lists pushed to the clients and the two classes.

**Address grouping and display names.** `NetworkGroup` relates the string tests to the
private ranges of section 3 of RFC 1918, `NameHash` the signed 32-bit loop to arithmetic
modulo 2^32, for ids as UTF-16 code units; `Words` has the program's word lists.

## Assumptions

- The channel is ordered and reliable; a message is delivered only while the receiving
  side's channel is open. A file slice has exactly min(16384, size - offset) bytes.
- A callback runs to completion up to an `await`.
- In the protocol model a batch is started once, and a peer has one connection in one
  direction.
- The digest is an arbitrary function of the bytes; whether hashing is available, whether a
  tag was attached and what it says are inputs, as are clock readings, which do not decrease.
- Server handlers run one at a time.

## Model

| member | source | states |
|---|---|---|
| `Messages.ChunkingIsExact` | src/main/resources/static/js/webrtc-service.js:385-433 | From any offset the chunks carry exactly the remaining bytes, there are max(1, ceil(size/16384)) of them, none exceeds 16384 bytes and only an empty file has an empty one |
| `Messages.SliceEnd` | src/main/resources/static/js/webrtc-service.js:393 | A slice is never longer than a chunk, never past the end, and empty only at the end of the file |
| `Messages.HeadersAreExact` | src/main/resources/static/js/webrtc-service.js:363-377 | The batch has one header a file, in order, each with the index, name and size of its file, the number of files, and the tag the sender has for it |
| `Messages.EncodingIsExact` | src/main/resources/static/js/webrtc-service.js:326-433 | Its chunks carry all bytes in order, and `done` comes last and once |
| `Messages.WireLengths` | src/main/resources/static/js/webrtc-service.js:328-404 | What each kind of message adds to the send buffer |
| `StreamSafety.HeaderSent` | src/main/resources/static/js/webrtc-service.js:363-377 | The header that goes out is that of the next file, with its tag |
| `StreamSafety.DecodeEncode` | src/main/resources/static/js/webrtc-service.js:326-516 | For every batch, empty files and exact multiples included, the receiver fed with the whole encoding holds exactly the files, in order, and has seen `done` |
| `StreamSafety.ReceiveNext` | src/main/resources/static/js/webrtc-service.js:436-498 | Whatever state the receiver is in, the next message of the batch moves it exactly one message on |
| `StreamSafety.LoadEmits` | src/main/resources/static/js/webrtc-service.js:397-424 | What a completed read sends, followed by what is then left, is what was left before; a callback that stops early sends a prefix of it and nothing ever after |
| `StreamSafety.DoneComesLast` | src/main/resources/static/js/webrtc-service.js:326-328 | The receiver can only be about to get `done` when every file has been handed over and nothing follows |
| `StreamSafety.StreamStep` | src/main/resources/static/js/webrtc-service.js:317-545 | Every step of either peer, the queues, the timers or the channel keeps the conservation invariant |
| `StreamSafety.ReplayStep` | src/main/resources/static/js/webrtc-service.js:436-502 | Every step keeps the reading state equal to a replay of the consumed messages alone |
| `Safety.SafeStep` | src/main/resources/static/js/webrtc-service.js:317-545 | One inductive invariant over sender, both queues, receiver, pending finalisations and timers is kept by each of the 18 kinds of step |
| `Safety.ReachableIsSafe` | src/main/resources/static/js/webrtc-service.js:317-545 | It holds in every state any run of any batch can reach, faults and every interleaving included |
| `Safety.StreamConservation` | src/main/resources/static/js/webrtc-service.js:326-433 | In every reachable state consumed, in-flight and still-to-be-sent messages make up the encoding of the batch, and the receiver holds the first k files byte for byte plus a prefix of the next |
| `Safety.ByteAccounting` | src/main/resources/static/js/webrtc-service.js:463-502 | `totalDoneBytes` is the size of the completed files plus `currentReceived`, never exceeds the batch, and equals it exactly when every file not handed over is empty |
| `Safety.SuccessIsSound` | src/main/resources/static/js/webrtc-service.js:340-357 | In every run a reported success means every header and chunk was sent, with or without `done` after them, all bytes arrived and some file was saved; with one file, that file is the one download, and the sender had no tag or an empty one for it, its check was skipped, or its digest is the tag |
| `Safety.SavedIsVerified` | src/main/resources/static/js/webrtc-service.js:518-545 | In every run a file is saved only if the sender had no tag or an empty one for it, its check was skipped, or the digest of its content is that tag |
| `Safety.DoneSentExactly` | src/main/resources/static/js/webrtc-service.js:326-330 | When the last chunk has gone out, `done` has too if and only if its own send worked |
| `Safety.DroppedDoneHangs` | src/main/resources/static/js/webrtc-service.js:132-140 | If it did not, the receiver never sees `done` and never tears down by itself |
| `Safety.FinalAckRace` | src/main/resources/static/js/webrtc-service.js:326-358 | At most one success; success and the timeout failure never both; no other error message beside a success; after the terminal branch the timer is armed, a verdict is out or the transfer was called off; one verdict at most with a single file |
| `Safety.ClosedForGood` | src/main/resources/static/js/webrtc-service.js:69-93 | However a run goes on after a close, no verdict is added and no message sent |
| `Safety.NoSilentEnd` | src/main/resources/static/js/webrtc-service.js:385-433 | The sender never closes without telling its user unless called off; a batch once begun is being read or paused, awaits confirmation, has shown an outcome or has lost its channel |
| `Safety.CorruptionIsReal` | src/main/resources/static/js/webrtc-service.js:518-530 | A corruption is reported only for a file of the batch whose tag differs from its digest |
| `Safety.SafeTeardown` | src/main/resources/static/js/webrtc-service.js:132-140 | `pendingFinalize` is the number of outstanding tasks; the receiver finishes at most once, and when it does it has consumed the whole batch and every file has been finalised exactly once, in any settling order |
| `Answers.ChunkAnswered` | src/main/resources/static/js/webrtc-service.js:463-489 | A chunk that leaves its file incomplete is kept and answered by exactly one ack, with the bytes received so far, if the last one is 250 ms old and the send works, else by nothing |
| `Answers.DeliveryAnswered` | src/main/resources/static/js/webrtc-service.js:484-489 | In every reachable state that is what its delivery puts into the queue, and no ack is overdue afterwards |
| `Answers.LastChunkAnswered` | src/main/resources/static/js/webrtc-service.js:491-503 | The chunk that completes a file is not acknowledged; the file is handed over whole |
| `Answers.ControlTaken` | src/main/resources/static/js/webrtc-service.js:443-460 | A header begins its file afresh, whatever was held, and `done` is remembered |
| `Answers.OthersUnanswered` | src/main/resources/static/js/webrtc-service.js:436-462 | Nothing else is answered; a chunk without a file and anything after a close is ignored |
| `Answers.VerifiedAnswered` | src/main/resources/static/js/webrtc-service.js:518-545 | A saved file is downloaded under its name or the substitute for an empty one, a corrupt one reported by name if the channel is open, a refused one neither |
| `Answers.ThenAnswered` | src/main/resources/static/js/webrtc-service.js:505-511 | A saved file, and only a saved one, is acknowledged at once with all bytes received |
| `Answers.TeardownExactly` | src/main/resources/static/js/webrtc-service.js:132-140 | `done` closes exactly if nothing is pending, the end of a finalisation exactly if it was the last and `done` has come |
| `Answers.CloseDropsChunks` | src/main/resources/static/js/webrtc-service.js:69-93 | In every run a closed receiver holds no chunks |
| `Safety.AckStream` | src/main/resources/static/js/webrtc-service.js:122-127 | Ack values never decrease and never exceed the bytes received; percentages stay in 0..100, never go down, and are the nearest integers for the acks short of the total, one by one; at most n + T/250 + 1 acks are attempted |
| `Safety.Backpressure` | src/main/resources/static/js/webrtc-service.js:398-421 | In every reachable state the buffer is within the high mark, a chunk, the headers and first chunks of the files begun since the last gated chunk, the final message and one chunk per low-water event that came late; of those there are at most one per file since, one more for each event raised while another was queued, and no more than messages sent; a paused sender has its handler attached with an event queued or still to come |
| `TaskSafety.TaskStep` | src/main/resources/static/js/webrtc-service.js:491-516 | Every step keeps the count of outstanding tasks and the multiset of downloads equal to those of the saved tasks |
| `TaskSafety.AllSaved` | src/main/resources/static/js/webrtc-service.js:532-545 | With every task saved, the downloads are the batch, as a multiset and byte for byte |
| `VerdictSafety.VerdictStep` | src/main/resources/static/js/webrtc-service.js:142-163 | Every step keeps the shape of the verdicts and their relation to timers and close |
| `VerdictSafety.ClosedIsFinal` | src/main/resources/static/js/webrtc-service.js:69-93 | No step of a closed sender reports or sends |
| `VerdictSafety.StallStep` | src/main/resources/static/js/webrtc-service.js:385-433 | No step stops a batch on an open channel without closing the connection |
| `VerdictSafety.AlertsByCause` | src/main/resources/static/js/webrtc-service.js:363-431 | Each step shows exactly the error message of its cause: a failing send, a failing read, a lost connection or no response; and none without closing |
| `VerdictSafety.VerdictsByCause` | src/main/resources/static/js/webrtc-service.js:326-358 | Each step gives exactly the verdict of its cause: the timer, the receiver's complaint, or success at the full ack or the end of the batch, whichever is later |
| `VerdictSafety.ClosedCallbacks` | src/main/resources/static/js/webrtc-service.js:326-395 | Once closed, no callback still due sends, shows or reports anything |
| `AckSafety.AckStep` | src/main/resources/static/js/webrtc-service.js:505-511 | Every step keeps acks sorted along queue and log, full acks backed by a saved file and corruption reports backed by a failed check |
| `AckSafety.ThrottledAckIsShort` | src/main/resources/static/js/webrtc-service.js:484-489 | An unforced ack is strictly below the batch total, so it is never taken for the final one |
| `AckRate.AcksAreRare` | src/main/resources/static/js/webrtc-service.js:122-127 | At most one forced ack per file and one throttled ack per 250 ms, plus one |
| `AckRate.RoundQuotientNearest` | src/main/resources/static/js/webrtc-service.js:106-110 | The percentage is the nearest integer, halves going up |
| `AckRate.PercentIsNearest` | src/main/resources/static/js/webrtc-service.js:106-110 | The integer nearest to the overall percentage, to that of the file if the total is 0, and 100 for an empty file |
| `AckRate.PercentsAreNearest` | src/main/resources/static/js/webrtc-service.js:619-626 | The percentages shown are those of the acks short of the total, one by one |
| `AckRate.PercentRange` | src/main/resources/static/js/webrtc-service.js:106-110 | An ack within the total gives a percentage between 0 and 100 |
| `AckRate.PercentsGoUp` | src/main/resources/static/js/webrtc-service.js:619-626 | Sorted ack values give sorted percentages in 0..100 |
| `FlowSafety.FlowStep` | src/main/resources/static/js/webrtc-service.js:363-424 | Every step keeps the buffer bound and the pairing of pause and handler |
| `FlowSafety.PauseEndsByLowEvent` | src/main/resources/static/js/webrtc-service.js:413-418 | Only the low-water event ends a pause, and then the same file goes on at the same offset with the handler detached |
| `FlowSafety.DrainedPauseWakes` | src/main/resources/static/js/webrtc-service.js:413-418 | A paused sender whose buffer drains to the low mark is resumed |
| `Overtaking.RareStep` | src/main/resources/static/js/webrtc-service.js:413-421 | Every step keeps the limit on late events: one for the file of the last gated chunk and for each file begun since, and one for each event raised while another was queued |
| `Overtaking.EventStep` | src/main/resources/static/js/webrtc-service.js:413-421 | Every step keeps the number of low-water events within the number of messages sent |
| `Pauses.EachPauseEndsOnce` | src/main/resources/static/js/webrtc-service.js:413-421 | Over any run each pause entered has been ended by exactly one low-water event, but for the one the sender may still be in |
| `Pauses.PauseKeepsPlace` | src/main/resources/static/js/webrtc-service.js:413-421 | However many other steps a pause lasts, the sender stays at its slice with the handler attached and an event queued or still to come |
| `Pauses.PauseCanEnd` | src/main/resources/static/js/webrtc-service.js:413-421 | On an open channel every pause can end within two steps, at the slice it began at |
| `LateEvents.LateExactly` | src/main/resources/static/js/webrtc-service.js:413-421 | Some run of a batch, of any number of files, meets a late event if and only if, the low mark having been passed before some slice, more than fits between the marks is sent from there on before a slice that is not the first of its file |
| `LateEvents.WithoutLateEvents` | src/main/resources/static/js/webrtc-service.js:398-421 | A batch that cannot keeps the bare bound in every run: high mark, a chunk, and the headers and first chunks of the files begun since the last gated chunk |
| `LateEvents.SingleFileBoundExactly` | src/main/resources/static/js/webrtc-service.js:398-421 | A batch of one file keeps the bare bound in every run if and only if the file has at most 16384 * (49 + k) bytes, k being the chunks that take the buffer over the low mark |
| `LateEvents.SeveralFilesDiffer` | src/main/resources/static/js/webrtc-service.js:363-383 | With several files the two conditions differ: a batch that can meet a late event and still keeps the bare bound in every run |
| `Termination.StepDecreases` | src/main/resources/static/js/webrtc-service.js:317-545 | Every step of every run lowers one measure |
| `Termination.RunsAreBounded` | src/main/resources/static/js/webrtc-service.js:317-545 | No run of a batch is longer than 2 * wire bytes + 12 * messages + 4 steps, whatever fails |
| `Completion.HonestNeverCorrupt` | src/main/resources/static/js/webrtc-service.js:225-238 | With honest tags no verification comes out as corrupt |
| `Completion.HonestRunIsBenign` | src/main/resources/static/js/webrtc-service.js:225-238 | So every run of a batch with honest tags in which no download is refused and nothing else fails is fault-free |
| `Completion.NeverStuck` | src/main/resources/static/js/webrtc-service.js:317-545 | A fault-free state short of completion, whatever the tags, always has a step to take |
| `Completion.FaultFreeCompletion` | src/main/resources/static/js/webrtc-service.js:317-545 | Every run in which no send, read or check fails and nothing is cancelled, lost or timed out, and which can go no further, has reported success exactly once, shown no error, saved every file byte for byte and closed the receiver exactly once |
| `Completion.CanComplete` | src/main/resources/static/js/webrtc-service.js:317-545 | Every fault-free run can be continued to completion |
| `Limits.EarlySuccess` | src/main/resources/static/js/webrtc-service.js:505-511 | For every file j of every batch there is a run that reports success while all other files are still being verified, and another in which `done` does not go out either |
| `Limits.SuccessMeansAllSavedExactly` | src/main/resources/static/js/webrtc-service.js:604-618 | Success implies that all files were saved if and only if the batch has one file |
| `Limits.RetractionExactly` | src/main/resources/static/js/webrtc-service.js:599-603 | A corruption report can follow a success if and only if the batch has two files or more and one of them a wrong tag |
| `Limits.CorruptionExactly` | src/main/resources/static/js/webrtc-service.js:518-530 | Some run reports a corruption if and only if the sender has a non-empty tag for some file that is not its digest |
| `Limits.TimeoutRun` | src/main/resources/static/js/webrtc-service.js:350-356 | Every batch has a run that ends as unconfirmed |
| `Limits.StallsExactly` | src/main/resources/static/js/webrtc-service.js:391-401 | A completed read ends the transfer with nothing shown and nothing closed if and only if the channel has gone down meanwhile |
| `Limits.StallRun` | src/main/resources/static/js/webrtc-service.js:391-401 | Every batch has a run that ends so |
| `Limits.StallLasts` | src/main/resources/static/js/webrtc-service.js:385-424 | And however it goes on, without a cancellation or a reported connection loss, nothing is ever shown |
| `Limits.SuccessWithoutDone` | src/main/resources/static/js/webrtc-service.js:340-343 | Every batch has a run that reports success although `done` was never sent and the receiver stays open |
| `Limits.DoneSentInRun` | src/main/resources/static/js/webrtc-service.js:326-330 | A run in which no send of `done` throws finishes with it sent |
| `Restart.SecondStartBreaksTheStream` | src/main/resources/static/js/webrtc-service.js:571-579 | In every reachable state with an open connection, what has been sent after `sendBatch` is called is a prefix of the batch if and only if it was the first call |
| `Restart.SecondStartLosesPlace` | src/main/resources/static/js/webrtc-service.js:463-470 | After a second call the receiver is back at the first header with all it had handed over, which is its right place if and only if no chunk had been sent |
| `Restart.TwoReadersRepeatTheChunk` | src/main/resources/static/js/webrtc-service.js:385-424 | Started twice at once, both readers send the first chunk; what the receiver holds is right if and only if the second chunk of the file equals the first |
| `ConnectionTable.ListsLiveAlways` | src/main/resources/static/js/webrtc-service.js:69-93 | After any calls the map lists exactly the connections opened and not aborted |
| `ConnectionTable.EntriesExactly` | src/main/resources/static/js/webrtc-service.js:69-93 | Opening changes no listed connection, closing only that of its peer, and a delayed close is used up |
| `ConnectionTable.OwedCloseExactly` | src/main/resources/static/js/webrtc-service.js:132-153 | A delayed close ends a connection other than its own if and only if its own is already closed and the peer is listed again |
| `ConnectionTable.OneConnectionIsSafe` | src/main/resources/static/js/webrtc-service.js:548-558 | With one connection per peer no delayed close hits another |
| `ConnectionTable.ReopeningLosesTheConnection` | src/main/resources/static/js/webrtc-service.js:142-153 | From any state, a peer closed and opened again within the delay loses the second connection |
| `ConnectionTable.Connections.CloseConnection` | src/main/resources/static/js/webrtc-service.js:69-93 | Marks and removes the listed connection of the peer, if there is one |
| `ConnectionTable.Connections.OpenConnection` | src/main/resources/static/js/webrtc-service.js:548-558 | Adds a connection unless the peer is listed |
| `ConnectionTable.Connections.DelayElapses` | src/main/resources/static/js/webrtc-service.js:151 | The delayed close acts on whatever connection the peer has now |
| `SenderConnection.StreamBatch` | src/main/resources/static/js/webrtc-service.js:317-433 | The callbacks played in any schedule of draining, low-water events and failing sends terminate by (files left, bytes left); what is handed to the channel is a prefix of the batch, and all of it if no send fails |
| `SenderConnection.LoadGoesOn` | src/main/resources/static/js/webrtc-service.js:397-424 | Each read leaves fewer files or fewer bytes of the file or ends the reading, and loses nothing |
| `SenderConnection.Connection.SendBatch` | src/main/resources/static/js/webrtc-service.js:317-324 | Fields and sent messages change as the sender function the protocol proofs are about |
| `SenderConnection.Connection.SumSizes` | src/main/resources/static/js/webrtc-service.js:321 | The loop adds up the sizes of all files |
| `SenderConnection.Connection.SendNextFile` | src/main/resources/static/js/webrtc-service.js:326-383 | The same for the next header, the terminal branch and the failing send |
| `SenderConnection.Connection.FinishBatch` | src/main/resources/static/js/webrtc-service.js:328-358 | The same for the terminal branch: `done`, then success or the timer |
| `SenderConnection.Connection.OnLoad` | src/main/resources/static/js/webrtc-service.js:397-424 | The same for a completed read: chunk, then pause, read on or next file |
| `SenderConnection.Connection.OnBufferedAmountLow` | src/main/resources/static/js/webrtc-service.js:414-417 | The same for the low-water event |
| `SenderConnection.Connection.OnMessage` | src/main/resources/static/js/webrtc-service.js:596-627 | The same for acks and integrity errors, in either order with the terminal branch |
| `SenderConnection.Connection.OnCompletionTimeout` | src/main/resources/static/js/webrtc-service.js:350-356 | The same for the unconfirmed transfer |
| `SenderConnection.Connection.ReportSendSuccess` | src/main/resources/static/js/webrtc-service.js:142-153 | The same: timer cleared, events silenced, verdict out, close delayed |
| `SenderConnection.Connection.ReportSendFailure` | src/main/resources/static/js/webrtc-service.js:155-163 | The same: timer cleared, events silenced, verdict out, closed at once |
| `SenderConnection.Connection.CloseConnection` | src/main/resources/static/js/webrtc-service.js:69-93 | The same for the close, which acts once |
| `ReceiverConnection.TransferBatch` | src/main/resources/static/js/webrtc-service.js:317-516 | Sending a batch with one connection object, in any schedule, and receiving it with the other gives the files back |
| `ReceiverConnection.Connection.HandleIncomingMessage` | src/main/resources/static/js/webrtc-service.js:436-516 | Fields and replies change as the receiver function the protocol proofs are about |
| `ReceiverConnection.Connection.SendProgressAck` | src/main/resources/static/js/webrtc-service.js:122-127 | The same for the throttled or forced ack |
| `ReceiverConnection.Connection.FinishReceivingIfReady` | src/main/resources/static/js/webrtc-service.js:132-140 | The same for the deferred teardown |
| `ReceiverConnection.Connection.TrySendMessage` | src/main/resources/static/js/webrtc-service.js:112-120 | A closed channel or an exception drops the message and changes nothing else |
| `ReceiverConnection.Connection.FinalizeReceivedFile` | src/main/resources/static/js/webrtc-service.js:518-545 | The same for the outcome of a finalisation: a download, an integrity error or neither |
| `ReceiverConnection.Connection.AfterFinalize` | src/main/resources/static/js/webrtc-service.js:505-511 | The same for `then`: a forced ack only for a saved file |
| `ReceiverConnection.Connection.FinallyFinalize` | src/main/resources/static/js/webrtc-service.js:512-515 | The same for `finally`: one task fewer, then teardown if ready |
| `Candidates.CandidatesAreKept` | src/main/resources/static/js/webrtc-service.js:694-755 | Told by the events alone: while the connection is not closed, the candidates that have arrived since its entry was made are those applied and those pending, each once, and after the flush those applied |
| `Candidates.CandidatesKeptUntilClosed` | src/main/resources/static/js/webrtc-service.js:694-755 | What has arrived before the event that closes the connection is so kept when it closes, and for good |
| `Candidates.NothingAppliedEarly` | src/main/resources/static/js/webrtc-service.js:744-755 | No candidate is applied before the remote description is set |
| `Candidates.ClosedBy` | src/main/resources/static/js/webrtc-service.js:702-741 | The events that close a connection |
| `Candidates.OffererCreates` | src/main/resources/static/js/webrtc-service.js:548-558 | The side of a connection is that of the event that made its entry |
| `Candidates.CandidateConservation` | src/main/resources/static/js/webrtc-service.js:727-755 | The same kept step by step, in every phase, closed ones included |
| `Candidates.HandleConserves` | src/main/resources/static/js/webrtc-service.js:744-755 | Each event keeps that |
| `Candidates.RejectionByPath` | src/main/resources/static/js/webrtc-service.js:803-806 | A rejected buffered candidate closes the connection on the answering side and only there |
| `Candidates.FlushTerminates` | src/main/resources/static/js/webrtc-service.js:803-807 | Undisturbed, the flush loop hands over everything buffered in order and ends |
| `Candidates.Connection.FlushTurn` | src/main/resources/static/js/webrtc-service.js:730-737 | One turn of the loop hands over the next candidate or clears the buffer |
| `Candidates.Connection.OnCandidate` | src/main/resources/static/js/webrtc-service.js:744-755 | A candidate goes to the peer connection once the remote description is set, else to the buffer |
| `Registry.InverseAlways` | src/main/java/com/metehan/mairdrop/service/DeviceService.java:18-50 | After any calls with any arguments, null sessions included, a session leads to a device registered with that session, and no two sessions to the same device |
| `Registry.UnregisterExactly` | src/main/java/com/metehan/mairdrop/service/DeviceService.java:34-50 | The device and its session go exactly if the session given is its own or none is; otherwise no device goes and of the sessions at most the one given |
| `Registry.ConverseStep` | src/main/java/com/metehan/mairdrop/service/DeviceService.java:18-50 | If every device is found by its session, it is so after a call if and only if the call neither registers a session another device has nor unregisters a device with a session another device has |
| `Registry.ConverseExactly` | src/main/java/com/metehan/mairdrop/service/DeviceService.java:18-50 | Over any calls with any arguments, every device is found by its session after each call if and only if each call is of that kind |
| `Registry.SharingBreaksConverse` | src/main/java/com/metehan/mairdrop/service/DeviceService.java:18-50 | Over registrations and disconnects alone that is so if and only if no two devices ever share a session |
| `Registry.StaleUnregisterHidesAnother` | src/main/java/com/metehan/mairdrop/service/DeviceService.java:39-44 | A direct call with a session that is another device's own hides that device, though no session is shared |
| `Registry.DisconnectIsExact` | src/main/java/com/metehan/mairdrop/config/WebSocketEventListener.java:26-35 | A disconnect removes exactly the device registered with that session; the stale branch is never reached from it |
| `Registry.RegistryFollowsExactly` | src/main/java/com/metehan/mairdrop/service/DeviceService.java:18-60 | Over any registrations and disconnects, after every event a device is listed with (s, g) exactly when that was its latest registration and s has not disconnected since, and is found by s, if and only if no session a listed device has is ever registered for another |
| `Registry.RegistryRefinesLog` | src/main/java/com/metehan/mairdrop/service/DeviceService.java:18-60 | In particular when each session registers one device id only |
| `Registry.SharedSessionLeavesGhost` | src/main/java/com/metehan/mairdrop/service/DeviceService.java:18-27 | After any log, a session that registers two ids leaves the first one listed when it disconnects |
| `Presence.RegisterCoherentExactly` | src/main/java/com/metehan/mairdrop/controller/WebSocketController.java:27-50 | A registration leaves every online device with the current list of its group if and only if it keeps the device in its group or leaves an otherwise empty one |
| `Presence.MoveGoesUnnoticed` | src/main/java/com/metehan/mairdrop/controller/WebSocketController.java:39-41 | In a three-step run a device that moves to another group stays on the list of the device it left behind |
| `Presence.DisconnectCoherent` | src/main/java/com/metehan/mairdrop/config/WebSocketEventListener.java:25-43 | A disconnect always leaves the lists current |
| `Presence.ListsStayCurrent` | src/main/java/com/metehan/mairdrop/controller/WebSocketController.java:27-50 | Over any run whose re-registrations leave nobody behind, after every event each online device last got the current members of its group, each once |
| `Presence.GroupsPartition` | src/main/java/com/metehan/mairdrop/service/DeviceService.java:52-60 | Lists of devices in one group have the same members, lists of different groups none in common |
| `Presence.Pushed` | src/main/java/com/metehan/mairdrop/controller/WebSocketController.java:44-50 | The broadcast loop reaches every topic on the list and no other |
| `Presence.DeviceService.RegisterDevice` | src/main/java/com/metehan/mairdrop/service/DeviceService.java:18-27 | The two maps change as the registry function the log replay is about |
| `Presence.DeviceService.UnregisterDevice` | src/main/java/com/metehan/mairdrop/service/DeviceService.java:34-50 | The same, stale disconnects included |
| `Presence.DeviceService.GetActiveDevicesInGroup` | src/main/java/com/metehan/mairdrop/service/DeviceService.java:52-60 | Every member of the group once and nothing else; nothing for a null group |
| `Presence.DeviceService.GetDeviceIdBySessionId` | src/main/java/com/metehan/mairdrop/service/DeviceService.java:62-65 | The device the session leads to, if any |
| `Presence.DeviceService.GetGroup` | src/main/java/com/metehan/mairdrop/service/DeviceService.java:67-70 | The group of a registered device |
| `Presence.Handlers.Register` | src/main/java/com/metehan/mairdrop/controller/WebSocketController.java:27-42 | An id with a visible character and a group is registered and the new list pushed to all its members; a missing id, one of blanks only, or a missing group changes nothing |
| `Presence.WhiteSpaceExactly` | src/main/java/com/metehan/mairdrop/controller/WebSocketController.java:29 | The characters an id is blank with, one by one |
| `Presence.Handlers.BroadcastList` | src/main/java/com/metehan/mairdrop/controller/WebSocketController.java:44-50 | Pushes the current members of the group to each of them and leaves the registry alone |
| `Presence.Handlers.HandleDisconnect` | src/main/java/com/metehan/mairdrop/config/WebSocketEventListener.java:26-43 | Unregisters the session's device and pushes the remaining members to each of them |
| `NetworkGroup.ClassifierIsNumeric` | src/main/java/com/metehan/mairdrop/config/HttpHandshakeInterceptor.java:34-56 | For all naturals printed in decimal, `a.b.c.d` is local if and only if a=10, or 192.168, or 172 with 16 <= b <= 31, or 127.0.0.1 |
| `NetworkGroup.ClassifierMatchesMasks` | src/main/java/com/metehan/mairdrop/config/HttpHandshakeInterceptor.java:34-56 | For octets that is membership in 10/8, 172.16/12 or 192.168/16 by mask, or the loopback address |
| `NetworkGroup.WithoutDots` | src/main/java/com/metehan/mairdrop/config/HttpHandshakeInterceptor.java:34-42 | Of the addresses without a dot the local ones are the IPv6 loopback in its two spellings and those beginning with fe80: |
| `NetworkGroup.SecondPartDecides` | src/main/java/com/metehan/mairdrop/config/HttpHandshakeInterceptor.java:44-56 | Whatever follows `172.`, well formed or not, the address is local if and only if the text up to the next dot spells a number from 16 to 31, leading zeros and a plus sign allowed |
| `NetworkGroup.SameGroup` | src/main/java/com/metehan/mairdrop/config/HttpHandshakeInterceptor.java:26 | Two clients share a group if and only if both are local or they have the same address |
| `NetworkGroup.SplitDotted` | src/main/java/com/metehan/mairdrop/config/HttpHandshakeInterceptor.java:46 | Splitting a dotted address gives its four numbers as printed |
| `NetworkGroup.ParseDecimal` | src/main/java/com/metehan/mairdrop/config/HttpHandshakeInterceptor.java:51 | Parsing a printed number gives it back, and fails beyond 2^31 - 1 |
| `NetworkGroup.Attributes.BeforeHandshake` | src/main/java/com/metehan/mairdrop/config/HttpHandshakeInterceptor.java:18-32 | Writes the group of the address and always proceeds |
| `NameHash.TurnIsArithmetic` | src/main/resources/static/js/name-generator.js:21 | A turn with signed shift and wide sum is multiplication by 33 modulo 2^32, then exclusive or |
| `NameHash.TurnIsBijective` | src/main/resources/static/js/name-generator.js:21 | For each code unit a turn has a two-sided inverse on 32-bit numbers |
| `NameHash.XorBitwise` | src/main/resources/static/js/name-generator.js:21 | Each bit of the exclusive or is that of the two bits |
| `NameHash.HashSteps` | src/main/resources/static/js/name-generator.js:18-24 | The empty id hashes to 5381, and one more code unit multiplies by 33 modulo 2^32 and is combined by exclusive or |
| `NameHash.SuffixKeepsApart` | src/main/resources/static/js/name-generator.js:18-24 | A common suffix gives equal hashes if and only if the states before it were equal |
| `NameHash.OneUnitApart` | src/main/resources/static/js/name-generator.js:18-24 | Two ids of equal length that differ in exactly one code unit never have the same hash |
| `NameHash.ComputeHash` | src/main/resources/static/js/name-generator.js:18-24 | The loop computes the folded turns and stays below 2^32 |
| `NameHash.WordsOfHash` | src/main/resources/static/js/name-generator.js:28-30 | Two ids get the same pair of words if and only if their hashes agree modulo 1600 |
| `NameHash.NameIsExact` | src/main/resources/static/js/name-generator.js:28-32 | A name is the adjective at h mod 40, a space, the noun at h / 40 mod 40, a space, and the last three code units of the id, or all if fewer |
| `NameHash.UnitsAreCodes` | src/main/resources/static/js/name-generator.js:32 | A character of a word is its own code unit, or a surrogate pair beyond the basic plane |
| `NameHash.UnitsOfText` | src/main/resources/static/js/name-generator.js:32 | A word of the basic plane is as long in code units and has them in order |
| `NameHash.SameWordsSameName` | src/main/resources/static/js/name-generator.js:28-32 | Two such ids have the same name if and only if their last three code units agree |
| `NameHash.NameGenerator.GetDisplayName` | src/main/resources/static/js/name-generator.js:26-35 | Cached or not, the name has that form |
| `NameHash.NamesOf` | src/main/resources/static/js/name-generator.js:26-35 | Over any sequence of calls on one cache the names are the recomputed ones |
| `NameHash.NamesForAt` | src/main/resources/static/js/name-generator.js:26-35 | Each of them is the name its id determines |
| `Words.ListsAreComplete` | src/main/resources/static/js/name-generator.js:2-14 | Both word lists have 40 entries, as the results on names need, adjectives first |
| `Words.DisplayNames` | src/main/resources/static/js/name-generator.js:26-35 | The same for the program's own two word lists |

## Left out

- LateEvents.SingleFileBoundExactly: batches of one file. With several files room for a late event is necessary for exceeding the bare bound but, by `LateEvents.SeveralFilesDiffer`, not sufficient: the bound counts the headers and first chunks of all files begun since the last gated chunk even when they have left the buffer, so whether it is exceeded depends on every header and file length before the pause and on how many events those let pile up. `Safety.Backpressure` holds for every batch.
- Candidates.CandidateConservation: one offer per connection.
- NetworkGroup.ClassifierIsNumeric: four numbers in decimal; other texts beginning with `10.` or `192.168.` are local by their prefix alone. `getClientIp` is a parameter, and digits outside ASCII, which `Integer.parseInt` also accepts, are not modelled.
- What the two read chains of a double start send after their first chunks.
- Two simultaneous offers and a repeated offer on one connection: the promised properties do not hold there.
- A finalisation without a tag downloads within the same callback as the last chunk; here its download is a later step, which allows more interleavings than the program has.
- Per-operation interleavings of server threads over the two maps.
- User interface: dialogs, labels, speeds, file sizes in words, the receiver's own progress bar and the sender's "Finishing" display, which can go backwards.
- SHA-256, `Blob`, `FileReader` and download internals; `RTCPeerConnection`, SDP and ICE beyond the events named above.
- SockJS and STOMP connections, heartbeats, Spring configuration and `WebRTCSignalingController`, whose four forwarders share one null test.
- Time stamps and the `active` flag of `DeviceSession`, which nothing in the program ever clears.
