/** The receiving side of one connection as a value, one function per callback. */
module ReceiverModel {
  import opened Messages

  datatype Outcome = Saved | Corrupt | Rejected

  /** Where one `finalizeReceivedFile` promise stands: still verifying, settled with
      its `then` callback due, `then` done with `finally` due, or all done. */
  datatype Stage = Verifying | Settled(outcome: Outcome) | Acked(outcome: Outcome) | Complete(outcome: Outcome)

  /** `skipped` records that hashing was unavailable when the file's turn came. */
  datatype Task = Task(header: Header, chunks: seq<seq<byte>>, stage: Stage, skipped: bool)

  datatype Download = Download(name: string, content: seq<byte>)

  /** The file being received and the batch-wide byte count. */
  datatype Reading = Reading(
    currentFile: Option<Header>, currentChunks: seq<seq<byte>>, currentReceived: nat, totalDoneBytes: nat,
    doneReceived: bool)

  /** `lastSent` is the program's throttle; the counters record attempted acks. */
  datatype AckClock = AckClock(lastSent: nat, throttled: nat, forced: nat)

  /** The connection: `finishes` counts the times `finishReceivingIfReady` passed its
      guard, `closes` those `closeConnection` found the connection still listed. */
  datatype Ending = Ending(aborted: bool, channelOpen: bool, finishes: nat, closes: nat)

  /** `tasks` lists every finalisation ever begun, in order; `downloads` the files saved,
      in the order they were. */
  datatype Receiver = Receiver(
    read: Reading, tasks: seq<Task>, pendingFinalize: int, acks: AckClock, end: Ending, downloads: seq<Download>)

  datatype Reply = Reply(r: Receiver, back: seq<Back>)

  const NEW_RECEIVER := Receiver(
    Reading(None, [], 0, 0, false), [], 0, AckClock(0, 0, 0), Ending(false, true, 0, 0), [])

  function CloseReceiver(r: Receiver): Receiver {
    if r.end.aborted then r
    else r.(
      read := r.read.(currentChunks := []),
      end := r.end.(aborted := true, channelOpen := false, closes := r.end.closes + 1))
  }

  function FinishIfReady(r: Receiver): Receiver {
    if !r.read.doneReceived || r.pendingFinalize > 0 then r
    else CloseReceiver(r.(end := r.end.(finishes := r.end.finishes + 1)))
  }

  function TrySend(r: Receiver, m: Back, sendOk: bool): seq<Back> {
    if r.end.channelOpen && sendOk then [m] else []
  }

  function SendAck(r: Receiver, force: bool, now: nat, sendOk: bool): Reply {
    if !force && now - r.acks.lastSent < ACK_INTERVAL then Reply(r, [])
    else
      var clock := if force then AckClock(now, r.acks.throttled, r.acks.forced + 1)
                   else AckClock(now, r.acks.throttled + 1, r.acks.forced);
      Reply(r.(acks := clock), TrySend(r, Ack(r.read.totalDoneBytes), sendOk))
  }

  /** A binary message while a file is open. */
  function AddChunk(read: Reading, bytes: seq<byte>): Reading {
    read.(
      currentChunks := read.currentChunks + [bytes],
      currentReceived := read.currentReceived + |bytes|,
      totalDoneBytes := read.totalDoneBytes + |bytes|)
  }

  /** The last chunk of a file starts its finalisation. */
  function HandOver(r: Receiver, read: Reading): Receiver
    requires read.currentFile.Some?
  {
    r.(
      read := read.(currentFile := None, currentChunks := [], currentReceived := 0),
      tasks := r.tasks + [Task(read.currentFile.value, read.currentChunks, Verifying, false)],
      pendingFinalize := r.pendingFinalize + 1)
  }

  /** `handleIncomingMessage`. */
  function OnMessage(r: Receiver, m: Message, now: nat, sendOk: bool): Reply {
    if r.end.aborted then Reply(r, [])
    else match m
      case FileHeader(h) =>
        Reply(r.(read := r.read.(currentFile := Some(h), currentChunks := [], currentReceived := 0)), [])
      case Done =>
        Reply(FinishIfReady(r.(read := r.read.(doneReceived := true))), [])
      case Chunk(bytes) =>
        if r.read.currentFile.None? then Reply(r, [])
        else
          var read := AddChunk(r.read, bytes);
          if read.currentReceived < read.currentFile.value.size then SendAck(r.(read := read), false, now, sendOk)
          else Reply(HandOver(r, read), [])
  }

  function DownloadOf(t: Task): Download {
    Download(if t.header.name == "" then "received_file" else t.header.name, Flatten(t.chunks))
  }

  /** Whether a tag is present at all: an absent or empty one skips the check. */
  predicate Tagged(h: Header) {
    h.hash.Some? && h.hash.value != ""
  }

  /** `verifyBlobHash`; `skipped` when hashing is unavailable or throws. */
  predicate Verifies(t: Task, digest: seq<byte> -> string, skipped: bool) {
    !Tagged(t.header) || skipped || digest(Flatten(t.chunks)) == t.header.hash.value
  }

  function Retag(r: Receiver, i: nat, stage: Stage): Receiver
    requires i < |r.tasks|
  {
    r.(tasks := r.tasks[i := r.tasks[i].(stage := stage)])
  }

  function SettledTask(t: Task, outcome: Outcome, skipped: bool): Task {
    t.(stage := Settled(outcome), skipped := skipped)
  }

  /** The part of `finalizeReceivedFile` after the hash is known. */
  function OnVerified(r: Receiver, i: nat, outcome: Outcome, skipped: bool, sendOk: bool): Reply
    requires i < |r.tasks|
  {
    var r1 := r.(tasks := r.tasks[i := SettledTask(r.tasks[i], outcome, skipped)]);
    match outcome
    case Saved => Reply(r1.(downloads := r1.downloads + [DownloadOf(r.tasks[i])]), [])
    case Rejected => Reply(r1, [])
    case Corrupt =>
      Reply(r1, if r.end.aborted then [] else TrySend(r, IntegrityError(r.tasks[i].header.name), sendOk))
  }

  /** The `then` callback. */
  function OnThen(r: Receiver, i: nat, now: nat, sendOk: bool): Reply
    requires i < |r.tasks| && r.tasks[i].stage.Settled?
  {
    var outcome := r.tasks[i].stage.outcome;
    var r1 := Retag(r, i, Acked(outcome));
    if outcome == Saved then SendAck(r1, true, now, sendOk) else Reply(r1, [])
  }

  /** The `finally` callback. */
  function OnFinally(r: Receiver, i: nat): Receiver
    requires i < |r.tasks| && r.tasks[i].stage.Acked?
  {
    FinishIfReady(Retag(r, i, Complete(r.tasks[i].stage.outcome)).(pendingFinalize := r.pendingFinalize - 1))
  }
}
