/** The receiver's callbacks as the program has them: methods on one mutable record. */
module ReceiverConnection {
  import opened Messages
  import opened ReceiverModel
  import opened SenderModel
  import opened StreamSafety
  import SenderConnection

  /** The per-connection record of the receiving side. `replies` holds what was handed to
      `dataChannel.send`, `downloads` the files offered to the user. */
  class Connection {
    var currentFile: Option<Header>
    var currentChunks: seq<seq<byte>>
    var currentReceived: nat
    var totalDoneBytes: nat
    var pendingFinalize: int
    var doneReceived: bool
    var lastAckSent: nat
    var aborted: bool
    var channelOpen: bool
    var replies: seq<Back>
    var downloads: seq<Download>
    var tasks: seq<Task>
    ghost var throttled: nat
    ghost var forced: nat
    ghost var finishes: nat
    ghost var closes: nat

    ghost function State(): Receiver
      reads this
    {
      Receiver(
        Reading(currentFile, currentChunks, currentReceived, totalDoneBytes, doneReceived),
        tasks, pendingFinalize,
        AckClock(lastAckSent, throttled, forced),
        Ending(aborted, channelOpen, finishes, closes),
        downloads)
    }

    constructor ()
      ensures State() == NEW_RECEIVER && replies == []
    {
      currentFile, currentChunks, currentReceived, totalDoneBytes := None, [], 0, 0;
      pendingFinalize, doneReceived, lastAckSent := 0, false, 0;
      aborted, channelOpen := false, true;
      replies, downloads, tasks := [], [], [];
      throttled, forced, finishes, closes := 0, 0, 0, 0;
    }

    method CloseConnection()
      modifies this
      ensures State() == CloseReceiver(old(State())) && replies == old(replies)
    {
      if aborted {
        return;
      }
      aborted := true;
      channelOpen := false;
      currentChunks := [];
      closes := closes + 1;
    }

    method FinishReceivingIfReady()
      modifies this
      ensures State() == FinishIfReady(old(State())) && replies == old(replies)
    {
      if !doneReceived || pendingFinalize > 0 {
        return;
      }
      finishes := finishes + 1;
      CloseConnection();
    }

    /** `trySendMessage`: a closed channel or an exception drops the message. */
    method TrySendMessage(m: Back, sendOk: bool)
      modifies this
      ensures State() == old(State()) && replies == old(replies) + TrySend(old(State()), m, sendOk)
    {
      if channelOpen && sendOk {
        replies := replies + [m];
      }
    }

    method SendProgressAck(force: bool, now: nat, sendOk: bool)
      modifies this
      ensures var reply := SendAck(old(State()), force, now, sendOk);
              State() == reply.r && replies == old(replies) + reply.back
      ensures var due := force || now - old(lastAckSent) >= 250;
              && lastAckSent == (if due then now else old(lastAckSent))
              && replies == old(replies) + (if due && channelOpen && sendOk then [Ack(totalDoneBytes)] else [])
    {
      if !force && now - lastAckSent < ACK_INTERVAL {
        return;
      }
      lastAckSent := now;
      if force {
        forced := forced + 1;
      } else {
        throttled := throttled + 1;
      }
      TrySendMessage(Ack(totalDoneBytes), sendOk);
    }

    method HandleIncomingMessage(m: Message, now: nat, sendOk: bool)
      modifies this
      ensures var reply := OnMessage(old(State()), m, now, sendOk);
              State() == reply.r && replies == old(replies) + reply.back
    {
      if aborted {
        return;
      }
      match m {
        case FileHeader(h) =>
          currentFile := Some(h);
          currentChunks := [];
          currentReceived := 0;
        case Done =>
          doneReceived := true;
          FinishReceivingIfReady();
        case Chunk(bytes) =>
          HandleChunk(bytes, now, sendOk);
      }
    }

    method HandleChunk(bytes: seq<byte>, now: nat, sendOk: bool)
      requires !aborted
      modifies this
      ensures var reply := OnMessage(old(State()), Chunk(bytes), now, sendOk);
              State() == reply.r && replies == old(replies) + reply.back
    {
      if currentFile.None? {
        return;
      }
      currentChunks := currentChunks + [bytes];
      currentReceived := currentReceived + |bytes|;
      totalDoneBytes := totalDoneBytes + |bytes|;
      if currentReceived < currentFile.value.size {
        SendProgressAck(false, now, sendOk);
        return;
      }
      StartFinalize();
    }

    method StartFinalize()
      requires currentFile.Some?
      modifies this
      ensures State() == HandOver(old(State()), old(State()).read) && replies == old(replies)
    {
      tasks := tasks + [Task(currentFile.value, currentChunks, Verifying, false)];
      currentChunks := [];
      currentFile := None;
      currentReceived := 0;
      pendingFinalize := pendingFinalize + 1;
    }

    /** `finalizeReceivedFile` once the hash is known. */
    method FinalizeReceivedFile(i: nat, outcome: Outcome, skipped: bool, sendOk: bool)
      requires i < |tasks|
      modifies this
      ensures var reply := OnVerified(old(State()), i, outcome, skipped, sendOk);
              State() == reply.r && replies == old(replies) + reply.back
    {
      var t := tasks[i];
      tasks := tasks[i := SettledTask(t, outcome, skipped)];
      match outcome {
        case Saved =>
          downloads := downloads + [DownloadOf(t)];
        case Rejected =>
        case Corrupt =>
          if !aborted {
            TrySendMessage(IntegrityError(t.header.name), sendOk);
          }
      }
    }

    method AfterFinalize(i: nat, now: nat, sendOk: bool)
      requires i < |tasks| && tasks[i].stage.Settled?
      modifies this
      ensures var reply := OnThen(old(State()), i, now, sendOk);
              State() == reply.r && replies == old(replies) + reply.back
    {
      var outcome := tasks[i].stage.outcome;
      tasks := tasks[i := tasks[i].(stage := Acked(outcome))];
      if outcome == Saved {
        SendProgressAck(true, now, sendOk);
      }
    }

    method FinallyFinalize(i: nat)
      requires i < |tasks| && tasks[i].stage.Acked?
      modifies this
      ensures State() == OnFinally(old(State()), i) && replies == old(replies)
    {
      tasks := tasks[i := tasks[i].(stage := Complete(tasks[i].stage.outcome))];
      pendingFinalize := pendingFinalize - 1;
      FinishReceivingIfReady();
    }
  }

  /** Sending a batch with one connection's callbacks and receiving it with the other's
      gives the files back. */
  method TransferBatch(b: Batch, schedule: seq<SenderConnection.Turn>) returns (files: seq<File>)
    requires b.Valid() && forall t :: t in schedule ==> t.ok == ALL_SENT
    ensures files == b.files
  {
    var msgs := SenderConnection.StreamBatch(b, schedule);
    var conn := new Connection();
    for i := 0 to |msgs|
      invariant conn.State() == Receive(NEW_RECEIVER, msgs[..i])
    {
      ReceiveSnoc(NEW_RECEIVER, msgs[..i], msgs[i]);
      assert msgs[..i + 1] == msgs[..i] + [msgs[i]];
      conn.HandleIncomingMessage(msgs[i], 0, true);
    }
    assert msgs[..|msgs|] == msgs;
    DecodeEncode(b);
    ghost var r := conn.State();
    files := [];
    for i := 0 to |conn.tasks|
      invariant conn.State() == r && files == ContentsOf(r)[..i]
    {
      files := files + [File(conn.tasks[i].header.name, Flatten(conn.tasks[i].chunks))];
    }
  }
}
