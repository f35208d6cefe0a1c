/** What the receiver answers to each message and each turn of a finalisation, in full. */
module Answers {
  import opened Messages
  import opened ReceiverModel
  import opened Protocol
  import opened StreamSafety
  import opened TaskSafety
  import opened Safety

  /** The reply goes out if the channel is open and the send works. */
  function Sent(r: Receiver, m: Back, sendOk: bool): seq<Back> {
    if r.end.channelOpen && sendOk then [m] else []
  }

  /** A chunk that leaves its file incomplete is acknowledged with the bytes received so far
      exactly when the last acknowledgement is 250 ms old, and is kept. */
  lemma ChunkAnswered(r: Receiver, bytes: seq<byte>, now: nat, sendOk: bool)
    requires !r.end.aborted && r.read.currentFile.Some?
    requires r.read.currentReceived + |bytes| < r.read.currentFile.value.size
    ensures var reply := OnMessage(r, Chunk(bytes), now, sendOk);
            var due := now - r.acks.lastSent >= 250;
            && reply.back == (if due then Sent(r, Ack(r.read.totalDoneBytes + |bytes|), sendOk) else [])
            && reply.r.acks.lastSent == (if due then now else r.acks.lastSent)
            && reply.r.read == r.read.(
                 currentChunks := r.read.currentChunks + [bytes],
                 currentReceived := r.read.currentReceived + |bytes|,
                 totalDoneBytes := r.read.totalDoneBytes + |bytes|)
            && reply.r.tasks == r.tasks && reply.r.pendingFinalize == r.pendingFinalize
            && reply.r.end == r.end && reply.r.downloads == r.downloads
  {
  }

  /** The chunk that completes a file is not acknowledged yet: the file is handed over whole. */
  lemma LastChunkAnswered(r: Receiver, bytes: seq<byte>, now: nat, sendOk: bool)
    requires !r.end.aborted && r.read.currentFile.Some?
    requires r.read.currentReceived + |bytes| >= r.read.currentFile.value.size
    ensures var reply := OnMessage(r, Chunk(bytes), now, sendOk);
            && reply.back == [] && reply.r.acks == r.acks
            && reply.r.read == Reading(None, [], 0, r.read.totalDoneBytes + |bytes|, r.read.doneReceived)
            && reply.r.tasks ==
               r.tasks + [Task(r.read.currentFile.value, r.read.currentChunks + [bytes], Verifying, false)]
            && reply.r.pendingFinalize == r.pendingFinalize + 1
            && reply.r.end == r.end && reply.r.downloads == r.downloads
  {
  }

  /** Nothing else is answered; a chunk without a file, and anything after a close, is ignored. */
  lemma OthersUnanswered(r: Receiver, m: Message, now: nat, sendOk: bool)
    requires r.end.aborted || !m.Chunk? || r.read.currentFile.None?
    ensures OnMessage(r, m, now, sendOk).back == [] && OnMessage(r, m, now, sendOk).r.acks == r.acks
    ensures r.end.aborted || m.Chunk? ==> OnMessage(r, m, now, sendOk).r == r
  {
  }

  /** A header begins its file afresh, whatever was held; `done` is remembered. */
  lemma ControlTaken(r: Receiver, m: Message, now: nat, sendOk: bool)
    requires !r.end.aborted && !m.Chunk?
    ensures var r' := OnMessage(r, m, now, sendOk).r;
            && r'.tasks == r.tasks && r'.pendingFinalize == r.pendingFinalize && r'.downloads == r.downloads
            && (m.FileHeader? ==>
                  && r'.read == Reading(Some(m.header), [], 0, r.read.totalDoneBytes, r.read.doneReceived)
                  && r'.end == r.end)
            && (m.Done? ==> r'.read.doneReceived && r'.read.totalDoneBytes == r.read.totalDoneBytes)
  {
  }

  /** A verified file is downloaded under its name, a corrupt one reported, a refused one neither. */
  lemma VerifiedAnswered(r: Receiver, i: nat, outcome: Outcome, skipped: bool, sendOk: bool)
    requires i < |r.tasks| && (r.end.aborted ==> !r.end.channelOpen)
    ensures var reply := OnVerified(r, i, outcome, skipped, sendOk);
            var t := r.tasks[i];
            var name := if t.header.name == "" then "received_file" else t.header.name;
            && reply.r.downloads ==
               r.downloads + (if outcome == Saved then [Download(name, Flatten(t.chunks))] else [])
            && reply.back == (if outcome == Corrupt then Sent(r, IntegrityError(t.header.name), sendOk) else [])
            && reply.r.tasks == r.tasks[i := Task(t.header, t.chunks, Settled(outcome), skipped)]
            && reply.r.read == r.read && reply.r.end == r.end && reply.r.acks == r.acks
            && reply.r.pendingFinalize == r.pendingFinalize
  {
  }

  /** A saved file, and only a saved one, is acknowledged at once, whenever the last ack was. */
  lemma ThenAnswered(r: Receiver, i: nat, now: nat, sendOk: bool)
    requires i < |r.tasks| && r.tasks[i].stage.Settled?
    ensures var reply := OnThen(r, i, now, sendOk);
            var saved := r.tasks[i].stage.outcome == Saved;
            && reply.back == (if saved then Sent(r, Ack(r.read.totalDoneBytes), sendOk) else [])
            && reply.r.acks.lastSent == (if saved then now else r.acks.lastSent)
            && reply.r.read == r.read && reply.r.end == r.end && reply.r.downloads == r.downloads
            && reply.r.pendingFinalize == r.pendingFinalize
  {
  }

  /** The teardown comes with `done` or with the last open finalisation, whichever is later. */
  lemma TeardownExactly(r: Receiver, i: nat, now: nat, sendOk: bool)
    requires !r.end.aborted
    ensures OnMessage(r, Done, now, sendOk).r.end.aborted <==> r.pendingFinalize <= 0
    ensures i < |r.tasks| && r.tasks[i].stage.Acked? ==>
              (OnFinally(r, i).end.aborted <==> r.read.doneReceived && r.pendingFinalize <= 1)
  {
  }

  /** On the way from sender to receiver: each delivered chunk that leaves its file incomplete
      puts an ack into the queue exactly when one is due, with what is then received; and no
      ack is ever overdue by then. */
  lemma DeliveryAnswered(w: World, st: Step)
    requires Reachable(w) && st.DeliverForward? && Enabled(w, st) && w.fwd[0].Chunk?
    requires Apply(w, st).r.read.currentFile.Some?
    ensures var w' := Apply(w, st);
            var due := st.now - w.r.acks.lastSent >= 250;
            && w'.r.read.totalDoneBytes == w.r.read.totalDoneBytes + |w.fwd[0].bytes|
            && w'.back == w.back + (if due && st.sendOk then [Ack(w'.r.read.totalDoneBytes)] else [])
            && w'.r.acks.lastSent == (if due then st.now else w.r.acks.lastSent)
            && st.now - w'.r.acks.lastSent < 250
  {
    ReachableIsSafe(w);
    assert ReceiverTail(w.b, w.r)[0] == w.fwd[0];
    ChunkEffect(w.r, w.fwd[0].bytes, st.now, st.sendOk);
  }

  lemma ChunkEffect(r: Receiver, bytes: seq<byte>, now: nat, sendOk: bool)
    requires r.end.channelOpen && !r.end.aborted && r.read.currentFile.Some?
    requires OnMessage(r, Chunk(bytes), now, sendOk).r.read.currentFile.Some?
    ensures var reply := OnMessage(r, Chunk(bytes), now, sendOk);
            var due := now - r.acks.lastSent >= 250;
            && reply.r.read.totalDoneBytes == r.read.totalDoneBytes + |bytes|
            && reply.back == (if due && sendOk then [Ack(reply.r.read.totalDoneBytes)] else [])
            && reply.r.acks.lastSent == (if due then now else r.acks.lastSent)
  {
    if r.read.currentReceived + |bytes| < r.read.currentFile.value.size {
      ChunkAnswered(r, bytes, now, sendOk);
    } else {
      LastChunkAnswered(r, bytes, now, sendOk);
    }
  }

  // ----- After a close -------------------------------------------------------

  /** A closed receiver holds no chunks. */
  ghost predicate NothingHeld(r: Receiver) {
    r.end.aborted ==> r.read.currentChunks == []
  }

  lemma NothingHeldStep(w: World, st: Step)
    requires w.b.Valid() && TaskInv(w.r) && NothingHeld(w.r) && Enabled(w, st)
    ensures NothingHeld(Apply(w, st).r)
  {
    if !st.DeliverForward? && !Receiving(st) {
      SenderLeavesReceiver(w, st);
    }
  }

  lemma {:induction false} NothingHeldRun(w: World, steps: seq<Step>)
    requires Safe(w) && NothingHeld(w.r) && Runs(w, steps)
    ensures NothingHeld(After(w, steps).r)
    decreases |steps|
  {
    if steps != [] {
      NothingHeldStep(w, steps[0]);
      SafeStep(w, steps[0]);
      NothingHeldRun(Apply(w, steps[0]), steps[1..]);
    }
  }

  /** In every run a receiver that has closed has let go of the partial file. */
  lemma CloseDropsChunks(b: Batch, now: nat, steps: seq<Step>)
    requires b.Valid() && Runs(Initial(b, now), steps) && After(Initial(b, now), steps).r.end.aborted
    ensures After(Initial(b, now), steps).r.read.currentChunks == []
  {
    SafeInitial(b, now);
    NothingHeldRun(Initial(b, now), steps);
  }
}
