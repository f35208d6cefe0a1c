/** The results about every run of the protocol, faults included. */
module Safety {
  import opened Messages
  import opened SenderModel
  import opened ReceiverModel
  import opened Protocol
  import opened StreamSafety
  import opened TaskSafety
  import opened VerdictSafety
  import opened AckSafety
  import opened AckRate
  import opened FlowSafety
  import opened Overtaking

  ghost predicate Safe(w: World) {
    && StreamInv(w)
    && ReplayInv(w)
    && TaskInv(w.r)
    && VerdictInv(w.s)
    && StallInv(w.s)
    && FlowInv(w.b, w.s)
    && RareInv(w.b, w.s)
    && EventInv(w)
    && AckInv(w)
    && ClockInv(w)
  }

  lemma SafeInitial(b: Batch, now: nat)
    requires b.Valid()
    ensures Safe(Initial(b, now))
  {
    StreamInitial(b, now);
    TaskInitial();
    VerdictInitial();
    AckInitial(b, now);
    FlowInitial(b);
    RareInitial(b);
  }

  lemma SafeStep(w: World, st: Step)
    requires Safe(w) && Enabled(w, st)
    ensures Safe(Apply(w, st))
  {
    StreamStep(w, st);
    ReplayStep(w, st);
    TaskStep(w, st);
    VerdictStep(w, st);
    StallStep(w, st);
    FlowStep(w, st);
    RareStep(w, st);
    EventStep(w, st);
    AckStep(w, st);
    ClockStep(w, st);
  }

  lemma {:induction false} SafeRun(w: World, steps: seq<Step>)
    requires Safe(w) && Runs(w, steps)
    ensures Safe(After(w, steps))
    decreases |steps|
  {
    if steps != [] {
      SafeStep(w, steps[0]);
      SafeRun(Apply(w, steps[0]), steps[1..]);
    }
  }

  /** Some run of the batch leads here. */
  ghost predicate Reachable(w: World) {
    w.b.Valid() && exists now: nat, steps :: Runs(Initial(w.b, now), steps) && After(Initial(w.b, now), steps) == w
  }

  lemma ReachableIsSafe(w: World)
    requires Reachable(w)
    ensures Safe(w)
  {
    var now: nat, steps :| Runs(Initial(w.b, now), steps) && After(Initial(w.b, now), steps) == w;
    SafeInitial(w.b, now);
    SafeRun(Initial(w.b, now), steps);
  }

  // ----- Stream conservation -------------------------------------------------

  /** Consumed, in flight and still to be sent always make up the batch, and what the
      receiver holds is exactly the files and the partial file that the consumed prefix spells. */
  lemma StreamConservation(w: World)
    requires Reachable(w)
    ensures w.consumed + w.fwd <= Encode(w.b)
    ensures SenderAt(w.b, w.s) && (Live(w.s) ==> w.consumed + w.fwd + SenderTail(w.b, w.s) == Encode(w.b))
    ensures SameReading(w.r, Receive(NEW_RECEIVER, w.consumed))
    ensures |w.r.tasks| <= |w.b.files|
    ensures forall i :: 0 <= i < |w.r.tasks| ==> TaskFor(w.b, w.r.tasks[i], i)
    ensures w.r.read.currentFile.Some? && !w.r.end.aborted ==>
              |w.r.tasks| < |w.b.files| && Flatten(w.r.read.currentChunks) <= w.b.files[|w.r.tasks|].content
  {
    ReachableIsSafe(w);
    PrefixAfter(w.consumed, w.fwd, ReceiverTail(w.b, w.r));
    if Live(w.s) {
      Regroup(w.consumed, w.fwd, SenderTail(w.b, w.s));
    }
  }

  // ----- Byte accounting -----------------------------------------------------

  lemma ByteAccounting(w: World)
    requires Reachable(w)
    ensures var k := |w.r.tasks|;
            && k <= |w.b.files|
            && w.r.read.totalDoneBytes == SizeOfFirst(w.b.files, k) + w.r.read.currentReceived
            && w.r.read.totalDoneBytes <= TotalSize(w.b.files)
            && (w.r.read.totalDoneBytes == TotalSize(w.b.files) <==>
                forall i :: k <= i < |w.b.files| ==> w.b.files[i].content == [])
  {
    ReachableIsSafe(w);
    var k := |w.r.tasks|;
    SizeMonotone(w.b.files, k, |w.b.files|);
    AllBytesInFirst(w.b.files, k);
    if w.r.read.currentReceived > 0 {
      SizeMonotone(w.b.files, k + 1, |w.b.files|);
      assert w.b.files[k].content != [];
    }
  }

  // ----- Success and failure -------------------------------------------------

  /** File i was saved with no tag on the sender's side, or an empty one, with its check
      skipped, or with the digest the sender tagged it with. */
  ghost predicate SavedSoundly(b: Batch, t: Task, i: nat)
    requires b.Valid() && i < |b.files|
  {
    && HasOutcome(t, Saved)
    && (b.hashes[i] == None || b.hashes[i] == Some("") || t.skipped ||
        b.digest(b.files[i].content) == b.hashes[i].value)
  }

  /** A file is saved only untagged, unchecked or with its digest verified. */
  lemma SavedIsVerified(w: World)
    requires Reachable(w)
    ensures |w.r.tasks| <= |w.b.files|
    ensures forall i :: 0 <= i < |w.r.tasks| && HasOutcome(w.r.tasks[i], Saved) ==> SavedSoundly(w.b, w.r.tasks[i], i)
  {
    ReachableIsSafe(w);
    forall i | 0 <= i < |w.r.tasks| && HasOutcome(w.r.tasks[i], Saved) ensures SavedSoundly(w.b, w.r.tasks[i], i) {
      assert TaskFor(w.b, w.r.tasks[i], i) && Verifies(w.r.tasks[i], w.b.digest, w.r.tasks[i].skipped);
    }
  }

  /** A reported success means the sender is through, every byte arrived and at least one
      file was saved; with one file, that file was. */
  lemma SuccessIsSound(w: World)
    requires Reachable(w) && Success in w.s.confirm.verdicts
    ensures w.s.pos.finished
    ensures w.consumed + w.fwd + (if w.s.pos.doneSent then [] else [Done]) == Encode(w.b)
    ensures w.r.read.totalDoneBytes == TotalSize(w.b.files)
    ensures SomeOutcome(w.r.tasks, Saved)
    ensures |w.b.files| == 1 ==>
              |w.r.tasks| == 1 && SavedSoundly(w.b, w.r.tasks[0], 0) && w.r.downloads == Downloads(w.b.files)
  {
    ReachableIsSafe(w);
    ShapeCounts(w.s.confirm.verdicts, w.s.link.aborted);
    SuccessFacts(w);
    StreamConservation(w);
    ByteAccounting(w);
    if |w.b.files| == 1 {
      SingleFileSaved(w.b, w.r);
      SavedIsVerified(w);
    }
  }

  lemma SuccessFacts(w: World)
    requires w.b.Valid() && VerdictInv(w.s) && AckInv(w)
    requires w.s.confirm.verdicts != [] && w.s.confirm.verdicts[0] == Success
    ensures w.s.pos.finished
    ensures w.r.read.totalDoneBytes >= TotalSize(w.b.files)
    ensures SomeOutcome(w.r.tasks, Saved)
  {
    var v :| v in w.s.log.acks && FullAck(w.b, v);
    assert v in Trail(w);
  }

  lemma SingleFileSaved(b: Batch, r: Receiver)
    requires b.Valid() && |b.files| == 1 && ReceiverAt(b, r) && TaskInv(r) && SomeOutcome(r.tasks, Saved)
    ensures |r.tasks| == 1 && HasOutcome(r.tasks[0], Saved) && r.downloads == Downloads(b.files)
  {
    assert TaskFor(b, r.tasks[0], 0);
    AllSaved(b, r.tasks);
    assert b.files[..1] == b.files;
    SingletonSeq(r.downloads, Downloads(b.files));
  }

  lemma SingletonSeq(x: seq<Download>, y: seq<Download>)
    requires multiset(x) == multiset(y) && |y| == 1
    ensures x == y
  {
    assert |x| == |multiset(x)| == |multiset(y)| == 1;
    assert x[0] in multiset(x);
    assert y == [y[0]];
  }

  // ----- A `done` that does not go out -----------------------------------------

  /** The read that finishes the batch sends `done` exactly if that send works. */
  lemma LoadSendsDone(b: Batch, s: Sender, ok: Sends)
    requires b.Valid() && SenderAt(b, s) && s.pos.chain.Some?
    requires OnLoad(b, s, s.pos.chain.value, ok).s.pos.finished
    ensures OnLoad(b, s, s.pos.chain.value, ok).s.pos.doneSent <==> ok.done
  {
  }

  /** When the last chunk has gone out, `done` has exactly if its own send worked: an exception
      there is swallowed and the sender goes on as if it had been sent. */
  lemma DoneSentExactly(w: World, ok: Sends)
    requires Reachable(w) && Enabled(w, Load(ok)) && Apply(w, Load(ok)).s.pos.finished
    ensures Apply(w, Load(ok)).s.pos.doneSent <==> ok.done
  {
    ReachableIsSafe(w);
    LoadSendsDone(w.b, w.s, ok);
  }

  /** Without `done` the receiver never tears down by itself. */
  lemma DroppedDoneHangs(w: World)
    requires Reachable(w) && w.s.pos.finished && !w.s.pos.doneSent
    ensures !w.r.read.doneReceived && w.r.end.finishes == 0
    ensures Done !in w.consumed + w.fwd
  {
    ReachableIsSafe(w);
    Regroup(w.consumed, w.fwd, [Done]);
    NoDoneBefore(w.b, w.consumed + w.fwd);
    assert ReceiverTail(w.b, w.r) == w.fwd + [Done];
  }

  lemma NoDoneBefore(b: Batch, msgs: seq<Message>)
    requires b.Valid() && msgs + [Done] == Encode(b)
    ensures Done !in msgs
  {
    EncodingIsExact(b, 0);
    assert NoEarlyDone(msgs + [Done]);
    forall k | 0 <= k < |msgs| ensures msgs[k] != Done {
      assert (msgs + [Done])[k] == msgs[k];
    }
  }

  /** At most one success; a success and a timeout failure exclude each other; only a
      corruption report can follow a success, and never with a single file. No other error
      message accompanies a success. Once the batch is through, the timer is armed, a verdict
      is out, or the user or the peer called it off. */
  lemma FinalAckRace(w: World)
    requires Reachable(w)
    ensures VerdictShape(w.s.confirm.verdicts, w.s.link.aborted)
    ensures multiset(w.s.confirm.verdicts)[Success] <= 1
    ensures Success in w.s.confirm.verdicts ==> Unconfirmed !in w.s.confirm.verdicts && w.s.log.alerts == []
    ensures w.s.pos.finished ==>
              w.s.confirm.completionTimer || w.s.confirm.verdicts != [] || w.s.link.cancelled
    ensures |w.b.files| == 1 ==> |w.s.confirm.verdicts| <= 1
  {
    ReachableIsSafe(w);
    ShapeCounts(w.s.confirm.verdicts, w.s.link.aborted);
    if |w.s.confirm.verdicts| > 1 && |w.b.files| == 1 {
      SingleFileVerdict(w);
    }
  }

  lemma ShapeCounts(v: seq<Verdict>, aborted: bool)
    requires VerdictShape(v, aborted)
    ensures multiset(v)[Success] <= 1
    ensures Success in v ==> Unconfirmed !in v && v[0] == Success
    ensures |v| <= 2 && (|v| == 2 ==> v[0] == Success && v[1].Corrupted? && v[1] in v)
  {
    if |v| == 2 {
      assert v == [v[0], v[1]];
    } else if |v| == 1 {
      assert v == [v[0]];
    }
  }

  /** The only file cannot be both saved and corrupt. */
  lemma SingleFileVerdict(w: World)
    requires Reachable(w) && |w.b.files| == 1
    ensures |w.s.confirm.verdicts| <= 1
  {
    ReachableIsSafe(w);
    ShapeCounts(w.s.confirm.verdicts, w.s.link.aborted);
    if |w.s.confirm.verdicts| == 2 {
      SuccessFacts(w);
      SavedOrCorrupt(w.r.tasks, w.s.confirm.verdicts[1].name);
    }
  }

  lemma SavedOrCorrupt(tasks: seq<Task>, name: string)
    requires |tasks| <= 1 && SomeOutcome(tasks, Saved)
    ensures !Culprit(tasks, name)
  {
  }

  /** After any failure or close nothing more is sent or reported, however long the run. */
  lemma {:induction false} ClosedForGood(w: World, steps: seq<Step>)
    requires Safe(w) && w.s.link.aborted && Runs(w, steps)
    ensures var w' := After(w, steps);
            && w'.s.link.aborted
            && w'.s.confirm.verdicts == w.s.confirm.verdicts
            && w'.consumed + w'.fwd == w.consumed + w.fwd
    decreases |steps|
  {
    if steps != [] {
      SafeStep(w, steps[0]);
      ClosedIsFinal(w, steps[0]);
      ClosedForGood(Apply(w, steps[0]), steps[1..]);
    }
  }

  /** The sender never closes without a word unless called off, and a batch once begun is
      being read or paused, waits for its confirmation, has shown an outcome, or has lost its channel. */
  lemma NoSilentEnd(w: World)
    requires Reachable(w)
    ensures w.s.link.aborted ==> w.s.confirm.verdicts != [] || w.s.log.alerts != [] || w.s.link.cancelled
    ensures || !w.s.pos.started || w.s.pos.chain.Some? || w.s.confirm.completionTimer
            || w.s.confirm.verdicts != [] || w.s.log.alerts != [] || w.s.link.cancelled
            || (Stalled(w.s) && !w.s.link.channelOpen)
  {
    ReachableIsSafe(w);
  }

  /** A corruption is only ever reported for a file whose tag is not its digest. */
  lemma CorruptionIsReal(w: World, name: string)
    requires Reachable(w) && Corrupted(name) in w.s.confirm.verdicts
    ensures exists i :: 0 <= i < |w.b.files| && w.b.files[i].name == name &&
                        w.b.hashes[i].Some? && w.b.hashes[i].value != w.b.digest(w.b.files[i].content)
  {
    ReachableIsSafe(w);
    var i :| 0 <= i < |w.r.tasks| && HasOutcome(w.r.tasks[i], Corrupt) && w.r.tasks[i].header.name == name;
    assert TaskFor(w.b, w.r.tasks[i], i);
    assert !Verifies(w.r.tasks[i], w.b.digest, false);
  }

  // ----- Teardown ------------------------------------------------------------

  /** When the receiver tears down because it is ready, every file has been received and
      finalised once, none is pending, and it closes once. */
  lemma SafeTeardown(w: World)
    requires Reachable(w)
    ensures w.r.end.finishes <= 1 && w.r.end.closes <= 1
    ensures w.r.pendingFinalize == SumOver(w.r.tasks, Open)
    ensures w.r.end.finishes == 1 ==>
              && w.r.end.closes == 1
              && w.consumed == Encode(w.b)
              && |w.r.tasks| == |w.b.files|
              && forall i :: 0 <= i < |w.r.tasks| ==> TaskFor(w.b, w.r.tasks[i], i) && w.r.tasks[i].stage.Complete?
  {
    ReachableIsSafe(w);
    if w.r.end.finishes == 1 {
      assert ReceiverTail(w.b, w.r) == [];
      assert w.consumed + [] == w.consumed;
      forall i | 0 <= i < |w.r.tasks| ensures w.r.tasks[i].stage.Complete? {
        SumAtLeast(w.r.tasks, i, Open);
      }
    }
  }

  // ----- Acknowledgements ----------------------------------------------------

  lemma AckStream(w: World)
    requires Reachable(w)
    ensures Sorted(Trail(w))
    ensures forall v :: v in Trail(w) ==> v <= w.r.read.totalDoneBytes
    ensures Sorted(w.s.log.percents) && forall p :: p in w.s.log.percents ==> 0 <= p <= 100
    ensures w.r.acks.throttled + w.r.acks.forced
            <= |w.b.files| + (w.clock - w.began) / 250 + 1
    ensures var short := ShortAcks(w.s.log.acks, TotalSize(w.b.files));
            && |w.s.log.percents| == |short|
            && forall i :: 0 <= i < |short| ==> Nearest(w.s.log.percents[i], 100 * short[i], TotalSize(w.b.files))
  {
    ReachableIsSafe(w);
    AcksAreRare(w);
    forall i, j | 0 <= i < j < |w.s.log.acks| ensures w.s.log.acks[i] <= w.s.log.acks[j] {
      assert Trail(w)[i] <= Trail(w)[j];
    }
    PercentsGoUp(w.s.log.acks, w.s.pos.totalBytes);
    if w.s.pos.started {
      PercentsAreNearest(w.s.log.acks, w.s.pos.totalBytes);
    } else {
      BeforeStart(w);
    }
  }

  // ----- Backpressure --------------------------------------------------------

  /** The buffer never exceeds the high mark by more than one chunk, the headers and first
      chunks of the files begun since the last gated chunk, the final message, and one chunk
      per low-water event dispatched when the buffer was full again. There are at most as many
      of those as events, and as files since the last gated chunk, its own included, plus events
      raised while another was queued; events are no more than messages sent. And a paused
      sender has its handler attached with a wake-up to come. */
  lemma Backpressure(w: World)
    requires Reachable(w)
    ensures SenderAt(w.b, w.s)
    ensures w.s.flow.buffered
            <= 1048576 + 16384 + 16384 * w.s.flow.note.overtaken
               + UngatedCost(w.b, w.s.flow.note.gateFile, Begun(w.b, w.s.pos))
               + (if w.s.pos.doneSent then 15 else 0)
    ensures w.s.flow.note.overtaken + w.s.flow.note.gateFile <= Begun(w.b, w.s.pos) + 1 + w.s.flow.note.stacked
    ensures w.s.flow.note.overtaken <= w.s.flow.note.raised <= |w.consumed + w.fwd|
    ensures Waiting(w.s) ==>
              w.s.flow.lowHandler && (w.s.flow.buffered > 262144 || w.s.flow.lowPending > 0)
  {
    ReachableIsSafe(w);
  }
}
