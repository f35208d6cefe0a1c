/** Where the program does less than its comments say, and exactly when. */
module Limits {
  import opened Messages
  import opened SenderModel
  import opened ReceiverModel
  import opened Protocol
  import opened StreamSafety
  import opened TaskSafety
  import opened VerdictSafety
  import opened AckSafety
  import opened Safety
  import opened Termination
  import opened Completion

  // ----- A success is not "all files saved" ----------------------------------

  ghost predicate AllFilesSaved(w: World) {
    && |w.r.tasks| == |w.b.files|
    && forall i :: 0 <= i < |w.r.tasks| ==> HasOutcome(w.r.tasks[i], Saved)
  }

  /** Whenever success is reported for this batch, every file has been saved. */
  ghost predicate SuccessMeansAllSaved(b: Batch)
    requires b.Valid()
  {
    forall now: nat, steps ::
      Runs(Initial(b, now), steps) && Success in After(Initial(b, now), steps).s.confirm.verdicts ==>
        AllFilesSaved(After(Initial(b, now), steps))
  }

  ghost predicate AllVerifying(r: Receiver) {
    forall i :: 0 <= i < |r.tasks| ==> r.tasks[i].stage.Verifying?
  }

  ghost predicate OthersVerifying(r: Receiver, j: nat) {
    forall i :: 0 <= i < |r.tasks| && i != j ==> r.tasks[i].stage.Verifying?
  }

  /** Any batch can be delivered in full, with or without its `done`, before a single check
      completes. */
  lemma {:induction false} DeliverAll(w: World, done: bool) returns (steps: seq<Step>)
    requires Smooth(w) && AllVerifying(w.r)
    ensures Runs(w, steps)
    ensures var w' := After(w, steps);
            && Smooth(w') && AllVerifying(w'.r) && w'.s.pos.finished && w'.fwd == []
            && (!w.s.link.aborted ==> !w'.s.link.aborted)
            && w'.s.pos.doneSent == (if w.s.pos.finished then w.s.pos.doneSent else done)
    decreases Potential(w)
  {
    if w.s.pos.finished && w.fwd == [] {
      steps := [];
    } else {
      var st := NextDelivery(w, done);
      var rest := DeliverAll(Apply(w, st), done);
      Prepend(w, st, rest);
      steps := [st] + rest;
    }
  }

  /** One step towards it. */
  lemma NextDelivery(w: World, done: bool) returns (st: Step)
    requires Smooth(w) && AllVerifying(w.r) && (!w.s.pos.finished || w.fwd != [])
    ensures Enabled(w, st) && Delivers(w, Apply(w, st), done)
  {
    st := ChooseDelivery(w, done);
    StepDelivers(w, st, done);
  }

  lemma ChooseDelivery(w: World, done: bool) returns (st: Step)
    requires Smooth(w) && (!w.s.pos.finished || w.fwd != [])
    ensures Enabled(w, st) && Harmless(st)
    ensures !st.DelayedClose? && !Receiving(st) && (st.Load? ==> st.ok.done == done)
  {
    if !w.s.pos.finished {
      st := SenderDelivery(w, done);
    } else {
      MessageMoves(w);
      st := DeliverForward(w.clock, true);
    }
  }

  lemma SenderDelivery(w: World, done: bool) returns (st: Step)
    requires Smooth(w) && !w.s.pos.finished
    ensures Enabled(w, st) && Harmless(st)
    ensures !st.DelayedClose? && !Receiving(st) && (st.Load? ==> st.ok.done == done)
  {
    st := SenderMoves(w);
    if st.Load? {
      LoadAnyhow(w, st, Load(Sends(true, true, done)));
      st := Load(Sends(true, true, done));
    }
  }

  /** Whether a read completes does not depend on what the sends in its callback do. */
  lemma LoadAnyhow(w: World, st: Step, st': Step)
    requires w.b.Valid() && st.Load? && st'.Load? && Enabled(w, st)
    ensures Enabled(w, st')
  {
  }

  ghost predicate Delivers(w: World, w': World, done: bool) {
    && Smooth(w) && Smooth(w') && AllVerifying(w'.r) && Potential(w') < Potential(w)
    && w'.s.link.aborted == w.s.link.aborted
    && (w.s.pos.finished ==> w'.s.pos.finished)
    && (w'.s.pos.finished ==> w'.s.pos.doneSent == (if w.s.pos.finished then w.s.pos.doneSent else done))
  }

  lemma StepDelivers(w: World, st: Step, done: bool)
    requires Smooth(w) && AllVerifying(w.r) && Enabled(w, st) && Harmless(st)
    requires !st.DelayedClose? && !Receiving(st) && (st.Load? ==> st.ok.done == done)
    ensures Delivers(w, Apply(w, st), done)
  {
    StillVerifying(w, st);
    SmoothStep(w, st);
    StepDecreases(w, st);
    StaysOpen(w, st);
    FinishKept(w, st);
  }

  /** Being finished, and with or without `done`, is for good. */
  lemma FinishKept(w: World, st: Step)
    requires StreamInv(w) && Enabled(w, st)
    ensures var p, p' := w.s.pos, Apply(w, st).s.pos;
            && (p.finished ==> p'.finished && p'.doneSent == p.doneSent)
            && (p'.finished && !p.finished ==> st.Load? && p'.doneSent == st.ok.done)
  {
    if st.Load? {
      FinishByLoad(w.b, w.s, st.ok);
    } else if st.DeliverForward? || Receiving(st) {
      ReceiverLeavesSender(w, st);
    } else if st.LowEvent? {
      LowPlace(w.s);
    } else if st.Start? {
      StartNeverFinishes(w.b, w.s, st.ok);
    } else {
      QuietSender(w, st);
    }
  }

  lemma FinishByLoad(b: Batch, s: Sender, ok: Sends)
    requires b.Valid() && SenderAt(b, s) && s.pos.chain.Some?
    ensures !s.pos.finished
    ensures var p' := OnLoad(b, s, s.pos.chain.value, ok).s.pos;
            p'.finished ==> p'.doneSent == ok.done
  {
    if OnLoad(b, s, s.pos.chain.value, ok).s.pos.finished {
      LoadSendsDone(b, s, ok);
    }
  }

  lemma StillVerifying(w: World, st: Step)
    requires w.b.Valid() && Enabled(w, st) && AllVerifying(w.r) && !Receiving(st)
    ensures AllVerifying(Apply(w, st).r)
  {
    if st.DeliverForward? {
      MessageKeepsTasks(w.r, w.fwd[0], st.now, st.sendOk);
    } else {
      SenderLeavesReceiver(w, st);
    }
  }

  /** In a fault-free run only the delayed close ends the sender's connection. */
  lemma StaysOpen(w: World, st: Step)
    requires Smooth(w) && Enabled(w, st) && Harmless(st) && !st.DelayedClose? && !Receiving(st)
    ensures Apply(w, st).s.link.aborted == w.s.link.aborted
  {
    OpenKept(w, st);
  }

  lemma OpenKept(w: World, st: Step)
    requires StreamInv(w) && AckInv(w) && GoodTasks(w) && SmoothSender(w.s)
    requires Enabled(w, st) && Harmless(st) && !st.DelayedClose? && !Receiving(st)
    ensures Apply(w, st).s.link.aborted == w.s.link.aborted
  {
    if st.Start? || st.Load? {
      EmitOpen(w, st);
    } else if st.DeliverBack? {
      OnlyAcksBack(w);
      AckOpen(w.s, w.back[0]);
    } else {
      QuietOpen(w, st);
    }
  }

  lemma EmitOpen(w: World, st: Step)
    requires StreamInv(w) && SmoothSender(w.s) && Enabled(w, st) && Harmless(st) && (st.Start? || st.Load?)
    ensures Apply(w, st).s.link.aborted == w.s.link.aborted
  {
  }

  lemma AckOpen(s: Sender, m: Back)
    requires m.Ack?
    ensures OnBack(s, m).link.aborted == s.link.aborted
  {
  }

  lemma QuietOpen(w: World, st: Step)
    requires w.b.Valid() && Enabled(w, st) && (st.Drain? || st.LowEvent? || st.DeliverForward?)
    ensures Apply(w, st).s.link.aborted == w.s.link.aborted
  {
  }

  /** With a full ack on its way, the sender gets to report success; the receiver stands still. */
  lemma {:induction false} AcksBringSuccess(w: World) returns (steps: seq<Step>)
    requires Smooth(w) && w.s.pos.finished && FullAckOut(w)
    ensures Runs(w, steps)
    ensures var w' := After(w, steps);
            && Smooth(w') && Success in w'.s.confirm.verdicts && w'.r == w.r
            && w'.s.link.aborted == w.s.link.aborted && w'.s.pos == w.s.pos
    decreases |w.back|
  {
    if w.s.confirm.finalAckReceived {
      steps := [];
    } else {
      NextAck(w);
      var rest := AcksBringSuccess(Apply(w, DeliverBack));
      Prepend(w, DeliverBack, rest);
      steps := [DeliverBack] + rest;
    }
  }

  ghost predicate FullAckOut(w: World)
    requires w.b.Valid()
  {
    exists v :: v in Trail(w) && FullAck(w.b, v)
  }

  lemma NextAck(w: World)
    requires Smooth(w) && w.s.pos.finished && !w.s.confirm.finalAckReceived && FullAckOut(w)
    ensures Enabled(w, DeliverBack)
    ensures var w' := Apply(w, DeliverBack);
            && Smooth(w') && FullAckOut(w') && w'.r == w.r && w'.s.pos == w.s.pos && |w'.back| < |w.back|
            && w'.s.link.aborted == w.s.link.aborted
  {
    AckWaits(w);
    TakeBack(w);
    BackKeepsSmooth(w, DeliverBack);
  }

  lemma BackKeepsSmooth(w: World, st: Step)
    requires Smooth(w) && st.DeliverBack? && Enabled(w, st)
    ensures Smooth(Apply(w, st)) && Apply(w, st).s.link.aborted == w.s.link.aborted
  {
    StaysOpen(w, st);
    SmoothStep(w, st);
  }

  /** Without a full ack seen, the one on the trail is still in flight. */
  lemma AckWaits(w: World)
    requires Smooth(w) && w.s.pos.finished && !w.s.confirm.finalAckReceived
    requires FullAckOut(w)
    ensures w.s.link.channelOpen && w.back != []
  {
    var v :| v in Trail(w) && FullAck(w.b, v);
    assert v !in w.s.log.acks;
  }

  lemma TakeBack(w: World)
    requires w.b.Valid() && Enabled(w, DeliverBack)
    ensures var w' := Apply(w, DeliverBack);
            && w'.r == w.r && w'.s.pos == w.s.pos && |w'.back| < |w.back|
            && (FullAckOut(w) ==> FullAckOut(w'))
  {
    BackKeepsPlace(w.s, w.back[0]);
    TrailKeptByBack(w, DeliverBack);
  }

  /** In a batch of several files any one file's ack can already carry the full count, so
      success can be reported while every other file is still being checked. */
  lemma EarlySuccess(b: Batch, now: nat, j: nat, done: bool) returns (steps: seq<Step>)
    requires b.Valid() && j < |b.files|
    ensures Runs(Initial(b, now), steps)
    ensures var w := After(Initial(b, now), steps);
            && Smooth(w) && !w.s.link.aborted
            && Success in w.s.confirm.verdicts
            && w.s.pos.doneSent == done
            && |w.r.tasks| == |b.files|
            && OthersVerifying(w.r, j)
  {
    var w0 := Initial(b, now);
    SmoothInitial(b, now);
    var deliver := DeliverAll(w0, done);
    var w1 := After(w0, deliver);
    var rest := OneFileSucceeds(w1, j);
    RunsConcat(w0, deliver, rest);
    steps := deliver + rest;
  }

  /** With everything delivered and nothing checked, one file's check is enough. */
  lemma OneFileSucceeds(w: World, j: nat) returns (steps: seq<Step>)
    requires Smooth(w) && AllVerifying(w.r) && w.s.pos.finished && w.fwd == [] && j < |w.b.files|
    ensures Runs(w, steps)
    ensures var w' := After(w, steps);
            && Smooth(w') && w'.s.link.aborted == w.s.link.aborted && w'.s.pos == w.s.pos
            && Success in w'.s.confirm.verdicts
            && |w'.r.tasks| == |w.b.files|
            && OthersVerifying(w'.r, j)
  {
    EverythingArrived(w);
    var settle, w1 := FileAcks(w, j);
    var acks := AcksBringSuccess(w1);
    RunsConcat(w, settle, acks);
    steps := settle + acks;
  }

  lemma FileAcks(w: World, j: nat) returns (steps: seq<Step>, w': World)
    requires Smooth(w) && AllVerifying(w.r) && w.s.pos.finished && w.fwd == []
    requires j < |w.r.tasks| == |w.b.files|
    ensures Runs(w, steps) && After(w, steps) == w'
    ensures Smooth(w') && w'.s == w.s && FullAckOut(w')
    ensures |w'.r.tasks| == |w.r.tasks|
    ensures OthersVerifying(w'.r, j)
  {
    ReceiverOpen(w, j);
    var verify := Verified(j, Saved, true, true);
    SmoothStep(w, verify);
    var w1 := Apply(w, verify);
    FileVerified(w, j);
    var ack := Then(j, w1.clock, true);
    TwoSteps(w, verify, ack);
    steps := [verify, ack];
    w' := AckStepTaken(w1, j);
  }

  lemma AckStepTaken(w: World, j: nat) returns (w': World)
    requires Smooth(w) && j < |w.r.tasks| && w.r.tasks[j].stage == Settled(Saved)
    requires w.r.end.channelOpen && |w.r.tasks| == |w.b.files|
    requires OthersVerifying(w.r, j)
    ensures w' == Apply(w, Then(j, w.clock, true))
    ensures Smooth(w') && w'.s == w.s && FullAckOut(w')
    ensures |w'.r.tasks| == |w.r.tasks|
    ensures OthersVerifying(w'.r, j)
  {
    w' := Apply(w, Then(j, w.clock, true));
    AckIsSmooth(w, j);
    FileAcked(w, j);
    FullAckSent(w, w');
  }

  lemma AckIsSmooth(w: World, j: nat)
    requires Smooth(w) && j < |w.r.tasks| && w.r.tasks[j].stage == Settled(Saved)
    ensures Enabled(w, Then(j, w.clock, true)) && Smooth(Apply(w, Then(j, w.clock, true)))
  {
    SmoothStep(w, Then(j, w.clock, true));
  }

  /** An outstanding task keeps a fault-free receiver's channel open. */
  lemma ReceiverOpen(w: World, j: nat)
    requires Smooth(w) && j < |w.r.tasks| && !w.r.tasks[j].stage.Complete?
    ensures !w.r.end.aborted && w.r.end.channelOpen
  {
    SumAtLeast(w.r.tasks, j, Open);
  }

  lemma TwoSteps(w: World, st: Step, st': Step)
    requires w.b.Valid() && Enabled(w, st) && Enabled(Apply(w, st), st')
    ensures Runs(w, [st, st']) && After(w, [st, st']) == Apply(Apply(w, st), st')
  {
    Prepend(Apply(w, st), st', []);
    Prepend(w, st, [st'] + []);
    assert [st] + ([st'] + []) == [st, st'];
  }

  lemma FileVerified(w: World, j: nat)
    requires w.b.Valid() && Enabled(w, Verified(j, Saved, true, true)) && AllVerifying(w.r)
    ensures var w' := Apply(w, Verified(j, Saved, true, true));
            && w'.s == w.s && w'.r.read == w.r.read && w'.r.end == w.r.end
            && |w'.r.tasks| == |w.r.tasks| && w'.r.tasks[j].stage == Settled(Saved)
            && OthersVerifying(w'.r, j)
  {
  }

  lemma FileAcked(w: World, j: nat)
    requires w.b.Valid() && Enabled(w, Then(j, w.clock, true)) && w.r.tasks[j].stage == Settled(Saved)
    requires w.r.end.channelOpen
    ensures var w' := Apply(w, Then(j, w.clock, true));
            && w'.s == w.s && w'.back == w.back + [Ack(w.r.read.totalDoneBytes)]
            && |w'.r.tasks| == |w.r.tasks|
            && forall i :: 0 <= i < |w'.r.tasks| && i != j ==> w'.r.tasks[i] == w.r.tasks[i]
  {
  }

  lemma FullAckSent(w: World, w': World)
    requires StreamInv(w) && |w.r.tasks| == |w.b.files| && w'.b == w.b
    requires w'.s == w.s && w'.back == w.back + [Ack(w.r.read.totalDoneBytes)]
    ensures FullAckOut(w')
  {
    var v := w.r.read.totalDoneBytes;
    AckValuesConcat(w.back, [Ack(v)]);
    assert AckValues([Ack(v)]) == [v];
    assert v in Trail(w') && FullAck(w'.b, v);
  }

  /** A reported success means "all files saved" exactly for batches of one file. */
  lemma SuccessMeansAllSavedExactly(b: Batch)
    requires b.Valid()
    ensures SuccessMeansAllSaved(b) <==> |b.files| == 1
  {
    if |b.files| == 1 {
      forall now: nat, steps |
        Runs(Initial(b, now), steps) && Success in After(Initial(b, now), steps).s.confirm.verdicts
        ensures AllFilesSaved(After(Initial(b, now), steps))
      {
        SuccessIsSound(After(Initial(b, now), steps));
      }
    } else {
      var steps := EarlySuccess(b, 0, 0, true);
      var w := After(Initial(b, 0), steps);
      assert w.r.tasks[1].stage.Verifying?;
    }
  }

  // ----- Every verdict happens -----------------------------------------------

  /** Every batch has a run in which the transfer is reported as unconfirmed. */
  lemma TimeoutRun(b: Batch, now: nat) returns (steps: seq<Step>)
    requires b.Valid()
    ensures Runs(Initial(b, now), steps)
    ensures After(Initial(b, now), steps).s.confirm.verdicts == [Unconfirmed]
  {
    var w0 := Initial(b, now);
    SmoothInitial(b, now);
    var deliver := DeliverAll(w0, true);
    var w := After(w0, deliver);
    NoSuccessYet(w);
    TimerFires(w, CompletionTimeout);
    Prepend(w, CompletionTimeout, []);
    RunsConcat(w0, deliver, [CompletionTimeout] + []);
    steps := deliver + ([CompletionTimeout] + []);
  }

  /** While every file is still being checked there is no verdict, and the timer is armed. */
  lemma NoSuccessYet(w: World)
    requires Smooth(w) && AllVerifying(w.r) && w.s.pos.finished
    ensures w.s.confirm.verdicts == [] && w.s.confirm.completionTimer
  {
    if w.s.confirm.verdicts != [] {
      SuccessFacts(w);
    }
  }

  lemma TimerFires(w: World, st: Step)
    requires Safe(w) && st.CompletionTimeout? && Enabled(w, st) && w.s.confirm.verdicts == []
    ensures Apply(w, st).s.confirm.verdicts == [Unconfirmed]
  {
    VerdictsByCause(w, st);
  }

  /** Some run of the batch reports one of its files as corrupted. */
  ghost predicate CanReportCorruption(b: Batch)
    requires b.Valid()
  {
    exists now: nat, steps, name ::
      Runs(Initial(b, now), steps) && Corrupted(name) in After(Initial(b, now), steps).s.confirm.verdicts
  }

  /** A corruption can be reported exactly for a batch with a wrong tag. */
  lemma CorruptionExactly(b: Batch)
    requires b.Valid()
    ensures CanReportCorruption(b) <==> exists i :: WrongTag(b, i)
  {
    if CanReportCorruption(b) {
      var now: nat, steps, name :|
        Runs(Initial(b, now), steps) && Corrupted(name) in After(Initial(b, now), steps).s.confirm.verdicts;
      assert Reachable(After(Initial(b, now), steps));
      CulpritHasWrongTag(After(Initial(b, now), steps), name);
    }
    if i: nat :| WrongTag(b, i) {
      var steps := CorruptionRun(b, i);
    }
  }

  lemma CorruptionRun(b: Batch, i: nat) returns (steps: seq<Step>)
    requires b.Valid() && WrongTag(b, i)
    ensures Runs(Initial(b, 0), steps)
    ensures Corrupted(b.files[i].name) in After(Initial(b, 0), steps).s.confirm.verdicts
  {
    var w0 := Initial(b, 0);
    SmoothInitial(b, 0);
    var deliver := DeliverAll(w0, true);
    var w := After(w0, deliver);
    EverythingArrived(w);
    var rest := FailAndComplain(w, i);
    RunsConcat(w0, deliver, rest);
    steps := deliver + rest;
  }

  /** A failed check's complaint reaches the sender. */
  lemma FailAndComplain(w: World, i: nat) returns (steps: seq<Step>)
    requires Smooth(w) && !w.s.link.aborted && i < |w.r.tasks| && w.r.tasks[i].stage.Verifying? && WrongTag(w.b, i)
    ensures Runs(w, steps) && Corrupted(w.b.files[i].name) in After(w, steps).s.confirm.verdicts
  {
    var fail := Verified(i, Corrupt, false, true);
    CheckFails(w, i);
    OnlyAcksBack(w);
    SafeStep(w, fail);
    var rest := ComplaintArrives(Apply(w, fail), w.b.files[i].name);
    Prepend(w, fail, rest);
    steps := [fail] + rest;
  }

  /** An integrity error queued behind acknowledgements reaches a sender on an open channel. */
  lemma {:induction false} ComplaintArrives(w: World, name: string) returns (steps: seq<Step>)
    requires Safe(w) && w.s.link.channelOpen && ErrorAfterAcks(w.back, name)
    ensures Runs(w, steps) && Corrupted(name) in After(w, steps).s.confirm.verdicts
    decreases |w.back|
  {
    var st := DeliverBack;
    ComplaintNearer(w, st, name);
    if |w.back| == 1 {
      Prepend(w, st, []);
      steps := [st] + [];
    } else {
      SafeStep(w, st);
      var rest := ComplaintArrives(Apply(w, st), name);
      Prepend(w, st, rest);
      steps := [st] + rest;
    }
  }

  lemma ComplaintNearer(w: World, st: Step, name: string)
    requires w.b.Valid() && w.s.link.channelOpen && ErrorAfterAcks(w.back, name) && st.DeliverBack?
    ensures Enabled(w, st)
    ensures var w' := Apply(w, st);
            && |w'.back| < |w.back|
            && if |w.back| == 1 then Corrupted(name) in w'.s.confirm.verdicts
               else w'.s.link.channelOpen && ErrorAfterAcks(w'.back, name)
  {
    if |w.back| > 1 {
      AckLeavesOpen(w.s, w.back[0]);
    } else {
      ComplaintShown(w.s, name);
    }
  }

  lemma ComplaintShown(s: Sender, name: string)
    ensures Corrupted(name) in OnBack(s, IntegrityError(name)).confirm.verdicts
  {
    assert (s.confirm.verdicts + [Corrupted(name)])[|s.confirm.verdicts|] == Corrupted(name);
  }

  lemma AckLeavesOpen(s: Sender, m: Back)
    requires m.Ack?
    ensures OnBack(s, m).link.channelOpen == s.link.channelOpen
  {
  }

  // ----- A success without `done` --------------------------------------------

  /** Every batch has a run that reports success although `done` never went out. */
  lemma SuccessWithoutDone(b: Batch, now: nat) returns (steps: seq<Step>)
    requires b.Valid()
    ensures Runs(Initial(b, now), steps)
    ensures var w := After(Initial(b, now), steps);
            Success in w.s.confirm.verdicts && w.s.pos.finished && !w.s.pos.doneSent && w.r.end.finishes == 0
  {
    steps := EarlySuccess(b, now, 0, false);
    var w := After(Initial(b, now), steps);
    assert Reachable(w);
    SuccessIsSound(w);
    DroppedDoneHangs(w);
  }

  /** A run finishes with `done` sent if no send of it threw. */
  lemma {:induction false} DoneSentInRun(w: World, steps: seq<Step>)
    requires Safe(w) && DoneOut(w.s) && Runs(w, steps)
    requires forall st :: st in steps && st.Load? ==> st.ok.done
    ensures DoneOut(After(w, steps).s)
    decreases |steps|
  {
    if steps != [] {
      assert steps[0] in steps;
      FinishKept(w, steps[0]);
      SafeStep(w, steps[0]);
      DoneSentInRun(Apply(w, steps[0]), steps[1..]);
    }
  }

  // ----- A success can be taken back -----------------------------------------

  /** Some file carries a tag that is not its digest. */
  ghost predicate WrongTag(b: Batch, i: nat)
    requires b.Valid()
  {
    && i < |b.files| && b.hashes[i].Some? && b.hashes[i].value != ""
    && b.hashes[i].value != b.digest(b.files[i].content)
  }

  /** Some run reports success and then a corrupted file. */
  ghost predicate CanRetract(b: Batch)
    requires b.Valid()
  {
    exists now: nat, steps ::
      Runs(Initial(b, now), steps) && |After(Initial(b, now), steps).s.confirm.verdicts| == 2
  }

  /** The integrity error queued behind acknowledgements reaches a sender that has already
      reported success. */
  lemma {:induction false} ErrorArrives(w: World, name: string) returns (steps: seq<Step>)
    requires Safe(w) && w.s.link.channelOpen && w.s.confirm.verdicts == [Success]
    requires ErrorAfterAcks(w.back, name)
    ensures Runs(w, steps) && |After(w, steps).s.confirm.verdicts| == 2
    decreases |w.back|
  {
    var st := DeliverBack;
    var w' := Apply(w, st);
    if |w.back| == 1 {
      TakeError(w, name);
      Prepend(w, st, []);
      steps := [st] + [];
    } else {
      SafeStep(w, st);
      TakeAck(w, name);
      var rest := ErrorArrives(w', name);
      Prepend(w, st, rest);
      steps := [st] + rest;
    }
  }

  ghost predicate ErrorAfterAcks(back: seq<Back>, name: string) {
    && |back| >= 1 && back[|back| - 1] == IntegrityError(name)
    && forall i :: 0 <= i < |back| - 1 ==> back[i].Ack?
  }

  lemma TakeAck(w: World, name: string)
    requires w.b.Valid() && w.s.link.channelOpen && w.s.confirm.verdicts == [Success]
    requires !w.s.confirm.completionTimer && ErrorAfterAcks(w.back, name) && |w.back| > 1
    ensures var w' := Apply(w, DeliverBack);
            && w'.s.link.channelOpen && w'.s.confirm.verdicts == [Success]
            && ErrorAfterAcks(w'.back, name) && |w'.back| < |w.back|
  {
  }

  lemma TakeError(w: World, name: string)
    requires w.b.Valid() && w.s.link.channelOpen && w.s.confirm.verdicts == [Success]
    requires ErrorAfterAcks(w.back, name) && |w.back| == 1
    ensures |Apply(w, DeliverBack).s.confirm.verdicts| == 2
  {
  }

  lemma CheckFails(w: World, i: nat)
    requires Smooth(w) && i < |w.r.tasks| && w.r.tasks[i].stage.Verifying? && WrongTag(w.b, i)
    ensures var st := Verified(i, Corrupt, false, true);
            && Enabled(w, st)
            && Apply(w, st).s == w.s
            && Apply(w, st).back == w.back + [IntegrityError(w.b.files[i].name)]
  {
    assert TaskFor(w.b, w.r.tasks[i], i);
    ReceiverOpen(w, i);
  }

  lemma Retract(b: Batch, i: nat) returns (steps: seq<Step>)
    requires b.Valid() && |b.files| >= 2 && WrongTag(b, i)
    ensures Runs(Initial(b, 0), steps) && |After(Initial(b, 0), steps).s.confirm.verdicts| == 2
  {
    var w0 := Initial(b, 0);
    var early := EarlySuccess(b, 0, if i == 0 then 1 else 0, true);
    var tail := FailAfterSuccess(After(w0, early), i);
    RunsConcat(w0, early, tail);
    steps := early + tail;
  }

  lemma FailAfterSuccess(w: World, i: nat) returns (steps: seq<Step>)
    requires Smooth(w) && !w.s.link.aborted && Success in w.s.confirm.verdicts
    requires i < |w.r.tasks| && w.r.tasks[i].stage.Verifying? && WrongTag(w.b, i)
    ensures Runs(w, steps) && |After(w, steps).s.confirm.verdicts| == 2
  {
    var fail := Verified(i, Corrupt, false, true);
    CheckFails(w, i);
    SafeStep(w, fail);
    OnlyAcksBack(w);
    var rest := ErrorArrives(Apply(w, fail), w.b.files[i].name);
    Prepend(w, fail, rest);
    steps := [fail] + rest;
  }

  /** A reported success can be followed by a corruption report exactly when the batch has
      several files and one of them a wrong tag. */
  lemma RetractionExactly(b: Batch)
    requires b.Valid()
    ensures CanRetract(b) <==> |b.files| >= 2 && exists i :: WrongTag(b, i)
  {
    if CanRetract(b) {
      var now: nat, steps :| Runs(Initial(b, now), steps) &&
                             |After(Initial(b, now), steps).s.confirm.verdicts| == 2;
      var w := After(Initial(b, now), steps);
      assert Reachable(w);
      FinalAckRace(w);
      ShapeCounts(w.s.confirm.verdicts, w.s.link.aborted);
      CulpritHasWrongTag(w, w.s.confirm.verdicts[1].name);
    }
    if |b.files| >= 2 && exists i :: WrongTag(b, i) {
      var i: nat :| WrongTag(b, i);
      var steps := Retract(b, i);
    }
  }

  lemma CulpritHasWrongTag(w: World, name: string)
    requires Reachable(w) && Corrupted(name) in w.s.confirm.verdicts
    ensures exists i :: WrongTag(w.b, i)
  {
    ReachableIsSafe(w);
    var i :| 0 <= i < |w.r.tasks| && HasOutcome(w.r.tasks[i], Corrupt) && w.r.tasks[i].header.name == name;
    assert TaskFor(w.b, w.r.tasks[i], i);
    assert !Verifies(w.r.tasks[i], w.b.digest, false);
    assert WrongTag(w.b, i);
  }

  // ----- A transfer can stop without a word ----------------------------------

  /** A read that completes ends the transfer without any message to the user exactly when
      the channel has gone down meanwhile: `streamFile` just returns. */
  lemma StallsExactly(w: World, ok: Sends)
    requires Reachable(w) && Enabled(w, Load(ok)) && !w.s.link.aborted
    ensures var s' := Apply(w, Load(ok)).s;
            && (Stalled(s') <==> !w.s.link.channelOpen)
            && (Stalled(s') ==> s'.log.alerts == [] && s'.confirm.verdicts == [] && Apply(w, Load(ok)).fwd == w.fwd)
  {
    ReachableIsSafe(w);
    var w' := Apply(w, Load(ok));
    VerdictStep(w, Load(ok));
    StallStep(w, Load(ok));
    if w.s.link.channelOpen {
      LoadKeepsOpen(w.b, w.s, ok);
    }
  }

  /** Every batch has a run that stalls. */
  lemma StallRun(b: Batch, now: nat, ok: Sends)
    requires b.Valid()
    ensures var steps := [Start(ALL_SENT), SenderChannelDown, Load(ok)];
            && Runs(Initial(b, now), steps)
            && var s := After(Initial(b, now), steps).s;
               Stalled(s) && s.confirm.verdicts == [] && s.log.alerts == []
  {
    var w0 := Initial(b, now);
    var w1 := Apply(w0, Start(ALL_SENT));
    var w2 := Apply(w1, SenderChannelDown);
    StartReads(b);
    Prepend(w2, Load(ok), []);
    Prepend(w1, SenderChannelDown, [Load(ok)] + []);
    Prepend(w0, Start(ALL_SENT), [SenderChannelDown] + ([Load(ok)] + []));
    assert [Start(ALL_SENT)] + ([SenderChannelDown] + ([Load(ok)] + [])) ==
           [Start(ALL_SENT), SenderChannelDown, Load(ok)];
  }

  /** And a stall lasts, without a word, until the user or the connection's own events end it. */
  lemma {:induction false} StallLasts(w: World, steps: seq<Step>)
    requires Safe(w) && Stalled(w.s) && Runs(w, steps)
    requires forall st :: st in steps ==> !st.SenderLoses? && !st.SenderCancels?
    ensures var s' := After(w, steps).s;
            Stalled(s') && s'.confirm.verdicts == w.s.confirm.verdicts && s'.log.alerts == w.s.log.alerts
    decreases |steps|
  {
    if steps != [] {
      assert steps[0] in steps;
      SafeStep(w, steps[0]);
      StallStays(w, steps[0]);
      StallLasts(Apply(w, steps[0]), steps[1..]);
    }
  }

  lemma StallStays(w: World, st: Step)
    requires StreamInv(w) && VerdictInv(w.s) && StallInv(w.s) && Stalled(w.s) && Enabled(w, st)
    requires !st.SenderLoses? && !st.SenderCancels?
    ensures var s' := Apply(w, st).s;
            Stalled(s') && s'.confirm.verdicts == w.s.confirm.verdicts && s'.log.alerts == w.s.log.alerts
  {
    if st.DeliverForward? || Receiving(st) {
      ReceiverLeavesSender(w, st);
    }
  }

  lemma LoadKeepsOpen(b: Batch, s: Sender, ok: Sends)
    requires b.Valid() && SenderAt(b, s) && s.pos.chain.Some? && s.link.channelOpen && !s.link.aborted
    ensures var s' := OnLoad(b, s, s.pos.chain.value, ok).s;
            s'.link.channelOpen || s'.link.aborted
  {
  }
}
