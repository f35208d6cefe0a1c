/** Fault-free runs: they never get stuck, and where they end everything is as promised. */
module Completion {
  import opened Messages
  import opened SenderModel
  import opened ReceiverModel
  import opened Protocol
  import opened StreamSafety
  import opened TaskSafety
  import opened VerdictSafety
  import opened AckSafety
  import opened FlowSafety
  import opened Safety
  import opened Termination

  /** Steps of a run in which every send and read works, nobody cancels, no connection is
      lost, no timeout fires first and every file passes its check, has it skipped or is
      untagged. */
  ghost predicate Benign(st: Step) {
    match st
    case Start(ok) => ok == ALL_SENT
    case Load(ok) => ok == ALL_SENT
    case Drain(_) => true
    case LowEvent => true
    case DelayedClose => true
    case DeliverBack => true
    case DeliverForward(_, sendOk) => sendOk
    case Verified(_, outcome, _, sendOk) => outcome == Saved && sendOk
    case Then(_, _, sendOk) => sendOk
    case Finally(_) => true
    case _ => false
  }

  /** The same, but for a `done` that may fail to go out. */
  ghost predicate Harmless(st: Step) {
    if st.Load? then st.ok.chunk && st.ok.header else Benign(st)
  }

  ghost predicate AllBenign(steps: seq<Step>) {
    forall st :: st in steps ==> Benign(st)
  }

  ghost predicate ThenRan(t: Task) {
    t.stage.Acked? || t.stage.Complete?
  }

  /** Every outcome so far is good, and once the last file's task has acknowledged, a full
      ack has been sent. */
  ghost predicate GoodTasks(w: World)
    requires w.b.Valid()
  {
    && (forall i :: 0 <= i < |w.r.tasks| && !w.r.tasks[i].stage.Verifying? ==> w.r.tasks[i].stage.outcome == Saved)
    && (|w.r.tasks| == |w.b.files| && ThenRan(w.r.tasks[|w.b.files| - 1]) ==>
          exists v :: v in Trail(w) && FullAck(w.b, v))
  }

  ghost predicate SmoothSender(s: Sender) {
    && !s.link.cancelled
    && s.log.alerts == []
    && (s.link.channelOpen <==> !s.link.aborted)
    && (s.link.aborted ==> s.confirm.verdicts == [Success])
    && Live(s)
    && (s.confirm.verdicts == [] || s.confirm.verdicts == [Success])
  }

  ghost predicate DoneOut(s: Sender) {
    s.pos.finished ==> s.pos.doneSent
  }

  ghost predicate SmoothReceiver(r: Receiver) {
    && (r.end.channelOpen <==> !r.end.aborted)
    && (r.end.aborted ==> r.end.finishes == 1)
  }

  ghost predicate Smooth(w: World) {
    Safe(w) && GoodTasks(w) && SmoothSender(w.s) && SmoothReceiver(w.r)
  }

  lemma SmoothInitial(b: Batch, now: nat)
    requires b.Valid()
    ensures Smooth(Initial(b, now))
  {
    SafeInitial(b, now);
  }

  // ----- Harmless steps stay smooth ------------------------------------------

  lemma SmoothEmit(w: World, st: Step)
    requires StreamInv(w) && VerdictInv(w.s) && SmoothSender(w.s)
    requires Enabled(w, st) && Harmless(st) && (st.Start? || st.Load?)
    ensures SmoothSender(Apply(w, st).s)
  {
    if st.Start? {
      StartOk(w.b, w.s);
    } else {
      LoadOk(w.b, w.s, st.ok);
    }
  }

  lemma StartOk(b: Batch, s: Sender)
    requires b.Valid() && SenderAt(b, s) && VerdictInv(s) && SmoothSender(s) && !s.pos.started && !s.link.aborted
    ensures SmoothSender(SendBatch(b, s, ALL_SENT).s)
  {
  }

  lemma NextFileOk(b: Batch, s: Sender, ok: Sends)
    requires ok.header
    requires b.Valid() && VerdictInv(s) && s.pos.started && !s.pos.finished && s.pos.fileIndex <= |b.files|
    requires !s.link.aborted && s.link.channelOpen && !s.link.cancelled && s.confirm.verdicts == []
    ensures SmoothSender(SendNextFile(b, s, ok).s)
  {
  }

  lemma LoadOk(b: Batch, s: Sender, ok: Sends)
    requires b.Valid() && SenderAt(b, s) && VerdictInv(s) && SmoothSender(s) && s.pos.chain.Some?
    requires ok.chunk && ok.header
    ensures SmoothSender(OnLoad(b, s, s.pos.chain.value, ok).s)
  {
    LoadCases(b, s, ok);
    NextFileOk(b, NextIndex(SendChunk(b, s, s.pos.chain.value)), ok);
  }

  lemma SmoothQuiet(w: World, st: Step)
    requires StreamInv(w) && VerdictInv(w.s) && AckInv(w) && GoodTasks(w) && SmoothSender(w.s)
    requires Enabled(w, st) && Harmless(st)
    requires !st.Start? && !st.Load? && !st.DeliverForward? && !Receiving(st)
    ensures SmoothSender(Apply(w, st).s)
  {
    if st.DeliverBack? {
      OnlyAcksBack(w);
      AckOk(w.s, w.back[0].totalDoneBytes);
    } else {
      QuietOk(w, st);
    }
  }

  /** Without a failed check the receiver only acknowledges. */
  lemma OnlyAcksBack(w: World)
    requires w.b.Valid() && AckInv(w) && GoodTasks(w)
    ensures forall k :: 0 <= k < |w.back| ==> w.back[k].Ack?
  {
    NoCulprit(w.r.tasks);
    forall k | 0 <= k < |w.back| ensures w.back[k].Ack? {
      assert w.back[k] in w.back;
    }
  }

  lemma QuietOk(w: World, st: Step)
    requires StreamInv(w) && VerdictInv(w.s) && SmoothSender(w.s)
    requires Enabled(w, st) && (st.Drain? || st.LowEvent? || st.DelayedClose?)
    ensures SmoothSender(Apply(w, st).s)
  {
    if st.LowEvent? {
      LowOk(w.s);
    }
  }

  lemma NoCulprit(tasks: seq<Task>)
    requires forall i :: 0 <= i < |tasks| && !tasks[i].stage.Verifying? ==> tasks[i].stage.outcome == Saved
    ensures forall name :: !Culprit(tasks, name)
  {
  }

  lemma LowOk(s: Sender)
    requires VerdictInv(s) && SmoothSender(s) && (s.link.aborted ==> s.pos.chain.None?)
    requires s.flow.lowPending > 0
    ensures SmoothSender(OnLow(s))
  {
  }

  lemma AckOk(s: Sender, v: nat)
    requires VerdictInv(s) && SmoothSender(s) && s.link.channelOpen
    ensures SmoothSender(OnAck(s, v))
  {
  }

  lemma SmoothReceiving(w: World, st: Step)
    requires w.b.Valid() && TaskInv(w.r) && SmoothReceiver(w.r)
    requires Enabled(w, st) && Harmless(st) && (st.DeliverForward? || Receiving(st))
    ensures SmoothReceiver(Apply(w, st).r)
  {
    match st {
      case DeliverForward(now, sendOk) => MessageOk(w.r, w.fwd[0], now, sendOk);
      case Verified(i, outcome, _, sendOk) =>
      case Then(i, now, sendOk) =>
      case Finally(i) => FinallyOk(w.r, i);
    }
  }

  lemma MessageOk(r: Receiver, m: Message, now: nat, sendOk: bool)
    requires SmoothReceiver(r) && r.end.finishes == 0 && !r.end.aborted
    ensures SmoothReceiver(OnMessage(r, m, now, sendOk).r)
  {
  }

  lemma FinallyOk(r: Receiver, i: nat)
    requires SmoothReceiver(r) && TaskInv(r) && i < |r.tasks| && r.tasks[i].stage.Acked?
    ensures SmoothReceiver(OnFinally(r, i))
  {
    SumAtLeast(r.tasks, i, Open);
  }

  /** The trail only grows, so a full ack stays on it. */
  lemma TrailKept(w: World, st: Step)
    requires w.b.Valid() && Enabled(w, st)
    ensures forall v :: v in Trail(w) ==> v in Trail(Apply(w, st))
  {
    if st.DeliverForward? || Receiving(st) {
      TrailKeptByReceiver(w, st);
    } else if st.DeliverBack? {
      TrailKeptByBack(w, st);
    } else {
      QuietLog(w, st);
    }
  }

  lemma TrailKeptByReceiver(w: World, st: Step)
    requires w.b.Valid() && Enabled(w, st) && (st.DeliverForward? || Receiving(st))
    ensures Trail(w) <= Trail(Apply(w, st))
  {
    ReceiverLeavesSender(w, st);
    RepliesAppended(w, st);
    var back' := Apply(w, st).back;
    AckValuesConcat(w.back, back'[|w.back|..]);
    assert back' == w.back + back'[|w.back|..];
  }

  lemma TrailKeptByBack(w: World, st: Step)
    requires w.b.Valid() && Enabled(w, st) && st.DeliverBack?
    ensures Trail(Apply(w, st)) == Trail(w)
  {
    assert w.back == [w.back[0]] + w.back[1..];
    AckValuesConcat([w.back[0]], w.back[1..]);
    BackLogged(w.s, w.back[0]);
  }

  lemma BackLogged(s: Sender, m: Back)
    ensures OnBack(s, m).log.acks == s.log.acks + AckValues([m])
  {
    assert AckValues([m]) == if m.Ack? then [m.totalDoneBytes] else [];
  }

  lemma RepliesAppended(w: World, st: Step)
    requires w.b.Valid() && Enabled(w, st) && (st.DeliverForward? || Receiving(st))
    ensures w.back <= Apply(w, st).back
  {
  }

  lemma GoodStep(w: World, st: Step)
    requires StreamInv(w) && TaskInv(w.r) && GoodTasks(w) && SmoothReceiver(w.r)
    requires Enabled(w, st) && Harmless(st)
    ensures GoodTasks(Apply(w, st))
  {
    TrailKept(w, st);
    if st.Then? {
      GoodThen(w, st);
    } else {
      StreamStep(w, st);
      TasksStayGood(w, st);
      GoodKept(w, Apply(w, st));
    }
  }

  lemma TasksStayGood(w: World, st: Step)
    requires w.b.Valid() && Enabled(w, st) && !st.Then?
    requires st.Verified? ==> st.outcome == Saved
    requires forall i :: 0 <= i < |w.r.tasks| && !w.r.tasks[i].stage.Verifying? ==> w.r.tasks[i].stage.outcome == Saved
    ensures var tasks' := Apply(w, st).r.tasks;
            && |w.r.tasks| <= |tasks'|
            && forall i :: 0 <= i < |tasks'| ==>
                 && (!tasks'[i].stage.Verifying? ==> tasks'[i].stage.outcome == Saved)
                 && (ThenRan(tasks'[i]) ==> i < |w.r.tasks| && ThenRan(w.r.tasks[i]))
  {
    if st.DeliverForward? {
      MessageKeepsTasks(w.r, w.fwd[0], st.now, st.sendOk);
    } else if Receiving(st) {
      RetagKeeps(w, st);
    } else {
      SenderLeavesReceiver(w, st);
    }
  }

  /** New outcomes are good and no further task has run its `then`. */
  lemma GoodKept(w: World, w': World)
    requires w.b.Valid() && GoodTasks(w) && w'.b == w.b
    requires forall v :: v in Trail(w) ==> v in Trail(w')
    requires |w.r.tasks| <= |w'.r.tasks|
    requires forall i :: 0 <= i < |w'.r.tasks| && !w'.r.tasks[i].stage.Verifying? ==>
      w'.r.tasks[i].stage.outcome == Saved
    requires forall i :: 0 <= i < |w'.r.tasks| && ThenRan(w'.r.tasks[i]) ==>
      i < |w.r.tasks| && ThenRan(w.r.tasks[i])
    requires |w'.r.tasks| <= |w.b.files|
    ensures GoodTasks(w')
  {
    if |w'.r.tasks| == |w.b.files| && ThenRan(w'.r.tasks[|w.b.files| - 1]) {
      assert ThenRan(w.r.tasks[|w.b.files| - 1]);
      var v :| v in Trail(w) && FullAck(w.b, v);
      assert v in Trail(w') && FullAck(w'.b, v);
    }
  }

  lemma RetagKeeps(w: World, st: Step)
    requires w.b.Valid() && Enabled(w, st) && Receiving(st) && !st.Then?
    requires st.Verified? ==> st.outcome == Saved
    requires forall i :: 0 <= i < |w.r.tasks| && !w.r.tasks[i].stage.Verifying? ==> w.r.tasks[i].stage.outcome == Saved
    ensures var tasks' := Apply(w, st).r.tasks;
            && |tasks'| == |w.r.tasks|
            && forall i :: 0 <= i < |tasks'| ==>
                 && (!tasks'[i].stage.Verifying? ==> tasks'[i].stage.outcome == Saved)
                 && (ThenRan(tasks'[i]) ==> ThenRan(w.r.tasks[i]))
  {
  }

  lemma MessageKeepsTasks(r: Receiver, m: Message, now: nat, sendOk: bool)
    ensures var tasks' := OnMessage(r, m, now, sendOk).r.tasks;
            r.tasks <= tasks' && forall i :: |r.tasks| <= i < |tasks'| ==> tasks'[i].stage.Verifying?
  {
  }

  /** The task of the last file acknowledges all bytes, and the channel is still open. */
  lemma GoodThen(w: World, st: Step)
    requires StreamInv(w) && TaskInv(w.r) && GoodTasks(w) && SmoothReceiver(w.r)
    requires Enabled(w, st) && Harmless(st) && st.Then?
    requires forall v :: v in Trail(w) ==> v in Trail(Apply(w, st))
    ensures GoodTasks(Apply(w, st))
  {
    SumAtLeast(w.r.tasks, st.task, Open);
    if |w.r.tasks| == |w.b.files| {
      FinalThen(w, st);
    }
    ThenStages(w, st);
  }

  lemma ThenStages(w: World, st: Step)
    requires w.b.Valid() && Enabled(w, st) && st.Then?
    ensures var tasks' := Apply(w, st).r.tasks;
            && |tasks'| == |w.r.tasks|
            && tasks'[st.task].stage == Acked(w.r.tasks[st.task].stage.outcome)
            && forall i :: 0 <= i < |tasks'| && i != st.task ==> tasks'[i] == w.r.tasks[i]
  {
  }

  /** Once all files are handed over, every forced ack carries all bytes. */
  lemma FinalThen(w: World, st: Step)
    requires w.b.Valid() && ReceiverAt(w.b, w.r) && |w.r.tasks| == |w.b.files| && w.r.end.channelOpen
    requires Enabled(w, st) && Harmless(st) && st.Then? && w.r.tasks[st.task].stage == Settled(Saved)
    ensures exists v :: v in Trail(Apply(w, st)) && FullAck(w.b, v)
  {
    var w' := Apply(w, st);
    var v := w.r.read.totalDoneBytes;
    assert v == TotalSize(w.b.files);
    assert w'.back == w.back + [Ack(v)] && w'.s == w.s;
    AckValuesConcat(w.back, [Ack(v)]);
    assert AckValues([Ack(v)]) == [v];
    assert v in Trail(w') && FullAck(w.b, v);
  }

  lemma SmoothStep(w: World, st: Step)
    requires Smooth(w) && Enabled(w, st) && Harmless(st)
    ensures Smooth(Apply(w, st))
  {
    SafeStep(w, st);
    GoodStep(w, st);
    SenderStaysSmooth(w, st);
    ReceiverStaysSmooth(w, st);
  }

  lemma SenderStaysSmooth(w: World, st: Step)
    requires StreamInv(w) && VerdictInv(w.s) && AckInv(w) && GoodTasks(w) && SmoothSender(w.s)
    requires Enabled(w, st) && Harmless(st)
    ensures SmoothSender(Apply(w, st).s)
  {
    if st.Start? || st.Load? {
      SmoothEmit(w, st);
    } else if st.DeliverForward? || Receiving(st) {
      ReceiverLeavesSender(w, st);
    } else {
      SmoothQuiet(w, st);
    }
  }

  lemma ReceiverStaysSmooth(w: World, st: Step)
    requires w.b.Valid() && TaskInv(w.r) && SmoothReceiver(w.r)
    requires Enabled(w, st) && Harmless(st)
    ensures SmoothReceiver(Apply(w, st).r)
  {
    if st.DeliverForward? || Receiving(st) {
      SmoothReceiving(w, st);
    } else {
      SenderLeavesReceiver(w, st);
    }
  }

  /** Where no send fails, `done` goes out. */
  lemma DoneGoesOut(w: World, st: Step)
    requires StreamInv(w) && DoneOut(w.s) && Enabled(w, st) && Benign(st)
    ensures DoneOut(Apply(w, st).s)
  {
    if st.Load? {
      if Apply(w, st).s.pos.finished {
        LoadSendsDone(w.b, w.s, st.ok);
      }
    } else if st.DeliverForward? || Receiving(st) {
      ReceiverLeavesSender(w, st);
    } else if !st.Start? && !st.LowEvent? {
      QuietSender(w, st);
    }
  }

  lemma BenignTail(steps: seq<Step>)
    requires AllBenign(steps) && steps != []
    ensures Benign(steps[0]) && Harmless(steps[0]) && AllBenign(steps[1..])
  {
  }

  lemma {:induction false} SmoothRun(w: World, steps: seq<Step>)
    requires Smooth(w) && DoneOut(w.s) && Runs(w, steps) && AllBenign(steps)
    ensures Smooth(After(w, steps)) && DoneOut(After(w, steps).s)
    decreases |steps|
  {
    if steps != [] {
      var st, rest := steps[0], steps[1..];
      BenignTail(steps);
      SmoothStep(w, st);
      DoneGoesOut(w, st);
      SmoothRun(Apply(w, st), rest);
    }
  }

  // ----- Honest tags ---------------------------------------------------------

  /** Like a fault-free step, but a check may come out either way. */
  ghost predicate Unrefused(st: Step) {
    if st.Verified? then st.outcome != Rejected && st.sendOk else Benign(st)
  }

  /** With honest tags no check can fail. */
  lemma HonestNeverCorrupt(w: World, st: Step)
    requires Safe(w) && w.b.Honest() && Enabled(w, st) && st.Verified? && st.outcome != Rejected
    ensures st.outcome == Saved
  {
    assert TaskFor(w.b, w.r.tasks[st.task], st.task);
  }

  lemma UnrefusedIsBenign(w: World, st: Step)
    requires Safe(w) && w.b.Honest() && Enabled(w, st) && Unrefused(st)
    ensures Benign(st)
  {
    if st.Verified? {
      HonestNeverCorrupt(w, st);
    }
  }

  /** So a run of a batch with honest tags in which nothing else goes wrong is fault-free. */
  lemma {:induction false} HonestRunIsBenign(w: World, steps: seq<Step>)
    requires Safe(w) && w.b.Honest() && Runs(w, steps) && forall st :: st in steps ==> Unrefused(st)
    ensures AllBenign(steps)
    decreases |steps|
  {
    if steps != [] {
      var w' := Apply(w, steps[0]);
      UnrefusedIsBenign(w, steps[0]);
      SafeStep(w, steps[0]);
      HonestRunIsBenign(w', steps[1..]);
      forall st | st in steps ensures Benign(st) {
        assert st == steps[0] || st in steps[1..];
      }
    }
  }

  // ----- Never stuck ---------------------------------------------------------

  /** Success shown once and nothing else, the sender closed, the receiver torn down and
      closed once, and every file saved byte for byte. */
  ghost predicate Completed(w: World) {
    && w.s.confirm.verdicts == [Success] && w.s.log.alerts == [] && w.s.link.aborted
    && w.r.end.finishes == 1 && w.r.end.closes == 1
    && multiset(w.r.downloads) == multiset(Downloads(w.b.files))
  }

  /** A step the sender can take while the batch is not through. */
  lemma SenderMoves(w: World) returns (st: Step)
    requires Smooth(w) && !w.s.pos.finished
    ensures Benign(st) && Enabled(w, st) && !st.DelayedClose? && !Receiving(st)
  {
    st := SenderCanMove(w);
  }

  lemma SenderCanMove(w: World) returns (st: Step)
    requires StreamInv(w) && FlowInv(w.b, w.s) && VerdictInv(w.s) && SmoothSender(w.s) && !w.s.pos.finished
    ensures Benign(st) && Enabled(w, st) && !st.DelayedClose? && !Receiving(st)
  {
    if !w.s.pos.started {
      st := Start(ALL_SENT);
    } else if !Waiting(w.s) {
      st := Load(ALL_SENT);
    } else if w.s.flow.lowPending > 0 {
      st := LowEvent;
    } else {
      st := Drain(1);
    }
  }

  /** A message in flight can be delivered. */
  lemma MessageMoves(w: World)
    requires Smooth(w) && w.fwd != []
    ensures Enabled(w, DeliverForward(w.clock, true))
  {
    assert ReceiverTail(w.b, w.r) != [];
  }

  /** Once everything is delivered, each outstanding task can take its next turn. */
  lemma TaskMoves(w: World, i: nat) returns (st: Step)
    requires w.b.Valid() && i < |w.r.tasks| && !w.r.tasks[i].stage.Complete?
    ensures Benign(st) && Enabled(w, st)
  {
    match w.r.tasks[i].stage {
      case Verifying => st := Verified(i, Saved, true, true);
      case Settled(_) => st := Then(i, w.clock, true);
      case _ => st := Finally(i);
    }
  }

  lemma EverythingArrived(w: World)
    requires StreamInv(w) && w.s.pos.finished && w.fwd == []
    ensures |w.r.tasks| == |w.b.files| && (w.r.read.doneReceived <==> w.s.pos.doneSent)
  {
    assert ReceiverTail(w.b, w.r) == SenderTail(w.b, w.s);
    if !w.s.pos.doneSent {
      assert ReceiverTail(w.b, w.r)[0].Done?;
      DoneComesLast(w.b, w.r);
    }
  }

  /** With every task over, the receiver is closed and only the sender's last steps remain. */
  lemma LastMoves(w: World) returns (st: Step)
    requires Smooth(w) && DoneOut(w.s) && w.s.pos.finished && w.fwd == []
    requires forall i :: 0 <= i < |w.r.tasks| ==> w.r.tasks[i].stage.Complete?
    requires !Completed(w)
    ensures Benign(st) && Enabled(w, st)
  {
    EverythingArrived(w);
    ReceiverDone(w);
    if w.s.confirm.finalAckReceived {
      st := DelayedClose;
    } else {
      var v :| v in Trail(w) && FullAck(w.b, v);
      assert v !in w.s.log.acks;
      assert w.back != [];
      st := DeliverBack;
    }
  }

  lemma ReceiverDone(w: World)
    requires Smooth(w) && w.r.read.doneReceived && |w.r.tasks| == |w.b.files|
    requires forall i :: 0 <= i < |w.r.tasks| ==> w.r.tasks[i].stage.Complete?
    ensures w.r.end.finishes == 1 && w.r.end.closes == 1
    ensures multiset(w.r.downloads) == multiset(Downloads(w.b.files))
  {
    SumZero(w.r.tasks, Open);
    forall i | 0 <= i < |w.r.tasks| ensures TaskFor(w.b, w.r.tasks[i], i) && HasOutcome(w.r.tasks[i], Saved) {
      assert !w.r.tasks[i].stage.Verifying?;
    }
    AllSaved(w.b, w.r.tasks);
    assert w.b.files[..|w.r.tasks|] == w.b.files;
  }

  /** A fault-free state that is not complete always has a step to take. */
  lemma NeverStuck(w: World) returns (st: Step)
    requires Smooth(w) && DoneOut(w.s) && !Completed(w)
    ensures Benign(st) && Enabled(w, st)
  {
    if !w.s.pos.finished {
      st := SenderMoves(w);
    } else if w.fwd != [] {
      MessageMoves(w);
      st := DeliverForward(w.clock, true);
    } else if i :| 0 <= i < |w.r.tasks| && !w.r.tasks[i].stage.Complete? {
      st := TaskMoves(w, i);
    } else {
      st := LastMoves(w);
    }
  }

  /** Every fault-free run, in whatever order things happen, that can go no further is
      complete; and it cannot go on for more than the potential of the batch. */
  lemma FaultFreeCompletion(b: Batch, now: nat, steps: seq<Step>)
    requires b.Valid()
    requires Runs(Initial(b, now), steps) && AllBenign(steps)
    requires forall st :: Benign(st) ==> !Enabled(After(Initial(b, now), steps), st)
    ensures Completed(After(Initial(b, now), steps))
    ensures |steps| <= 2 * WireSum(b, Encode(b)) + 12 * |Encode(b)| + 4
  {
    SmoothInitial(b, now);
    SmoothRun(Initial(b, now), steps);
    RunsAreBounded(b, now, steps);
    var w := After(Initial(b, now), steps);
    if !Completed(w) {
      var st := NeverStuck(w);
      assert false;
    }
  }

  /** And every fault-free run can be continued to completion. */
  lemma {:induction false} CanComplete(w: World) returns (steps: seq<Step>)
    requires Smooth(w) && DoneOut(w.s)
    ensures Runs(w, steps) && AllBenign(steps) && Completed(After(w, steps))
    decreases Potential(w)
  {
    if Completed(w) {
      steps := [];
    } else {
      var st := NeverStuck(w);
      SmoothStep(w, st);
      DoneGoesOut(w, st);
      StepDecreases(w, st);
      var rest := CanComplete(Apply(w, st));
      Prepend(w, st, rest);
      steps := [st] + rest;
    }
  }
}
