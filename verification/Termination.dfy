/** Every run is finite: each step, faults included, uses up a fixed potential. */
module Termination {
  import opened Messages
  import opened SenderModel
  import opened ReceiverModel
  import opened Protocol
  import opened StreamSafety
  import opened TaskSafety
  import opened VerdictSafety
  import opened Safety

  function WireSum(b: Batch, msgs: seq<Message>): nat {
    if msgs == [] then 0 else WireBytes(b, msgs[0]) + WireSum(b, msgs[1..])
  }

  lemma {:induction false} WireSumConcat(b: Batch, x: seq<Message>, y: seq<Message>)
    ensures WireSum(b, x + y) == WireSum(b, x) + WireSum(b, y)
  {
    if x == [] {
      assert x + y == y;
    } else {
      assert (x + y)[1..] == x[1..] + y;
      WireSumConcat(b, x[1..], y);
    }
  }

  /** A message still to be sent outweighs itself in flight, buffered and delivered. */
  function Weight(b: Batch, msgs: seq<Message>): nat {
    2 * WireSum(b, msgs) + 12 * |msgs|
  }

  function TaskWeight(t: Task): nat {
    match t.stage
    case Verifying => 7
    case Settled(_) => 4
    case Acked(_) => 1
    case Complete(_) => 0
  }

  ghost function Unsent(b: Batch, s: Sender): nat
    requires b.Valid() && SenderAt(b, s)
  {
    if !s.pos.started || s.pos.chain.Some? then Weight(b, SenderTail(b, s)) else 0
  }

  function One(p: bool): nat {
    if p then 1 else 0
  }

  function Confirming(s: Sender): nat {
    2 * One(s.confirm.completionTimer) + One(s.confirm.closeTimer)
    + One(!s.link.aborted) + One(s.link.channelOpen)
  }

  function Buffering(f: Flow): nat {
    2 * f.buffered + f.lowPending
  }

  function Finalising(r: Receiver): nat {
    SumOver(r.tasks, TaskWeight) + One(!r.end.aborted) + One(r.end.channelOpen)
  }

  ghost function Potential(w: World): nat
    requires StreamInv(w)
  {
    Unsent(w.b, w.s) + Confirming(w.s) + Buffering(w.s.flow)
    + 10 * |w.fwd| + Finalising(w.r) + 2 * |w.back|
  }

  // ----- The sender's share --------------------------------------------------

  /** A callback buffers what it sends. */
  lemma NextFileBuffers(b: Batch, s: Sender, ok: Sends)
    requires b.Valid() && !s.pos.finished
    ensures var out := SendNextFile(b, s, ok);
            && out.s.flow.buffered == s.flow.buffered + WireSum(b, out.msgs)
            && out.s.flow.lowPending == s.flow.lowPending
            && (out.s.pos.finished != s.pos.finished ==> Confirming(out.s) <= Confirming(s) + 2)
            && (out.s.pos.finished == s.pos.finished ==> Confirming(out.s) <= Confirming(s))
  {
    var out := SendNextFile(b, s, ok);
    if out.msgs != [] {
      assert out.msgs == [out.msgs[0]];
      assert WireSum(b, out.msgs) == WireBytes(b, out.msgs[0]) + WireSum(b, []);
    }
  }

  lemma LoadBuffers(b: Batch, s: Sender, ok: Sends)
    requires b.Valid() && SenderAt(b, s) && s.pos.chain.Some?
    ensures var out := OnLoad(b, s, s.pos.chain.value, ok);
            && out.s.flow.buffered == s.flow.buffered + WireSum(b, out.msgs)
            && out.s.flow.lowPending == s.flow.lowPending
            && (out.s.pos.finished ==> Confirming(out.s) <= Confirming(s) + 2)
            && (!out.s.pos.finished ==> Confirming(out.s) <= Confirming(s))
            && (out.s.pos.finished ==> |out.msgs| == 2 || !out.s.pos.doneSent)
            && (out.msgs == [] ==> out.s.pos.chain.None? && !out.s.pos.finished)
  {
    var c := s.pos.chain.value;
    var m := Chunk(SliceOf(b, c));
    if !s.link.aborted && s.link.channelOpen && ok.chunk {
      var s1 := NextIndex(SendChunk(b, s, c));
      var rest := SendNextFile(b, s1, ok);
      NextFileBuffers(b, s1, ok);
      WireSumConcat(b, [m], rest.msgs);
      assert WireSum(b, [m]) == WireBytes(b, m) + WireSum(b, []);
    }
  }

  /** Splitting what is left into what is emitted and the rest. */
  lemma EmitWeight(b: Batch, s: Sender, out: Out)
    requires b.Valid() && SenderAt(b, s) && Live(s) && Advances(b, s, out)
    requires !s.pos.started || s.pos.chain.Some?
    requires out.s.pos.started
    ensures Unsent(b, s) >= Weight(b, out.msgs) + Unsent(b, out.s)
            + (if out.s.pos.finished && !out.s.pos.doneSent then 12 else 0)
    ensures Unsent(b, s) >= 12
  {
    var tail := SenderTail(b, s);
    if Live(out.s) {
      WireSumConcat(b, out.msgs, SenderTail(b, out.s));
    } else {
      assert tail == out.msgs + tail[|out.msgs|..];
      WireSumConcat(b, out.msgs, tail[|out.msgs|..]);
    }
    TailNonempty(b, s);
  }

  lemma TailNonempty(b: Batch, s: Sender)
    requires b.Valid() && SenderAt(b, s) && (!s.pos.started || s.pos.chain.Some?)
    ensures |SenderTail(b, s)| >= 1
  {
  }

  lemma EmitDecreases(w: World, st: Step)
    requires Safe(w) && Enabled(w, st) && (st.Start? || st.Load?)
    ensures StreamInv(Apply(w, st)) && Potential(Apply(w, st)) < Potential(w)
  {
    SafeStep(w, st);
    if st.Start? {
      StartEmits(w.b, w.s, st.ok);
      NextFileBuffers(w.b, Begin(w.b, w.s), st.ok);
      StartNeverFinishes(w.b, w.s, st.ok);
      EmitWeight(w.b, w.s, SendBatch(w.b, w.s, st.ok));
      EmitCost(w, SendBatch(w.b, w.s, st.ok));
    } else {
      LoadEmits(w.b, w.s, st.ok);
      LoadBuffers(w.b, w.s, st.ok);
      LoadStarted(w.b, w.s, st.ok);
      EmitWeight(w.b, w.s, OnLoad(w.b, w.s, w.s.pos.chain.value, st.ok));
      EmitCost(w, OnLoad(w.b, w.s, w.s.pos.chain.value, st.ok));
    }
  }

  lemma StartNeverFinishes(b: Batch, s: Sender, ok: Sends)
    requires b.Valid() && SenderAt(b, s) && !s.pos.started
    ensures var out := SendBatch(b, s, ok);
            && out.s.pos.started && !out.s.pos.finished
            && Confirming(Begin(b, s)) == Confirming(s)
            && (out.msgs == [] ==> out.s.pos.chain.None?)
  {
  }

  lemma LoadStarted(b: Batch, s: Sender, ok: Sends)
    requires b.Valid() && SenderAt(b, s) && s.pos.chain.Some?
    ensures OnLoad(b, s, s.pos.chain.value, ok).s.pos.started
  {
  }

  lemma EmitCost(w: World, out: Out)
    requires StreamInv(w) && StreamInv(Emit(w, out))
    requires Unsent(w.b, w.s) >= Weight(w.b, out.msgs) + Unsent(w.b, out.s)
             + (if out.s.pos.finished && !out.s.pos.doneSent then 12 else 0)
    requires Unsent(w.b, w.s) >= 12
    requires out.s.flow.buffered == w.s.flow.buffered + WireSum(w.b, out.msgs)
    requires out.s.flow.lowPending == w.s.flow.lowPending
    requires out.s.pos.finished ==> Confirming(out.s) <= Confirming(w.s) + 2
    requires !out.s.pos.finished ==> Confirming(out.s) <= Confirming(w.s)
    requires out.s.pos.finished ==> |out.msgs| == 2 || !out.s.pos.doneSent
    requires out.msgs == [] ==> out.s.pos.chain.None? && !out.s.pos.finished && out.s.pos.started
    ensures Potential(Emit(w, out)) < Potential(w)
  {
  }

  // ----- Every other step ----------------------------------------------------

  lemma QuietDecreases(w: World, st: Step)
    requires Safe(w) && Enabled(w, st)
    requires !st.Start? && !st.Load? && !st.DeliverForward? && !Receiving(st)
    ensures StreamInv(Apply(w, st)) && Potential(Apply(w, st)) < Potential(w)
  {
    SafeStep(w, st);
    QuietKeeps(w, st);
    QuietCost(w, st);
    SenderCost(w, Apply(w, st));
  }

  lemma QuietCost(w: World, st: Step)
    requires StreamInv(w) && VerdictInv(w.s) && Enabled(w, st)
    requires !st.Start? && !st.Load? && !st.DeliverForward? && !Receiving(st)
    requires SenderAt(w.b, Apply(w, st).s)
    ensures var w' := Apply(w, st);
            Unsent(w.b, w'.s) + Confirming(w'.s) + Buffering(w'.s.flow) + 2 * |w'.back|
            < Unsent(w.b, w.s) + Confirming(w.s) + Buffering(w.s.flow) + 2 * |w.back|
  {
    QuietKeeps(w, st);
    var s' := Apply(w, st).s;
    if st.LowEvent? {
      LowCost(w.b, w.s);
    } else if st.ReadFails? {
      CloseCost(w, st);
      TailNonempty(w.b, w.s);
    } else if st.Drain? {
      UnsentByPosition(w.b, w.s, s');
      assert s'.link == w.s.link && s'.confirm == w.s.confirm;
    } else if st.DeliverBack? {
      BackCost(w.s, w.back[0]);
      UnsentByPosition(w.b, w.s, s');
    } else {
      CloseCost(w, st);
      UnsentByPosition(w.b, w.s, s');
    }
  }

  lemma UnsentByPosition(b: Batch, s: Sender, s': Sender)
    requires b.Valid() && SenderAt(b, s) && SenderAt(b, s') && s'.pos == s.pos
    ensures Unsent(b, s') == Unsent(b, s)
  {
    SamePosition(b, s, s');
    SamePosition(b, s', s);
  }

  lemma SenderCost(w: World, w': World)
    requires StreamInv(w) && StreamInv(w') && w'.b == w.b && w'.r == w.r && w'.fwd == w.fwd
    requires Unsent(w.b, w'.s) + Confirming(w'.s) + Buffering(w'.s.flow) + 2 * |w'.back|
             < Unsent(w.b, w.s) + Confirming(w.s) + Buffering(w.s.flow) + 2 * |w.back|
    ensures Potential(w') < Potential(w)
  {
  }

  lemma QuietKeeps(w: World, st: Step)
    requires w.b.Valid() && Enabled(w, st)
    requires !st.Start? && !st.Load? && !st.DeliverForward? && !Receiving(st)
    ensures var w' := Apply(w, st);
            && w'.r == w.r && w'.fwd == w.fwd
            && w'.back == (if st.DeliverBack? then w.back[1..] else w.back)
            && (!st.LowEvent? ==>
                  w'.s.pos == w.s.pos || (w'.s.pos == w.s.pos.(chain := None) && w.s.pos.chain.Some?))
            && (!st.LowEvent? && !st.Drain? ==> w'.s.flow == w.s.flow)
  {
  }

  lemma LowCost(b: Batch, s: Sender)
    requires b.Valid() && SenderAt(b, s) && s.flow.lowPending > 0 && SenderAt(b, OnLow(s))
    ensures var s' := OnLow(s);
            && Unsent(b, s') <= Unsent(b, s)
            && Confirming(s') == Confirming(s)
            && Buffering(s'.flow) < Buffering(s.flow)
  {
    LowPlace(s);
    SamePosition(b, s, OnLow(s));
    LowCounts(s);
  }

  lemma LowCounts(s: Sender)
    requires s.flow.lowPending > 0
    ensures var s' := OnLow(s);
            && s'.link == s.link && s'.confirm == s.confirm
            && s'.flow.buffered == s.flow.buffered && s'.flow.lowPending == s.flow.lowPending - 1
  {
  }

  lemma BackCost(s: Sender, m: Back)
    ensures var s' := OnBack(s, m);
            Confirming(s') <= Confirming(s) && s'.pos == s.pos && s'.flow == s.flow
  {
  }

  /** Failures, closes and lost connections each end something for good. */
  lemma CloseCost(w: World, st: Step)
    requires StreamInv(w) && VerdictInv(w.s) && Enabled(w, st)
    requires !st.Start? && !st.Load? && !st.DeliverForward? && !Receiving(st)
    requires !st.LowEvent? && !st.Drain? && !st.DeliverBack?
    ensures var s' := Apply(w, st).s;
            if st.ReadFails? then s'.pos.chain.None? && w.s.pos.chain.Some? && Confirming(s') <= Confirming(w.s)
            else s'.pos == w.s.pos && Confirming(s') < Confirming(w.s)
  {
  }

  // ----- The receiver's share ------------------------------------------------

  lemma ReceiverDecreases(w: World, st: Step)
    requires Safe(w) && Enabled(w, st) && (st.DeliverForward? || Receiving(st))
    ensures StreamInv(Apply(w, st)) && Potential(Apply(w, st)) < Potential(w)
  {
    SafeStep(w, st);
    ReceiverLeavesSender(w, st);
    if st.DeliverForward? {
      MessageCost(w.r, w.fwd[0], st.now, st.sendOk);
      DeliverCost(w, st);
    } else {
      TaskCost(w, st);
    }
    FinalisingCost(w, Apply(w, st));
  }

  lemma DeliverCost(w: World, st: Step)
    requires w.b.Valid() && Enabled(w, st) && st.DeliverForward?
    ensures var w' := Apply(w, st);
            var reply := OnMessage(w.r, w.fwd[0], st.now, st.sendOk);
            w'.r == reply.r && |w'.back| == |w.back| + |reply.back| && |w'.fwd| == |w.fwd| - 1
  {
  }

  lemma FinalisingCost(w: World, w': World)
    requires StreamInv(w) && StreamInv(w') && w'.b == w.b && w'.s == w.s
    requires 10 * |w'.fwd| + Finalising(w'.r) + 2 * |w'.back| < 10 * |w.fwd| + Finalising(w.r) + 2 * |w.back|
    ensures Potential(w') < Potential(w)
  {
  }

  /** Moving a task on pays for the message it may send; a close pays for itself. */
  lemma TaskCost(w: World, st: Step)
    requires w.b.Valid() && Enabled(w, st) && Receiving(st)
    ensures var w' := Apply(w, st);
            && w'.fwd == w.fwd
            && Finalising(w'.r) + 2 * |w'.back| < Finalising(w.r) + 2 * |w.back|
  {
    match st {
      case Verified(i, outcome, skipped, sendOk) => VerifiedCost(w.r, i, outcome, skipped, sendOk);
      case Then(i, now, sendOk) => ThenCost(w.r, i, now, sendOk);
      case Finally(i) => FinallyCost(w.r, i);
      case _ =>
    }
  }

  lemma VerifiedCost(r: Receiver, i: nat, outcome: Outcome, skipped: bool, sendOk: bool)
    requires i < |r.tasks| && r.tasks[i].stage.Verifying?
    ensures var reply := OnVerified(r, i, outcome, skipped, sendOk);
            Finalising(reply.r) + 2 * |reply.back| < Finalising(r)
  {
    SumUpdate(r.tasks, i, SettledTask(r.tasks[i], outcome, skipped), TaskWeight);
  }

  lemma ThenCost(r: Receiver, i: nat, now: nat, sendOk: bool)
    requires i < |r.tasks| && r.tasks[i].stage.Settled?
    ensures var reply := OnThen(r, i, now, sendOk);
            Finalising(reply.r) + 2 * |reply.back| < Finalising(r)
  {
    SumUpdate(r.tasks, i, r.tasks[i].(stage := Acked(r.tasks[i].stage.outcome)), TaskWeight);
  }

  lemma FinallyCost(r: Receiver, i: nat)
    requires i < |r.tasks| && r.tasks[i].stage.Acked?
    ensures Finalising(OnFinally(r, i)) < Finalising(r)
  {
    SumUpdate(r.tasks, i, r.tasks[i].(stage := Complete(r.tasks[i].stage.outcome)), TaskWeight);
  }

  lemma MessageCost(r: Receiver, m: Message, now: nat, sendOk: bool)
    ensures var reply := OnMessage(r, m, now, sendOk);
            Finalising(reply.r) + 2 * |reply.back| <= Finalising(r) + 7
  {
    if m.Chunk? && !r.end.aborted && r.read.currentFile.Some? {
      var read := AddChunk(r.read, m.bytes);
      SumAppend(r.tasks, Task(read.currentFile.value, read.currentChunks, Verifying, false), TaskWeight);
    }
  }

  // ----- The theorem ---------------------------------------------------------

  lemma StepDecreases(w: World, st: Step)
    requires Safe(w) && Enabled(w, st)
    ensures Safe(Apply(w, st)) && Potential(Apply(w, st)) < Potential(w)
  {
    SafeStep(w, st);
    if st.Start? || st.Load? {
      EmitDecreases(w, st);
    } else if st.DeliverForward? || Receiving(st) {
      ReceiverDecreases(w, st);
    } else {
      QuietDecreases(w, st);
    }
  }

  lemma {:induction false} RunUsesPotential(w: World, steps: seq<Step>)
    requires Safe(w) && Runs(w, steps)
    ensures Safe(After(w, steps))
    ensures |steps| + Potential(After(w, steps)) <= Potential(w)
    decreases |steps|
  {
    if steps != [] {
      StepDecreases(w, steps[0]);
      RunUsesPotential(Apply(w, steps[0]), steps[1..]);
    }
  }

  /** No run of a batch, whatever fails in it, has more steps than this. */
  lemma RunsAreBounded(b: Batch, now: nat, steps: seq<Step>)
    requires b.Valid() && Runs(Initial(b, now), steps)
    ensures |steps| <= 2 * WireSum(b, Encode(b)) + 12 * |Encode(b)| + 4
  {
    SafeInitial(b, now);
    RunUsesPotential(Initial(b, now), steps);
  }
}
