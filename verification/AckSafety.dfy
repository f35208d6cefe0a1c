/** The acknowledgement stream: its values, its rate and what a full one proves. */
module AckSafety {
  import opened Messages
  import opened SenderModel
  import opened ReceiverModel
  import opened Protocol
  import opened StreamSafety
  import opened TaskSafety

  function AckValues(back: seq<Back>): seq<nat> {
    if back == [] then []
    else (if back[0].Ack? then [back[0].totalDoneBytes] else []) + AckValues(back[1..])
  }

  lemma {:induction false} AckValuesConcat(x: seq<Back>, y: seq<Back>)
    ensures AckValues(x + y) == AckValues(x) + AckValues(y)
  {
    if x == [] {
      assert x + y == y;
    } else {
      assert (x + y)[1..] == x[1..] + y && (x + y)[0] == x[0];
      AckValuesConcat(x[1..], y);
      var first := if x[0].Ack? then [x[0].totalDoneBytes] else [];
      assert AckValues(x) == first + AckValues(x[1..]);
      assert AckValues(x + y) == first + (AckValues(x[1..]) + AckValues(y));
    }
  }

  ghost predicate Sorted(v: seq<int>) {
    forall i, j :: 0 <= i < j < |v| ==> v[i] <= v[j]
  }

  /** Acknowledged values in the order they were sent: seen already, then in flight. */
  ghost function Trail(w: World): seq<nat> {
    w.s.log.acks + AckValues(w.back)
  }

  ghost predicate SomeOutcome(tasks: seq<Task>, o: Outcome) {
    exists i :: 0 <= i < |tasks| && HasOutcome(tasks[i], o)
  }

  /** Some file of this name failed its check. */
  ghost predicate Culprit(tasks: seq<Task>, name: string) {
    exists i :: 0 <= i < |tasks| && HasOutcome(tasks[i], Corrupt) && tasks[i].header.name == name
  }

  ghost predicate FullAck(b: Batch, v: nat) {
    v >= TotalSize(b.files)
  }

  /** `percents` are exactly the progress values of the acks short of the total. */
  function PercentsOf(acks: seq<nat>, total: nat): seq<int> {
    if acks == [] then []
    else
      var v := acks[|acks| - 1];
      PercentsOf(acks[..|acks| - 1], total) + (if v >= total then [] else [ComputePercent(v, total, 0, 0)])
  }

  /** A file was saved only if its check passed or was skipped, dropped only if it failed. */
  ghost predicate FairOutcomes(b: Batch, tasks: seq<Task>) {
    forall i :: 0 <= i < |tasks| ==>
      && (HasOutcome(tasks[i], Saved) ==> Verifies(tasks[i], b.digest, tasks[i].skipped))
      && (HasOutcome(tasks[i], Corrupt) ==> !Verifies(tasks[i], b.digest, false))
  }

  ghost predicate AckInv(w: World)
    requires w.b.Valid()
  {
    && Sorted(Trail(w))
    && (forall v :: v in Trail(w) ==> v <= w.r.read.totalDoneBytes)
    && (forall v :: v in Trail(w) && FullAck(w.b, v) ==> SomeOutcome(w.r.tasks, Saved))
    && (w.s.confirm.finalAckReceived <==> exists v :: v in w.s.log.acks && FullAck(w.b, v))
    && w.s.log.percents == PercentsOf(w.s.log.acks, w.s.pos.totalBytes)
    && (forall m :: m in w.back && m.IntegrityError? ==> Culprit(w.r.tasks, m.name))
    && (forall v :: v in w.s.confirm.verdicts && v.Corrupted? ==> Culprit(w.r.tasks, v.name))
    && FairOutcomes(w.b, w.r.tasks)
    && (w.consumed == [] ==> w.r.tasks == [] && w.back == [] && w.s.log.acks == [])
  }

  lemma AckInitial(b: Batch, now: nat)
    requires b.Valid()
    ensures AckInv(Initial(b, now))
  {
  }

  // ----- The receiver extends the trail --------------------------------------

  /** Every outcome once set stays. */
  ghost predicate OutcomesKept(tasks: seq<Task>, tasks': seq<Task>) {
    && |tasks| <= |tasks'|
    && forall i :: 0 <= i < |tasks| ==>
         && tasks'[i].header == tasks[i].header && tasks'[i].chunks == tasks[i].chunks
         && (!tasks[i].stage.Verifying? ==> tasks'[i].skipped == tasks[i].skipped)
         && forall o :: HasOutcome(tasks[i], o) ==> HasOutcome(tasks'[i], o)
  }

  lemma KeptOutcome(tasks: seq<Task>, tasks': seq<Task>)
    requires OutcomesKept(tasks, tasks')
    ensures forall o :: SomeOutcome(tasks, o) ==> SomeOutcome(tasks', o)
    ensures forall name :: Culprit(tasks, name) ==> Culprit(tasks', name)
  {
    forall o | SomeOutcome(tasks, o) ensures SomeOutcome(tasks', o) {
      var i :| 0 <= i < |tasks| && HasOutcome(tasks[i], o);
      assert HasOutcome(tasks'[i], o);
    }
    forall name | Culprit(tasks, name) ensures Culprit(tasks', name) {
      var i :| 0 <= i < |tasks| && HasOutcome(tasks[i], Corrupt) && tasks[i].header.name == name;
      assert HasOutcome(tasks'[i], Corrupt);
    }
  }

  /** What a receiver step may add: nothing, an ack of the bytes so far (a full one only
      once a file is saved), or an integrity error naming a culprit. */
  ghost predicate FairReply(b: Batch, r: Receiver, back: seq<Back>) {
    || back == []
    || (|back| == 1 && back[0] == Ack(r.read.totalDoneBytes) &&
        (FullAck(b, r.read.totalDoneBytes) ==> SomeOutcome(r.tasks, Saved)))
    || (|back| == 1 && back[0].IntegrityError? && Culprit(r.tasks, back[0].name))
  }

  lemma TrailGrows(w: World, w': World, back: seq<Back>)
    requires w.b.Valid() && AckInv(w)
    requires w'.b == w.b && w'.s == w.s && w'.back == w.back + back && w'.consumed != []
    requires OutcomesKept(w.r.tasks, w'.r.tasks)
    requires w.r.read.totalDoneBytes <= w'.r.read.totalDoneBytes
    requires FairReply(w.b, w'.r, back)
    requires FairOutcomes(w.b, w'.r.tasks)
    ensures AckInv(w')
  {
    AckValuesConcat(w.back, back);
    KeptOutcome(w.r.tasks, w'.r.tasks);
    assert Trail(w') == Trail(w) + AckValues(back);
    if back != [] {
      assert back == [back[0]];
      if back[0].Ack? {
        assert AckValues(back) == [back[0].totalDoneBytes];
        SortedSnoc(Trail(w), back[0].totalDoneBytes);
      } else {
        assert AckValues(back) == [];
        assert Trail(w') == Trail(w);
      }
    }
  }

  lemma SortedSnoc(v: seq<int>, x: int)
    requires Sorted(v) && forall y :: y in v ==> y <= x
    ensures Sorted(v + [x])
  {
    forall i | 0 <= i < |v| ensures v[i] <= x {
      assert v[i] in v;
    }
  }

  /** An unforced ack is always short of the total. */
  lemma ThrottledAckIsShort(b: Batch, r: Receiver, m: Message, now: nat, sendOk: bool)
    requires b.Valid() && ReceiverAt(b, r) && !r.end.aborted
    requires ReceiverTail(b, r) != [] && m == ReceiverTail(b, r)[0]
    ensures var reply := OnMessage(r, m, now, sendOk);
            reply.back != [] ==> reply.back == [Ack(reply.r.read.totalDoneBytes)] &&
                                 reply.r.read.totalDoneBytes < TotalSize(b.files)
  {
    ReceiveNext(b, r, now, sendOk);
    MessageReply(r, m, now, sendOk);
    var reply := OnMessage(r, m, now, sendOk);
    if reply.back != [] {
      PartialFileIsShort(b, reply.r);
    }
  }

  /** The handler acknowledges only in the middle of a file. */
  lemma MessageReply(r: Receiver, m: Message, now: nat, sendOk: bool)
    ensures var reply := OnMessage(r, m, now, sendOk);
            reply.back != [] ==>
              && reply.back == [Ack(reply.r.read.totalDoneBytes)]
              && reply.r.read.currentFile.Some?
              && reply.r.read.currentReceived < reply.r.read.currentFile.value.size
  {
  }

  lemma PartialFileIsShort(b: Batch, r: Receiver)
    requires b.Valid() && ReceiverAt(b, r) && r.read.currentFile.Some?
    requires r.read.currentReceived < r.read.currentFile.value.size
    ensures r.read.totalDoneBytes < TotalSize(b.files)
  {
    SizeMonotone(b.files, |r.tasks| + 1, |b.files|);
  }

  lemma AckDeliver(w: World, st: Step)
    requires StreamInv(w) && AckInv(w) && !w.r.end.aborted && st.DeliverForward? && Enabled(w, st)
    ensures AckInv(Apply(w, st))
  {
    var reply := OnMessage(w.r, w.fwd[0], st.now, st.sendOk);
    DeliverIsFair(w, st);
    DeliverShape(w, st);
    TrailGrows(w, Apply(w, st), reply.back);
  }

  lemma DeliverIsFair(w: World, st: Step)
    requires StreamInv(w) && FairOutcomes(w.b, w.r.tasks)
    requires !w.r.end.aborted && st.DeliverForward? && Enabled(w, st)
    ensures var reply := OnMessage(w.r, w.fwd[0], st.now, st.sendOk);
            && FairReply(w.b, reply.r, reply.back) && FairOutcomes(w.b, reply.r.tasks)
            && OutcomesKept(w.r.tasks, reply.r.tasks)
            && w.r.read.totalDoneBytes <= reply.r.read.totalDoneBytes
  {
    assert ReceiverTail(w.b, w.r)[0] == w.fwd[0];
    ThrottledAckIsShort(w.b, w.r, w.fwd[0], st.now, st.sendOk);
    MessageKeeps(w.r, w.fwd[0], st.now, st.sendOk);
  }

  lemma DeliverShape(w: World, st: Step)
    requires w.b.Valid() && st.DeliverForward? && Enabled(w, st)
    ensures var w' := Apply(w, st);
            var reply := OnMessage(w.r, w.fwd[0], st.now, st.sendOk);
            && w'.r == reply.r && w'.back == w.back + reply.back && w'.s == w.s && w'.consumed != []
  {
  }

  lemma MessageKeeps(r: Receiver, m: Message, now: nat, sendOk: bool)
    ensures var r' := OnMessage(r, m, now, sendOk).r;
            && OutcomesKept(r.tasks, r'.tasks)
            && r.read.totalDoneBytes <= r'.read.totalDoneBytes
            && forall i :: |r.tasks| <= i < |r'.tasks| ==> r'.tasks[i].stage.Verifying?
  {
  }

  lemma AckVerified(w: World, st: Step)
    requires StreamInv(w) && AckInv(w) && st.Verified? && Enabled(w, st)
    ensures AckInv(Apply(w, st))
  {
    var w' := Apply(w, st);
    VerifiedReply(w, st);
    TrailGrows(w, w', w'.back[|w.back|..]);
  }

  lemma VerifiedReply(w: World, st: Step)
    requires w.b.Valid() && st.Verified? && Enabled(w, st)
    requires FairOutcomes(w.b, w.r.tasks)
    ensures Answers(w, Apply(w, st))
  {
    var w' := Apply(w, st);
    var reply := OnVerified(w.r, st.task, st.outcome, st.skipped, st.sendOk);
    assert w'.r == reply.r && w'.back == w.back + reply.back;
    var t := w'.r.tasks[st.task];
    assert HasOutcome(t, st.outcome) && t.header == w.r.tasks[st.task].header;
  }

  /** A receiver step that keeps outcomes and adds a fair reply. */
  ghost predicate Answers(w: World, w': World) {
    && w'.b == w.b && w'.s == w.s && w'.consumed == w.consumed && w.back <= w'.back
    && OutcomesKept(w.r.tasks, w'.r.tasks)
    && w.r.read.totalDoneBytes <= w'.r.read.totalDoneBytes
    && FairReply(w.b, w'.r, w'.back[|w.back|..])
    && FairOutcomes(w.b, w'.r.tasks)
  }

  lemma AckThen(w: World, st: Step)
    requires StreamInv(w) && AckInv(w) && st.Then? && Enabled(w, st)
    ensures AckInv(Apply(w, st))
  {
    var w' := Apply(w, st);
    ThenReply(w, st);
    TrailGrows(w, w', w'.back[|w.back|..]);
  }

  lemma ThenReply(w: World, st: Step)
    requires w.b.Valid() && st.Then? && Enabled(w, st)
    requires FairOutcomes(w.b, w.r.tasks)
    ensures Answers(w, Apply(w, st))
  {
    var w' := Apply(w, st);
    var reply := OnThen(w.r, st.task, st.now, st.sendOk);
    assert w'.r == reply.r && w'.back == w.back + reply.back;
    assert HasOutcome(w'.r.tasks[st.task], w.r.tasks[st.task].stage.outcome);
  }

  lemma AckRest(w: World, st: Step)
    requires StreamInv(w) && AckInv(w) && Enabled(w, st)
    requires st.Finally? || st.ReceiverCloses? || st.ReceiverChannelDown?
    ensures AckInv(Apply(w, st))
  {
    var w' := Apply(w, st);
    RestKeeps(w, st);
    if w.consumed == [] {
      assert Trail(w') == Trail(w);
    } else {
      assert w'.back == w.back + [];
      TrailGrows(w, w', []);
    }
  }

  lemma RestKeeps(w: World, st: Step)
    requires w.b.Valid() && Enabled(w, st)
    requires st.Finally? || st.ReceiverCloses? || st.ReceiverChannelDown?
    ensures var w' := Apply(w, st);
            && w'.b == w.b && w'.s == w.s && w'.back == w.back && w'.consumed == w.consumed
            && w'.r.read.totalDoneBytes == w.r.read.totalDoneBytes
            && |w'.r.tasks| == |w.r.tasks|
            && OutcomesKept(w.r.tasks, w'.r.tasks)
            && OutcomesKept(w'.r.tasks, w.r.tasks)
  {
  }

  // ----- The sender moves along it -------------------------------------------

  lemma BeforeStart(w: World)
    requires StreamInv(w) && !w.s.pos.started
    ensures w.consumed == [] && w.fwd == []
  {
    assert |w.consumed + (w.fwd + SenderTail(w.b, w.s))| == |Encode(w.b)|;
  }

  lemma AckBack(w: World, st: Step)
    requires StreamInv(w) && AckInv(w) && st.DeliverBack? && Enabled(w, st)
    ensures AckInv(Apply(w, st))
  {
    var m := w.back[0];
    assert w.back == [m] + w.back[1..];
    if !w.s.pos.started {
      BeforeStart(w);
      assert false;
    }
    AckValuesConcat([m], w.back[1..]);
    BackKeepsPlace(w.s, m);
    match m {
      case IntegrityError(name) => ErrorTaken(w, Apply(w, st), name);
      case Ack(v) => AckTaken(w.s, v); AckMoved(w, Apply(w, st), v);
    }
  }

  lemma ErrorTaken(w: World, w': World, name: string)
    requires w.b.Valid() && AckInv(w) && w.back != [] && w.back[0] == IntegrityError(name)
    requires AckValues(w.back) == AckValues([w.back[0]]) + AckValues(w.back[1..])
    requires w'.b == w.b && w'.r == w.r && w'.consumed == w.consumed && w.consumed != []
    requires w'.s == OnBack(w.s, w.back[0]) && w'.back == w.back[1..]
    ensures AckInv(w')
  {
    assert AckValues([w.back[0]]) == [];
    assert Trail(w') == Trail(w);
    ErrorReported(w.s, name);
    forall m | m in w'.back && m.IntegrityError? ensures Culprit(w.r.tasks, m.name) {
      assert m in w.back;
    }
    assert w.back[0] in w.back;
  }

  lemma ErrorReported(s: Sender, name: string)
    ensures var s' := OnBack(s, IntegrityError(name));
            && s'.confirm.verdicts == s.confirm.verdicts + [Corrupted(name)]
            && s'.confirm.finalAckReceived == s.confirm.finalAckReceived
            && s'.log.acks == s.log.acks && s'.log.percents == s.log.percents && s'.pos == s.pos
  {
  }

  /** The first ack in flight becomes the last one seen. */
  lemma AckMoved(w: World, w': World, v: nat)
    requires w.b.Valid() && AckInv(w) && w.back != [] && w.back[0] == Ack(v)
    requires AckValues(w.back) == AckValues([w.back[0]]) + AckValues(w.back[1..])
    requires w'.b == w.b && w'.r == w.r && w'.consumed == w.consumed && w.consumed != []
    requires w'.back == w.back[1..] && w'.s.pos == w.s.pos && w.s.pos.totalBytes == TotalSize(w.b.files)
    requires var s, s' := w.s, w'.s;
             && s'.log.acks == s.log.acks + [v]
             && s'.confirm.finalAckReceived == (s.confirm.finalAckReceived || v >= s.pos.totalBytes)
             && s'.log.percents ==
                s.log.percents + (if v >= s.pos.totalBytes then [] else [ComputePercent(v, s.pos.totalBytes, 0, 0)])
             && (forall x :: x in s'.confirm.verdicts && x.Corrupted? ==> x in s.confirm.verdicts)
    ensures AckInv(w')
  {
    assert AckValues([w.back[0]]) == [v];
    assert Trail(w') == Trail(w);
    var acks := w'.s.log.acks;
    assert acks[..|acks| - 1] == w.s.log.acks && acks[|acks| - 1] == v;
    if x :| x in w.s.log.acks && FullAck(w.b, x) {
      assert x in acks;
    }
    assert v in acks;
  }

  lemma BackKeepsPlace(s: Sender, m: Back)
    ensures OnBack(s, m).pos == s.pos
  {
  }

  lemma AckTaken(s: Sender, v: nat)
    ensures var s' := OnAck(s, v);
            && s'.log.acks == s.log.acks + [v]
            && s'.confirm.finalAckReceived == (s.confirm.finalAckReceived || v >= s.pos.totalBytes)
            && s'.log.percents ==
               s.log.percents + (if v >= s.pos.totalBytes then [] else [ComputePercent(v, s.pos.totalBytes, 0, 0)])
            && (forall x :: x in s'.confirm.verdicts && x.Corrupted? ==> x in s.confirm.verdicts)
  {
  }

  /** Sender steps other than an incoming message leave the acknowledgements alone. */
  lemma AckQuiet(w: World, st: Step)
    requires StreamInv(w) && AckInv(w) && Enabled(w, st)
    requires !st.DeliverBack? && !st.DeliverForward? && !Receiving(st)
    ensures AckInv(Apply(w, st))
  {
    QuietLog(w, st);
    if !w.s.pos.started {
      BeforeStart(w);
    }
    var w' := Apply(w, st);
    assert Trail(w') == Trail(w);
  }

  lemma QuietLog(w: World, st: Step)
    requires w.b.Valid() && Enabled(w, st)
    requires !st.DeliverBack? && !st.DeliverForward? && !Receiving(st)
    ensures var w' := Apply(w, st);
            && w'.b == w.b && w'.r == w.r && w'.back == w.back && w'.consumed == w.consumed
            && w'.s.log.acks == w.s.log.acks && w'.s.log.percents == w.s.log.percents
            && w'.s.confirm.finalAckReceived == w.s.confirm.finalAckReceived
            && (w'.s.pos.totalBytes == w.s.pos.totalBytes || !w.s.pos.started)
            && (forall v :: v in w'.s.confirm.verdicts && v.Corrupted? ==> v in w.s.confirm.verdicts)
  {
  }

  lemma AckStep(w: World, st: Step)
    requires StreamInv(w) && AckInv(w) && (w.r.end.aborted ==> !w.r.end.channelOpen) && Enabled(w, st)
    ensures AckInv(Apply(w, st))
  {
    if st.DeliverForward? {
      AckDeliver(w, st);
    } else if st.Verified? {
      AckVerified(w, st);
    } else if st.Then? {
      AckThen(w, st);
    } else if Receiving(st) {
      AckRest(w, st);
    } else if st.DeliverBack? {
      AckBack(w, st);
    } else {
      AckQuiet(w, st);
    }
  }
}
