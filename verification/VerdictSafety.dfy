/** What the sender tells its user, whatever races the final acknowledgement, the end of
    the batch, the completion timer and the two closes run. */
module VerdictSafety {
  import opened Messages
  import opened SenderModel
  import opened Protocol
  import opened StreamSafety

  /** The only verdict sequences: none, one, or a success followed by one corruption
      report. Anything but a lone success means the connection is closed. */
  ghost predicate VerdictShape(v: seq<Verdict>, aborted: bool) {
    || v == []
    || v == [Success]
    || (|v| == 1 && aborted)
    || (|v| == 2 && v[0] == Success && v[1].Corrupted? && aborted)
  }

  ghost predicate VerdictInv(s: Sender) {
    var v := s.confirm.verdicts;
    && VerdictShape(v, s.link.aborted)
    && (v != [] && !v[0].Corrupted? ==> s.pos.finished)
    && (v != [] && v[0] == Success ==> s.confirm.finalAckReceived && (s.confirm.closeTimer || s.link.aborted))
    && (s.confirm.completionTimer ==>
          s.pos.finished && v == [] && !s.link.aborted && !s.confirm.finalAckReceived)
    && (s.pos.finished ==> s.confirm.completionTimer || v != [] || s.link.cancelled)
    && (s.pos.finished ==> s.link.silenced && s.log.alerts == [])
    && (s.link.aborted ==> !s.confirm.completionTimer && !s.link.channelOpen && s.link.silenced)
    && (s.log.alerts != [] ==> s.link.aborted)
    && (s.link.cancelled ==> s.link.aborted)
    && (s.confirm.closeTimer ==> v != [] && v[0] == Success)
    && (s.link.aborted ==> v != [] || s.log.alerts != [] || s.link.cancelled)
  }

  /** The batch is begun, not through and not closed, and no callback will go on with it. */
  ghost predicate Stalled(s: Sender) {
    s.pos.started && !s.pos.finished && !s.link.aborted && s.pos.chain.None?
  }

  lemma VerdictInitial()
    ensures VerdictInv(NEW_SENDER)
  {
  }

  lemma VerdictNextFile(b: Batch, s: Sender, ok: Sends)
    requires b.Valid() && VerdictInv(s) && !s.pos.finished && s.pos.started
    ensures VerdictInv(SendNextFile(b, s, ok).s)
  {
    if s.link.aborted {
    } else if s.pos.fileIndex >= |b.files| {
      VerdictFinish(b, s, ok);
    }
  }

  lemma VerdictFinish(b: Batch, s: Sender, ok: Sends)
    requires b.Valid() && VerdictInv(s) && !s.pos.finished && !s.link.aborted
    ensures VerdictInv(FinishBatch(b, s, ok).s)
  {
    assert s.confirm.verdicts == [];
  }

  lemma VerdictLoad(b: Batch, s: Sender, ok: Sends)
    requires b.Valid() && VerdictInv(s) && SenderAt(b, s) && s.pos.chain.Some?
    ensures VerdictInv(OnLoad(b, s, s.pos.chain.value, ok).s)
  {
    var c := s.pos.chain.value;
    if !s.link.aborted && s.link.channelOpen && ok.chunk {
      var s1 := SendChunk(b, s, c);
      assert VerdictInv(s1) && VerdictInv(NextIndex(s1));
      VerdictNextFile(b, NextIndex(s1), ok);
    }
  }

  lemma VerdictClose(s: Sender)
    requires VerdictInv(s)
    ensures s.confirm.closeTimer ==> VerdictInv(OnDelayedClose(s))
    ensures VerdictInv(OnCancel(s))
  {
  }

  lemma VerdictAlert(s: Sender, a: Alert)
    requires VerdictInv(s) && !s.pos.finished
    ensures VerdictInv(AlertAndClose(s, a))
  {
  }

  lemma VerdictBack(s: Sender, m: Back)
    requires VerdictInv(s) && s.link.channelOpen
    ensures VerdictInv(OnBack(s, m))
  {
  }

  lemma VerdictLow(s: Sender)
    requires VerdictInv(s)
    requires s.flow.lowPending > 0
    ensures VerdictInv(OnLow(s))
  {
  }

  lemma VerdictStep(w: World, st: Step)
    requires StreamInv(w) && VerdictInv(w.s) && Enabled(w, st)
    ensures VerdictInv(Apply(w, st).s)
  {
    match st {
      case Start(ok) => VerdictNextFile(w.b, Begin(w.b, w.s), ok);
      case Load(ok) => VerdictLoad(w.b, w.s, ok);
      case ReadFails => VerdictAlert(WithoutChain(w.s), ReadError);
      case Drain(_) =>
      case LowEvent => VerdictLow(w.s);
      case CompletionTimeout =>
      case DelayedClose => VerdictClose(w.s);
      case HandshakeTimeout => VerdictAlert(w.s, NoResponse);
      case SenderCancels => VerdictClose(w.s);
      case SenderLoses => VerdictAlert(w.s, ConnectionLost);
      case SenderChannelDown =>
      case DeliverBack => VerdictBack(w.s, w.back[0]);
      case _ => ReceiverLeavesSender(w, st);
    }
  }

  lemma ReceiverLeavesSender(w: World, st: Step)
    requires w.b.Valid() && Enabled(w, st) && (st.DeliverForward? || Receiving(st))
    ensures Apply(w, st).s == w.s
  {
  }

  /** A closed sender has said and sent its last. */
  lemma ClosedIsFinal(w: World, st: Step)
    requires StreamInv(w) && VerdictInv(w.s) && Enabled(w, st) && w.s.link.aborted
    ensures var w' := Apply(w, st);
            && w'.s.link.aborted
            && w'.s.confirm.verdicts == w.s.confirm.verdicts
            && w'.consumed + w'.fwd == w.consumed + w.fwd
  {
    if st.DeliverForward? {
      ReceiverLeavesSender(w, st);
      MoveFirst(w.consumed, w.fwd);
    } else if st.Load? {
      ClosedLoad(w, st);
    } else {
      QuietQueue(w, st);
      ClosedSaysNothing(w, st);
    }
  }

  lemma ClosedLoad(w: World, st: Step)
    requires w.b.Valid() && Enabled(w, st) && st.Load? && w.s.link.aborted
    ensures var w' := Apply(w, st);
            && w'.s.link == w.s.link && w'.s.confirm == w.s.confirm
            && w'.consumed == w.consumed && w'.fwd == w.fwd
  {
  }

  lemma ClosedSaysNothing(w: World, st: Step)
    requires w.b.Valid() && Enabled(w, st) && !st.Load? && !st.DeliverForward?
    requires w.s.link.aborted && !w.s.confirm.completionTimer && !w.s.link.channelOpen
    ensures var w' := Apply(w, st);
            w'.s.link.aborted && w'.s.confirm.verdicts == w.s.confirm.verdicts
  {
  }

  lemma QuietQueue(w: World, st: Step)
    requires w.b.Valid() && Enabled(w, st)
    requires !st.Start? && !st.Load? && !st.DeliverForward?
    ensures Apply(w, st).fwd == w.fwd && Apply(w, st).consumed == w.consumed
  {
  }

  // ----- Stalls ----------------------------------------------------------------

  /** Only a lost channel stops a batch without closing the connection. */
  ghost predicate StallInv(s: Sender) {
    Stalled(s) ==> !s.link.channelOpen
  }

  lemma StallLoad(b: Batch, s: Sender, ok: Sends)
    requires b.Valid() && SenderAt(b, s) && s.pos.chain.Some?
    ensures StallInv(OnLoad(b, s, s.pos.chain.value, ok).s)
  {
  }

  lemma StallStep(w: World, st: Step)
    requires StreamInv(w) && StallInv(w.s) && Enabled(w, st)
    ensures StallInv(Apply(w, st).s)
  {
    if st.Load? {
      StallLoad(w.b, w.s, st.ok);
    } else if st.DeliverForward? || Receiving(st) {
      ReceiverLeavesSender(w, st);
    } else if st.DeliverBack? {
      StallBack(w.s, w.back[0]);
    }
  }

  lemma StallBack(s: Sender, m: Back)
    ensures Stalled(OnBack(s, m)) ==> Stalled(s) && OnBack(s, m).link.channelOpen == s.link.channelOpen
  {
  }

  // ----- What is shown, by its cause -----------------------------------------

  /** Whether the slice is the last of a file that is not the last. */
  ghost predicate EndsFile(b: Batch, c: Chain)
    requires b.Valid()
  {
    c.file + 1 < |b.files| && c.offset + 16384 >= |b.files[c.file].content|
  }

  /** Which error message each step shows, besides a verdict. */
  ghost function AlertOf(w: World, st: Step): seq<Alert>
    requires w.b.Valid() && Enabled(w, st)
  {
    match st
    case ReadFails => [ReadError]
    case HandshakeTimeout => [NoResponse]
    case SenderLoses => [ConnectionLost]
    case Start(ok) => if w.s.link.channelOpen && ok.header then [] else [SendError]
    case Load(ok) =>
      if w.s.link.aborted || !w.s.link.channelOpen then []
      else if !ok.chunk || (EndsFile(w.b, w.s.pos.chain.value) && !ok.header) then [SendError]
      else []
    case _ => []
  }

  /** Each step shows exactly its message, and none without closing the connection. */
  lemma AlertsByCause(w: World, st: Step)
    requires w.b.Valid() && SenderAt(w.b, w.s) && VerdictInv(w.s) && Enabled(w, st)
    ensures var s' := Apply(w, st).s;
            && s'.log.alerts == w.s.log.alerts + AlertOf(w, st)
            && (AlertOf(w, st) != [] ==> s'.link.aborted && !s'.link.channelOpen && !s'.confirm.completionTimer)
  {
    if st.Load? {
      LoadAlerts(w.b, w.s, st.ok);
    } else if st.Start? {
      StartAlerts(w.b, w.s, st.ok);
    } else if st.DeliverForward? || Receiving(st) {
      ReceiverLeavesSender(w, st);
    } else {
      QuietAlerts(w, st);
    }
  }

  lemma LoadAlerts(b: Batch, s: Sender, ok: Sends)
    requires b.Valid() && SenderAt(b, s) && s.pos.chain.Some?
    requires s.link.aborted ==> !s.link.channelOpen && !s.confirm.completionTimer
    ensures var s' := OnLoad(b, s, s.pos.chain.value, ok).s;
            var fails := !s.link.aborted && s.link.channelOpen &&
                         (!ok.chunk || (EndsFile(b, s.pos.chain.value) && !ok.header));
            && s'.log.alerts == s.log.alerts + (if fails then [SendError] else [])
            && (fails ==> s'.link.aborted && !s'.link.channelOpen && !s'.confirm.completionTimer)
  {
  }

  lemma StartAlerts(b: Batch, s: Sender, ok: Sends)
    requires b.Valid() && !s.link.aborted
    ensures var s' := SendBatch(b, s, ok).s;
            var fails := !s.link.channelOpen || !ok.header;
            && s'.log.alerts == s.log.alerts + (if fails then [SendError] else [])
            && (fails ==> s'.link.aborted && !s'.link.channelOpen && !s'.confirm.completionTimer)
  {
  }

  lemma QuietAlerts(w: World, st: Step)
    requires w.b.Valid() && VerdictInv(w.s) && Enabled(w, st)
    requires !st.Start? && !st.Load? && !st.DeliverForward? && !Receiving(st)
    ensures var s' := Apply(w, st).s;
            && s'.log.alerts == w.s.log.alerts + AlertOf(w, st)
            && (AlertOf(w, st) != [] ==> s'.link.aborted && !s'.link.channelOpen && !s'.confirm.completionTimer)
  {
  }

  /** Which verdict each step gives: the timer's, the receiver's complaint, or success at the
      full ack or at the end of the batch, whichever comes later. */
  ghost function VerdictOf(w: World, st: Step): seq<Verdict>
    requires w.b.Valid() && Enabled(w, st)
  {
    match st
    case CompletionTimeout => [Unconfirmed]
    case DeliverBack =>
      (match w.back[0]
       case IntegrityError(name) => [Corrupted(name)]
       case Ack(v) => if v >= TotalSize(w.b.files) && w.s.confirm.completionTimer then [Success] else [])
    case Load(ok) =>
      var c := w.s.pos.chain.value;
      if !w.s.link.aborted && w.s.link.channelOpen && ok.chunk && w.s.confirm.finalAckReceived &&
         c.file + 1 == |w.b.files| && c.offset + 16384 >= |w.b.files[c.file].content|
      then [Success] else []
    case _ => []
  }

  lemma VerdictsByCause(w: World, st: Step)
    requires w.b.Valid() && SenderAt(w.b, w.s) && VerdictInv(w.s) && Enabled(w, st)
    ensures Apply(w, st).s.confirm.verdicts == w.s.confirm.verdicts + VerdictOf(w, st)
  {
    if st.Load? {
      LoadVerdict(w.b, w.s, st.ok);
    } else if st.Start? {
      StartVerdict(w.b, w.s, st.ok);
    } else if st.DeliverForward? || Receiving(st) {
      ReceiverLeavesSender(w, st);
    } else {
      QuietVerdict(w, st);
    }
  }

  lemma LoadVerdict(b: Batch, s: Sender, ok: Sends)
    requires b.Valid() && SenderAt(b, s) && s.pos.chain.Some?
    ensures var c := s.pos.chain.value;
            OnLoad(b, s, c, ok).s.confirm.verdicts == s.confirm.verdicts +
              (if !s.link.aborted && s.link.channelOpen && ok.chunk && s.confirm.finalAckReceived &&
                  c.file + 1 == |b.files| && c.offset + 16384 >= |b.files[c.file].content|
               then [Success] else [])
  {
  }

  lemma StartVerdict(b: Batch, s: Sender, ok: Sends)
    requires b.Valid()
    ensures SendBatch(b, s, ok).s.confirm.verdicts == s.confirm.verdicts
  {
  }

  lemma QuietVerdict(w: World, st: Step)
    requires w.b.Valid() && SenderAt(w.b, w.s) && VerdictInv(w.s) && Enabled(w, st)
    requires !st.Start? && !st.Load? && !st.DeliverForward? && !Receiving(st)
    ensures Apply(w, st).s.confirm.verdicts == w.s.confirm.verdicts + VerdictOf(w, st)
  {
  }

  /** Once closed, no callback that is still due sends, shows or reports anything. */
  lemma ClosedCallbacks(b: Batch, s: Sender, c: Chain, ok: Sends)
    requires b.Valid() && s.link.aborted && c.file < |b.files| && c.offset <= |b.files[c.file].content|
    ensures var next, load, begin := SendNextFile(b, s, ok), OnLoad(b, s, c, ok), SendBatch(b, s, ok);
            && next.msgs == load.msgs == begin.msgs == []
            && next.s.log == load.s.log == begin.s.log == s.log
            && next.s.confirm == load.s.confirm == begin.s.confirm == s.confirm
            && next.s.pos.chain == load.s.pos.chain == begin.s.pos.chain == None
            && StreamNext(s, c).pos.chain == None
            && CloseSender(s) == s
  {
  }
}
