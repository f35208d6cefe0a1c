/** How often the low-water event can be dispatched with the buffer full again. */
module Overtaking {
  import opened Messages
  import opened SenderModel
  import opened Protocol
  import opened StreamSafety
  import opened VerdictSafety
  import opened FlowSafety

  ghost predicate Reads(s: Sender) {
    s.pos.chain.Some? && !s.pos.chain.value.waiting
  }

  /** The next chunk of this file may still be one the buffer has no room for. */
  ghost predicate AtRisk(s: Sender) {
    || (Waiting(s) && s.flow.lowPending > 0 && s.flow.buffered > LOW_WATERMARK)
    || (Reads(s) && !s.flow.note.gated)
  }

  /** The read goes on after a low-water event although the buffer is full. */
  ghost predicate WokenLate(s: Sender) {
    Reads(s) && !s.flow.note.gated && s.pos.chain.value.offset > 0
  }

  /** Events queued behind the first one. */
  function Behind(f: Flow): nat {
    if f.lowPending > 0 then f.lowPending - 1 else 0
  }

  /** At most one overtaken chunk for the file of the last gated chunk and each file since,
      and one for each event raised while another was queued; and never more than events. */
  ghost predicate RareInv(b: Batch, s: Sender)
    requires b.Valid() && SenderAt(b, s)
  {
    var f := s.flow;
    && f.note.overtaken + f.note.gateFile + Behind(f) <= Begun(b, s.pos) + f.note.stacked + (if AtRisk(s) then 0 else 1)
    && f.note.overtaken + f.lowPending + (if WokenLate(s) then 1 else 0) <= f.note.raised
    && f.lowPending <= f.note.stacked + 1
    && f.note.stacked <= (if f.note.raised > 0 then f.note.raised - 1 else 0)
    && (WokenLate(s) ==>
          || f.buffered <= LOW_WATERMARK
          || f.note.overtaken + f.note.gateFile + f.lowPending <= Begun(b, s.pos) + f.note.stacked)
  }

  lemma RareInitial(b: Batch)
    requires b.Valid()
    ensures RareInv(b, NEW_SENDER)
  {
  }

  lemma RareNextFile(b: Batch, s: Sender, ok: Sends)
    requires b.Valid() && s.pos.started && !s.pos.finished && s.pos.fileIndex <= |b.files|
    requires s.pos.totalBytes == TotalSize(b.files)
    requires s.flow.note.overtaken + s.flow.note.gateFile + Behind(s.flow) <= s.pos.fileIndex + 1 + s.flow.note.stacked
    requires s.flow.note.overtaken + s.flow.lowPending <= s.flow.note.raised
    requires s.flow.lowPending <= s.flow.note.stacked + 1
    requires s.flow.note.stacked <= (if s.flow.note.raised > 0 then s.flow.note.raised - 1 else 0)
    ensures var s' := SendNextFile(b, s, ok).s;
            SenderAt(b, s') && RareInv(b, s')
  {
    NextFileEmits(b, s, ok);
  }

  lemma RareLoad(b: Batch, s: Sender, ok: Sends)
    requires b.Valid() && SenderAt(b, s) && FlowInv(b, s) && RareInv(b, s) && Reads(s)
    requires s.pos.started && !s.pos.finished
    ensures var s' := OnLoad(b, s, s.pos.chain.value, ok).s;
            SenderAt(b, s') && RareInv(b, s')
  {
    var c := s.pos.chain.value;
    if s.link.aborted || !s.link.channelOpen || !ok.chunk {
      FlowStopped(b, s, ok);
    } else {
      var s1 := SendChunk(b, s, c);
      var c1 := c.(offset := c.offset + |SliceOf(b, c)|);
      LoadCases(b, s, ok);
      if c1.offset < |b.files[c.file].content| {
        RareMore(b, s);
      } else {
        RareNextFile(b, NextIndex(s1), ok);
      }
    }
  }

  /** A chunk that leaves some of the file: only a pause with a stale event is a new risk. */
  lemma RareMore(b: Batch, s: Sender)
    requires b.Valid() && SenderAt(b, s) && FlowInv(b, s) && RareInv(b, s) && Reads(s)
    requires s.pos.started && !s.pos.finished
    requires s.pos.chain.value.offset + |SliceOf(b, s.pos.chain.value)| < |b.files[s.pos.chain.value.file].content|
    ensures var c := s.pos.chain.value;
            var s1 := SendChunk(b, s, c);
            var c1 := c.(offset := c.offset + |SliceOf(b, c)|);
            && (s1.flow.buffered > HIGH_WATERMARK ==> SenderAt(b, Pause(s1, c1)) && RareInv(b, Pause(s1, c1)))
            && (s1.flow.buffered <= HIGH_WATERMARK ==>
                  SenderAt(b, StreamNext(s1, c1)) && RareInv(b, StreamNext(s1, c1)))
  {
  }

  lemma RareStep(w: World, st: Step)
    requires StreamInv(w) && FlowInv(w.b, w.s) && RareInv(w.b, w.s) && Enabled(w, st)
    ensures var s' := Apply(w, st).s; SenderAt(w.b, s') && RareInv(w.b, s')
  {
    if st.Start? {
      RareNextFile(w.b, Begin(w.b, w.s), st.ok);
    } else if st.Load? {
      RareLoad(w.b, w.s, st.ok);
    } else if st.LowEvent? {
      RareLow(w.b, w.s);
    } else if st.Drain? {
      RareDrain(w.b, w.s, st.n);
    } else if st.DeliverForward? || Receiving(st) {
      ReceiverLeavesSender(w, st);
    } else {
      FlowQuiet(w, st);
      RareIrrelevant(w.b, w.s, Apply(w, st).s);
    }
  }

  lemma RareLow(b: Batch, s: Sender)
    requires b.Valid() && SenderAt(b, s) && FlowInv(b, s) && RareInv(b, s) && s.flow.lowPending > 0
    ensures var s' := OnLow(s); SenderAt(b, s') && RareInv(b, s')
  {
  }

  lemma RareDrain(b: Batch, s: Sender, n: nat)
    requires b.Valid() && SenderAt(b, s) && RareInv(b, s) && n <= s.flow.buffered
    ensures RareInv(b, OnDrain(s, n))
  {
  }

  lemma RareIrrelevant(b: Batch, s: Sender, s': Sender)
    requires b.Valid() && SenderAt(b, s) && RareInv(b, s) && s'.flow == s.flow
    requires s'.pos == s.pos || (!Waiting(s) && s'.pos == s.pos.(chain := None))
    ensures SenderAt(b, s') && RareInv(b, s')
  {
  }

  // ----- How many events there can be ----------------------------------------

  /** Between two events something was sent. */
  ghost predicate EventInv(w: World) {
    w.s.flow.note.raised + (if w.s.flow.buffered > LOW_WATERMARK then 1 else 0) <= |w.consumed| + |w.fwd|
  }

  lemma EventStep(w: World, st: Step)
    requires StreamInv(w) && FlowInv(w.b, w.s) && EventInv(w) && Enabled(w, st)
    ensures EventInv(Apply(w, st))
  {
    if st.Start? {
      NextFileSends(w.b, Begin(w.b, w.s), st.ok);
    } else if st.Load? {
      LoadSends(w.b, w.s, st.ok);
    } else if st.DeliverForward? {
      ReceiverLeavesSender(w, st);
    } else {
      QuietQueue(w, st);
      if Receiving(st) {
        ReceiverLeavesSender(w, st);
      } else if !st.LowEvent? && !st.Drain? {
        FlowQuiet(w, st);
      }
    }
  }

  /** Only a message makes the buffer grow. */
  ghost predicate GrowsBySending(s: Sender, out: Out) {
    out.s.flow.note.raised == s.flow.note.raised && (out.msgs == [] ==> out.s.flow.buffered == s.flow.buffered)
  }

  lemma NextFileSends(b: Batch, s: Sender, ok: Sends)
    requires b.Valid()
    ensures GrowsBySending(s, SendNextFile(b, s, ok))
  {
  }

  lemma LoadSends(b: Batch, s: Sender, ok: Sends)
    requires b.Valid() && SenderAt(b, s) && s.pos.chain.Some?
    ensures GrowsBySending(s, OnLoad(b, s, s.pos.chain.value, ok))
  {
  }
}
