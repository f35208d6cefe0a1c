/** Backpressure: the send buffer stays bounded and a paused sender is always woken. */
module FlowSafety {
  import opened Messages
  import opened SenderModel
  import opened Protocol
  import opened StreamSafety
  import opened VerdictSafety

  /** Length of the first chunk of file i, which is sent without looking at the buffer. */
  function FirstChunk(b: Batch, i: nat): nat
    requires i < |b.files|
  {
    SliceEnd(b.files[i].content, 0)
  }

  /** What files lo..hi add to the buffer without looking at it. */
  function UngatedCost(b: Batch, lo: nat, hi: nat): nat
    requires b.Valid() && hi <= |b.files|
    decreases hi
  {
    if hi <= lo then 0
    else UngatedCost(b, lo, hi - 1) + b.headerBytes[hi - 1] + FirstChunk(b, hi - 1)
  }

  /** How many files have been begun. */
  ghost function Begun(b: Batch, p: Position): nat
    requires b.Valid() && p.fileIndex <= |b.files|
  {
    if !p.started then 0 else if p.fileIndex < |b.files| then p.fileIndex + 1 else |b.files|
  }

  /** A first chunk counted in the cost of its file but not sent yet. */
  ghost function Owed(b: Batch, p: Position): nat
    requires b.Valid()
  {
    match p.chain
    case None => 0
    case Some(c) => if c.offset == 0 && c.file < |b.files| then FirstChunk(b, c.file) else 0
  }

  ghost function Ceiling(b: Batch, s: Sender): nat
    requires b.Valid() && s.pos.fileIndex <= |b.files|
  {
    HIGH_WATERMARK + CHUNK_SIZE
    + CHUNK_SIZE * s.flow.note.overtaken
    + UngatedCost(b, s.flow.note.gateFile, Begun(b, s.pos))
    + (if s.pos.doneSent then DONE_BYTES else 0)
  }

  ghost predicate Waiting(s: Sender) {
    s.pos.chain.Some? && s.pos.chain.value.waiting
  }

  ghost predicate FlowInv(b: Batch, s: Sender)
    requires b.Valid() && SenderAt(b, s)
  {
    && (s.flow.lowHandler <==> Waiting(s))
    && (Waiting(s) ==> s.flow.buffered > LOW_WATERMARK || s.flow.lowPending > 0)
    && (s.pos.chain.Some? && !Waiting(s) && s.flow.note.gated ==> s.flow.buffered <= HIGH_WATERMARK)
    && (s.pos.chain.Some? && s.pos.chain.value.offset == 0 ==> !s.flow.note.gated && !Waiting(s))
    && (s.pos.doneSent ==> s.pos.finished)
    && s.flow.note.gateFile <= Begun(b, s.pos)
    && s.flow.buffered + Owed(b, s.pos) <= Ceiling(b, s)
  }

  lemma FlowInitial(b: Batch)
    requires b.Valid()
    ensures FlowInv(b, NEW_SENDER)
  {
  }

  /** Beginning file `fileIndex` pays for its header and first chunk. */
  lemma FlowNextFile(b: Batch, s: Sender, ok: Sends)
    requires b.Valid() && s.pos.started && !s.pos.finished && !s.pos.doneSent && s.pos.fileIndex <= |b.files|
    requires s.pos.totalBytes == TotalSize(b.files)
    requires !s.flow.lowHandler
    requires s.flow.buffered <= HIGH_WATERMARK + CHUNK_SIZE + CHUNK_SIZE * s.flow.note.overtaken
                                + UngatedCost(b, s.flow.note.gateFile, s.pos.fileIndex)
    requires s.flow.note.gateFile <= s.pos.fileIndex
    ensures var s' := SendNextFile(b, s, ok).s;
            SenderAt(b, s') && FlowInv(b, s')
  {
    NextFileEmits(b, s, ok);
  }

  lemma FlowLoad(b: Batch, s: Sender, ok: Sends)
    requires b.Valid() && SenderAt(b, s) && FlowInv(b, s) && s.pos.chain.Some? && !Waiting(s)
    requires s.pos.started && !s.pos.finished
    ensures var s' := OnLoad(b, s, s.pos.chain.value, ok).s;
            SenderAt(b, s') && FlowInv(b, s')
  {
    var c := s.pos.chain.value;
    var c1 := c.(offset := c.offset + |SliceOf(b, c)|);
    if s.link.aborted || !s.link.channelOpen || !ok.chunk {
      FlowStopped(b, s, ok);
    } else {
      var s1 := SendChunk(b, s, c);
      ChunkFits(b, s);
      LoadCases(b, s, ok);
      if c1.offset < |b.files[c.file].content| {
        FlowMore(b, s1, c1);
      } else {
        FlowNextFile(b, NextIndex(s1), ok);
      }
    }
  }

  lemma FlowStopped(b: Batch, s: Sender, ok: Sends)
    requires b.Valid() && SenderAt(b, s) && FlowInv(b, s) && s.pos.chain.Some? && !Waiting(s)
    requires s.link.aborted || !s.link.channelOpen || !ok.chunk
    ensures var s' := OnLoad(b, s, s.pos.chain.value, ok).s;
            SenderAt(b, s') && FlowInv(b, s')
  {
  }

  lemma LoadCases(b: Batch, s: Sender, ok: Sends)
    requires b.Valid() && SenderAt(b, s) && s.pos.chain.Some?
    requires !s.link.aborted && s.link.channelOpen && ok.chunk
    ensures var c := s.pos.chain.value;
            var c1 := c.(offset := c.offset + |SliceOf(b, c)|);
            var s1 := SendChunk(b, s, c);
            OnLoad(b, s, c, ok).s ==
            if c1.offset < |b.files[c.file].content|
            then (if s1.flow.buffered > HIGH_WATERMARK then Pause(s1, c1) else StreamNext(s1, c1))
            else SendNextFile(b, NextIndex(s1), ok).s
  {
  }

  /** After a chunk that was not the last: pause above the high mark, else read on. */
  lemma FlowMore(b: Batch, s: Sender, c: Chain)
    requires b.Valid() && SenderAt(b, s) && s.pos.started && !s.pos.finished && !s.pos.doneSent
    requires c.file == s.pos.fileIndex < |b.files| && 0 < c.offset < |b.files[c.file].content|
    requires !s.flow.lowHandler && s.flow.note.gateFile <= s.pos.fileIndex + 1
    requires s.flow.buffered <= HIGH_WATERMARK + CHUNK_SIZE + CHUNK_SIZE * s.flow.note.overtaken
                                + UngatedCost(b, s.flow.note.gateFile, s.pos.fileIndex + 1)
    ensures s.flow.buffered > HIGH_WATERMARK ==> SenderAt(b, Pause(s, c)) && FlowInv(b, Pause(s, c))
    ensures s.flow.buffered <= HIGH_WATERMARK ==> SenderAt(b, StreamNext(s, c)) && FlowInv(b, StreamNext(s, c))
  {
  }

  /** One chunk more: through the gate, paid for as a first chunk, or after an overtaken event. */
  lemma ChunkFits(b: Batch, s: Sender)
    requires b.Valid() && SenderAt(b, s) && FlowInv(b, s) && s.pos.chain.Some? && !Waiting(s)
    requires s.pos.started && !s.pos.finished
    ensures var f := SendChunk(b, s, s.pos.chain.value).flow;
            && f.note.gateFile <= s.pos.fileIndex + 1
            && f.buffered <= HIGH_WATERMARK + CHUNK_SIZE + CHUNK_SIZE * f.note.overtaken
                             + UngatedCost(b, f.note.gateFile, s.pos.fileIndex + 1)
  {
  }

  lemma FlowLow(b: Batch, s: Sender)
    requires b.Valid() && SenderAt(b, s) && FlowInv(b, s) && s.flow.lowPending > 0
    ensures var s' := OnLow(s); SenderAt(b, s') && FlowInv(b, s')
  {
  }

  lemma FlowQuiet(w: World, st: Step)
    requires StreamInv(w) && FlowInv(w.b, w.s) && Enabled(w, st)
    requires !st.Start? && !st.Load? && !st.LowEvent? && !st.Drain? && !st.DeliverForward? && !Receiving(st)
    ensures var s' := Apply(w, st).s;
            s'.flow == w.s.flow && (s'.pos == w.s.pos || (!Waiting(w.s) && s'.pos == w.s.pos.(chain := None)))
  {
  }

  lemma FlowStep(w: World, st: Step)
    requires StreamInv(w) && FlowInv(w.b, w.s) && Enabled(w, st)
    ensures var s' := Apply(w, st).s; SenderAt(w.b, s') && FlowInv(w.b, s')
  {
    if st.Start? {
      FlowStart(w.b, w.s, st.ok);
    } else if st.Load? {
      FlowLoad(w.b, w.s, st.ok);
    } else if st.LowEvent? {
      FlowLow(w.b, w.s);
    } else if st.Drain? {
      FlowDrain(w.b, w.s, st.n);
    } else if st.DeliverForward? || Receiving(st) {
      ReceiverLeavesSender(w, st);
    } else {
      FlowQuiet(w, st);
      FlowIrrelevant(w.b, w.s, Apply(w, st).s);
    }
  }

  lemma FlowStart(b: Batch, s: Sender, ok: Sends)
    requires b.Valid() && SenderAt(b, s) && FlowInv(b, s) && !s.pos.started
    ensures var s' := SendBatch(b, s, ok).s; SenderAt(b, s') && FlowInv(b, s')
  {
    FlowNextFile(b, Begin(b, s), ok);
  }

  lemma FlowDrain(b: Batch, s: Sender, n: nat)
    requires b.Valid() && SenderAt(b, s) && FlowInv(b, s) && n <= s.flow.buffered
    ensures FlowInv(b, OnDrain(s, n))
  {
  }

  lemma FlowIrrelevant(b: Batch, s: Sender, s': Sender)
    requires b.Valid() && SenderAt(b, s) && FlowInv(b, s) && s'.flow == s.flow
    requires s'.pos == s.pos || (!Waiting(s) && s'.pos == s.pos.(chain := None))
    ensures SenderAt(b, s') && FlowInv(b, s')
  {
  }

  // ----- Waking up -----------------------------------------------------------

  /** A pause ends by the low-water event alone; then the same chain reads on from the
      same offset, with the handler detached, or the connection is gone. */
  lemma PauseEndsByLowEvent(w: World, st: Step)
    requires StreamInv(w) && FlowInv(w.b, w.s) && Enabled(w, st) && Waiting(w.s)
    ensures var s' := Apply(w, st).s;
            if st.LowEvent? then
              && !s'.flow.lowHandler
              && (w.s.link.channelOpen && !w.s.link.aborted ==>
                    s'.pos.chain == Some(w.s.pos.chain.value.(waiting := false)))
            else s'.pos.chain == w.s.pos.chain && s'.flow.lowHandler
  {
    if !st.LowEvent? && !st.Drain? {
      if st.DeliverForward? || Receiving(st) {
        ReceiverLeavesSender(w, st);
      } else {
        FlowQuiet(w, st);
      }
    }
  }

  /** Draining a paused sender's buffer to the low mark raises the event that resumes it. */
  lemma DrainedPauseWakes(b: Batch, s: Sender, n: nat)
    requires b.Valid() && SenderAt(b, s) && FlowInv(b, s) && Waiting(s)
    requires n <= s.flow.buffered && s.flow.buffered - n <= LOW_WATERMARK
    requires s.link.channelOpen && !s.link.aborted
    ensures var s' := OnDrain(s, n);
            && s'.flow.lowPending > 0 && s'.flow.lowHandler
            && OnLow(s').pos.chain == Some(s.pos.chain.value.(waiting := false))
  {
  }
}
