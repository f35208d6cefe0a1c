/** Low-water events that come too late: which batches can meet one, and for a single file
    exactly when that takes the buffer beyond its plain bound. */
module LateEvents {
  import opened Messages
  import opened SenderModel
  import opened Protocol
  import opened StreamSafety
  import opened VerdictSafety
  import opened FlowSafety
  import opened Overtaking
  import opened Safety
  import opened Termination

  // ----- Places in the stream ------------------------------------------------

  /** A slice about to be read: its file and its offset there. */
  datatype Place = Place(file: nat, offset: nat)

  function PlaceOf(c: Chain): Place {
    Place(c.file, c.offset)
  }

  /** Wire bytes of the first n files, headers included. */
  function WireStart(b: Batch, n: nat): nat
    requires b.Valid() && n <= |b.files|
  {
    if n == 0 then 0 else WireStart(b, n - 1) + b.headerBytes[n - 1] + |b.files[n - 1].content|
  }

  lemma {:induction false} WireStartMonotone(b: Batch, m: nat, n: nat)
    requires b.Valid() && m <= n <= |b.files|
    ensures WireStart(b, m) <= WireStart(b, n)
    decreases n
  {
    if m < n {
      WireStartMonotone(b, m, n - 1);
    }
  }

  /** Wire bytes sent before the slice. */
  function WireAt(b: Batch, p: Place): nat
    requires b.Valid() && p.file < |b.files|
  {
    WireStart(b, p.file) + b.headerBytes[p.file] + p.offset
  }

  ghost predicate IsPlace(b: Batch, p: Place)
    requires b.Valid()
  {
    && p.file < |b.files| && p.offset % CHUNK_SIZE == 0
    && (p.offset == 0 || p.offset < |b.files[p.file].content|)
  }

  predicate HasNext(b: Batch, p: Place)
    requires b.Valid() && p.file < |b.files|
  {
    p.offset + CHUNK_SIZE < |b.files[p.file].content| || p.file + 1 < |b.files|
  }

  function Next(b: Batch, p: Place): Place
    requires b.Valid() && p.file < |b.files|
  {
    if p.offset + CHUNK_SIZE < |b.files[p.file].content| then Place(p.file, p.offset + CHUNK_SIZE)
    else Place(p.file + 1, 0)
  }

  /** Stream order. */
  predicate Before(p: Place, q: Place) {
    p.file < q.file || (p.file == q.file && p.offset < q.offset)
  }

  lemma NextIsPlace(b: Batch, p: Place)
    requires b.Valid() && IsPlace(b, p) && HasNext(b, p)
    ensures IsPlace(b, Next(b, p)) && WireAt(b, p) <= WireAt(b, Next(b, p))
  {
    assert (p.offset + CHUNK_SIZE) % CHUNK_SIZE == p.offset % CHUNK_SIZE;
  }

  lemma OrderOfWire(b: Batch, p: Place, q: Place)
    requires b.Valid() && IsPlace(b, p) && IsPlace(b, q)
    ensures Before(p, q) ==> WireAt(b, p) <= WireAt(b, q)
    ensures WireAt(b, p) < WireAt(b, q) ==> Before(p, q)
  {
    if p.file < q.file {
      WireStartMonotone(b, p.file + 1, q.file);
    } else if q.file < p.file {
      WireStartMonotone(b, q.file + 1, p.file);
    }
  }

  /** There is no place between one and the next. */
  lemma NothingBetween(b: Batch, p: Place, q: Place)
    requires b.Valid() && IsPlace(b, p) && IsPlace(b, q) && Before(p, q)
    ensures HasNext(b, p) && (Next(b, p) == q || Before(Next(b, p), q))
  {
    if p.file == q.file {
      SameFile(p.offset, q.offset);
    }
  }

  lemma SameFile(m: nat, n: nat)
    requires m < n && m % CHUNK_SIZE == 0 && n % CHUNK_SIZE == 0
    ensures m + CHUNK_SIZE <= n
  {
  }

  // ----- Which batches can meet a late event ---------------------------------

  /** From some slice on, with more than the low mark sent before, more than fits between the
      marks is sent before a slice that looks at the buffer. */
  ghost predicate RoomForLate(b: Batch, p: Place, q: Place)
    requires b.Valid()
  {
    && IsPlace(b, p) && IsPlace(b, q) && q.offset > 0
    && WireAt(b, p) > LOW_WATERMARK
    && WireAt(b, q) > WireAt(b, p) + (HIGH_WATERMARK - LOW_WATERMARK)
  }

  ghost predicate CanBeLate(b: Batch)
    requires b.Valid()
  {
    exists p, q :: RoomForLate(b, p, q)
  }

  /** When an event has been raised, it was with at most the low mark left of what had been
      sent before some slice. */
  ghost predicate RaisedAt(b: Batch, s: Sender, p: Place)
    requires b.Valid() && SenderAt(b, s) && s.pos.chain.Some?
  {
    && IsPlace(b, p) && WireAt(b, p) > LOW_WATERMARK
    && s.flow.buffered + WireAt(b, p) <= LOW_WATERMARK + WireAt(b, PlaceOf(s.pos.chain.value))
  }

  ghost predicate LateInv(b: Batch, s: Sender)
    requires b.Valid() && SenderAt(b, s)
  {
    && (s.pos.chain.Some? ==>
          && IsPlace(b, PlaceOf(s.pos.chain.value))
          && s.flow.buffered <= WireAt(b, PlaceOf(s.pos.chain.value))
          && (s.flow.note.raised > 0 ==> exists p :: RaisedAt(b, s, p)))
    && (WokenLate(s) || s.flow.note.overtaken > 0 ==> CanBeLate(b))
  }

  /** A completed read moves on to the next place, and the buffer grows by what lies between. */
  ghost predicate TakesNext(b: Batch, s: Sender, s': Sender)
    requires b.Valid() && SenderAt(b, s) && s.pos.chain.Some?
  {
    var p := PlaceOf(s.pos.chain.value);
    && s'.flow.note.raised == s.flow.note.raised && s'.flow.lowPending == s.flow.lowPending
    && (s'.pos.chain.Some? ==>
          && HasNext(b, p) && PlaceOf(s'.pos.chain.value) == Next(b, p)
          && s'.flow.buffered + WireAt(b, p) == s.flow.buffered + WireAt(b, Next(b, p)))
    && (s'.flow.note.overtaken > 0 && !Waiting(s) ==> WokenLate(s) || s.flow.note.overtaken > 0)
    && !WokenLate(s')
  }

  lemma LoadTakesNext(b: Batch, s: Sender, ok: Sends)
    requires b.Valid() && SenderAt(b, s) && s.pos.chain.Some? && IsPlace(b, PlaceOf(s.pos.chain.value))
    ensures TakesNext(b, s, OnLoad(b, s, s.pos.chain.value, ok).s)
  {
    var c := s.pos.chain.value;
    if !s.link.aborted && s.link.channelOpen && ok.chunk {
      LoadCases(b, s, ok);
      if c.offset + CHUNK_SIZE < |b.files[c.file].content| {
        MoreTakesNext(b, s);
      } else {
        FileTakesNext(b, s, ok);
      }
    }
  }

  lemma MoreTakesNext(b: Batch, s: Sender)
    requires b.Valid() && SenderAt(b, s) && s.pos.chain.Some?
    requires var c := s.pos.chain.value; c.offset + CHUNK_SIZE < |b.files[c.file].content|
    ensures var c := s.pos.chain.value;
            var s1 := SendChunk(b, s, c);
            var c1 := c.(offset := c.offset + CHUNK_SIZE);
            && |SliceOf(b, c)| == CHUNK_SIZE
            && TakesNext(b, s, Pause(s1, c1))
            && (s1.flow.buffered <= HIGH_WATERMARK ==> TakesNext(b, s, StreamNext(s1, c1)))
  {
  }

  lemma FileTakesNext(b: Batch, s: Sender, ok: Sends)
    requires b.Valid() && SenderAt(b, s) && s.pos.chain.Some?
    requires var c := s.pos.chain.value; c.offset + CHUNK_SIZE >= |b.files[c.file].content|
    ensures var c := s.pos.chain.value;
            && c.offset + |SliceOf(b, c)| == |b.files[c.file].content|
            && TakesNext(b, s, SendNextFile(b, NextIndex(SendChunk(b, s, c)), ok).s)
  {
  }

  lemma LateLoad(b: Batch, s: Sender, ok: Sends)
    requires b.Valid() && SenderAt(b, s) && LateInv(b, s) && s.pos.chain.Some? && !Waiting(s)
    requires SenderAt(b, OnLoad(b, s, s.pos.chain.value, ok).s)
    ensures LateInv(b, OnLoad(b, s, s.pos.chain.value, ok).s)
  {
    LoadTakesNext(b, s, ok);
    var s' := OnLoad(b, s, s.pos.chain.value, ok).s;
    if s'.pos.chain.Some? {
      NextIsPlace(b, PlaceOf(s.pos.chain.value));
      if s.flow.note.raised > 0 {
        var p :| RaisedAt(b, s, p);
        assert RaisedAt(b, s', p);
      }
    }
  }

  lemma LateStart(b: Batch, s: Sender, ok: Sends)
    requires b.Valid() && SenderAt(b, s) && !s.pos.started && s.flow == NEW_SENDER.flow
    requires SenderAt(b, SendBatch(b, s, ok).s)
    ensures LateInv(b, SendBatch(b, s, ok).s)
  {
  }

  /** Only a sender paused above the high mark is woken late, and an event raised earlier
      has done it. */
  lemma LateLow(b: Batch, s: Sender)
    requires b.Valid() && SenderAt(b, s) && FlowInv(b, s) && RareInv(b, s) && LateInv(b, s) && s.flow.lowPending > 0
    requires SenderAt(b, OnLow(s))
    ensures LateInv(b, OnLow(s))
  {
    var s' := OnLow(s);
    if s'.pos.chain.Some? {
      var p :| RaisedAt(b, s, p);
      assert RaisedAt(b, s', p);
      if WokenLate(s') && !WokenLate(s) {
        assert RoomForLate(b, p, PlaceOf(s.pos.chain.value));
      }
    }
  }

  lemma LateDrain(b: Batch, s: Sender, n: nat)
    requires b.Valid() && SenderAt(b, s) && LateInv(b, s) && n <= s.flow.buffered
    ensures LateInv(b, OnDrain(s, n))
  {
    var s' := OnDrain(s, n);
    if s.pos.chain.Some? && s'.flow.note.raised > 0 {
      if s.flow.note.raised > 0 {
        var p :| RaisedAt(b, s, p);
        assert RaisedAt(b, s', p);
      } else {
        assert RaisedAt(b, s', PlaceOf(s.pos.chain.value));
      }
    }
  }

  lemma LateIrrelevant(b: Batch, s: Sender, s': Sender)
    requires b.Valid() && SenderAt(b, s) && LateInv(b, s) && s'.flow == s.flow && SenderAt(b, s')
    requires s'.pos == s.pos || s'.pos == s.pos.(chain := None)
    ensures LateInv(b, s')
  {
    if s'.pos.chain.Some? && s.flow.note.raised > 0 {
      var p :| RaisedAt(b, s, p);
      assert RaisedAt(b, s', p);
    }
  }

  /** Before the start nothing has happened to the buffer. */
  ghost predicate Untouched(s: Sender) {
    !s.pos.started ==> s.flow == NEW_SENDER.flow
  }

  lemma LateStep(w: World, st: Step)
    requires StreamInv(w) && FlowInv(w.b, w.s) && RareInv(w.b, w.s) && LateInv(w.b, w.s) && Untouched(w.s)
    requires Enabled(w, st) && SenderAt(w.b, Apply(w, st).s)
    ensures LateInv(w.b, Apply(w, st).s) && Untouched(Apply(w, st).s)
  {
    if st.Start? || st.Load? {
      LateEmit(w, st);
    } else if st.LowEvent? {
      LateLow(w.b, w.s);
    } else if st.Drain? {
      LateDrain(w.b, w.s, st.n);
    } else if st.DeliverForward? || Receiving(st) {
      ReceiverLeavesSender(w, st);
    } else {
      FlowQuiet(w, st);
      LateIrrelevant(w.b, w.s, Apply(w, st).s);
    }
  }

  lemma LateEmit(w: World, st: Step)
    requires StreamInv(w) && LateInv(w.b, w.s) && Untouched(w.s)
    requires (st.Start? || st.Load?) && Enabled(w, st) && SenderAt(w.b, Apply(w, st).s)
    ensures LateInv(w.b, Apply(w, st).s) && Untouched(Apply(w, st).s)
  {
    if st.Start? {
      LateStart(w.b, w.s, st.ok);
      StartNeverFinishes(w.b, w.s, st.ok);
    } else {
      LateLoad(w.b, w.s, st.ok);
      LoadStarted(w.b, w.s, st.ok);
    }
  }

  lemma {:induction false} LateRun(w: World, steps: seq<Step>)
    requires Safe(w) && LateInv(w.b, w.s) && Untouched(w.s) && Runs(w, steps)
    ensures var w' := After(w, steps); Safe(w') && LateInv(w'.b, w'.s)
    decreases |steps|
  {
    if steps != [] {
      SafeStep(w, steps[0]);
      LateStep(w, steps[0]);
      LateRun(Apply(w, steps[0]), steps[1..]);
    }
  }

  lemma NeverLate(b: Batch, now: nat, steps: seq<Step>)
    requires b.Valid() && Runs(Initial(b, now), steps) && !CanBeLate(b)
    ensures After(Initial(b, now), steps).s.flow.note.overtaken == 0
    ensures Safe(After(Initial(b, now), steps))
  {
    SafeInitial(b, now);
    LateRun(Initial(b, now), steps);
  }

  // ----- A run with a late event ---------------------------------------------

  /** A slice is being read on an open channel and no event has come late so far. */
  ghost predicate Filling(w: World) {
    && w.b.Valid() && SenderAt(w.b, w.s)
    && Open(w.s) && w.s.pos.chain.Some? && !Waiting(w.s)
    && IsPlace(w.b, At(w.s)) && Gates(w.s)
    && (At(w.s).offset > 0 ==> w.s.flow.note.gated)
  }

  ghost predicate Open(s: Sender) {
    s.pos.started && !s.link.aborted && s.link.channelOpen && !s.pos.doneSent
  }

  ghost function At(s: Sender): Place
    requires s.pos.chain.Some?
  {
    PlaceOf(s.pos.chain.value)
  }

  /** No late event yet, and a gated chunk of this file once two chunks of it are out. */
  ghost predicate Gates(s: Sender)
    requires s.pos.chain.Some?
  {
    && s.flow.note.overtaken == 0
    && (At(s).offset >= 2 * CHUNK_SIZE ==> s.flow.note.gateFile == At(s).file + 1)
  }

  /** Waiting above the high mark, with an event in the queue already. */
  ghost predicate Doomed(w: World, base: nat) {
    && w.b.Valid() && SenderAt(w.b, w.s)
    && Open(w.s) && Waiting(w.s) && w.s.flow.lowHandler && w.s.flow.lowPending > 0
    && w.s.flow.buffered > HIGH_WATERMARK
    && IsPlace(w.b, At(w.s)) && At(w.s).offset > 0 && Gates(w.s)
    && w.s.flow.buffered + base == LOW_WATERMARK + WireAt(w.b, At(w.s))
  }

  /** One read completes, and another place follows. */
  lemma FullLoad(w: World)
    requires Filling(w) && HasNext(w.b, At(w.s))
    ensures Enabled(w, Load(ALL_SENT))
    ensures var w' := Apply(w, Load(ALL_SENT));
            && SenderAt(w.b, w'.s) && Open(w'.s) && w'.s.pos.chain.Some?
            && At(w'.s) == Next(w.b, At(w.s)) && Gates(w'.s)
            && w'.s.flow.buffered + WireAt(w.b, At(w.s)) == w.s.flow.buffered + WireAt(w.b, At(w'.s))
            && w'.s.flow.lowPending == w.s.flow.lowPending
            && (Waiting(w'.s) <==> At(w'.s).offset > 0 && w'.s.flow.buffered > HIGH_WATERMARK)
            && (Waiting(w'.s) ==> w'.s.flow.lowHandler)
            && (!Waiting(w'.s) ==> Filling(w'))
  {
    NextIsPlace(w.b, At(w.s));
    LoadTakesNext(w.b, w.s, ALL_SENT);
    LoadGates(w.b, w.s);
  }

  lemma LoadGates(b: Batch, s: Sender)
    requires b.Valid() && SenderAt(b, s) && Open(s) && s.pos.chain.Some? && !Waiting(s)
    requires IsPlace(b, At(s)) && Gates(s) && (At(s).offset > 0 ==> s.flow.note.gated) && HasNext(b, At(s))
    ensures var s' := OnLoad(b, s, s.pos.chain.value, ALL_SENT).s;
            && SenderAt(b, s') && Open(s') && s'.pos.chain.Some? && Gates(s')
            && (Waiting(s') <==> At(s').offset > 0 && s'.flow.buffered > HIGH_WATERMARK)
            && (Waiting(s') ==> s'.flow.lowHandler)
            && (!Waiting(s') && At(s').offset > 0 ==> s'.flow.note.gated)
  {
  }

  lemma StartFilling(b: Batch, now: nat)
    requires b.Valid()
    ensures Enabled(Initial(b, now), Start(ALL_SENT))
    ensures var w := Apply(Initial(b, now), Start(ALL_SENT));
            Filling(w) && At(w.s) == Place(0, 0) && w.s.flow.buffered == WireAt(b, Place(0, 0))
  {
    assert WireStart(b, 0) == 0;
  }

  /** Undrained, the sender reads on until more than the low mark has been sent. */
  lemma {:induction false} FillToLow(w: World, p: Place) returns (steps: seq<Step>)
    requires Filling(w) && IsPlace(w.b, p) && WireAt(w.b, p) > LOW_WATERMARK && !Before(p, At(w.s))
    requires w.s.flow.buffered == WireAt(w.b, At(w.s))
    ensures Runs(w, steps)
    ensures var w' := After(w, steps);
            && Filling(w') && !Before(p, At(w'.s))
            && w'.s.flow.buffered == WireAt(w.b, At(w'.s)) > LOW_WATERMARK
    decreases |w.b.files| - At(w.s).file, |w.b.files[At(w.s).file].content| - At(w.s).offset
  {
    if WireAt(w.b, At(w.s)) > LOW_WATERMARK {
      steps := [];
    } else {
      OrderOfWire(w.b, At(w.s), p);
      NothingBetween(w.b, At(w.s), p);
      FullLoad(w);
      var rest := FillToLow(Apply(w, Load(ALL_SENT)), p);
      Prepend(w, Load(ALL_SENT), rest);
      steps := [Load(ALL_SENT)] + rest;
    }
  }

  /** The buffer falls to the low mark while a slice is read: an event is queued. */
  lemma DrainedWhileReading(w: World)
    requires Filling(w) && LOW_WATERMARK < w.s.flow.buffered
    ensures var st := Drain(w.s.flow.buffered - LOW_WATERMARK);
            && Enabled(w, st) && Filling(Apply(w, st)) && Apply(w, st).s.flow.lowPending > 0
            && Apply(w, st).s.flow.buffered == LOW_WATERMARK && At(Apply(w, st).s) == At(w.s)
  {
  }

  /** Undrained from there, the sender pauses no later than at q. */
  lemma {:induction false} FillToPause(w: World, q: Place, base: nat) returns (steps: seq<Step>)
    requires Filling(w) && IsPlace(w.b, q) && q.offset > 0 && Before(At(w.s), q)
    requires w.s.flow.lowPending > 0 && w.s.flow.buffered + base == LOW_WATERMARK + WireAt(w.b, At(w.s))
    requires WireAt(w.b, q) > base + (HIGH_WATERMARK - LOW_WATERMARK)
    ensures Runs(w, steps) && Doomed(After(w, steps), base)
    decreases |w.b.files| - At(w.s).file, |w.b.files[At(w.s).file].content| - At(w.s).offset
  {
    NothingBetween(w.b, At(w.s), q);
    NextIsPlace(w.b, At(w.s));
    FullLoad(w);
    var w' := Apply(w, Load(ALL_SENT));
    if Waiting(w'.s) {
      Prepend(w, Load(ALL_SENT), []);
      steps := [Load(ALL_SENT)] + [];
    } else {
      var rest := FillToPause(w', q, base);
      Prepend(w, Load(ALL_SENT), rest);
      steps := [Load(ALL_SENT)] + rest;
    }
  }

  /** A batch with room for it has a run, without any fault, into a pause with a stale event. */
  lemma RunToPause(b: Batch, p: Place, q: Place) returns (steps: seq<Step>, from: Place)
    requires b.Valid() && RoomForLate(b, p, q)
    ensures Runs(Initial(b, 0), steps)
    ensures IsPlace(b, from) && Doomed(After(Initial(b, 0), steps), WireAt(b, from))
  {
    var w0 := Initial(b, 0);
    StartFilling(b, 0);
    var w1 := Apply(w0, Start(ALL_SENT));
    var low := FillToLow(w1, p);
    var w2 := After(w1, low);
    from := At(w2.s);
    DrainedWhileReading(w2);
    var drain := Drain(w2.s.flow.buffered - LOW_WATERMARK);
    OrderOfWire(b, p, q);
    OrderOfWire(b, from, p);
    var full := FillToPause(Apply(w2, drain), q, WireAt(b, from));
    Prepend(w2, drain, full);
    RunsConcat(w1, low, [drain] + full);
    Prepend(w0, Start(ALL_SENT), low + ([drain] + full));
    steps := [Start(ALL_SENT)] + (low + ([drain] + full));
  }

  /** The stale event wakes the sender, and its chunk is one too many. */
  lemma WokenTooEarly(w: World, base: nat)
    requires Doomed(w, base)
    ensures Runs(w, [LowEvent, Load(ALL_SENT)])
    ensures var w' := After(w, [LowEvent, Load(ALL_SENT)]);
            && w'.b == w.b && SenderAt(w.b, w'.s) && w'.s.flow.note.overtaken == 1
            && w'.s.flow.note.gateFile == w.s.flow.note.gateFile
            && w'.s.flow.buffered > w.s.flow.buffered + (if w'.s.pos.doneSent then DONE_BYTES else 0)
  {
    WakeReads(w);
    var w1 := Apply(w, LowEvent);
    LateChunk(w1);
    Prepend(w1, Load(ALL_SENT), []);
    Prepend(w, LowEvent, [Load(ALL_SENT)] + []);
    assert [LowEvent] + ([Load(ALL_SENT)] + []) == [LowEvent, Load(ALL_SENT)];
  }

  lemma WakeReads(w: World)
    requires w.b.Valid() && SenderAt(w.b, w.s) && Open(w.s) && Waiting(w.s)
    requires w.s.flow.lowHandler && w.s.flow.lowPending > 0 && w.s.flow.buffered > HIGH_WATERMARK
    ensures Enabled(w, LowEvent)
    ensures var w' := Apply(w, LowEvent);
            && SenderAt(w.b, w'.s) && Open(w'.s) && Reads(w'.s) && At(w'.s) == At(w.s) && !w'.s.flow.note.gated
            && w'.s.flow.buffered == w.s.flow.buffered
            && w'.s.flow.note == w.s.flow.note.(gated := false)
  {
  }

  lemma LateChunk(w: World)
    requires w.b.Valid() && SenderAt(w.b, w.s) && Open(w.s) && Reads(w.s) && !w.s.flow.note.gated
    requires At(w.s).offset > 0
    ensures Enabled(w, Load(ALL_SENT))
    ensures var w' := Apply(w, Load(ALL_SENT));
            && SenderAt(w.b, w'.s)
            && w'.s.flow.note.overtaken == w.s.flow.note.overtaken + 1
            && w'.s.flow.note.gateFile == w.s.flow.note.gateFile
            && w'.s.flow.buffered > w.s.flow.buffered + (if w'.s.pos.doneSent then DONE_BYTES else 0)
  {
  }

  // ----- The theorems --------------------------------------------------------

  /** Some run of the batch sends a chunk after a late event. */
  ghost predicate SomeRunIsLate(b: Batch)
    requires b.Valid()
  {
    exists now: nat, steps ::
      Runs(Initial(b, now), steps) && After(Initial(b, now), steps).s.flow.note.overtaken > 0
  }

  /** A batch can meet a late low-water event exactly when more than fits between the marks
      is sent from some slice on, the low mark having been passed before. */
  lemma LateExactly(b: Batch)
    requires b.Valid()
    ensures SomeRunIsLate(b) <==> CanBeLate(b)
  {
    if SomeRunIsLate(b) && !CanBeLate(b) {
      var now: nat, steps :| Runs(Initial(b, now), steps) &&
                             After(Initial(b, now), steps).s.flow.note.overtaken > 0;
      NeverLate(b, now, steps);
    }
    if CanBeLate(b) {
      var p, q :| RoomForLate(b, p, q);
      var steps, from := RunToPause(b, p, q);
      var w := After(Initial(b, 0), steps);
      WokenTooEarly(w, WireAt(b, from));
      RunsConcat(Initial(b, 0), steps, [LowEvent, Load(ALL_SENT)]);
    }
  }

  /** One chunk above the high mark, and what the files begun since the last gated chunk may
      add unseen. */
  ghost predicate BareBound(w: World)
    requires w.b.Valid() && SenderAt(w.b, w.s)
  {
    w.s.flow.buffered
    <= HIGH_WATERMARK + CHUNK_SIZE
       + UngatedCost(w.b, w.s.flow.note.gateFile, Begun(w.b, w.s.pos))
       + (if w.s.pos.doneSent then DONE_BYTES else 0)
  }

  ghost predicate KeepsBareBound(b: Batch)
    requires b.Valid()
  {
    forall now: nat, steps :: Runs(Initial(b, now), steps) ==>
      var w := After(Initial(b, now), steps);
      w.b == b && SenderAt(b, w.s) && BareBound(w)
  }

  /** A batch that can meet no late event keeps the bare bound in every run. */
  lemma WithoutLateEvents(b: Batch)
    requires b.Valid() && !CanBeLate(b)
    ensures KeepsBareBound(b)
  {
    forall now: nat, steps | Runs(Initial(b, now), steps)
      ensures var w := After(Initial(b, now), steps); w.b == b && SenderAt(b, w.s) && BareBound(w)
    {
      NeverLate(b, now, steps);
    }
  }

  /** Chunks sent before the low mark is passed, behind a header of the given length. */
  function ChunksToLow(header: nat): nat {
    if header > LOW_WATERMARK then 0 else (LOW_WATERMARK - header) / CHUNK_SIZE + 1
  }

  /** A single file keeps the bare bound in every run exactly up to 49 chunks beyond those
      that pass the low mark. */
  lemma SingleFileBoundExactly(b: Batch)
    requires b.Valid() && |b.files| == 1
    ensures KeepsBareBound(b) <==>
            |b.files[0].content| <= CHUNK_SIZE * (49 + ChunksToLow(b.headerBytes[0]))
  {
    SingleFileRoom(b);
    if !CanBeLate(b) {
      WithoutLateEvents(b);
    } else {
      var p, q :| RoomForLate(b, p, q);
      var steps, from := RunToPause(b, p, q);
      var w := After(Initial(b, 0), steps);
      PauseIsFull(w, from);
      WokenTooEarly(w, WireAt(b, from));
      RunsConcat(Initial(b, 0), steps, [LowEvent, Load(ALL_SENT)]);
      assert !BareBound(After(Initial(b, 0), steps + [LowEvent, Load(ALL_SENT)]));
    }
  }

  /** In a single file the pause comes a full chunk above the high mark. */
  lemma PauseIsFull(w: World, from: Place)
    requires w.b.Valid() && |w.b.files| == 1 && IsPlace(w.b, from) && Doomed(w, WireAt(w.b, from))
    ensures w.s.flow.buffered >= HIGH_WATERMARK + CHUNK_SIZE && w.s.flow.note.gateFile == 1
  {
    var c := At(w.s);
    assert w.s.flow.buffered + from.offset == LOW_WATERMARK + c.offset;
    SameFile(from.offset + (HIGH_WATERMARK - LOW_WATERMARK), c.offset);
  }

  lemma SingleFileRoom(b: Batch)
    requires b.Valid() && |b.files| == 1
    ensures CanBeLate(b) <==> |b.files[0].content| > CHUNK_SIZE * (49 + ChunksToLow(b.headerBytes[0]))
  {
    var h, k, size := b.headerBytes[0], ChunksToLow(b.headerBytes[0]), |b.files[0].content|;
    LeastChunks(h);
    if CanBeLate(b) {
      var p, q :| RoomForLate(b, p, q);
      PassesLow(h, p.offset);
      SameFile(p.offset + (HIGH_WATERMARK - LOW_WATERMARK), q.offset);
    }
    if size > CHUNK_SIZE * (49 + k) {
      var p, q := Place(0, CHUNK_SIZE * k), Place(0, CHUNK_SIZE * (49 + k));
      MultipleOfChunk(k);
      MultipleOfChunk(49 + k);
      assert RoomForLate(b, p, q);
    }
  }

  lemma MultipleOfChunk(k: nat)
    ensures (CHUNK_SIZE * k) % CHUNK_SIZE == 0
  {
  }

  lemma LeastChunks(h: nat)
    ensures h + CHUNK_SIZE * ChunksToLow(h) > LOW_WATERMARK
  {
  }

  lemma PassesLow(h: nat, offset: nat)
    requires offset % CHUNK_SIZE == 0 && h + offset > LOW_WATERMARK
    ensures offset >= CHUNK_SIZE * ChunksToLow(h)
  {
  }

  // ----- Several files -------------------------------------------------------

  lemma {:induction false} WireOfChunks(b: Batch, content: seq<byte>, offset: nat)
    requires offset <= |content|
    ensures WireSum(b, ChunksFrom(content, offset)) == |content| - offset
    decreases |content| - offset
  {
    var end := SliceEnd(content, offset);
    var rest := if end < |content| then ChunksFrom(content, end) else [];
    if end < |content| {
      WireOfChunks(b, content, end);
    }
    var first := Chunk(content[offset..end]);
    assert ([first] + rest)[1..] == rest;
  }

  /** What a batch puts on the wire: its headers, its contents and `done`. */
  lemma {:induction false} WireOfBatch(b: Batch, i: nat)
    requires b.Valid() && i <= |b.files|
    ensures WireSum(b, EncodeFrom(b, i)) + WireStart(b, i) == WireStart(b, |b.files|) + DONE_BYTES
    decreases |b.files| - i
  {
    if i == |b.files| {
      assert WireSum(b, [Done]) == DONE_BYTES + WireSum(b, []);
    } else {
      var header, chunks := FileHeader(b.HeaderOf(i)), ChunksFrom(b.files[i].content, 0);
      WireOfBatch(b, i + 1);
      WireOfChunks(b, b.files[i].content, 0);
      WireSumConcat(b, [header] + chunks, EncodeFrom(b, i + 1));
      WireSumConcat(b, [header], chunks);
      assert WireSum(b, [header]) == b.headerBytes[i] + WireSum(b, []);
    }
  }

  /** The buffer never holds much more than the whole batch. */
  lemma BufferWithinBatch(b: Batch, now: nat, steps: seq<Step>)
    requires b.Valid() && Runs(Initial(b, now), steps)
    ensures Safe(After(Initial(b, now), steps))
    ensures After(Initial(b, now), steps).s.flow.buffered
            <= WireStart(b, |b.files|) + DONE_BYTES + 6 * |Encode(b)| + 2
  {
    SafeInitial(b, now);
    RunUsesPotential(Initial(b, now), steps);
    WireOfBatch(b, 0);
  }

  /** An empty file with a long header before a file of two chunks with a longer one. */
  function LongHeaders(content: seq<byte>): Batch {
    Batch([File("a", []), File("b", content)], [None, None], [LOW_WATERMARK + 1, 47 * CHUNK_SIZE + 1], bytes => "")
  }

  /** With several files room for a late event no longer means that the bare bound breaks:
      this batch can meet one, but is too small as a whole to exceed the bound. */
  lemma SeveralFilesDiffer(content: seq<byte>)
    requires |content| == CHUNK_SIZE + 1
    ensures LongHeaders(content).Valid() && CanBeLate(LongHeaders(content)) && KeepsBareBound(LongHeaders(content))
  {
    var b := LongHeaders(content);
    LongHeadersWire(content);
    assert RoomForLate(b, Place(0, 0), Place(1, CHUNK_SIZE));
    forall now: nat, steps | Runs(Initial(b, now), steps)
      ensures var w := After(Initial(b, now), steps); w.b == b && SenderAt(b, w.s) && BareBound(w)
    {
      BufferWithinBatch(b, now, steps);
    }
  }

  lemma LongHeadersWire(content: seq<byte>)
    requires |content| == CHUNK_SIZE + 1
    ensures var b := LongHeaders(content);
            && b.Valid() && |Encode(b)| == 6
            && WireAt(b, Place(0, 0)) == LOW_WATERMARK + 1
            && WireAt(b, Place(1, CHUNK_SIZE)) == LOW_WATERMARK + 1 + 48 * CHUNK_SIZE + 1
            && WireStart(b, 2) == LOW_WATERMARK + 1 + 48 * CHUNK_SIZE + 2
  {
    var b := LongHeaders(content);
    assert WireStart(b, 0) == 0 && WireStart(b, 1) == LOW_WATERMARK + 1;
    ChunkingIsExact([], 0);
    ChunkingIsExact(content, 0);
    assert |EncodeFrom(b, 2)| == 1;
    assert |EncodeFrom(b, 1)| == 1 + 2 + 1;
  }
}
