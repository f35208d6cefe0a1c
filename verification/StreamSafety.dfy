/** Nothing is lost, duplicated or reordered between the two peers, and the receiver's
    state is what the consumed prefix of the batch determines. */
module StreamSafety {
  import opened Messages
  import opened SenderModel
  import opened ReceiverModel
  import opened Protocol

  // ----- Where each side stands in the batch --------------------------------

  ghost predicate TaskFor(b: Batch, t: Task, i: nat)
    requires b.Valid() && i < |b.files|
  {
    t.header == b.HeaderOf(i) && Flatten(t.chunks) == b.files[i].content
  }

  /** The receiver has handed over the first |tasks| files intact and holds a prefix of
      the next one. (Closing drops the partial chunks.) */
  ghost predicate ReceiverAt(b: Batch, r: Receiver)
    requires b.Valid()
  {
    var k := |r.tasks|;
    && k <= |b.files|
    && (forall i :: 0 <= i < k ==> TaskFor(b, r.tasks[i], i))
    && r.read.totalDoneBytes == SizeOfFirst(b.files, k) + r.read.currentReceived
    && (r.read.doneReceived ==> k == |b.files| && r.read.currentFile.None?)
    && (match r.read.currentFile
        case None => r.read.currentReceived == 0 && r.read.currentChunks == []
        case Some(h) =>
          && k < |b.files| && h == b.HeaderOf(k)
          && r.read.currentReceived <= h.size
          && (r.read.currentReceived == h.size ==> h.size == 0)
          && (!r.end.aborted ==> Flatten(r.read.currentChunks) == b.files[k].content[..r.read.currentReceived]))
  }

  /** What the receiver has yet to see. */
  ghost function ReceiverTail(b: Batch, r: Receiver): seq<Message>
    requires b.Valid() && ReceiverAt(b, r)
  {
    var k := |r.tasks|;
    if r.read.doneReceived then []
    else if r.read.currentFile.Some? then ChunksFrom(b.files[k].content, r.read.currentReceived) + EncodeFrom(b, k + 1)
    else EncodeFrom(b, k)
  }

  ghost predicate SenderAt(b: Batch, s: Sender)
    requires b.Valid()
  {
    && s.pos.fileIndex <= |b.files|
    && (s.pos.finished ==> s.pos.started && s.pos.chain.None? && s.pos.fileIndex == |b.files|)
    && (!s.pos.started ==> s.pos.chain.None? && s.pos.fileIndex == 0)
    && (s.pos.started ==> s.pos.totalBytes == TotalSize(b.files))
    && (match s.pos.chain
        case None => true
        case Some(c) =>
          && s.pos.fileIndex < |b.files| && c.file == s.pos.fileIndex
          && c.offset <= |b.files[c.file].content|
          && (c.offset == |b.files[c.file].content| ==> c.offset == 0))
  }

  /** The sender may still emit something, or has emitted all it will. */
  ghost predicate Live(s: Sender) {
    !s.pos.started || s.pos.finished || s.pos.chain.Some?
  }

  /** What a live sender has yet to emit. */
  ghost function SenderTail(b: Batch, s: Sender): seq<Message>
    requires b.Valid() && SenderAt(b, s) && Live(s)
  {
    if !s.pos.started then EncodeFrom(b, 0)
    else if s.pos.finished then (if s.pos.doneSent then [] else [Done])
    else ChunksFrom(b.files[s.pos.fileIndex].content, s.pos.chain.value.offset) + EncodeFrom(b, s.pos.fileIndex + 1)
  }

  ghost predicate Conserved(w: World)
    requires w.b.Valid() && SenderAt(w.b, w.s) && ReceiverAt(w.b, w.r)
  {
    && w.fwd <= ReceiverTail(w.b, w.r)
    && (Live(w.s) ==> w.fwd + SenderTail(w.b, w.s) == ReceiverTail(w.b, w.r))
    && w.consumed + ReceiverTail(w.b, w.r) == Encode(w.b)
  }

  ghost predicate StreamInv(w: World) {
    w.b.Valid() && SenderAt(w.b, w.s) && ReceiverAt(w.b, w.r) && Conserved(w)
  }

  // ----- Sequences -----------------------------------------------------------

  lemma Regroup(x: seq<Message>, y: seq<Message>, z: seq<Message>)
    ensures x + (y + z) == (x + y) + z
  {
  }

  lemma PrefixAfter(x: seq<Message>, y: seq<Message>, z: seq<Message>)
    requires y <= z
    ensures x + y <= x + z
  {
    assert z == y + z[|y|..];
    Regroup(x, y, z[|y|..]);
  }

  lemma DropFirst(x: seq<Message>, y: seq<Message>)
    requires x != []
    ensures (x + y)[1..] == x[1..] + y
  {
  }

  lemma MoveFirst(x: seq<Message>, y: seq<Message>)
    requires y != []
    ensures (x + [y[0]]) + y[1..] == x + y
  {
    assert y == [y[0]] + y[1..];
    Regroup(x, [y[0]], y[1..]);
  }

  // ----- The receiver's side -------------------------------------------------

  /** The next message of the batch moves the receiver exactly one message on. */
  lemma ReceiveNext(b: Batch, r: Receiver, now: nat, sendOk: bool)
    requires b.Valid() && ReceiverAt(b, r) && !r.end.aborted && ReceiverTail(b, r) != []
    ensures var r' := OnMessage(r, ReceiverTail(b, r)[0], now, sendOk).r;
            && ReceiverAt(b, r')
            && ReceiverTail(b, r') == ReceiverTail(b, r)[1..]
  {
    if r.read.currentFile.Some? {
      ReceiveChunk(b, r, now, sendOk);
    } else if |r.tasks| < |b.files| {
      ReceiveHeader(b, r, now, sendOk);
    } else {
      ReceiveDone(b, r, now, sendOk);
    }
  }

  lemma ReceiveHeader(b: Batch, r: Receiver, now: nat, sendOk: bool)
    requires b.Valid() && ReceiverAt(b, r) && !r.end.aborted && !r.read.doneReceived
    requires r.read.currentFile.None? && |r.tasks| < |b.files|
    ensures var r' := OnMessage(r, ReceiverTail(b, r)[0], now, sendOk).r;
            && ReceiverAt(b, r')
            && ReceiverTail(b, r') == ReceiverTail(b, r)[1..]
  {
    var k := |r.tasks|;
    var h := b.HeaderOf(k);
    EncodeFile(b, k);
    var read := r.read.(currentFile := Some(h), currentChunks := [], currentReceived := 0);
    assert OnMessage(r, FileHeader(h), now, sendOk).r == r.(read := read);
    assert Flatten([]) == b.files[k].content[..0];
  }

  lemma EncodeFile(b: Batch, k: nat)
    requires b.Valid() && k < |b.files|
    ensures EncodeFrom(b, k) ==
            [FileHeader(b.HeaderOf(k))] + (ChunksFrom(b.files[k].content, 0) + EncodeFrom(b, k + 1))
  {
    Regroup([FileHeader(b.HeaderOf(k))], ChunksFrom(b.files[k].content, 0), EncodeFrom(b, k + 1));
  }

  lemma ReceiveDone(b: Batch, r: Receiver, now: nat, sendOk: bool)
    requires b.Valid() && ReceiverAt(b, r) && !r.end.aborted && !r.read.doneReceived
    requires r.read.currentFile.None? && |r.tasks| == |b.files|
    ensures ReceiverTail(b, r) == [Done]
    ensures var r' := OnMessage(r, Done, now, sendOk).r;
            ReceiverAt(b, r') && ReceiverTail(b, r') == []
  {
    var r' := OnMessage(r, Done, now, sendOk).r;
    assert r'.tasks == r.tasks && r'.read == r.read.(doneReceived := true);
  }

  lemma ReceiveChunk(b: Batch, r: Receiver, now: nat, sendOk: bool)
    requires b.Valid() && ReceiverAt(b, r) && !r.end.aborted && !r.read.doneReceived && r.read.currentFile.Some?
    ensures var r' := OnMessage(r, ReceiverTail(b, r)[0], now, sendOk).r;
            && ReceiverAt(b, r')
            && ReceiverTail(b, r') == ReceiverTail(b, r)[1..]
  {
    var k := |r.tasks|;
    var content := b.files[k].content;
    var end := SliceEnd(content, r.read.currentReceived);
    var slice := content[r.read.currentReceived..end];
    var after := (if end < |content| then ChunksFrom(content, end) else []) + EncodeFrom(b, k + 1);
    assert ReceiverTail(b, r) == [Chunk(slice)] + after;
    AddedChunk(b, r, slice);
    if end < |content| {
      ReceiveMore(b, r, slice, now, sendOk);
    } else {
      assert after == EncodeFrom(b, k + 1);
      ReceiveLast(b, r, slice, now, sendOk);
    }
  }

  /** A chunk in the middle of a file. */
  lemma ReceiveMore(b: Batch, r: Receiver, slice: seq<byte>, now: nat, sendOk: bool)
    requires b.Valid() && ReceiverAt(b, r) && !r.end.aborted && !r.read.doneReceived && r.read.currentFile.Some?
    requires var content := b.files[|r.tasks|].content;
             var read := AddChunk(r.read, slice);
             && read.currentReceived == SliceEnd(content, r.read.currentReceived) < |content|
             && Flatten(read.currentChunks) == content[..read.currentReceived]
    ensures var r' := OnMessage(r, Chunk(slice), now, sendOk).r;
            var content := b.files[|r.tasks|].content;
            && ReceiverAt(b, r')
            && ReceiverTail(b, r') ==
               ChunksFrom(content, SliceEnd(content, r.read.currentReceived)) + EncodeFrom(b, |r.tasks| + 1)
  {
    var r' := OnMessage(r, Chunk(slice), now, sendOk).r;
    assert r'.read == AddChunk(r.read, slice) && r'.tasks == r.tasks && r'.end == r.end;
  }

  /** The last chunk of a file. */
  lemma ReceiveLast(b: Batch, r: Receiver, slice: seq<byte>, now: nat, sendOk: bool)
    requires b.Valid() && ReceiverAt(b, r) && !r.end.aborted && !r.read.doneReceived && r.read.currentFile.Some?
    requires var content := b.files[|r.tasks|].content;
             var read := AddChunk(r.read, slice);
             read.currentReceived == |content| && Flatten(read.currentChunks) == content
    ensures var r' := OnMessage(r, Chunk(slice), now, sendOk).r;
            ReceiverAt(b, r') && ReceiverTail(b, r') == EncodeFrom(b, |r.tasks| + 1)
  {
    HandOverFits(b, r, AddChunk(r.read, slice));
  }

  lemma AddedChunk(b: Batch, r: Receiver, slice: seq<byte>)
    requires b.Valid() && ReceiverAt(b, r) && !r.end.aborted && r.read.currentFile.Some?
    requires var content := b.files[|r.tasks|].content;
             slice == content[r.read.currentReceived..SliceEnd(content, r.read.currentReceived)]
    ensures var content := b.files[|r.tasks|].content;
            var read := AddChunk(r.read, slice);
            && read.currentReceived == SliceEnd(content, r.read.currentReceived)
            && Flatten(read.currentChunks) == content[..read.currentReceived]
  {
    var content := b.files[|r.tasks|].content;
    FlattenSnoc(r.read.currentChunks, slice);
    assert content[..r.read.currentReceived] + slice == content[..SliceEnd(content, r.read.currentReceived)];
  }

  lemma HandOverFits(b: Batch, r: Receiver, read: Reading)
    requires b.Valid() && ReceiverAt(b, r) && !r.read.doneReceived && !read.doneReceived
    requires |r.tasks| < |b.files| && read.currentFile == Some(b.HeaderOf(|r.tasks|))
    requires Flatten(read.currentChunks) == b.files[|r.tasks|].content
    requires read.totalDoneBytes == SizeOfFirst(b.files, |r.tasks|) + |b.files[|r.tasks|].content|
    ensures ReceiverAt(b, HandOver(r, read))
    ensures ReceiverTail(b, HandOver(r, read)) == EncodeFrom(b, |r.tasks| + 1)
  {
    var r' := HandOver(r, read);
    forall i | 0 <= i < |r'.tasks| ensures TaskFor(b, r'.tasks[i], i) {
      if i < |r.tasks| {
        assert TaskFor(b, r.tasks[i], i);
      }
    }
  }

  /** Feeding the whole encoding to a fresh receiver, and reading the files off. */
  function Receive(r: Receiver, msgs: seq<Message>): Receiver
    decreases |msgs|
  {
    if msgs == [] then r else Receive(OnMessage(r, msgs[0], 0, true).r, msgs[1..])
  }

  function ContentsOf(r: Receiver): seq<File> {
    seq(|r.tasks|, i requires 0 <= i < |r.tasks| =>
      File(r.tasks[i].header.name, Flatten(r.tasks[i].chunks)))
  }

  /** Decoding inverts encoding, for every batch. */
  lemma DecodeEncode(b: Batch)
    requires b.Valid()
    ensures ContentsOf(Receive(NEW_RECEIVER, Encode(b))) == b.files
    ensures Receive(NEW_RECEIVER, Encode(b)).read.doneReceived
  {
    ReceiveRest(b, NEW_RECEIVER);
    var r := Receive(NEW_RECEIVER, Encode(b));
    forall i | 0 <= i < |b.files| ensures ContentsOf(r)[i] == b.files[i] {
      assert TaskFor(b, r.tasks[i], i);
    }
  }

  lemma {:induction false} ReceiveRest(b: Batch, r: Receiver)
    requires b.Valid() && ReceiverAt(b, r) && !r.end.aborted
    requires r.pendingFinalize == |r.tasks|
    ensures var r' := Receive(r, ReceiverTail(b, r));
            ReceiverAt(b, r') && ReceiverTail(b, r') == [] && |r'.tasks| == |b.files| && r'.read.doneReceived
    decreases |ReceiverTail(b, r)|
  {
    var tail := ReceiverTail(b, r);
    if tail != [] {
      ReceiveNext(b, r, 0, true);
      var r1 := OnMessage(r, tail[0], 0, true).r;
      if tail[0].Done? {
        assert r1.read.doneReceived;
        assert ReceiverTail(b, r1) == [];
      } else {
        ReceiveRest(b, r1);
      }
    }
  }

  // ----- The sender's side ---------------------------------------------------

  /** What a sender callback guarantees: the messages it emits are the next ones. */
  ghost predicate Advances(b: Batch, s: Sender, out: Out)
    requires b.Valid() && SenderAt(b, s) && Live(s)
  {
    && SenderAt(b, out.s)
    && (if Live(out.s) then SenderTail(b, s) == out.msgs + SenderTail(b, out.s)
        else out.msgs <= SenderTail(b, s))
  }

  lemma NextFileEmits(b: Batch, s: Sender, ok: Sends)
    requires b.Valid() && s.pos.started && !s.pos.finished && s.pos.fileIndex <= |b.files|
    requires s.pos.totalBytes == TotalSize(b.files)
    ensures var out := SendNextFile(b, s, ok);
            && SenderAt(b, out.s)
            && out.s.pos.started
            && (if Live(out.s) then EncodeFrom(b, s.pos.fileIndex) == out.msgs + SenderTail(b, out.s)
                else out.msgs <= EncodeFrom(b, s.pos.fileIndex))
  {
    if s.pos.fileIndex < |b.files| {
      HeaderEmits(b, s, ok);
    } else {
      FinishEmits(b, s, ok);
    }
  }

  lemma HeaderEmits(b: Batch, s: Sender, ok: Sends)
    requires b.Valid() && s.pos.started && !s.pos.finished && s.pos.fileIndex < |b.files|
    requires s.pos.totalBytes == TotalSize(b.files)
    ensures var out := SendNextFile(b, s, ok);
            && SenderAt(b, out.s)
            && out.s.pos.started
            && (if Live(out.s) then EncodeFrom(b, s.pos.fileIndex) == out.msgs + SenderTail(b, out.s)
                else out.msgs <= EncodeFrom(b, s.pos.fileIndex))
  {
    var i := s.pos.fileIndex;
    EncodeFile(b, i);
    var out := SendNextFile(b, s, ok);
    if out.msgs != [] {
      assert out.msgs == [FileHeader(b.HeaderOf(i))] && out.s.pos.chain == Some(Chain(i, 0, false));
    } else {
      assert !Live(out.s);
    }
  }

  /** The header that goes out is that of the next file, with its tag. */
  lemma HeaderSent(b: Batch, s: Sender, ok: Sends)
    requires b.Valid() && !s.link.aborted && s.link.channelOpen && s.pos.fileIndex < |b.files| && ok.header
    ensures exists h :: SendNextFile(b, s, ok).msgs == [FileHeader(h)] && Describes(h, b, s.pos.fileIndex)
  {
    assert Describes(b.HeaderOf(s.pos.fileIndex), b, s.pos.fileIndex);
  }

  lemma FinishEmits(b: Batch, s: Sender, ok: Sends)
    requires b.Valid() && s.pos.started && !s.pos.finished && s.pos.fileIndex == |b.files|
    requires s.pos.totalBytes == TotalSize(b.files)
    ensures var out := SendNextFile(b, s, ok);
            && SenderAt(b, out.s)
            && out.s.pos.started
            && (if Live(out.s) then EncodeFrom(b, s.pos.fileIndex) == out.msgs + SenderTail(b, out.s)
                else out.msgs <= EncodeFrom(b, s.pos.fileIndex))
  {
    assert EncodeFrom(b, s.pos.fileIndex) == [Done];
  }

  lemma StartEmits(b: Batch, s: Sender, ok: Sends)
    requires b.Valid() && SenderAt(b, s) && !s.pos.started
    ensures Advances(b, s, SendBatch(b, s, ok))
  {
    NextFileEmits(b, Begin(b, s), ok);
  }

  /** A first start sends the first header and begins reading the first file. */
  lemma StartReads(b: Batch)
    requires b.Valid()
    ensures var out := SendBatch(b, NEW_SENDER, ALL_SENT);
            && out.msgs == [FileHeader(b.HeaderOf(0))]
            && out.s.pos == Position(true, false, false, 0, TotalSize(b.files), Some(Chain(0, 0, false)))
            && out.s.link == NEW_SENDER.link && out.s.confirm == NEW_SENDER.confirm && out.s.log == NEW_SENDER.log
  {
  }

  lemma LoadEmits(b: Batch, s: Sender, ok: Sends)
    requires b.Valid() && SenderAt(b, s) && s.pos.chain.Some?
    ensures Advances(b, s, OnLoad(b, s, s.pos.chain.value, ok))
  {
    var c := s.pos.chain.value;
    if s.link.aborted || !s.link.channelOpen || !ok.chunk {
    } else if c.offset + |SliceOf(b, c)| < |b.files[c.file].content| {
      MoreEmits(b, s, ok);
    } else {
      LastEmits(b, s, ok);
    }
  }

  /** A chunk that leaves some of the file. */
  lemma MoreEmits(b: Batch, s: Sender, ok: Sends)
    requires b.Valid() && SenderAt(b, s) && s.pos.chain.Some?
    requires !s.link.aborted && s.link.channelOpen && ok.chunk
    requires var c := s.pos.chain.value; c.offset + |SliceOf(b, c)| < |b.files[c.file].content|
    ensures Advances(b, s, OnLoad(b, s, s.pos.chain.value, ok))
  {
    var c := s.pos.chain.value;
    var end := c.offset + |SliceOf(b, c)|;
    var out := OnLoad(b, s, c, ok);
    MoreKeepsFile(b, s, ok);
    Regroup([Chunk(SliceOf(b, c))], ChunksFrom(b.files[c.file].content, end), EncodeFrom(b, s.pos.fileIndex + 1));
    assert SenderTail(b, out.s) == ChunksFrom(b.files[c.file].content, end) + EncodeFrom(b, s.pos.fileIndex + 1);
  }

  lemma MoreKeepsFile(b: Batch, s: Sender, ok: Sends)
    requires b.Valid() && SenderAt(b, s) && s.pos.chain.Some?
    requires !s.link.aborted && s.link.channelOpen && ok.chunk
    requires var c := s.pos.chain.value; c.offset + |SliceOf(b, c)| < |b.files[c.file].content|
    ensures var c := s.pos.chain.value;
            var end := c.offset + |SliceOf(b, c)|;
            var out := OnLoad(b, s, c, ok);
            && out.msgs == [Chunk(SliceOf(b, c))] && end > 0
            && out.s.pos.chain.Some? && out.s.pos.chain.value.file == c.file && out.s.pos.chain.value.offset == end
            && out.s.pos == s.pos.(chain := out.s.pos.chain)
  {
  }

  /** The last chunk of a file, and what `sendNextFile` adds. */
  lemma LastEmits(b: Batch, s: Sender, ok: Sends)
    requires b.Valid() && SenderAt(b, s) && s.pos.chain.Some?
    requires !s.link.aborted && s.link.channelOpen && ok.chunk
    requires var c := s.pos.chain.value; c.offset + |SliceOf(b, c)| >= |b.files[c.file].content|
    ensures Advances(b, s, OnLoad(b, s, s.pos.chain.value, ok))
  {
    var c := s.pos.chain.value;
    var m := Chunk(SliceOf(b, c));
    var s1 := NextIndex(SendChunk(b, s, c));
    var rest := SendNextFile(b, s1, ok);
    NextFileEmits(b, s1, ok);
    assert SenderTail(b, s) == [m] + EncodeFrom(b, s.pos.fileIndex + 1);
    if Live(rest.s) {
      Regroup([m], rest.msgs, SenderTail(b, rest.s));
    } else {
      PrefixAfter([m], rest.msgs, EncodeFrom(b, s.pos.fileIndex + 1));
    }
  }

  // ----- Every step ----------------------------------------------------------

  lemma StreamStart(w: World, ok: Sends)
    requires StreamInv(w) && !w.s.pos.started
    ensures StreamInv(Emit(w, SendBatch(w.b, w.s, ok)))
  {
    StartEmits(w.b, w.s, ok);
    EmitConserves(w, SendBatch(w.b, w.s, ok));
  }

  lemma StreamLoad(w: World, ok: Sends)
    requires StreamInv(w) && w.s.pos.chain.Some?
    ensures StreamInv(Emit(w, OnLoad(w.b, w.s, w.s.pos.chain.value, ok)))
  {
    LoadEmits(w.b, w.s, ok);
    EmitConserves(w, OnLoad(w.b, w.s, w.s.pos.chain.value, ok));
  }

  lemma EmitConserves(w: World, out: Out)
    requires StreamInv(w) && Live(w.s) && Advances(w.b, w.s, out)
    ensures StreamInv(Emit(w, out))
  {
    if Live(out.s) {
      Regroup(w.fwd, out.msgs, SenderTail(w.b, out.s));
      PrefixOfSum(w.fwd + out.msgs, SenderTail(w.b, out.s));
    } else {
      PrefixAfter(w.fwd, out.msgs, SenderTail(w.b, w.s));
    }
  }

  lemma PrefixOfSum(x: seq<Message>, y: seq<Message>)
    ensures x <= x + y
  {
  }

  lemma StreamDeliver(w: World, st: Step)
    requires StreamInv(w) && !w.r.end.aborted && st.DeliverForward? && Enabled(w, st)
    ensures StreamInv(Apply(w, st))
  {
    assert ReceiverTail(w.b, w.r)[0] == w.fwd[0];
    ReceiveNext(w.b, w.r, st.now, st.sendOk);
    DeliveryConserves(w, Apply(w, st));
  }

  lemma DeliveryConserves(w: World, w': World)
    requires StreamInv(w) && w.fwd != []
    requires w'.b == w.b && w'.s == w.s && w'.fwd == w.fwd[1..] && w'.consumed == w.consumed + [w.fwd[0]]
    requires ReceiverAt(w.b, w'.r) && ReceiverTail(w.b, w'.r) == ReceiverTail(w.b, w.r)[1..]
    ensures StreamInv(w')
  {
    var tail := ReceiverTail(w.b, w.r);
    assert tail[0] == w.fwd[0];
    MoveFirst(w.consumed, tail);
    if Live(w.s) {
      DropFirst(w.fwd, SenderTail(w.b, w.s));
    }
    PrefixTail(w.fwd, tail);
  }

  lemma PrefixTail(x: seq<Message>, y: seq<Message>)
    requires x <= y && x != []
    ensures x[1..] <= y[1..]
  {
    assert y == x + y[|x|..];
  }

  /** Receiver steps that only move a task on, acknowledge or close leave its place. */
  ghost predicate SamePlace(r: Receiver, r': Receiver) {
    && |r'.tasks| == |r.tasks|
    && (forall i :: 0 <= i < |r.tasks| ==>
          r'.tasks[i].header == r.tasks[i].header && r'.tasks[i].chunks == r.tasks[i].chunks)
    && (r'.read == r.read || (r'.read == r.read.(currentChunks := []) && r'.end.aborted))
    && (r.end.aborted ==> r'.end.aborted)
  }

  lemma StreamReceiver(w: World, r': Receiver)
    requires StreamInv(w) && SamePlace(w.r, r')
    ensures forall back, clock :: StreamInv(w.(r := r', back := back, clock := clock))
  {
    forall i | 0 <= i < |w.r.tasks| ensures TaskFor(w.b, r'.tasks[i], i) {
      assert TaskFor(w.b, w.r.tasks[i], i);
    }
    assert ReceiverAt(w.b, r') && ReceiverTail(w.b, r') == ReceiverTail(w.b, w.r);
  }

  lemma StreamSender(w: World, s': Sender)
    requires StreamInv(w) && (s'.pos == w.s.pos || s'.pos == w.s.pos.(chain := None))
    ensures forall back :: StreamInv(w.(s := s', back := back))
  {
    assert SenderAt(w.b, s');
    assert Live(s') ==> Live(w.s) && SenderTail(w.b, s') == SenderTail(w.b, w.s);
  }

  /** The sender callbacks that send nothing keep its place or end its chain. */
  lemma QuietSender(w: World, st: Step)
    requires StreamInv(w) && Enabled(w, st)
    requires !st.Start? && !st.Load? && !st.LowEvent?
    ensures var pos' := Apply(w, st).s.pos; pos' == w.s.pos || pos' == w.s.pos.(chain := None)
  {
  }

  lemma StreamLow(w: World)
    requires StreamInv(w) && w.s.flow.lowPending > 0
    ensures StreamInv(w.(s := OnLow(w.s)))
  {
    LowPlace(w.s);
    SamePosition(w.b, w.s, OnLow(w.s));
  }

  /** Waking up changes at most whether the chain waits, or drops it. */
  lemma LowPlace(s: Sender)
    requires s.flow.lowPending > 0
    ensures OnLow(s).pos == s.pos.(chain := OnLow(s).pos.chain)
    ensures OnLow(s).pos.chain.None? || OnLow(s).pos.chain == s.pos.chain ||
            (s.pos.chain.Some? && OnLow(s).pos.chain == Some(s.pos.chain.value.(waiting := false)))
  {
  }

  lemma SamePosition(b: Batch, s: Sender, s': Sender)
    requires b.Valid() && SenderAt(b, s) && s'.pos == s.pos.(chain := s'.pos.chain)
    requires s'.pos.chain.None? ||
             (s.pos.chain.Some? && s'.pos.chain.value.file == s.pos.chain.value.file &&
              s'.pos.chain.value.offset == s.pos.chain.value.offset)
    ensures SenderAt(b, s')
    ensures Live(s') ==> Live(s) && SenderTail(b, s') == SenderTail(b, s)
  {
  }

  ghost predicate Receiving(st: Step) {
    st.Verified? || st.Then? || st.Finally? || st.ReceiverCloses? || st.ReceiverChannelDown?
  }

  lemma QuietReceiver(w: World, st: Step)
    requires w.b.Valid() && Enabled(w, st) && Receiving(st)
    ensures SamePlace(w.r, Apply(w, st).r)
  {
  }

  lemma StreamStep(w: World, st: Step)
    requires StreamInv(w) && (w.r.end.aborted ==> !w.r.end.channelOpen) && Enabled(w, st)
    ensures StreamInv(Apply(w, st))
  {
    if st.Start? {
      StreamStart(w, st.ok);
    } else if st.Load? {
      StreamLoad(w, st.ok);
    } else if st.LowEvent? {
      StreamLow(w);
    } else if st.DeliverForward? {
      StreamDeliver(w, st);
    } else if Receiving(st) {
      StreamReceiving(w, st);
    } else {
      StreamQuiet(w, st);
    }
  }

  lemma StreamReceiving(w: World, st: Step)
    requires StreamInv(w) && Enabled(w, st) && Receiving(st)
    ensures StreamInv(Apply(w, st))
  {
    QuietReceiver(w, st);
    var w' := Apply(w, st);
    StreamReceiver(w, w'.r);
    assert w' == w.(r := w'.r, back := w'.back, clock := w'.clock);
  }

  lemma StreamQuiet(w: World, st: Step)
    requires StreamInv(w) && Enabled(w, st)
    requires !st.Start? && !st.Load? && !st.LowEvent? && !st.DeliverForward? && !Receiving(st)
    ensures StreamInv(Apply(w, st))
  {
    QuietSender(w, st);
    var w' := Apply(w, st);
    StreamSender(w, w'.s);
    assert w' == w.(s := w'.s, back := w'.back);
  }

  lemma StreamInitial(b: Batch, now: nat)
    requires b.Valid()
    ensures StreamInv(Initial(b, now))
  {
  }

  // ----- The receiver is a function of what it consumed ----------------------

  /** Both receivers have read the same; they may differ in how far their tasks are. */
  ghost predicate SameReading(r: Receiver, q: Receiver) {
    && r.read.currentFile == q.read.currentFile
    && r.read.currentReceived == q.read.currentReceived
    && r.read.totalDoneBytes == q.read.totalDoneBytes
    && r.read.doneReceived == q.read.doneReceived
    && (!r.end.aborted ==> r.read.currentChunks == q.read.currentChunks)
    && |r.tasks| == |q.tasks|
    && forall i :: 0 <= i < |r.tasks| ==>
         r.tasks[i].header == q.tasks[i].header && r.tasks[i].chunks == q.tasks[i].chunks
  }

  lemma {:induction false} ReceiveSnoc(r: Receiver, msgs: seq<Message>, m: Message)
    ensures Receive(r, msgs + [m]) == OnMessage(Receive(r, msgs), m, 0, true).r
    decreases |msgs|
  {
    if msgs == [] {
      assert Receive(r, [m]) == Receive(OnMessage(r, m, 0, true).r, [m][1..]);
    } else {
      assert (msgs + [m])[1..] == msgs[1..] + [m];
      ReceiveSnoc(OnMessage(r, msgs[0], 0, true).r, msgs[1..], m);
    }
  }

  /** A replay never closes: it always has a finalisation pending when `done` comes. */
  ghost predicate ReplayInv(w: World) {
    var q := Receive(NEW_RECEIVER, w.consumed);
    && SameReading(w.r, q)
    && !q.end.aborted
    && q.pendingFinalize == |q.tasks|
  }

  lemma ReplayStep(w: World, st: Step)
    requires StreamInv(w) && (w.r.end.aborted ==> !w.r.end.channelOpen) && ReplayInv(w) && Enabled(w, st)
    ensures ReplayInv(Apply(w, st))
  {
    if st.DeliverForward? {
      var q := Receive(NEW_RECEIVER, w.consumed);
      ReceiveSnoc(NEW_RECEIVER, w.consumed, w.fwd[0]);
      assert ReceiverTail(w.b, w.r)[0] == w.fwd[0];
      if w.fwd[0].Done? {
        DoneComesLast(w.b, w.r);
      }
      SameReadingKept(w.r, q, w.fwd[0], st.now, st.sendOk);
    } else {
      ConsumesNothing(w, st);
    }
  }

  lemma ConsumesNothing(w: World, st: Step)
    requires w.b.Valid() && Enabled(w, st) && !st.DeliverForward?
    ensures Apply(w, st).consumed == w.consumed
    ensures SamePlace(w.r, Apply(w, st).r)
  {
  }

  lemma SameReadingKept(r: Receiver, q: Receiver, m: Message, now: nat, sendOk: bool)
    requires SameReading(r, q) && !r.end.aborted && !q.end.aborted
    requires q.pendingFinalize == |q.tasks|
    requires m.Done? ==> |q.tasks| > 0
    ensures var q' := OnMessage(q, m, 0, true).r;
            && SameReading(OnMessage(r, m, now, sendOk).r, q')
            && !q'.end.aborted && q'.pendingFinalize == |q'.tasks|
  {
  }

  /** `done` is the next message only when every file has been handed over. */
  lemma DoneComesLast(b: Batch, r: Receiver)
    requires b.Valid() && ReceiverAt(b, r) && ReceiverTail(b, r) != [] && ReceiverTail(b, r)[0].Done?
    ensures |r.tasks| == |b.files| && r.read.currentFile.None? && ReceiverTail(b, r) == [Done]
  {
  }
}
