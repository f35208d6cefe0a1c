/** A second start of one batch: what it does to the stream and to the receiver. */
module Restart {
  import opened Messages
  import opened SenderModel
  import opened ReceiverModel
  import opened Protocol
  import opened StreamSafety
  import opened AckSafety
  import opened Safety

  // ----- The stream ----------------------------------------------------------

  /** `tryStartTransfer` is not guarded by `transferStarted`: a second stable ICE state calls
      `sendBatch` again. What has been sent then is still the beginning of the batch exactly
      when it was the first start. */
  lemma SecondStartBreaksTheStream(w: World)
    requires Reachable(w) && !w.s.link.aborted && w.s.link.channelOpen
    ensures w.consumed + w.fwd + SendBatch(w.b, w.s, ALL_SENT).msgs <= Encode(w.b) <==> !w.s.pos.started
  {
    ReachableIsSafe(w);
    SentOnceStarted(w);
    StartSendsHeader(w.b, w.s);
    HeaderComesOnce(w.b, w.consumed + w.fwd);
  }

  lemma HeaderComesOnce(b: Batch, sent: seq<Message>)
    requires b.Valid()
    ensures sent + [FileHeader(b.HeaderOf(0))] <= Encode(b) <==> sent == []
  {
    EncodeFile(b, 0);
    FirstHeaderOnce(b);
    OnlyAtFront(sent, FileHeader(b.HeaderOf(0)), ChunksFrom(b.files[0].content, 0) + EncodeFrom(b, 1));
  }

  /** On an open channel something has been sent exactly if the batch was started. */
  lemma SentOnceStarted(w: World)
    requires Safe(w) && !w.s.link.aborted && w.s.link.channelOpen
    ensures w.consumed + w.fwd == [] <==> !w.s.pos.started
  {
    EncodeFile(w.b, 0);
    assert Encode(w.b)[0].FileHeader?;
    if !w.s.pos.started {
      BeforeStart(w);
    } else {
      var sent, tail := w.consumed + w.fwd, SenderTail(w.b, w.s);
      TailStartsElsewhere(w.b, w.s);
      Regroup(w.consumed, w.fwd, tail);
      assert sent + tail == Encode(w.b);
      assert sent == [] ==> sent + tail == tail;
    }
  }

  /** Once started, a sender has no header as its next message. */
  lemma TailStartsElsewhere(b: Batch, s: Sender)
    requires b.Valid() && SenderAt(b, s) && Live(s) && s.pos.started
    ensures SenderTail(b, s) == [] || !SenderTail(b, s)[0].FileHeader?
  {
  }

  /** What a receiver fed with a prefix of the batch holds. */
  lemma {:induction false} ReceivePrefix(b: Batch, msgs: seq<Message>)
    requires b.Valid() && msgs <= Encode(b)
    ensures var r := Receive(NEW_RECEIVER, msgs);
            && ReceiverAt(b, r) && ReceiverTail(b, r) == Encode(b)[|msgs|..]
            && !r.end.aborted && r.pendingFinalize == |r.tasks|
    decreases |msgs|
  {
    if msgs != [] {
      var front, m := msgs[..|msgs| - 1], msgs[|msgs| - 1];
      assert msgs == front + [m];
      ReceivePrefix(b, front);
      ReceiveSnoc(NEW_RECEIVER, front, m);
      ReceiveOneMore(b, Receive(NEW_RECEIVER, front), m);
      assert Encode(b)[|front|..][1..] == Encode(b)[|msgs|..];
    }
  }

  lemma ReceiveOneMore(b: Batch, r: Receiver, m: Message)
    requires b.Valid() && ReceiverAt(b, r) && !r.end.aborted && r.pendingFinalize == |r.tasks|
    requires ReceiverTail(b, r) != [] && ReceiverTail(b, r)[0] == m
    ensures var r' := OnMessage(r, m, 0, true).r;
            && ReceiverAt(b, r') && ReceiverTail(b, r') == ReceiverTail(b, r)[1..]
            && !r'.end.aborted && r'.pendingFinalize == |r'.tasks|
  {
    ReceiveNext(b, r, 0, true);
    if m.Done? {
      DoneComesLast(b, r);
    }
  }

  /** After a second start the receiver is back at the first header with everything it had
      handed over; its place in the batch is right exactly if no chunk had been sent before. */
  lemma SecondStartLosesPlace(w: World)
    requires Reachable(w) && w.s.pos.started && !w.s.link.aborted && w.s.link.channelOpen
    ensures var sent := w.consumed + w.fwd;
            var r := Receive(NEW_RECEIVER, sent);
            var r' := Receive(NEW_RECEIVER, sent + SendBatch(w.b, w.s, ALL_SENT).msgs);
            && r'.read.currentFile == Some(w.b.HeaderOf(0)) && r'.read.currentChunks == []
            && r'.tasks == r.tasks && r'.read.totalDoneBytes == r.read.totalDoneBytes
            && (ReceiverAt(w.b, r') <==> forall m :: m in sent ==> !m.Chunk?)
  {
    var b, sent := w.b, w.consumed + w.fwd;
    StreamConservation(w);
    StartSendsHeader(b, w.s);
    ReceivePrefix(b, sent);
    ReceiveSnoc(NEW_RECEIVER, sent, FileHeader(b.HeaderOf(0)));
    FirstHeaderAgain(b, Receive(NEW_RECEIVER, sent));
    NothingReceived(b, sent);
  }

  lemma FirstHeaderAgain(b: Batch, r: Receiver)
    requires b.Valid() && ReceiverAt(b, r) && !r.end.aborted
    ensures var r' := OnMessage(r, FileHeader(b.HeaderOf(0)), 0, true).r;
            && r'.read.currentFile == Some(b.HeaderOf(0)) && r'.read.currentChunks == []
            && r'.tasks == r.tasks && r'.read.totalDoneBytes == r.read.totalDoneBytes
            && (ReceiverAt(b, r') <==> r.tasks == [] && r.read.totalDoneBytes == 0)
  {
  }

  /** A receiver has nothing of the batch exactly if no chunk has come. */
  lemma NothingReceived(b: Batch, msgs: seq<Message>)
    requires b.Valid() && msgs <= Encode(b)
    requires var r := Receive(NEW_RECEIVER, msgs); ReceiverAt(b, r) && ReceiverTail(b, r) == Encode(b)[|msgs|..]
    ensures var r := Receive(NEW_RECEIVER, msgs);
            r.tasks == [] && r.read.totalDoneBytes == 0 <==> forall m :: m in msgs ==> !m.Chunk?
  {
    ChunkComesSecond(b, msgs);
    var r := Receive(NEW_RECEIVER, msgs);
    if r.tasks == [] && r.read.totalDoneBytes == 0 {
      NothingMeansEarly(b, r);
    }
    if |msgs| <= 1 {
      assert |msgs| == 1 ==> msgs[0] == Encode(b)[0];
      EarlyMeansNothing(b, msgs);
    }
  }

  lemma ChunkComesSecond(b: Batch, msgs: seq<Message>)
    requires b.Valid() && msgs <= Encode(b)
    ensures |Encode(b)| >= 2 && Encode(b)[0].FileHeader?
    ensures |msgs| <= 1 <==> forall m :: m in msgs ==> !m.Chunk?
  {
    var e, chunks := Encode(b), ChunksFrom(b.files[0].content, 0);
    EncodeFile(b, 0);
    assert chunks[0].Chunk? && e[0] == FileHeader(b.HeaderOf(0)) && e[1] == chunks[0];
    if |msgs| >= 2 {
      assert msgs[1] == e[1] && msgs[1] in msgs;
    } else if |msgs| == 1 {
      assert msgs == [e[0]];
    }
  }

  lemma NothingMeansEarly(b: Batch, r: Receiver)
    requires b.Valid() && ReceiverAt(b, r) && r.tasks == [] && r.read.totalDoneBytes == 0
    ensures |ReceiverTail(b, r)| >= |Encode(b)| - 1
  {
    EncodeFile(b, 0);
  }

  lemma EarlyMeansNothing(b: Batch, msgs: seq<Message>)
    requires b.Valid() && msgs <= Encode(b) && |msgs| <= 1 && forall m :: m in msgs ==> m.FileHeader?
    ensures var r := Receive(NEW_RECEIVER, msgs); r.tasks == [] && r.read.totalDoneBytes == 0
  {
    if |msgs| == 1 {
      assert msgs == [msgs[0]] && msgs[0] in msgs;
      assert Receive(NEW_RECEIVER, msgs) == Receive(OnMessage(NEW_RECEIVER, msgs[0], 0, true).r, msgs[1..]);
    }
  }

  /** Started twice at once, both readers send the first chunk. The receiver then holds it
      twice, which is right exactly if the file's second chunk equals its first. */
  lemma TwoReadersRepeatTheChunk(b: Batch, now: nat)
    requires b.Valid() && |b.files[0].content| > CHUNK_SIZE
    ensures Runs(Initial(b, now), [Start(ALL_SENT)])
    ensures var w := After(Initial(b, now), [Start(ALL_SENT)]);
            var content := b.files[0].content;
            var reader := Chain(0, 0, false);
            var again := SendBatch(b, w.s, ALL_SENT);
            var one := OnLoad(b, again.s, reader, ALL_SENT);
            var two := OnLoad(b, one.s, reader, ALL_SENT);
            && w.s.pos.chain == again.s.pos.chain == Some(reader)
            && (ReceiverAt(b, Receive(NEW_RECEIVER, w.fwd + again.msgs + one.msgs + two.msgs))
                <==> content[CHUNK_SIZE..SliceEnd(content, CHUNK_SIZE)] == content[..CHUNK_SIZE])
  {
    var w0 := Initial(b, now);
    var w := Apply(w0, Start(ALL_SENT));
    Prepend(w0, Start(ALL_SENT), []);
    assert [Start(ALL_SENT)] + [] == [Start(ALL_SENT)];
    StartReads(b);
    var again := SendBatch(b, w.s, ALL_SENT);
    StartSendsHeader(b, w.s);
    var reader := Chain(0, 0, false);
    FirstChunkSent(b, again.s);
    var one := OnLoad(b, again.s, reader, ALL_SENT);
    FirstChunkSent(b, one.s);
    var h, c := FileHeader(b.HeaderOf(0)), Chunk(b.files[0].content[..CHUNK_SIZE]);
    assert w.fwd + again.msgs + one.msgs + OnLoad(b, one.s, reader, ALL_SENT).msgs == [h, h, c, c];
    ReceiveTwice(b);
  }

  lemma FirstChunkSent(b: Batch, s: Sender)
    requires b.Valid() && |b.files[0].content| > CHUNK_SIZE && !s.link.aborted && s.link.channelOpen
    ensures var out := OnLoad(b, s, Chain(0, 0, false), ALL_SENT);
            && out.msgs == [Chunk(b.files[0].content[..CHUNK_SIZE])]
            && !out.s.link.aborted && out.s.link.channelOpen
  {
  }

  lemma ReceiveTwice(b: Batch)
    requires b.Valid() && |b.files[0].content| > CHUNK_SIZE
    ensures var content := b.files[0].content;
            var h, c := FileHeader(b.HeaderOf(0)), Chunk(content[..CHUNK_SIZE]);
            ReceiverAt(b, Receive(NEW_RECEIVER, [h, h, c, c])) <==>
            content[CHUNK_SIZE..SliceEnd(content, CHUNK_SIZE)] == content[..CHUNK_SIZE]
  {
    var bytes := b.files[0].content[..CHUNK_SIZE];
    var h, c := FileHeader(b.HeaderOf(0)), Chunk(bytes);
    var r1 := OnMessage(NEW_RECEIVER, h, 0, true).r;
    var r2 := OnMessage(r1, h, 0, true).r;
    var r3 := OnMessage(r2, c, 0, true).r;
    var r4 := OnMessage(r3, c, 0, true).r;
    ReceiveFour(h, h, c, c);
    assert r2 == NEW_RECEIVER.(read := Reading(Some(b.HeaderOf(0)), [], 0, 0, false));
    assert r3.read == Reading(Some(b.HeaderOf(0)), [bytes], CHUNK_SIZE, CHUNK_SIZE, false);
    assert Flatten([bytes, bytes]) == bytes + bytes by {
      FlattenSnoc([], bytes);
      FlattenSnoc([bytes], bytes);
      assert [] + [bytes] == [bytes] && [bytes] + [bytes] == [bytes, bytes];
    }
    SecondHalf(b, r3);
    HeldTwice(b, r4);
  }

  lemma ReceiveFour(a: Message, b: Message, c: Message, d: Message)
    ensures Receive(NEW_RECEIVER, [a, b, c, d]) ==
            OnMessage(OnMessage(OnMessage(OnMessage(NEW_RECEIVER, a, 0, true).r, b, 0, true).r, c, 0, true).r,
                      d, 0, true).r
  {
    ReceiveSnoc(NEW_RECEIVER, [], a);
    ReceiveSnoc(NEW_RECEIVER, [a], b);
    ReceiveSnoc(NEW_RECEIVER, [a, b], c);
    ReceiveSnoc(NEW_RECEIVER, [a, b, c], d);
    assert [] + [a] == [a] && [a] + [b] == [a, b] && [a, b] + [c] == [a, b, c] && [a, b, c] + [d] == [a, b, c, d];
  }

  lemma SecondHalf(b: Batch, r: Receiver)
    requires b.Valid() && |b.files[0].content| > CHUNK_SIZE && !r.end.aborted && r.tasks == []
    requires r.read == Reading(Some(b.HeaderOf(0)), [b.files[0].content[..CHUNK_SIZE]], CHUNK_SIZE, CHUNK_SIZE, false)
    ensures var content := b.files[0].content;
            var bytes := content[..CHUNK_SIZE];
            var r' := OnMessage(r, Chunk(bytes), 0, true).r;
            && !r'.end.aborted && !r'.read.doneReceived && r'.read.totalDoneBytes == 2 * CHUNK_SIZE
            && if 2 * CHUNK_SIZE < |content|
               then && r'.tasks == [] && r'.read.currentFile == Some(b.HeaderOf(0))
                    && r'.read.currentChunks == [bytes, bytes] && r'.read.currentReceived == 2 * CHUNK_SIZE
               else && r'.read.currentFile == None && r'.read.currentChunks == [] && r'.read.currentReceived == 0
                    && r'.tasks == [Task(b.HeaderOf(0), [bytes, bytes], Verifying, false)]
  {
    var bytes := b.files[0].content[..CHUNK_SIZE];
    assert [bytes] + [bytes] == [bytes, bytes];
  }

  /** The receiver with two equal chunks of the first file, handed over or not. */
  lemma HeldTwice(b: Batch, r: Receiver)
    requires b.Valid() && |b.files[0].content| > CHUNK_SIZE && !r.end.aborted && !r.read.doneReceived
    requires var content := b.files[0].content;
             var bytes := content[..CHUNK_SIZE];
             && Flatten([bytes, bytes]) == bytes + bytes
             && r.read.totalDoneBytes == 2 * CHUNK_SIZE
             && if 2 * CHUNK_SIZE < |content|
                then && r.tasks == [] && r.read.currentFile == Some(b.HeaderOf(0))
                     && r.read.currentChunks == [bytes, bytes] && r.read.currentReceived == 2 * CHUNK_SIZE
                else && r.read.currentFile == None && r.read.currentChunks == [] && r.read.currentReceived == 0
                     && r.tasks == [Task(b.HeaderOf(0), [bytes, bytes], Verifying, false)]
    ensures var content := b.files[0].content;
            ReceiverAt(b, r) <==>
            content[CHUNK_SIZE..SliceEnd(content, CHUNK_SIZE)] == content[..CHUNK_SIZE]
  {
    var content := b.files[0].content;
    var bytes := content[..CHUNK_SIZE];
    var end := SliceEnd(content, CHUNK_SIZE);
    assert content[..end] == bytes + content[CHUNK_SIZE..end];
    SameHalves(bytes, content[CHUNK_SIZE..end]);
    if 2 * CHUNK_SIZE < |content| {
      assert end == 2 * CHUNK_SIZE;
    } else {
      assert content[..end] == content;
      assert SizeOfFirst(b.files, 1) == SizeOfFirst(b.files, 0) + |content|;
      assert ReceiverAt(b, r) ==> TaskFor(b, r.tasks[0], 0);
    }
  }

  lemma SameHalves(x: seq<byte>, y: seq<byte>)
    ensures x + x == x + y <==> x == y
  {
    if x + x == x + y {
      assert |x| == |y|;
      assert (x + x)[|x|..] == x && (x + y)[|x|..] == y;
    }
  }

  lemma StartSendsHeader(b: Batch, s: Sender)
    requires b.Valid() && !s.link.aborted && s.link.channelOpen
    ensures SendBatch(b, s, ALL_SENT).msgs == [FileHeader(b.HeaderOf(0))]
  {
  }

  lemma OnlyAtFront(sent: seq<Message>, h: Message, rest: seq<Message>)
    requires forall j :: 0 <= j < |rest| ==> rest[j] != h
    ensures sent + [h] <= [h] + rest <==> sent == []
  {
    if sent == [] {
      assert sent + [h] == [h];
    } else if |sent| <= |rest| {
      assert (sent + [h])[|sent|] == h;
      assert ([h] + rest)[|sent|] == rest[|sent| - 1];
    }
  }

  /** Every header in the messages is of file k or a later one. */
  ghost predicate HeadersFrom(msgs: seq<Message>, k: nat) {
    forall j :: 0 <= j < |msgs| && msgs[j].FileHeader? ==> msgs[j].header.index >= k
  }

  lemma HeadersFromSum(x: seq<Message>, y: seq<Message>, k: nat)
    requires HeadersFrom(x, k) && HeadersFrom(y, k)
    ensures HeadersFrom(x + y, k)
  {
  }

  lemma ChunksHaveNoHeaders(content: seq<byte>, k: nat)
    ensures HeadersFrom(ChunksFrom(content, 0), k)
  {
    ChunkingIsExact(content, 0);
    var chunks := ChunksFrom(content, 0);
    forall j | 0 <= j < |chunks| ensures chunks[j].Chunk? {
      assert chunks[j] in chunks;
    }
  }

  lemma {:induction false} EncodedHeaders(b: Batch, k: nat)
    requires b.Valid() && k <= |b.files|
    ensures HeadersFrom(EncodeFrom(b, k), k)
    decreases |b.files| - k
  {
    if k < |b.files| {
      EncodedHeaders(b, k + 1);
      ChunksHaveNoHeaders(b.files[k].content, k);
      HeadersFromSum(ChunksFrom(b.files[k].content, 0), EncodeFrom(b, k + 1), k);
      HeadersFromSum([FileHeader(b.HeaderOf(k))], ChunksFrom(b.files[k].content, 0) + EncodeFrom(b, k + 1), k);
      EncodeFile(b, k);
    }
  }

  lemma FirstHeaderOnce(b: Batch)
    requires b.Valid()
    ensures var rest := ChunksFrom(b.files[0].content, 0) + EncodeFrom(b, 1);
            forall j :: 0 <= j < |rest| ==> rest[j] != FileHeader(b.HeaderOf(0))
  {
    EncodedHeaders(b, 1);
    ChunksHaveNoHeaders(b.files[0].content, 1);
    HeadersFromSum(ChunksFrom(b.files[0].content, 0), EncodeFrom(b, 1), 1);
  }
}
