/** The sender's callbacks as the program has them: methods on one mutable record. */
module SenderConnection {
  import opened Messages
  import opened SenderModel
  import opened StreamSafety
  import opened FlowSafety

  /** The per-connection record of the sending side, its data channel included. `sent`
      holds what was handed to `dataChannel.send`. */
  class Connection {
    const b: Batch
    var transferStarted: bool
    var fileIndex: nat
    var totalBytes: nat
    var finalAckReceived: bool
    var completionTimer: bool
    var closeTimer: bool
    var aborted: bool
    var silenced: bool
    var cancelled: bool
    var channelOpen: bool
    var bufferedAmount: nat
    var lowHandler: bool
    var lowPending: nat
    var streaming: Option<Chain>
    var sent: seq<Message>
    var verdicts: seq<Verdict>
    var alerts: seq<Alert>
    var acks: seq<nat>
    var percents: seq<int>
    ghost var finished: bool
    ghost var doneSent: bool
    ghost var note: Note

    ghost function State(): Sender
      reads this
    {
      Sender(
        Position(transferStarted, finished, doneSent, fileIndex, totalBytes, streaming),
        Link(aborted, silenced, cancelled, channelOpen),
        Confirmation(finalAckReceived, completionTimer, closeTimer, verdicts),
        Flow(bufferedAmount, lowHandler, lowPending, note),
        Log(alerts, acks, percents))
    }

    constructor (b: Batch)
      requires b.Valid()
      ensures this.b == b && State() == NEW_SENDER && sent == []
    {
      this.b := b;
      transferStarted, fileIndex, totalBytes, streaming := false, 0, 0, None;
      finalAckReceived, completionTimer, closeTimer := false, false, false;
      aborted, silenced, cancelled, channelOpen := false, false, false, true;
      bufferedAmount, lowHandler, lowPending := 0, false, 0;
      sent, verdicts, alerts, acks, percents := [], [], [], [], [];
      finished, doneSent, note := false, false, NEW_NOTE;
    }

    method CloseConnection()
      modifies this
      ensures State() == CloseSender(old(State())) && sent == old(sent)
    {
      if aborted {
        return;
      }
      aborted := true;
      silenced := true;
      completionTimer := false;
      channelOpen := false;
    }

    method ShowAlertAndClose(a: Alert)
      modifies this
      ensures State() == AlertAndClose(old(State()), a) && sent == old(sent)
    {
      alerts := alerts + [a];
      CloseConnection();
    }

    method ReportSendSuccess()
      modifies this
      ensures State() == ReportSuccess(old(State())) && sent == old(sent)
    {
      completionTimer := false;
      silenced := true;
      verdicts := verdicts + [Success];
      closeTimer := true;
    }

    method ReportSendFailure(v: Verdict)
      modifies this
      ensures State() == ReportFailure(old(State()), v) && sent == old(sent)
    {
      completionTimer := false;
      silenced := true;
      verdicts := verdicts + [v];
      CloseConnection();
    }

    /** `dataChannel.send`, or an exception. */
    method Send(m: Message, works: bool) returns (ok: bool)
      modifies this
      ensures ok == (old(channelOpen) && works)
      ensures sent == if ok then old(sent) + [m] else old(sent)
      ensures State() == if ok then old(State()).(flow := Buffer(b, old(State()).flow, m)) else old(State())
    {
      ok := channelOpen && works;
      if ok {
        sent := sent + [m];
        bufferedAmount := bufferedAmount + WireBytes(b, m);
      }
    }

    /** `sendNext` of `streamFile`. */
    method StartRead(c: Chain)
      modifies this
      ensures State() == StreamNext(old(State()), c) && sent == old(sent)
    {
      if aborted || !channelOpen {
        streaming := None;
        return;
      }
      streaming := Some(c.(waiting := false));
      note := note.(gated := PassesGate(c, bufferedAmount));
    }

    method SendDone(ok: Sends) returns (done: bool)
      modifies this
      ensures done == (old(channelOpen) && ok.done)
      ensures sent == if done then old(sent) + [Done] else old(sent)
      ensures var s := old(State());
              State() == s.(
                pos := s.pos.(chain := None, finished := true, doneSent := done),
                flow := if done then Buffer(b, s.flow, Done) else s.flow,
                link := s.link.(silenced := true))
    {
      done := Send(Done, ok.done);
      ghost var s := State();
      streaming := None;
      finished, doneSent := true, done;
      silenced := true;
      assert State() == s.(
          pos := s.pos.(chain := None, finished := true, doneSent := done), link := s.link.(silenced := true));
    }

    /** The branch of `sendNextFile` after the last file. */
    method FinishBatch(ok: Sends)
      modifies this
      ensures var out := SenderModel.FinishBatch(b, old(State()), ok);
              State() == out.s && sent == old(sent) + out.msgs
    {
      var done := SendDone(ok);
      if finalAckReceived {
        ReportSendSuccess();
      } else {
        completionTimer := true;
      }
    }

    method SendNextFile(ok: Sends)
      requires b.Valid()
      modifies this
      ensures var out := SenderModel.SendNextFile(b, old(State()), ok);
              State() == out.s && sent == old(sent) + out.msgs
      ensures !old(aborted) && old(channelOpen) && old(fileIndex) < |b.files| && ok.header ==>
                exists h :: sent == old(sent) + [FileHeader(h)] && Describes(h, b, old(fileIndex))
    {
      if !aborted && channelOpen && fileIndex < |b.files| && ok.header {
        HeaderSent(b, State(), ok);
      }
      if aborted {
        streaming := None;
      } else if fileIndex >= |b.files| {
        FinishBatch(ok);
      } else {
        SendHeader(ok);
      }
    }

    method SendHeader(ok: Sends)
      requires b.Valid() && !aborted && fileIndex < |b.files|
      modifies this
      ensures var out := SenderModel.SendNextFile(b, old(State()), ok);
              State() == out.s && sent == old(sent) + out.msgs
    {
      var headerSent := Send(FileHeader(b.HeaderOf(fileIndex)), ok.header);
      if !headerSent {
        streaming := None;
        ShowAlertAndClose(SendError);
        return;
      }
      StartRead(Chain(fileIndex, 0, false));
    }

    /** `conn.files.reduce((s, f) => s + f.size, 0)`. */
    method SumSizes() returns (sum: nat)
      ensures sum == TotalSize(b.files)
    {
      sum := 0;
      for i := 0 to |b.files|
        invariant sum == SizeOfFirst(b.files, i)
      {
        sum := sum + |b.files[i].content|;
      }
    }

    method SendBatch(ok: Sends)
      requires b.Valid()
      modifies this
      ensures var out := SenderModel.SendBatch(b, old(State()), ok);
              State() == out.s && sent == old(sent) + out.msgs
    {
      transferStarted := true;
      fileIndex := 0;
      var sum := SumSizes();
      totalBytes := sum;
      assert State() == Begin(b, old(State()));
      SendNextFile(ok);
    }

    /** Send the slice read for c. */
    method SendSlice(c: Chain, works: bool) returns (ok: bool, size: nat)
      requires c.file < |b.files| && c.offset <= |b.files[c.file].content|
      modifies this
      ensures ok == (old(channelOpen) && works) && size == |SliceOf(b, c)|
      ensures State() == if ok then SendChunk(b, old(State()), c) else old(State())
      ensures sent == if ok then old(sent) + [Chunk(SliceOf(b, c))] else old(sent)
    {
      var content := b.files[c.file].content;
      var bytes := content[c.offset..SliceEnd(content, c.offset)];
      size := |bytes|;
      ok := Send(Chunk(bytes), works);
      if ok {
        note := NoteGate(note, c);
      }
    }

    /** More of the file is left: pause above the high mark, else read on. */
    method ContinueFile(c: Chain)
      modifies this
      ensures State() == (if old(State()).flow.buffered > HIGH_WATERMARK then Pause(old(State()), c)
                          else StreamNext(old(State()), c))
      ensures sent == old(sent)
    {
      if bufferedAmount > HIGH_WATERMARK {
        lowHandler := true;
        streaming := Some(c.(waiting := true));
      } else {
        StartRead(c);
      }
    }

    /** What follows the sending of a slice: the rest of the file, or the next file. */
    method AfterSlice(c: Chain, size: nat, ok: Sends)
      requires b.Valid() && c.file < |b.files|
      modifies this
      ensures var s := old(State());
              var c1 := c.(offset := c.offset + size);
              var out := if c1.offset >= |b.files[c.file].content| then SenderModel.SendNextFile(b, NextIndex(s), ok)
                         else if s.flow.buffered > HIGH_WATERMARK then Out(Pause(s, c1), [])
                         else Out(StreamNext(s, c1), []);
              State() == out.s && sent == old(sent) + out.msgs
    {
      if c.offset + size < |b.files[c.file].content| {
        ContinueFile(c.(offset := c.offset + size));
      } else {
        fileIndex := fileIndex + 1;
        SendNextFile(ok);
      }
    }

    /** `reader.onload` of the outstanding read. */
    method OnLoad(ok: Sends)
      requires b.Valid() && SenderAt(b, State()) && streaming.Some? && !streaming.value.waiting
      modifies this
      ensures var out := SenderModel.OnLoad(b, old(State()), old(streaming).value, ok);
              State() == out.s && sent == old(sent) + out.msgs
    {
      var c := streaming.value;
      if aborted || !channelOpen {
        streaming := None;
        return;
      }
      var chunkSent, size := SendSlice(c, ok.chunk);
      if !chunkSent {
        streaming := None;
        ShowAlertAndClose(SendError);
        return;
      }
      AfterSlice(c, size, ok);
    }

    method OnBufferedAmountLow()
      requires lowPending > 0
      modifies this
      ensures State() == OnLow(old(State())) && sent == old(sent)
    {
      lowPending := lowPending - 1;
      if lowHandler {
        lowHandler := false;
        if streaming.Some? {
          StartRead(streaming.value);
        }
      }
    }

    method Drain(n: nat)
      requires n <= bufferedAmount
      modifies this
      ensures State() == OnDrain(old(State()), n) && sent == old(sent)
    {
      if bufferedAmount > LOW_WATERMARK >= bufferedAmount - n {
        note := NoteRaise(note, lowPending);
        lowPending := lowPending + 1;
      }
      bufferedAmount := bufferedAmount - n;
    }

    method OnCompletionTimeout()
      modifies this
      ensures State() == SenderModel.OnCompletionTimeout(old(State())) && sent == old(sent)
    {
      completionTimer := false;
      ReportSendFailure(Unconfirmed);
    }

    /** The data channel's `onmessage`. */
    method OnMessage(m: Back)
      modifies this
      ensures State() == OnBack(old(State()), m) && sent == old(sent)
    {
      match m {
        case IntegrityError(name) =>
          ReportSendFailure(Corrupted(name));
        case Ack(doneBytes) =>
          acks := acks + [doneBytes];
          if doneBytes >= totalBytes {
            finalAckReceived := true;
            if completionTimer {
              ReportSendSuccess();
            }
            return;
          }
          percents := percents + [ComputePercent(doneBytes, totalBytes, 0, 0)];
      }
    }
  }

  // ----- Playing the callbacks -----------------------------------------------

  /** Between two callbacks of a started batch of which `sent` has gone out. */
  ghost predicate Underway(b: Batch, s: Sender, sent: seq<Message>) {
    && b.Valid() && SenderAt(b, s) && FlowInv(b, s) && s.pos.started
    && (s.pos.chain.Some? ==> !s.link.aborted && s.link.channelOpen)
    && sent <= Encode(b)
    && (Live(s) ==> sent + SenderTail(b, s) == Encode(b))
  }

  /** No send has failed. */
  ghost predicate Unhurt(s: Sender) {
    Live(s) && !s.link.aborted && s.link.channelOpen && (s.pos.finished ==> s.pos.doneSent)
  }

  ghost function BytesLeft(b: Batch, s: Sender): nat
    requires b.Valid() && SenderAt(b, s)
  {
    match s.pos.chain
    case None => 0
    case Some(c) => |b.files[c.file].content| - c.offset
  }

  /** Fewer files are left, or fewer bytes of the same file, or the reading is over. */
  ghost predicate Shorter(b: Batch, s: Sender, s': Sender)
    requires b.Valid() && SenderAt(b, s) && SenderAt(b, s')
  {
    || s'.pos.fileIndex == s.pos.fileIndex + 1
    || (s'.pos.fileIndex == s.pos.fileIndex && BytesLeft(b, s') < BytesLeft(b, s))
    || (s'.pos.fileIndex == s.pos.fileIndex && BytesLeft(b, s') == BytesLeft(b, s) && s'.pos.chain.None?)
  }

  lemma LoadGoesOn(b: Batch, s: Sender, sent: seq<Message>, ok: Sends)
    requires Underway(b, s, sent) && s.pos.chain.Some? && !Waiting(s)
    ensures var out := OnLoad(b, s, s.pos.chain.value, ok);
            && Underway(b, out.s, sent + out.msgs)
            && Shorter(b, s, out.s)
            && (ok == ALL_SENT && Unhurt(s) ==> Unhurt(out.s))
  {
    var out := OnLoad(b, s, s.pos.chain.value, ok);
    LoadEmits(b, s, ok);
    FlowLoad(b, s, ok);
    LoadMoves(b, s, ok);
    if Live(out.s) {
      Regroup(sent, out.msgs, SenderTail(b, out.s));
    } else {
      PrefixAfter(sent, out.msgs, SenderTail(b, s));
    }
  }

  lemma LoadMoves(b: Batch, s: Sender, ok: Sends)
    requires b.Valid() && SenderAt(b, s) && s.pos.chain.Some? && !s.link.aborted && s.link.channelOpen
    requires SenderAt(b, OnLoad(b, s, s.pos.chain.value, ok).s) && s.pos.started
    ensures var s' := OnLoad(b, s, s.pos.chain.value, ok).s;
            && s'.pos.started
            && (s'.pos.chain.Some? ==> !s'.link.aborted && s'.link.channelOpen)
            && (ok == ALL_SENT && Unhurt(s) ==> Unhurt(s'))
            && Shorter(b, s, s')
  {
  }

  /** Draining and low-water events send nothing and keep the place. */
  lemma QuietGoesOn(b: Batch, s: Sender, s': Sender, sent: seq<Message>)
    requires Underway(b, s, sent)
    requires (exists n: nat :: n <= s.flow.buffered && s' == OnDrain(s, n)) || (s.flow.lowPending > 0 && s' == OnLow(s))
    ensures Underway(b, s', sent)
    ensures s'.pos.fileIndex == s.pos.fileIndex && BytesLeft(b, s') == BytesLeft(b, s)
    ensures s'.pos.chain.Some? == s.pos.chain.Some? && (Waiting(s') ==> Waiting(s))
    ensures Unhurt(s) ==> Unhurt(s')
  {
    if n: nat :| n <= s.flow.buffered && s' == OnDrain(s, n) {
      FlowDrain(b, s, n);
    } else {
      FlowLow(b, s);
    }
    SamePosition(b, s, s');
  }

  lemma StartGoesOn(b: Batch, ok: Sends)
    requires b.Valid()
    ensures var out := SendBatch(b, NEW_SENDER, ok);
            Underway(b, out.s, out.msgs) && (ok.header ==> Unhurt(out.s))
  {
    StartEmits(b, NEW_SENDER, ok);
    FlowInitial(b);
    FlowStart(b, NEW_SENDER, ok);
  }

  /** What happens before one turn and in it: so many bytes drain, a queued low-water event is
      dispatched or not, and the sends work or not. */
  datatype Turn = Turn(drain: nat, early: bool, ok: Sends)

  function TurnAt(schedule: seq<Turn>, i: nat): (t: Turn)
    ensures t.ok == ALL_SENT || t in schedule
  {
    if i < |schedule| then schedule[i] else Turn(0, false, ALL_SENT)
  }

  /** The callbacks played in any order they can come in: `sendNextFile` and `streamFile` hand
      over to each other until every byte of every file has gone out or a send has failed. */
  method StreamBatch(b: Batch, schedule: seq<Turn>) returns (msgs: seq<Message>)
    requires b.Valid()
    ensures msgs <= Encode(b)
    ensures (forall t :: t in schedule ==> t.ok == ALL_SENT) ==> msgs == Encode(b)
  {
    var conn := new Connection(b);
    ghost var works := forall t :: t in schedule ==> t.ok == ALL_SENT;
    StartGoesOn(b, ALL_SENT);
    conn.SendBatch(ALL_SENT);
    var i := 0;
    while conn.streaming.Some?
      invariant conn.b == b && Underway(b, conn.State(), conn.sent)
      invariant works ==> Unhurt(conn.State())
      decreases Left(b, conn.State()).0, Left(b, conn.State()).1, Left(b, conn.State()).2, conn.streaming.Some?
    {
      var t := TurnAt(schedule, i);
      Round(conn, t);
      i := i + 1;
    }
    msgs := conn.sent;
  }

  /** Files left, bytes of the current one left, and whether the sender is paused. */
  ghost function Left(b: Batch, s: Sender): (nat, nat, bool) {
    if b.Valid() && SenderAt(b, s) then (|b.files| - s.pos.fileIndex, BytesLeft(b, s), Waiting(s)) else (0, 0, false)
  }

  /** The next state is nearer the end. */
  ghost predicate Nearer(b: Batch, s: Sender, s': Sender) {
    var l, l' := Left(b, s), Left(b, s');
    || l'.0 < l.0
    || (l'.0 == l.0 && l'.1 < l.1)
    || (l'.0 == l.0 && l'.1 == l.1 && l.2 && !l'.2)
    || (l'.0 == l.0 && l'.1 == l.1 && s.pos.chain.Some? && s'.pos.chain.None? && (l'.2 ==> l.2))
  }

  /** One round: what happens before a turn, and the turn. */
  method Round(conn: Connection, t: Turn)
    requires Underway(conn.b, conn.State(), conn.sent) && conn.streaming.Some?
    modifies conn
    ensures Underway(conn.b, conn.State(), conn.sent)
    ensures t.ok == ALL_SENT && old(Unhurt(conn.State())) ==> Unhurt(conn.State())
    ensures Nearer(conn.b, old(conn.State()), conn.State())
  {
    Idle(conn, t);
    StreamTurn(conn, t.ok);
  }

  /** Between two turns the buffer drains and an event may be dispatched. */
  method Idle(conn: Connection, t: Turn)
    requires Underway(conn.b, conn.State(), conn.sent) && conn.streaming.Some?
    modifies conn
    ensures Underway(conn.b, conn.State(), conn.sent) && conn.streaming.Some?
    ensures conn.fileIndex == old(conn.fileIndex)
    ensures BytesLeft(conn.b, conn.State()) == old(BytesLeft(conn.b, conn.State()))
    ensures Waiting(conn.State()) ==> old(Waiting(conn.State()))
    ensures old(Unhurt(conn.State())) ==> Unhurt(conn.State())
  {
    QuietGoesOn(conn.b, conn.State(), OnDrain(conn.State(), Least(t.drain, conn.bufferedAmount)), conn.sent);
    conn.Drain(Least(t.drain, conn.bufferedAmount));
    if t.early && conn.lowPending > 0 {
      QuietGoesOn(conn.b, conn.State(), OnLow(conn.State()), conn.sent);
      conn.OnBufferedAmountLow();
    }
  }

  function Least(m: nat, n: nat): nat {
    if m < n then m else n
  }

  /** One turn: a pause ends or a read completes. */
  method StreamTurn(conn: Connection, ok: Sends)
    requires Underway(conn.b, conn.State(), conn.sent) && conn.streaming.Some?
    modifies conn
    ensures var b, s, s' := conn.b, old(conn.State()), conn.State();
            && Underway(b, s', conn.sent)
            && (ok == ALL_SENT && Unhurt(s) ==> Unhurt(s'))
            && (Shorter(b, s, s') || (s'.pos.fileIndex == s.pos.fileIndex && BytesLeft(b, s') == BytesLeft(b, s) &&
                                      Waiting(s) && !Waiting(s')))
  {
    if conn.streaming.value.waiting {
      Wake(conn);
    } else {
      LoadGoesOn(conn.b, conn.State(), conn.sent, ok);
      conn.OnLoad(ok);
    }
  }

  /** The buffer of a paused sender drains until its event comes. */
  method Wake(conn: Connection)
    requires Underway(conn.b, conn.State(), conn.sent) && Waiting(conn.State())
    modifies conn
    ensures Underway(conn.b, conn.State(), conn.sent) && !Waiting(conn.State())
    ensures conn.fileIndex == old(conn.fileIndex)
    ensures BytesLeft(conn.b, conn.State()) == old(BytesLeft(conn.b, conn.State()))
    ensures old(Unhurt(conn.State())) ==> Unhurt(conn.State())
  {
    if conn.lowPending == 0 {
      QuietGoesOn(conn.b, conn.State(), OnDrain(conn.State(), conn.bufferedAmount), conn.sent);
      conn.Drain(conn.bufferedAmount);
    }
    QuietGoesOn(conn.b, conn.State(), OnLow(conn.State()), conn.sent);
    conn.OnBufferedAmountLow();
  }
}
