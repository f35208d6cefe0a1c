/** The sending side of one connection as a value, one function per callback. */
module SenderModel {
  import opened Messages

  /** What `reportSendSuccess` and `reportSendFailure` tell the user. */
  datatype Verdict = Success | Unconfirmed | Corrupted(name: string)

  /** The other error messages, each raised together with a close. */
  datatype Alert = SendError | ReadError | ConnectionLost | NoResponse

  /** One activation of `streamFile`: the file it captured, the offset of the next
      slice, and whether it waits for the low-water event or for a file read. */
  datatype Chain = Chain(file: nat, offset: nat, waiting: bool)

  /** How far the batch has got. `finished` once the branch after the last file has run,
      `doneSent` if its message went out. */
  datatype Position = Position(
    started: bool, finished: bool, doneSent: bool, fileIndex: nat, totalBytes: nat, chain: Option<Chain>)

  /** The connection itself; `aborted` once `closeConnection` has run. */
  datatype Link = Link(aborted: bool, silenced: bool, cancelled: bool, channelOpen: bool)

  /** Confirmation by the receiver, the two timers and what the user was told. */
  datatype Confirmation = Confirmation(
    finalAckReceived: bool, completionTimer: bool, closeTimer: bool, verdicts: seq<Verdict>)

  /** What the buffer has been through, read by no branch of the program: `gateFile` is the
      number of files begun when the last chunk was sent under an open gate (0 if none was),
      `overtaken` counts the chunks sent since then whose low-water event was dispatched with
      the buffer full again, `gated` says whether the current read passed the gate, `raised`
      counts all low-water events and `stacked` those raised while another was still queued. */
  datatype Note = Note(gateFile: nat, overtaken: nat, gated: bool, raised: nat, stacked: nat)

  /** The data channel's send buffer; `lowPending` low-water events are queued, each crossing
      of the low mark adding its own. */
  datatype Flow = Flow(buffered: nat, lowHandler: bool, lowPending: nat, note: Note)

  const NEW_NOTE := Note(0, 0, false, 0, 0)

  /** Error messages, acknowledgement values and percentages shown so far. */
  datatype Log = Log(alerts: seq<Alert>, acks: seq<nat>, percents: seq<int>)

  datatype Sender = Sender(pos: Position, link: Link, confirm: Confirmation, flow: Flow, log: Log)

  /** Which of the sends a callback may attempt go through. */
  datatype Sends = Sends(chunk: bool, header: bool, done: bool)

  const ALL_SENT := Sends(true, true, true)

  /** A new sender state and the messages handed to the channel on the way. */
  datatype Out = Out(s: Sender, msgs: seq<Message>)

  const NEW_SENDER := Sender(
    Position(false, false, false, 0, 0, None),
    Link(false, false, false, true),
    Confirmation(false, false, false, []),
    Flow(0, false, 0, NEW_NOTE),
    Log([], [], []))

  function Buffer(b: Batch, f: Flow, m: Message): Flow {
    f.(buffered := f.buffered + WireBytes(b, m))
  }

  function WithoutChain(s: Sender): Sender {
    s.(pos := s.pos.(chain := None))
  }

  function CloseSender(s: Sender): Sender {
    if s.link.aborted then s
    else s.(
      link := s.link.(aborted := true, silenced := true, channelOpen := false),
      confirm := s.confirm.(completionTimer := false))
  }

  function AlertAndClose(s: Sender, a: Alert): Sender {
    CloseSender(s.(log := s.log.(alerts := s.log.alerts + [a])))
  }

  function ReportSuccess(s: Sender): Sender {
    s.(
      link := s.link.(silenced := true),
      confirm := s.confirm.(
        completionTimer := false, closeTimer := true, verdicts := s.confirm.verdicts + [Success]))
  }

  function ReportFailure(s: Sender, v: Verdict): Sender {
    CloseSender(s.(
      link := s.link.(silenced := true),
      confirm := s.confirm.(completionTimer := false, verdicts := s.confirm.verdicts + [v])))
  }

  /** A read begun with room in the buffer; the first of a file does not look. */
  predicate PassesGate(c: Chain, buffered: nat) {
    c.offset > 0 && buffered <= HIGH_WATERMARK
  }

  /** `sendNext`: begin reading the next slice, unless the connection is gone. */
  function StreamNext(s: Sender, c: Chain): Sender {
    if s.link.aborted || !s.link.channelOpen then WithoutChain(s)
    else s.(
      pos := s.pos.(chain := Some(c.(waiting := false))),
      flow := s.flow.(note := s.flow.note.(gated := PassesGate(c, s.flow.buffered))))
  }

  /** The branch of `sendNextFile` taken after the last file. */
  function FinishBatch(b: Batch, s: Sender, ok: Sends): Out {
    var sent := s.link.channelOpen && ok.done;
    var pos := s.pos.(chain := None, finished := true, doneSent := sent);
    var flow := if sent then Buffer(b, s.flow, Done) else s.flow;
    var s1 := s.(pos := pos, flow := flow, link := s.link.(silenced := true));
    Out(if s.confirm.finalAckReceived then ReportSuccess(s1)
        else s1.(confirm := s1.confirm.(completionTimer := true)),
        if sent then [Done] else [])
  }

  function SendNextFile(b: Batch, s: Sender, ok: Sends): Out
    requires b.Valid()
  {
    if s.link.aborted then Out(WithoutChain(s), [])
    else if s.pos.fileIndex >= |b.files| then FinishBatch(b, s, ok)
    else if !s.link.channelOpen || !ok.header then
      Out(AlertAndClose(WithoutChain(s), SendError), [])
    else
      var m := FileHeader(b.HeaderOf(s.pos.fileIndex));
      Out(StreamNext(s.(flow := Buffer(b, s.flow, m)), Chain(s.pos.fileIndex, 0, false)), [m])
  }

  function Begin(b: Batch, s: Sender): Sender {
    s.(pos := s.pos.(started := true, fileIndex := 0, totalBytes := TotalSize(b.files)))
  }

  function SendBatch(b: Batch, s: Sender, ok: Sends): Out
    requires b.Valid()
  {
    SendNextFile(b, Begin(b, s), ok)
  }

  /** The slice read for chain c. */
  function SliceOf(b: Batch, c: Chain): seq<byte>
    requires c.file < |b.files| && c.offset <= |b.files[c.file].content|
  {
    var content := b.files[c.file].content;
    content[c.offset..SliceEnd(content, c.offset)]
  }

  /** Book-keeping for the buffer bound, read by no branch of the program. */
  function NoteGate(n: Note, c: Chain): Note {
    if n.gated then n.(gateFile := c.file + 1, overtaken := 0)
    else if c.offset > 0 then n.(overtaken := n.overtaken + 1)
    else n
  }

  /** A read completed and its chunk was sent. */
  function SendChunk(b: Batch, s: Sender, c: Chain): Sender
    requires c.file < |b.files| && c.offset <= |b.files[c.file].content|
  {
    s.(flow := Buffer(b, s.flow.(note := NoteGate(s.flow.note, c)), Chunk(SliceOf(b, c))))
  }

  /** `onDone` of the file being streamed. */
  function NextIndex(s: Sender): Sender {
    s.(pos := s.pos.(fileIndex := s.pos.fileIndex + 1))
  }

  /** Pause until the low-water event. */
  function Pause(s: Sender, c: Chain): Sender {
    s.(pos := s.pos.(chain := Some(c.(waiting := true))), flow := s.flow.(lowHandler := true))
  }

  /** `reader.onload` of the read begun by chain `c`. */
  function OnLoad(b: Batch, s: Sender, c: Chain, ok: Sends): Out
    requires b.Valid() && c.file < |b.files| && c.offset <= |b.files[c.file].content|
  {
    if s.link.aborted || !s.link.channelOpen then Out(WithoutChain(s), [])
    else if !ok.chunk then Out(AlertAndClose(WithoutChain(s), SendError), [])
    else
      var m := Chunk(SliceOf(b, c));
      var s1 := SendChunk(b, s, c);
      var c1 := c.(offset := c.offset + |m.bytes|);
      if c1.offset < |b.files[c.file].content| then
        if s1.flow.buffered > HIGH_WATERMARK then Out(Pause(s1, c1), [m])
        else Out(StreamNext(s1, c1), [m])
      else
        var rest := SendNextFile(b, NextIndex(s1), ok);
        Out(rest.s, [m] + rest.msgs)
  }

  /** The low-water event: it reaches whatever handler is attached when it is dispatched. */
  function OnLow(s: Sender): Sender
    requires s.flow.lowPending > 0
  {
    var s1 := s.(flow := s.flow.(lowPending := s.flow.lowPending - 1, lowHandler := false));
    if s.flow.lowHandler && s.pos.chain.Some? then StreamNext(s1, s.pos.chain.value) else s1
  }

  /** The buffer has fallen to the low mark: one more event is queued. */
  function Raise(f: Flow): Flow {
    f.(lowPending := f.lowPending + 1, note := NoteRaise(f.note, f.lowPending))
  }

  function NoteRaise(n: Note, queued: nat): Note {
    n.(raised := n.raised + 1, stacked := if queued > 0 then n.stacked + 1 else n.stacked)
  }

  /** The channel puts n buffered bytes on the wire. */
  function OnDrain(s: Sender, n: nat): Sender
    requires n <= s.flow.buffered
  {
    var left := s.flow.buffered - n;
    var f := s.flow.(buffered := left);
    s.(flow := if s.flow.buffered > LOW_WATERMARK >= left then Raise(f) else f)
  }

  function OnReadError(s: Sender): Sender {
    AlertAndClose(WithoutChain(s), ReadError)
  }

  function OnCompletionTimeout(s: Sender): Sender {
    ReportFailure(s, Unconfirmed)
  }

  function OnDelayedClose(s: Sender): Sender {
    CloseSender(s.(confirm := s.confirm.(closeTimer := false)))
  }

  /** A decline signal or `cancelAll`. */
  function OnCancel(s: Sender): Sender {
    CloseSender(s.(link := s.link.(cancelled := true)))
  }

  /** `Math.round` of a quotient of naturals. */
  function RoundQuotient(num: nat, den: nat): nat
    requires den > 0
  {
    (2 * num + den) / (2 * den)
  }

  function ComputePercent(done: nat, total: nat, fallbackDone: nat, fallbackExpected: nat): nat {
    if total > 0 then RoundQuotient(100 * done, total)
    else if fallbackExpected > 0 then RoundQuotient(100 * fallbackDone, fallbackExpected)
    else 100
  }

  function OnAck(s: Sender, v: nat): Sender {
    var log := s.log.(acks := s.log.acks + [v]);
    if v >= s.pos.totalBytes then
      var s1 := s.(log := log, confirm := s.confirm.(finalAckReceived := true));
      if s.confirm.completionTimer then ReportSuccess(s1) else s1
    else s.(log := log.(percents := log.percents + [ComputePercent(v, s.pos.totalBytes, 0, 0)]))
  }

  /** The sender's `onmessage`. */
  function OnBack(s: Sender, m: Back): Sender {
    match m
    case IntegrityError(name) => ReportFailure(s, Corrupted(name))
    case Ack(v) => OnAck(s, v)
  }
}
