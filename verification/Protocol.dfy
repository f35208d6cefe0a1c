/** Both peers, the two queues between them and everything that can happen next. */
module Protocol {
  import opened Messages
  import opened SenderModel
  import opened ReceiverModel

  /** `consumed` records the messages the receiver's handler was called with; `clock` is
      the last time any callback read, `began` its first value. */
  datatype World = World(
    b: Batch,
    s: Sender,
    r: Receiver,
    fwd: seq<Message>,
    back: seq<Back>,
    consumed: seq<Message>,
    clock: nat,
    began: nat)

  datatype Step =
    | Start(ok: Sends)
    | Load(ok: Sends)
    | ReadFails
    | Drain(n: nat)
    | LowEvent
    | CompletionTimeout
    | DelayedClose
    | HandshakeTimeout
    | SenderCancels
    | SenderLoses
    | SenderChannelDown
    | DeliverBack
    | DeliverForward(now: nat, sendOk: bool)
    | Verified(task: nat, outcome: Outcome, skipped: bool, sendOk: bool)
    | Then(task: nat, now: nat, sendOk: bool)
    | Finally(task: nat)
    | ReceiverCloses
    | ReceiverChannelDown

  function Initial(b: Batch, now: nat): World {
    World(b, NEW_SENDER, NEW_RECEIVER, [], [], [], now, now)
  }

  ghost predicate Enabled(w: World, st: Step)
    requires w.b.Valid()
  {
    match st
    case Start(_) => !w.s.pos.started && !w.s.link.aborted
    case Load(_) => w.s.pos.chain.Some? && !w.s.pos.chain.value.waiting && ChainFits(w)
    case ReadFails => w.s.pos.chain.Some? && !w.s.pos.chain.value.waiting
    case Drain(n) => w.s.link.channelOpen && 1 <= n <= w.s.flow.buffered
    case LowEvent => w.s.flow.lowPending > 0
    case CompletionTimeout => w.s.confirm.completionTimer
    case DelayedClose => w.s.confirm.closeTimer
    case HandshakeTimeout => !w.s.pos.started && !w.s.link.aborted
    case SenderCancels => !w.s.link.aborted
    case SenderLoses => !w.s.link.silenced
    case SenderChannelDown => w.s.link.channelOpen
    case DeliverBack => w.s.link.channelOpen && w.back != []
    case DeliverForward(now, _) => w.r.end.channelOpen && w.fwd != [] && w.clock <= now
    case Verified(i, outcome, skipped, _) =>
      && i < |w.r.tasks| && w.r.tasks[i].stage.Verifying?
      && (outcome == Saved ==> Verifies(w.r.tasks[i], w.b.digest, skipped))
      && (outcome == Corrupt ==> !Verifies(w.r.tasks[i], w.b.digest, skipped))
    case Then(i, now, _) => i < |w.r.tasks| && w.r.tasks[i].stage.Settled? && w.clock <= now
    case Finally(i) => i < |w.r.tasks| && w.r.tasks[i].stage.Acked?
    case ReceiverCloses => !w.r.end.aborted
    case ReceiverChannelDown => w.r.end.channelOpen
  }

  ghost predicate ChainFits(w: World) {
    && w.s.pos.chain.Some?
    && w.s.pos.chain.value.file < |w.b.files|
    && w.s.pos.chain.value.offset <= |w.b.files[w.s.pos.chain.value.file].content|
  }

  function Emit(w: World, out: Out): World {
    w.(s := out.s, fwd := w.fwd + out.msgs)
  }

  function Answer(w: World, reply: Reply, now: nat): World {
    w.(r := reply.r, back := w.back + reply.back, clock := now)
  }

  ghost function Apply(w: World, st: Step): (w': World)
    requires w.b.Valid() && Enabled(w, st)
    ensures w'.b == w.b
  {
    match st
    case Start(ok) => Emit(w, SendBatch(w.b, w.s, ok))
    case Load(ok) => Emit(w, OnLoad(w.b, w.s, w.s.pos.chain.value, ok))
    case ReadFails => w.(s := OnReadError(w.s))
    case Drain(n) => w.(s := OnDrain(w.s, n))
    case LowEvent => w.(s := OnLow(w.s))
    case CompletionTimeout => w.(s := OnCompletionTimeout(w.s))
    case DelayedClose => w.(s := OnDelayedClose(w.s))
    case HandshakeTimeout => w.(s := AlertAndClose(w.s, NoResponse))
    case SenderCancels => w.(s := OnCancel(w.s))
    case SenderLoses => w.(s := AlertAndClose(w.s, ConnectionLost))
    case SenderChannelDown => w.(s := w.s.(link := w.s.link.(channelOpen := false)))
    case DeliverBack => w.(s := OnBack(w.s, w.back[0]), back := w.back[1..])
    case DeliverForward(now, sendOk) =>
      Answer(w.(fwd := w.fwd[1..], consumed := w.consumed + [w.fwd[0]]),
             OnMessage(w.r, w.fwd[0], now, sendOk), now)
    case Verified(i, outcome, skipped, sendOk) => Answer(w, OnVerified(w.r, i, outcome, skipped, sendOk), w.clock)
    case Then(i, now, sendOk) => Answer(w, OnThen(w.r, i, now, sendOk), now)
    case Finally(i) => w.(r := OnFinally(w.r, i))
    case ReceiverCloses => w.(r := CloseReceiver(w.r))
    case ReceiverChannelDown => w.(r := w.r.(end := w.r.end.(channelOpen := false)))
  }

  /** Whether the steps can be taken one after the other, and where they lead. */
  ghost predicate Runs(w: World, steps: seq<Step>)
    requires w.b.Valid()
    decreases |steps|
  {
    steps == [] ||
    (Enabled(w, steps[0]) && Runs(Apply(w, steps[0]), steps[1..]))
  }

  ghost function After(w: World, steps: seq<Step>): (w': World)
    requires w.b.Valid() && Runs(w, steps)
    ensures w'.b == w.b
    decreases |steps|
  {
    if steps == [] then w else After(Apply(w, steps[0]), steps[1..])
  }

  lemma {:induction false} RunsConcat(w: World, first: seq<Step>, second: seq<Step>)
    requires w.b.Valid() && Runs(w, first)
    requires Runs(After(w, first), second)
    ensures Runs(w, first + second)
    ensures After(w, first + second) == After(After(w, first), second)
    decreases |first|
  {
    if first == [] {
      assert first + second == second;
    } else {
      RunsConcat(Apply(w, first[0]), first[1..], second);
      assert (first + second)[1..] == first[1..] + second;
    }
  }

  lemma Prepend(w: World, st: Step, rest: seq<Step>)
    requires w.b.Valid() && Enabled(w, st) && Runs(Apply(w, st), rest)
    ensures Runs(w, [st] + rest) && After(w, [st] + rest) == After(Apply(w, st), rest)
  {
    assert ([st] + rest)[1..] == rest;
  }
}
