/** ICE candidates that arrive around the awaits of `handleSignal` and `handleOffer`. */
module Candidates {
  type Candidate = nat

  /** Absent: no entry for the peer. Placeholder: entry without a peer connection, the dialog
      being open. NoDescription: the offering side, waiting for the answer. Setting:
      `setRemoteDescription` is awaited. Flushing: `addIceCandidate` of a buffered candidate
      is awaited. Ready: the loop is over. Closed: an error, a decline or the user removed the
      entry; what the interrupted callbacks still try then has no effect. */
  datatype Phase = Absent | Placeholder | NoDescription | Setting | Flushing | Ready | Closed

  /** `offering` tells the two paths apart; the first `handed` of `pending` have been given
      to the peer connection. `applied` lists everything given to it, `received` everything
      that arrived while the peer had an entry. */
  datatype Queue = Queue(
    phase: Phase, offering: bool, pending: seq<Candidate>, handed: nat,
    applied: seq<Candidate>, received: seq<Candidate>)

  datatype Event =
    | CreateOffer
    | OfferArrives
    | Accept
    | Decline
    | Cancel
    | AnswerArrives
    | DescriptionSet(works: bool)
    | Added(works: bool)
    | Arrives(c: Candidate)

  const EMPTY := Queue(Absent, false, [], 0, [], [])

  /** Hand the next buffered candidate over, or clear the buffer after the last one. */
  function FlushNext(q: Queue): Queue
    requires q.handed <= |q.pending|
  {
    if q.handed < |q.pending| then
      q.(phase := Flushing, applied := q.applied + [q.pending[q.handed]], handed := q.handed + 1)
    else q.(phase := Ready, pending := [], handed := 0)
  }

  predicate Applies(q: Queue, e: Event) {
    && q.handed <= |q.pending|
    && match e
       case CreateOffer => q.phase.Absent?
       case OfferArrives => q.phase.Absent?
       case Accept => q.phase.Placeholder?
       case Decline => q.phase.Placeholder? || q.phase.NoDescription?
       case Cancel => !q.phase.Absent? && !q.phase.Closed?
       case AnswerArrives => q.phase.NoDescription?
       case DescriptionSet(_) => q.phase.Setting?
       case Added(_) => q.phase.Flushing?
       case Arrives(_) => true
  }

  function Handle(q: Queue, e: Event): Queue
    requires Applies(q, e)
  {
    match e
    case CreateOffer => q.(phase := NoDescription, offering := true)
    case OfferArrives => q.(phase := Placeholder, offering := false)
    case Accept => q.(phase := Setting)
    case Decline => q.(phase := Closed)
    case Cancel => q.(phase := Closed)
    case AnswerArrives => q.(phase := Setting)
    case DescriptionSet(works) => if works then FlushNext(q) else q.(phase := Closed)
    case Added(works) => if works || q.offering then FlushNext(q) else q.(phase := Closed)
    case Arrives(c) =>
      if q.phase.Absent? || q.phase.Closed? then q
      else if q.phase.Flushing? || q.phase.Ready? then
        q.(applied := q.applied + [c], received := q.received + [c])
      else q.(pending := q.pending + [c], received := q.received + [c])
  }

  ghost predicate Runs(q: Queue, events: seq<Event>)
    decreases |events|
  {
    events == [] || (Applies(q, events[0]) && Runs(Handle(q, events[0]), events[1..]))
  }

  ghost function After(q: Queue, events: seq<Event>): Queue
    requires Runs(q, events)
    decreases |events|
  {
    if events == [] then q else After(Handle(q, events[0]), events[1..])
  }

  /** Every candidate received was applied once or is still waiting to be. */
  ghost predicate Conserved(q: Queue) {
    && q.handed <= |q.pending|
    && multiset(q.received) == multiset(q.applied) + multiset(q.pending[q.handed..])
    && (q.phase.Ready? ==> q.pending == [])
    && (q.handed > 0 ==> q.phase.Flushing? || q.phase.Closed?)
  }

  lemma FlushConserves(q: Queue)
    requires Conserved(q)
    ensures Conserved(FlushNext(q))
  {
    if q.handed < |q.pending| {
      assert q.pending[q.handed..] == [q.pending[q.handed]] + q.pending[q.handed + 1..];
    } else {
      assert q.pending[q.handed..] == [];
    }
  }

  lemma HandleConserves(q: Queue, e: Event)
    requires Conserved(q) && Applies(q, e)
    ensures Conserved(Handle(q, e))
  {
    match e {
      case DescriptionSet(_) => FlushConserves(q);
      case Added(_) => FlushConserves(q);
      case Arrives(c) =>
        assert (q.pending + [c])[q.handed..] == q.pending[q.handed..] + [c];
      case _ =>
    }
  }

  lemma {:induction false} RunConserves(q: Queue, events: seq<Event>)
    requires Conserved(q) && Runs(q, events)
    ensures Conserved(After(q, events))
    decreases |events|
  {
    if events != [] {
      HandleConserves(q, events[0]);
      RunConserves(Handle(q, events[0]), events[1..]);
    }
  }

  /** Whatever the moments candidates arrive at, on either path: none is lost or applied
      twice, and once the flush is over all received so far have been applied. */
  lemma CandidateConservation(events: seq<Event>)
    requires Runs(EMPTY, events)
    ensures var q := After(EMPTY, events);
            && q.handed <= |q.pending|
            && multiset(q.received) == multiset(q.applied) + multiset(q.pending[q.handed..])
            && (q.phase.Ready? ==> q.pending == [] && multiset(q.applied) == multiset(q.received))
  {
    RunConserves(EMPTY, events);
    var q := After(EMPTY, events);
    if q.phase.Ready? {
      assert q.pending[q.handed..] == [];
    }
  }

  // ----- Told by the events alone --------------------------------------------

  /** The candidates that arrive once the peer has an entry. */
  function Heard(events: seq<Event>, listed: bool): seq<Candidate> {
    if events == [] then []
    else
      var rest := Heard(events[1..], listed || events[0].CreateOffer? || events[0].OfferArrives?);
      if events[0].Arrives? && listed then [events[0].c] + rest else rest
  }

  lemma {:induction false} RunHears(q: Queue, events: seq<Event>)
    requires Runs(q, events) && !After(q, events).phase.Closed?
    ensures !q.phase.Closed?
    ensures After(q, events).received == q.received + Heard(events, !q.phase.Absent?)
    decreases |events|
  {
    if events != [] {
      RunHears(Handle(q, events[0]), events[1..]);
    }
  }

  /** As long as the connection is not closed, everything that has arrived since its entry was
      made has been applied once or is still waiting; after the flush nothing is. */
  lemma CandidatesAreKept(events: seq<Event>)
    requires Runs(EMPTY, events) && !After(EMPTY, events).phase.Closed?
    ensures var q := After(EMPTY, events);
            && q.handed <= |q.pending|
            && multiset(q.applied) + multiset(q.pending[q.handed..]) == multiset(Heard(events, false))
            && (q.phase.Ready? ==> multiset(q.applied) == multiset(Heard(events, false)))
  {
    RunHears(EMPTY, events);
    CandidateConservation(events);
    assert EMPTY.received + Heard(events, false) == Heard(events, false);
  }

  /** And what has arrived up to the closing event still is when it closes, and for good. */
  lemma CandidatesKeptUntilClosed(before: seq<Event>, e: Event, rest: seq<Event>)
    requires Runs(EMPTY, before) && !After(EMPTY, before).phase.Closed?
    requires Applies(After(EMPTY, before), e) && Handle(After(EMPTY, before), e).phase.Closed?
    requires Runs(Handle(After(EMPTY, before), e), rest)
    ensures var q := After(Handle(After(EMPTY, before), e), rest);
            && q.phase.Closed? && q.handed <= |q.pending|
            && multiset(q.applied) + multiset(q.pending[q.handed..]) == multiset(Heard(before, false))
  {
    CandidatesAreKept(before);
    ClosedStays(Handle(After(EMPTY, before), e), rest);
  }

  lemma {:induction false} ClosedStays(q: Queue, events: seq<Event>)
    requires Runs(q, events) && q.phase.Closed?
    ensures After(q, events) == q
    decreases |events|
  {
    if events != [] {
      assert Handle(q, events[0]) == q;
      ClosedStays(q, events[1..]);
    }
  }

  /** No candidate is applied before the remote description is set. */
  lemma {:induction false} NothingAppliedEarly(q: Queue, events: seq<Event>)
    requires Runs(q, events) && DescriptionSet(true) !in events
    requires q.applied == [] && !q.phase.Flushing? && !q.phase.Ready?
    ensures After(q, events).applied == []
    decreases |events|
  {
    if events != [] {
      assert events[0] in events;
      NothingAppliedEarly(Handle(q, events[0]), events[1..]);
    }
  }

  /** The side is that of the first event. */
  lemma {:induction false} SideOfFirstEvent(q: Queue, events: seq<Event>)
    requires Runs(q, events)
    ensures After(q, events).offering <==>
            (if q.phase.Absent? && After(q, events).phase.Absent? then q.offering
             else if q.phase.Absent? then CreateOffer in events
             else q.offering)
    ensures CreateOffer in events ==> q.phase.Absent? && !After(q, events).phase.Absent?
    ensures q.phase.Absent? || !After(q, events).phase.Absent?
    decreases |events|
  {
    if events != [] {
      SideOfFirstEvent(Handle(q, events[0]), events[1..]);
      assert CreateOffer in events <==> events[0] == CreateOffer || CreateOffer in events[1..];
    }
  }

  /** In a run from the start the offering side is the one that created the offer. */
  lemma OffererCreates(events: seq<Event>)
    requires Runs(EMPTY, events)
    ensures After(EMPTY, events).offering <==> CreateOffer in events
  {
    SideOfFirstEvent(EMPTY, events);
  }

  /** What closes a connection: a decline, a cancellation, a failing description, and a failing
      candidate on the answering side. */
  lemma ClosedBy(q: Queue, e: Event)
    requires Applies(q, e) && !q.phase.Closed?
    ensures Handle(q, e).phase.Closed? <==>
            e in {Decline, Cancel, DescriptionSet(false)} || (e == Added(false) && !q.offering)
  {
  }

  /** On the offering side a rejected candidate does not stop the others; on the answering
      side it closes the connection, and then nothing more is applied. */
  lemma RejectionByPath(q: Queue)
    requires Conserved(q) && q.phase.Flushing?
    ensures Handle(q, Added(false)).phase.Closed? <==> !q.offering
    ensures q.offering ==> Handle(q, Added(false)) == Handle(q, Added(true))
  {
  }

  /** Undisturbed, the loop hands over everything buffered, in order, and ends. */
  lemma {:induction false} FlushTerminates(q: Queue)
    requires Conserved(q) && q.phase.Flushing?
    ensures var events := seq(|q.pending| - q.handed + 1, _ => Added(true));
            && Runs(q, events) && After(q, events).phase.Ready?
            && After(q, events).applied == q.applied + q.pending[q.handed..] && After(q, events).pending == []
    decreases |q.pending| - q.handed
  {
    var n := |q.pending| - q.handed + 1;
    var events := seq(n, _ => Added(true));
    var q' := Handle(q, Added(true));
    assert events[0] == Added(true) && events[1..] == seq(n - 1, _ => Added(true));
    HandleConserves(q, Added(true));
    if q.handed < |q.pending| {
      FlushTerminates(q');
      SuffixStep(q.applied, q.pending, q.handed);
    } else {
      assert events[1..] == [];
      assert q.pending[q.handed..] == [];
    }
  }

  lemma SuffixStep(applied: seq<Candidate>, pending: seq<Candidate>, k: nat)
    requires k < |pending|
    ensures (applied + [pending[k]]) + pending[k + 1..] == applied + pending[k..]
  {
    assert pending[k..] == [pending[k]] + pending[k + 1..];
  }

  /** The same, as the fields of a connection changed by its callbacks. */
  class Connection {
    var phase: Phase
    var offering: bool
    var pendingCandidates: seq<Candidate>
    var next: nat
    var applied: seq<Candidate>
    ghost var received: seq<Candidate>

    ghost function State(): Queue
      reads this
    {
      Queue(phase, offering, pendingCandidates, next, applied, received)
    }

    constructor (offering: bool)
      ensures State() == Handle(EMPTY, if offering then CreateOffer else OfferArrives)
    {
      phase := if offering then NoDescription else Placeholder;
      this.offering := offering;
      pendingCandidates, next, applied, received := [], 0, [], [];
    }

    /** One turn of the loop over the buffered candidates. */
    method FlushTurn()
      requires next <= |pendingCandidates|
      modifies this
      ensures State() == FlushNext(old(State()))
    {
      if next < |pendingCandidates| {
        applied := applied + [pendingCandidates[next]];
        next := next + 1;
        phase := Flushing;
      } else {
        pendingCandidates := [];
        next := 0;
        phase := Ready;
      }
    }

    /** The user accepts the offer, or the answer arrives: `setRemoteDescription` is called. */
    method OnDescription()
      requires next <= |pendingCandidates| && (phase.Placeholder? || phase.NoDescription?)
      modifies this
      ensures State() == Handle(old(State()), if old(phase).Placeholder? then Accept else AnswerArrives)
    {
      phase := Setting;
    }

    /** `closeConnection` at any moment. */
    method OnCancel()
      requires Applies(State(), Cancel)
      modifies this
      ensures State() == Handle(old(State()), Cancel)
    {
      phase := Closed;
    }

    method OnDecline()
      requires Applies(State(), Decline)
      modifies this
      ensures State() == Handle(old(State()), Decline)
    {
      phase := Closed;
    }

    method OnDescriptionSet(works: bool)
      requires Applies(State(), DescriptionSet(works))
      modifies this
      ensures State() == Handle(old(State()), DescriptionSet(works))
    {
      if works {
        FlushTurn();
      } else {
        phase := Closed;
      }
    }

    method OnAdded(works: bool)
      requires Applies(State(), Added(works))
      modifies this
      ensures State() == Handle(old(State()), Added(works))
    {
      if works || offering {
        FlushTurn();
      } else {
        phase := Closed;
      }
    }

    method OnCandidate(c: Candidate)
      requires Applies(State(), Arrives(c))
      modifies this
      ensures State() == Handle(old(State()), Arrives(c))
      ensures old(phase).Placeholder? || old(phase).NoDescription? || old(phase).Setting? ==>
                pendingCandidates == old(pendingCandidates) + [c] && applied == old(applied)
      ensures old(phase).Flushing? || old(phase).Ready? ==>
                applied == old(applied) + [c] && pendingCandidates == old(pendingCandidates)
    {
      if phase.Absent? || phase.Closed? {
        return;
      }
      received := received + [c];
      if phase.Flushing? || phase.Ready? {
        applied := applied + [c];
      } else {
        pendingCandidates := pendingCandidates + [c];
      }
    }
  }
}
