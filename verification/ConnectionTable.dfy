/** The map of connections by peer id, and the closes owed to it later. */
module ConnectionTable {

  /** `peers[c]` is the peer of the c-th connection ever opened, `listed` the map
      `connections`, `aborted` the connections some `closeConnection` has marked, and
      `owed` the connections whose callbacks still hold a `closeConnection(remoteId)`. */
  datatype Table = Table(peers: seq<string>, listed: map<string, nat>, aborted: set<nat>, owed: seq<nat>)

  datatype Call =
    | Open(peer: string)
    | Close(peer: string)
    | Owe(c: nat)
    | Fire(k: nat)

  const EMPTY := Table([], map[], {}, [])

  /** `closeConnection`. */
  function CloseListed(t: Table, peer: string): Table {
    if peer !in t.listed then t
    else t.(listed := t.listed - {peer}, aborted := t.aborted + {t.listed[peer]})
  }

  /** `createOffer` refuses a peer that is listed. */
  function OpenNew(t: Table, peer: string): Table {
    if peer in t.listed then t
    else t.(peers := t.peers + [peer], listed := t.listed[peer := |t.peers|])
  }

  /** The k-th owed close comes due: it knows the peer, not the connection. */
  function FireOwed(t: Table, k: nat): Table
    requires k < |t.owed| && t.owed[k] < |t.peers|
  {
    CloseListed(t, t.peers[t.owed[k]]).(owed := t.owed[..k] + t.owed[k + 1..])
  }

  ghost predicate Enabled(t: Table, call: Call) {
    match call
    case Owe(c) => c < |t.peers| && c !in t.aborted
    case Fire(k) => k < |t.owed| && t.owed[k] < |t.peers|
    case _ => true
  }

  function Do(t: Table, call: Call): Table
    requires Enabled(t, call)
  {
    match call
    case Open(peer) => OpenNew(t, peer)
    case Close(peer) => CloseListed(t, peer)
    case Owe(c) => t.(owed := t.owed + [c])
    case Fire(k) => FireOwed(t, k)
  }

  ghost predicate Runs(t: Table, calls: seq<Call>)
    decreases |calls|
  {
    calls == [] || (Enabled(t, calls[0]) && Runs(Do(t, calls[0]), calls[1..]))
  }

  ghost function After(t: Table, calls: seq<Call>): Table
    requires Runs(t, calls)
    decreases |calls|
  {
    if calls == [] then t else After(Do(t, calls[0]), calls[1..])
  }

  /** The listed connections are exactly those opened and not aborted. */
  ghost predicate ListsLive(t: Table) {
    && (forall p :: p in t.listed ==>
          t.listed[p] < |t.peers| && t.peers[t.listed[p]] == p && t.listed[p] !in t.aborted)
    && (forall c :: 0 <= c < |t.peers| && c !in t.aborted ==>
          t.peers[c] in t.listed && t.listed[t.peers[c]] == c)
    && (forall c :: c in t.aborted ==> c < |t.peers|)
    && (forall k :: 0 <= k < |t.owed| ==> t.owed[k] < |t.peers|)
  }

  lemma ListsLiveStep(t: Table, call: Call)
    requires ListsLive(t) && Enabled(t, call)
    ensures ListsLive(Do(t, call))
  {
  }

  lemma {:induction false} ListsLiveAlways(t: Table, calls: seq<Call>)
    requires ListsLive(t) && Runs(t, calls)
    ensures ListsLive(After(t, calls))
    decreases |calls|
  {
    if calls != [] {
      ListsLiveStep(t, calls[0]);
      ListsLiveAlways(Do(t, calls[0]), calls[1..]);
    }
  }

  /** The close owed by one connection hits another. */
  ghost predicate HitsAnother(t: Table, k: nat)
    requires Enabled(t, Fire(k))
  {
    exists c :: c in Do(t, Fire(k)).aborted - t.aborted && c != t.owed[k]
  }

  /** In any run, an owed close ends another connection exactly when its own is already
      closed and its peer is listed again; otherwise it ends its own, or nothing. */
  lemma OwedCloseExactly(calls: seq<Call>, k: nat)
    requires Runs(EMPTY, calls) && Enabled(After(EMPTY, calls), Fire(k))
    ensures var t := After(EMPTY, calls);
            var own := t.owed[k];
            && (HitsAnother(t, k) <==> own in t.aborted && t.peers[own] in t.listed)
            && (own !in t.aborted ==> Do(t, Fire(k)).aborted == t.aborted + {own})
  {
    ListsLiveAlways(EMPTY, calls);
    var t := After(EMPTY, calls);
    var own := t.owed[k];
    if own in t.aborted && t.peers[own] in t.listed {
      assert t.listed[t.peers[own]] in Do(t, Fire(k)).aborted - t.aborted;
    }
  }

  /** Opening leaves every listed connection as it is and adds one exactly for an unlisted peer;
      closing takes away exactly that peer's; an owed close is used up. */
  lemma EntriesExactly(t: Table, peer: string, k: nat)
    requires ListsLive(t)
    ensures var t' := Do(t, Open(peer));
            && (forall p :: p in t.listed ==> p in t'.listed && t'.listed[p] == t.listed[p])
            && (forall p :: p in t'.listed ==> p in t.listed || p == peer)
            && peer in t'.listed && |t'.peers| == |t.peers| + (if peer in t.listed then 0 else 1)
            && t'.aborted == t.aborted && t'.owed == t.owed
    ensures var t' := Do(t, Close(peer));
            && (forall p :: p in t'.listed <==> p in t.listed && p != peer)
            && (forall p :: p in t'.listed ==> t'.listed[p] == t.listed[p])
            && t'.peers == t.peers && t'.owed == t.owed
    ensures Enabled(t, Fire(k)) ==>
              multiset(Do(t, Fire(k)).owed) + multiset{t.owed[k]} == multiset(t.owed)
  {
    if Enabled(t, Fire(k)) {
      assert t.owed == t.owed[..k] + [t.owed[k]] + t.owed[k + 1..];
    }
  }

  ghost predicate OpensOnce(calls: seq<Call>) {
    forall i, j :: 0 <= i < j < |calls| && calls[i].Open? && calls[j].Open? ==> calls[i].peer != calls[j].peer
  }

  /** If the calls open distinct peers, none seen before, no peer is ever opened twice. */
  lemma {:induction false} OpenedOnce(t: Table, calls: seq<Call>)
    requires Runs(t, calls) && OpensOnce(calls) && Distinct(t.peers) && OpensNone(calls, t.peers)
    ensures Distinct(After(t, calls).peers)
    decreases |calls|
  {
    if calls != [] {
      var t', rest := Do(t, calls[0]), calls[1..];
      forall i, j | 0 <= i < |t'.peers| && 0 <= j < |rest| && rest[j].Open? ensures t'.peers[i] != rest[j].peer {
        assert rest[j] == calls[j + 1];
      }
      OpenedOnce(t', rest);
    }
  }

  ghost predicate Distinct(s: seq<string>) {
    forall i, j :: 0 <= i < j < |s| ==> s[i] != s[j]
  }

  ghost predicate OpensNone(calls: seq<Call>, peers: seq<string>) {
    forall i, j :: 0 <= i < |peers| && 0 <= j < |calls| && calls[j].Open? ==> peers[i] != calls[j].peer
  }

  /** With one connection a peer, an owed close never ends another connection. */
  lemma OneConnectionIsSafe(calls: seq<Call>, k: nat)
    requires Runs(EMPTY, calls) && OpensOnce(calls) && Enabled(After(EMPTY, calls), Fire(k))
    ensures !HitsAnother(After(EMPTY, calls), k)
  {
    OpenedOnce(EMPTY, calls);
    ListsLiveAlways(EMPTY, calls);
    OwedCloseExactly(calls, k);
  }

  /** Without that hypothesis it does: a peer closed and opened again within the delay loses
      the second connection to the first one's close. */
  lemma ReopeningLosesTheConnection(t: Table, peer: string)
    requires ListsLive(t) && peer !in t.listed
    ensures var c := |t.peers|;
            var calls := [Open(peer), Owe(c), Close(peer), Open(peer), Fire(|t.owed|)];
            && Runs(t, calls)
            && c + 1 in After(t, calls).aborted
            && peer !in After(t, calls).listed
  {
    var c, k := |t.peers|, |t.owed|;
    var t1 := Do(t, Open(peer));
    var t2 := Do(t1, Owe(c));
    var t3 := Do(t2, Close(peer));
    var t4 := Do(t3, Open(peer));
    var t5 := Do(t4, Fire(k));
    assert Runs(t5, []) && After(t5, []) == t5;
    assert Runs(t4, [Fire(k)]) && After(t4, [Fire(k)]) == t5;
    RunsMore(t3, Open(peer), [Fire(k)]);
    RunsMore(t2, Close(peer), [Open(peer), Fire(k)]);
    RunsMore(t1, Owe(c), [Close(peer), Open(peer), Fire(k)]);
    RunsMore(t, Open(peer), [Owe(c), Close(peer), Open(peer), Fire(k)]);
  }

  lemma RunsMore(t: Table, call: Call, rest: seq<Call>)
    requires Enabled(t, call) && Runs(Do(t, call), rest)
    ensures Runs(t, [call] + rest) && After(t, [call] + rest) == After(Do(t, call), rest)
  {
    assert ([call] + rest)[1..] == rest;
  }

  /** The map itself, updated in place. */
  class Connections {
    var peers: seq<string>
    var listed: map<string, nat>
    var aborted: set<nat>
    var owed: seq<nat>

    function State(): Table
      reads this
    {
      Table(peers, listed, aborted, owed)
    }

    constructor ()
      ensures State() == EMPTY
    {
      peers, listed, aborted, owed := [], map[], {}, [];
    }

    method CloseConnection(peer: string)
      modifies this
      ensures State() == CloseListed(old(State()), peer)
    {
      if peer in listed {
        aborted := aborted + {listed[peer]};
        listed := listed - {peer};
      }
    }

    method OpenConnection(peer: string) returns (isNew: bool)
      modifies this
      ensures isNew == (peer !in old(listed)) && State() == OpenNew(old(State()), peer)
    {
      isNew := peer !in listed;
      if isNew {
        peers, listed := peers + [peer], listed[peer := |peers|];
      }
    }

    method CloseLater(c: nat)
      modifies this
      ensures State() == old(State()).(owed := old(owed) + [c])
    {
      owed := owed + [c];
    }

    method DelayElapses(k: nat)
      requires Enabled(State(), Fire(k))
      modifies this
      ensures State() == FireOwed(old(State()), k)
    {
      var c := owed[k];
      owed := owed[..k] + owed[k + 1..];
      CloseConnection(peers[c]);
    }
  }
}
