/** The presence registry: two maps that must stay inverse, as a value and as a class. */
module Registry {
  import opened Messages

  datatype DeviceSession = DeviceSession(deviceId: string, sessionId: Option<string>, group: Option<string>)

  datatype Maps = Maps(devices: map<string, DeviceSession>, sessions: map<string, string>)

  const EMPTY := Maps(map[], map[])

  function WithoutSession(sessions: map<string, string>, s: Option<string>): map<string, string> {
    match s
    case None => sessions
    case Some(id) => sessions - {id}
  }

  function RegisterDevice(m: Maps, d: string, s: Option<string>, g: Option<string>): Maps {
    var kept := if d in m.devices then WithoutSession(m.sessions, m.devices[d].sessionId) else m.sessions;
    Maps(m.devices[d := DeviceSession(d, s, g)], if s.Some? then kept[s.value := d] else kept)
  }

  function UnregisterDevice(m: Maps, d: string, s: Option<string>): Maps {
    if d !in m.devices then m
    else if s.Some? && s != m.devices[d].sessionId then Maps(m.devices, m.sessions - {s.value})
    else Maps(m.devices - {d}, WithoutSession(m.sessions, m.devices[d].sessionId))
  }

  function DeviceOf(m: Maps, s: Option<string>): Option<string> {
    if s.Some? && s.value in m.sessions then Some(m.sessions[s.value]) else None
  }

  function GroupOf(m: Maps, d: string): Option<string> {
    if d in m.devices then m.devices[d].group else None
  }

  /** The registry's part of `handleDisconnect`. */
  function Disconnect(m: Maps, s: Option<string>): Maps {
    match DeviceOf(m, s)
    case None => m
    case Some(d) => UnregisterDevice(m, d, s)
  }

  // ----- The inverse-map invariant -------------------------------------------

  /** A session leads to a device that is registered with that very session. */
  ghost predicate Inverse(m: Maps) {
    && (forall d :: d in m.devices ==> m.devices[d].deviceId == d)
    && (forall s :: s in m.sessions ==>
          m.sessions[s] in m.devices && m.devices[m.sessions[s]].sessionId == Some(s))
  }

  /** The calls a client can make, with any arguments at all. */
  datatype Call =
    | Register(d: string, s: Option<string>, g: Option<string>)
    | Unregister(d: string, s: Option<string>)
    | Lost(s: Option<string>)

  function Do(m: Maps, c: Call): Maps {
    match c
    case Register(d, s, g) => RegisterDevice(m, d, s, g)
    case Unregister(d, s) => UnregisterDevice(m, d, s)
    case Lost(s) => Disconnect(m, s)
  }

  function Replay(m: Maps, calls: seq<Call>): Maps {
    if calls == [] then m else Do(Replay(m, calls[..|calls| - 1]), calls[|calls| - 1])
  }

  lemma DoKeepsInverse(m: Maps, c: Call)
    requires Inverse(m)
    ensures Inverse(Do(m, c))
  {
  }

  /** After any calls with any arguments the maps agree, so no two sessions lead to one device. */
  lemma {:induction false} InverseAlways(calls: seq<Call>)
    ensures var m := Replay(EMPTY, calls);
            && Inverse(m)
            && forall s, t :: s in m.sessions && t in m.sessions && m.sessions[s] == m.sessions[t] ==> s == t
  {
    if calls != [] {
      InverseAlways(calls[..|calls| - 1]);
      DoKeepsInverse(Replay(EMPTY, calls[..|calls| - 1]), calls[|calls| - 1]);
    }
  }

  /** A disconnect removes exactly the device now registered with that session, if the
      session is known; the stale branch of `unregisterDevice` is never taken for it. */
  lemma DisconnectIsExact(calls: seq<Call>, s: Option<string>)
    ensures var m := Replay(EMPTY, calls);
            var m' := Disconnect(m, s);
            match DeviceOf(m, s)
            case None => m' == m
            case Some(d) =>
              && d in m.devices && m.devices[d].sessionId == s
              && m'.devices == m.devices - {d} && m'.sessions == m.sessions - {s.value}
  {
    InverseAlways(calls);
  }

  /** Which entries `unregisterDevice` takes away: the device and its session if the session
      given is its own or none is, and only the session given otherwise. */
  lemma UnregisterExactly(m: Maps, d: string, s: Option<string>)
    requires Inverse(m)
    ensures var m' := UnregisterDevice(m, d, s);
            if d !in m.devices then m' == m
            else if s == None || s == m.devices[d].sessionId then
              && (forall e :: e in m'.devices <==> e in m.devices && e != d)
              && (forall t :: t in m'.sessions <==> t in m.sessions && m.devices[d].sessionId != Some(t))
            else
              && m'.devices == m.devices
              && (forall t :: t in m'.sessions <==> t in m.sessions && s != Some(t))
    ensures var m' := UnregisterDevice(m, d, s);
            && (forall e :: e in m'.devices ==> e in m.devices && m'.devices[e] == m.devices[e])
            && (forall t :: t in m'.sessions ==> t in m.sessions && m'.sessions[t] == m.sessions[t])
  {
  }

  // ----- The other half ------------------------------------------------------

  /** Every device with a session is found by it. */
  ghost predicate Converse(m: Maps) {
    forall d :: d in m.devices && m.devices[d].sessionId.Some? ==>
      DeviceOf(m, m.devices[d].sessionId) == Some(d)
  }

  /** No two devices are registered with one session. */
  ghost predicate NoShare(m: Maps) {
    forall d, e ::
      (d in m.devices && e in m.devices && m.devices[d].sessionId.Some?
       && m.devices[d].sessionId == m.devices[e].sessionId) ==> d == e
  }

  /** A registration does not take the session of another device, and an unregistration with
      a session other than the device's own does not name a session in use. */
  ghost predicate Clean(m: Maps, c: Call) {
    match c
    case Register(d, s, _) =>
      s.Some? ==> forall e :: e in m.devices && e != d ==> m.devices[e].sessionId != s
    case Unregister(d, s) =>
      d in m.devices && s.Some? && s != m.devices[d].sessionId ==> s.value !in m.sessions
    case Lost(_) => true
  }

  /** One call keeps every device findable exactly when it is clean. */
  lemma ConverseStep(m: Maps, c: Call)
    requires Inverse(m) && Converse(m)
    ensures Converse(Do(m, c)) <==> Clean(m, c)
  {
    match c {
      case Register(d, s, g) => RegisterConverse(m, d, s, g);
      case Unregister(d, s) => UnregisterConverse(m, d, s);
      case Lost(s) =>
    }
  }

  lemma RegisterConverse(m: Maps, d: string, s: Option<string>, g: Option<string>)
    requires Inverse(m) && Converse(m)
    ensures Converse(RegisterDevice(m, d, s, g)) <==> Clean(m, Register(d, s, g))
  {
    var m' := RegisterDevice(m, d, s, g);
    assert m'.devices == m.devices[d := DeviceSession(d, s, g)];
    if !Clean(m, Register(d, s, g)) {
      var e :| e in m.devices && e != d && m.devices[e].sessionId == s;
      assert e in m'.devices && DeviceOf(m', s) == Some(d);
    }
  }

  lemma UnregisterConverse(m: Maps, d: string, s: Option<string>)
    requires Inverse(m) && Converse(m)
    ensures Converse(UnregisterDevice(m, d, s)) <==> Clean(m, Unregister(d, s))
  {
    var m' := UnregisterDevice(m, d, s);
    if !Clean(m, Unregister(d, s)) {
      var e := m.sessions[s.value];
      assert e in m'.devices && m'.devices[e].sessionId == s;
    }
  }

  /** The state before call k, or after the last one. */
  function StateAt(log: seq<Call>, k: nat): Maps
    requires k <= |log|
  {
    Replay(EMPTY, log[..k])
  }

  lemma NextState(log: seq<Call>, k: nat)
    requires k < |log|
    ensures StateAt(log, k + 1) == Do(StateAt(log, k), log[k])
  {
    assert log[..k + 1][..k] == log[..k];
  }

  /** Over any calls with any arguments: every device is found by its session after each of
      them if and only if each of them is clean. */
  lemma ConverseExactly(log: seq<Call>)
    ensures (forall k :: 0 <= k <= |log| ==> Converse(StateAt(log, k)))
            <==> (forall k :: 0 <= k < |log| ==> Clean(StateAt(log, k), log[k]))
  {
    if forall k :: 0 <= k <= |log| ==> Converse(StateAt(log, k)) {
      forall k | 0 <= k < |log| ensures Clean(StateAt(log, k), log[k]) {
        NextState(log, k);
        InverseAlways(log[..k]);
        ConverseStep(StateAt(log, k), log[k]);
      }
    }
    if forall k :: 0 <= k < |log| ==> Clean(StateAt(log, k), log[k]) {
      forall k | 0 <= k <= |log| ensures Converse(StateAt(log, k)) {
        CleanRuns(log, k);
      }
    }
  }

  lemma {:induction false} CleanRuns(log: seq<Call>, k: nat)
    requires k <= |log| && forall i :: 0 <= i < |log| ==> Clean(StateAt(log, i), log[i])
    ensures Converse(StateAt(log, k))
  {
    if k > 0 {
      CleanRuns(log, k - 1);
      NextState(log, k - 1);
      InverseAlways(log[..k - 1]);
      ConverseStep(StateAt(log, k - 1), log[k - 1]);
    }
  }

  /** Registrations and disconnects alone keep it exactly as long as no two devices share a
      session. */
  lemma SharingBreaksConverse(log: seq<Call>)
    requires Handled(log)
    ensures (forall k :: 0 <= k <= |log| ==> Converse(StateAt(log, k)))
            <==> (forall k :: 0 <= k <= |log| ==> NoShare(StateAt(log, k)))
  {
    if forall k :: 0 <= k <= |log| ==> NoShare(StateAt(log, k)) {
      forall k | 0 <= k <= |log| ensures Converse(StateAt(log, k)) {
        NoShareRuns(log, k);
      }
    }
  }

  lemma {:induction false} NoShareRuns(log: seq<Call>, k: nat)
    requires Handled(log) && k <= |log| && forall i :: 0 <= i <= |log| ==> NoShare(StateAt(log, i))
    ensures Converse(StateAt(log, k))
  {
    if k > 0 {
      NoShareRuns(log, k - 1);
      NextState(log, k - 1);
      InverseAlways(log[..k - 1]);
      assert log[k - 1] in log;
      UnsharedIsClean(StateAt(log, k - 1), log[k - 1]);
      ConverseStep(StateAt(log, k - 1), log[k - 1]);
    }
  }

  lemma UnsharedIsClean(m: Maps, c: Call)
    requires !c.Unregister? && NoShare(Do(m, c))
    ensures Clean(m, c)
  {
    if c.Register? {
      var m' := Do(m, c);
      assert c.d in m'.devices && m'.devices[c.d].sessionId == c.s;
      forall e | e in m.devices && e != c.d && c.s.Some? ensures m.devices[e].sessionId != c.s {
        assert m'.devices[e] == m.devices[e];
      }
    }
  }

  /** A direct call of `unregisterDevice` can do it with no session shared: a stale session that
      is another device's own takes that device's entry away. */
  lemma StaleUnregisterHidesAnother(d: string, e: string, s: string, t: string, g: Option<string>)
    requires d != e && s != t
    ensures var m := Replay(EMPTY, [Register(d, Some(s), g), Register(e, Some(t), g), Unregister(d, Some(t))]);
            && NoShare(m) && e in m.devices && m.devices[e].sessionId == Some(t) && DeviceOf(m, Some(t)) == None
  {
    var a, b, c := Register(d, Some(s), g), Register(e, Some(t), g), Unregister(d, Some(t));
    assert [a, b, c][..2] == [a, b] && [a, b][..1] == [a] && [a][..0] == [];
    assert Replay(EMPTY, [a]) == Do(EMPTY, a);
    assert Replay(EMPTY, [a, b]) == Do(Do(EMPTY, a), b);
  }

  // ----- The registry as a replay of its log ---------------------------------

  ghost predicate Handled(log: seq<Call>) {
    forall c :: c in log ==> !c.Unregister?
  }

  /** Call i is the last registration of d and its session has not been lost since. */
  ghost predicate Current(log: seq<Call>, i: int, d: string) {
    && 0 <= i < |log| && log[i].Register? && log[i].d == d
    && (forall j :: i < j < |log| ==> !(log[j].Register? && log[j].d == d))
    && (forall j :: i < j < |log| ==> !(log[j].Lost? && log[j].s == log[i].s && log[i].s.Some?))
  }

  ghost predicate Listed(log: seq<Call>, d: string, s: Option<string>, g: Option<string>) {
    exists i :: Current(log, i, d) && log[i].s == s && log[i].g == g
  }

  /** The registry says of every device what the log says, and finds it by its session. */
  ghost predicate Follows(log: seq<Call>, m: Maps) {
    && Inverse(m) && Converse(m)
    && (forall d :: d in m.devices ==> Listed(log, d, m.devices[d].sessionId, m.devices[d].group))
    && (forall d, s, g :: Listed(log, d, s, g) ==> d in m.devices && m.devices[d] == DeviceSession(d, s, g))
  }

  /** What the last call does to what the log says. */
  lemma ListedRegister(log: seq<Call>, c: Call)
    requires c.Register?
    ensures Listed(log + [c], c.d, c.s, c.g)
    ensures forall s, g :: Listed(log + [c], c.d, s, g) ==> s == c.s && g == c.g
    ensures forall d, s, g :: d != c.d ==> (Listed(log + [c], d, s, g) <==> Listed(log, d, s, g))
  {
    var log' := log + [c];
    assert log'[|log|] == c && Current(log', |log|, c.d);
    OnlyOneCurrent(log', c.d);
    forall d, s, g | d != c.d ensures Listed(log', d, s, g) <==> Listed(log, d, s, g) {
      CurrentKept(log, c, d);
      if i :| Current(log, i, d) && log[i].s == s && log[i].g == g {
        assert Current(log', i, d);
      }
      if i :| Current(log', i, d) && log'[i].s == s && log'[i].g == g {
        assert Current(log, i, d);
      }
    }
  }

  lemma CurrentKept(log: seq<Call>, c: Call, d: string)
    requires !(c.Register? && c.d == d)
    ensures forall i {:trigger Current(log, i, d)} {:trigger Current(log + [c], i, d)} ::
              Current(log + [c], i, d) <==>
              Current(log, i, d) && !(c.Lost? && c.s == log[i].s && c.s.Some?)
  {
    var log' := log + [c];
    forall i ensures Current(log', i, d) <==>
                     Current(log, i, d) && !(c.Lost? && c.s == log[i].s && c.s.Some?)
    {
      if Current(log', i, d) {
        assert i != |log|;
        forall j | i < j < |log| ensures log[j] == log'[j] {
        }
        assert log'[|log|] == c;
      }
    }
  }

  lemma ListedLost(log: seq<Call>, c: Call)
    requires c.Lost?
    ensures forall d, s, g :: Listed(log + [c], d, s, g) <==> Listed(log, d, s, g) && !(c.s == s && s.Some?)
  {
    forall d, s, g ensures Listed(log + [c], d, s, g) <==> Listed(log, d, s, g) && !(c.s == s && s.Some?) {
      CurrentKept(log, c, d);
      if i :| Current(log, i, d) && log[i].s == s && log[i].g == g {
        assert !(c.s == s && s.Some?) ==> Current(log + [c], i, d);
        OnlyOneCurrent(log, d);
      }
      if i :| Current(log + [c], i, d) && (log + [c])[i].s == s && (log + [c])[i].g == g {
        assert Current(log, i, d);
      }
    }
  }

  lemma OnlyOneCurrent(log: seq<Call>, d: string)
    ensures forall i, j :: Current(log, i, d) && Current(log, j, d) ==> i == j
  {
  }

  lemma RegisterFollows(log: seq<Call>, c: Call, m: Maps)
    requires c.Register? && Follows(log, m) && Clean(m, c)
    ensures Follows(log + [c], Do(m, c))
  {
    ListedRegister(log, c);
    DoKeepsInverse(m, c);
    ConverseStep(m, c);
    assert Do(m, c).devices == m.devices[c.d := DeviceSession(c.d, c.s, c.g)];
  }

  lemma LostFollows(log: seq<Call>, c: Call, m: Maps)
    requires c.Lost? && Follows(log, m)
    ensures Follows(log + [c], Do(m, c))
  {
    ListedLost(log, c);
    DoKeepsInverse(m, c);
    ConverseStep(m, c);
    LostDevices(m, c.s);
  }

  /** With every device findable, a disconnect removes exactly those of its session. */
  lemma LostDevices(m: Maps, s: Option<string>)
    requires Inverse(m) && Converse(m)
    ensures var m' := Disconnect(m, s);
            forall d :: (d in m'.devices <==> d in m.devices && !(s.Some? && m.devices[d].sessionId == s)) &&
                        (d in m'.devices ==> m'.devices[d] == m.devices[d])
  {
  }

  /** Over any run of registrations and disconnects, the registry lists a device with session s
      in group g exactly when that was its latest registration and s has not disconnected since,
      and finds it by s, after every event, if and only if no session in use by one device is
      registered for another. */
  lemma RegistryFollowsExactly(log: seq<Call>)
    requires Handled(log)
    ensures (forall k :: 0 <= k <= |log| ==> Follows(log[..k], StateAt(log, k)))
            <==> (forall k :: 0 <= k < |log| ==> Clean(StateAt(log, k), log[k]))
  {
    if forall k :: 0 <= k <= |log| ==> Follows(log[..k], StateAt(log, k)) {
      forall k | 0 <= k <= |log| ensures Converse(StateAt(log, k)) {
        assert Follows(log[..k], StateAt(log, k));
      }
      ConverseExactly(log);
    }
    if forall k :: 0 <= k < |log| ==> Clean(StateAt(log, k), log[k]) {
      forall k | 0 <= k <= |log| ensures Follows(log[..k], StateAt(log, k)) {
        CleanFollows(log, k);
      }
    }
  }

  lemma {:induction false} CleanFollows(log: seq<Call>, k: nat)
    requires Handled(log) && k <= |log|
    requires forall i :: 0 <= i < |log| ==> Clean(StateAt(log, i), log[i])
    ensures Follows(log[..k], StateAt(log, k))
  {
    if k > 0 {
      CleanFollows(log, k - 1);
      NextState(log, k - 1);
      FollowOn(log[..k - 1], log[k - 1], StateAt(log, k - 1));
      assert log[..k] == log[..k - 1] + [log[k - 1]];
      assert log[k - 1] in log;
    } else {
      assert log[..0] == [];
    }
  }

  lemma FollowOn(log: seq<Call>, c: Call, m: Maps)
    requires Follows(log, m) && Clean(m, c)
    ensures c.Unregister? || Follows(log + [c], Do(m, c))
  {
    if c.Register? {
      RegisterFollows(log, c, m);
    } else if c.Lost? {
      LostFollows(log, c, m);
    }
  }

  predicate SharesSession(c: Call, e: Call) {
    c.Register? && e.Register? && c.s.Some? && c.s == e.s
  }

  /** No session ever registers two device ids. */
  ghost predicate OneDevicePerSession(log: seq<Call>) {
    forall i, j | 0 <= i < |log| && 0 <= j < |log| ::
      SharesSession(log[i], log[j]) ==> log[i].d == log[j].d
  }

  /** In particular it does when each session registers one device id only. */
  lemma {:induction false} RegistryRefinesLog(log: seq<Call>)
    requires Handled(log) && OneDevicePerSession(log)
    ensures Follows(log, Replay(EMPTY, log))
  {
    if log != [] {
      var front, c := log[..|log| - 1], log[|log| - 1];
      assert log == front + [c];
      assert forall i :: 0 <= i < |front| ==> front[i] == log[i];
      RegistryRefinesLog(front);
      assert c in log;
      OneDeviceIsClean(front, c, Replay(EMPTY, front));
      FollowOn(front, c, Replay(EMPTY, front));
    }
  }

  lemma OneDeviceIsClean(log: seq<Call>, c: Call, m: Maps)
    requires !c.Unregister? && Follows(log, m) && OneDevicePerSession(log + [c])
    ensures Clean(m, c)
  {
    if c.Register? && c.s.Some? {
      forall e | e in m.devices && e != c.d ensures m.devices[e].sessionId != c.s {
        var log' := log + [c];
        var i :| Current(log, i, e) && log[i].s == m.devices[e].sessionId && log[i].g == m.devices[e].group;
        assert log'[i] == log[i] && log'[|log|] == c;
        assert !SharesSession(log'[i], log'[|log|]);
      }
    }
  }

  /** The hypothesis is needed: when one session registers two ids, whatever came before, its
      disconnect leaves the first one listed although the log says it is gone. */
  lemma SharedSessionLeavesGhost(log: seq<Call>, d: string, e: string, s: string, g: Option<string>)
    requires d != e
    ensures var log' := log + [Register(d, Some(s), g), Register(e, Some(s), g), Lost(Some(s))];
            && d in Replay(EMPTY, log').devices
            && Replay(EMPTY, log').devices[d] == DeviceSession(d, Some(s), g)
            && !Listed(log', d, Some(s), g)
  {
    var a := log + [Register(d, Some(s), g)];
    var b := a + [Register(e, Some(s), g)];
    var c := b + [Lost(Some(s))];
    assert log + [Register(d, Some(s), g), Register(e, Some(s), g), Lost(Some(s))] == c;
    assert a[..|log|] == log && b[..|a|] == a && c[..|b|] == b;
    var m := Replay(EMPTY, log);
    assert Replay(EMPTY, a) == Do(m, Register(d, Some(s), g));
    assert Replay(EMPTY, b) == Do(Replay(EMPTY, a), Register(e, Some(s), g));
    assert Replay(EMPTY, c) == Do(Replay(EMPTY, b), Lost(Some(s)));
    ListedLost(b, Lost(Some(s)));
  }
}
