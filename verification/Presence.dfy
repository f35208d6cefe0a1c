/** The device lists pushed to the clients, and the registry's class. */
module Presence {
  import opened Messages
  import opened Registry

  /** The registry and, per device, the list last pushed to its topic. */
  datatype Server = Server(maps: Maps, inbox: map<string, seq<string>>)

  ghost predicate NoDuplicates(list: seq<string>) {
    forall i, j :: 0 <= i < j < |list| ==> list[i] != list[j]
  }

  /** The list names every member of the group, once. */
  ghost predicate IsListing(list: seq<string>, m: Maps, g: string) {
    && NoDuplicates(list)
    && forall d :: d in list <==> d in m.devices && m.devices[d].group == Some(g)
  }

  function Push(inbox: map<string, seq<string>>, topics: seq<string>, list: seq<string>): map<string, seq<string>> {
    if topics == [] then inbox else Push(inbox, topics[..|topics| - 1], list)[topics[|topics| - 1] := list]
  }

  lemma {:induction false} Pushed(inbox: map<string, seq<string>>, topics: seq<string>, list: seq<string>)
    ensures forall d :: d in topics ==> d in Push(inbox, topics, list) && Push(inbox, topics, list)[d] == list
    ensures forall d :: d !in topics ==>
              (d in Push(inbox, topics, list) <==> d in inbox) &&
              (d in inbox ==> Push(inbox, topics, list)[d] == inbox[d])
  {
    if topics != [] {
      Pushed(inbox, topics[..|topics| - 1], list);
    }
  }

  /** `register`, once its checks pass, with the list it reads back. */
  ghost predicate Registers(w: Server, d: string, s: Option<string>, g: string, w': Server) {
    exists list ::
      && w'.maps == RegisterDevice(w.maps, d, s, Some(g))
      && IsListing(list, w'.maps, g)
      && w'.inbox == Push(w.inbox, list, list)
  }

  /** `handleDisconnect`. */
  ghost predicate Disconnects(w: Server, s: string, w': Server) {
    match DeviceOf(w.maps, Some(s))
    case None => w' == w
    case Some(d) =>
      w'.maps == UnregisterDevice(w.maps, d, Some(s)) &&
      match GroupOf(w.maps, d)
      case None => w'.inbox == w.inbox
      case Some(g) => exists list :: IsListing(list, w'.maps, g) && w'.inbox == Push(w.inbox, list, list)
  }

  /** Every device is in a group, as `register` sees to, and has the current list of it. */
  ghost predicate Coherent(w: Server) {
    && Inverse(w.maps)
    && forall d :: d in w.maps.devices ==>
         && w.maps.devices[d].group.Some?
         && d in w.inbox
         && IsListing(w.inbox[d], w.maps, w.maps.devices[d].group.value)
  }

  /** The registration takes no device away from another one's list. */
  ghost predicate LeavesNobody(m: Maps, d: string, g: string) {
    || d !in m.devices
    || m.devices[d].group == Some(g)
    || forall e :: e in m.devices && e != d ==> m.devices[e].group != m.devices[d].group
  }

  /** Lists stay up to date exactly when a re-registration keeps its group or leaves an
      otherwise empty one: the group left behind is not told. */
  lemma RegisterCoherentExactly(w: Server, d: string, s: Option<string>, g: string, w': Server)
    requires Coherent(w) && Registers(w, d, s, g, w')
    ensures Coherent(w') <==> LeavesNobody(w.maps, d, g)
  {
    DoKeepsInverse(w.maps, Register(d, s, Some(g)));
    var list :| w'.maps == RegisterDevice(w.maps, d, s, Some(g)) && IsListing(list, w'.maps, g) &&
                w'.inbox == Push(w.inbox, list, list);
    Pushed(w.inbox, list, list);
    assert w'.maps.devices == w.maps.devices[d := DeviceSession(d, s, Some(g))];
    if LeavesNobody(w.maps, d, g) {
      KeptLists(w, d, g, w', list);
    } else {
      StaleList(w, d, g, w', list);
    }
  }

  /** What a registration does to devices and inboxes. */
  ghost predicate Moved(w: Server, d: string, g: string, w': Server, list: seq<string>) {
    && d in w'.maps.devices && w'.maps.devices[d].group == Some(g)
    && (forall e :: e != d ==> (e in w'.maps.devices <==> e in w.maps.devices))
    && (forall e :: e != d && e in w.maps.devices ==> w'.maps.devices[e] == w.maps.devices[e])
    && IsListing(list, w'.maps, g)
    && (forall e :: e in list ==> e in w'.inbox && w'.inbox[e] == list)
    && (forall e :: e !in list && e in w.inbox ==> e in w'.inbox && w'.inbox[e] == w.inbox[e])
  }

  lemma KeptLists(w: Server, d: string, g: string, w': Server, list: seq<string>)
    requires Coherent(w) && Inverse(w'.maps) && Moved(w, d, g, w', list) && LeavesNobody(w.maps, d, g)
    ensures Coherent(w')
  {
    forall e | e in w'.maps.devices
      ensures w'.maps.devices[e].group.Some? && e in w'.inbox
      ensures IsListing(w'.inbox[e], w'.maps, w'.maps.devices[e].group.value)
    {
      if e !in list {
        assert e != d && IsListing(w.inbox[e], w.maps, w.maps.devices[e].group.value);
      }
    }
  }

  lemma StaleList(w: Server, d: string, g: string, w': Server, list: seq<string>)
    requires Coherent(w) && Moved(w, d, g, w', list) && !LeavesNobody(w.maps, d, g)
    ensures !Coherent(w')
  {
    var e :| e in w.maps.devices && e != d && w.maps.devices[e].group == w.maps.devices[d].group;
    assert IsListing(w.inbox[e], w.maps, w.maps.devices[e].group.value);
    assert d in w.inbox[e] && e !in list && w'.inbox[e] == w.inbox[e];
  }

  /** A disconnect always leaves the lists up to date. */
  lemma DisconnectCoherent(w: Server, s: string, w': Server)
    requires Coherent(w) && Disconnects(w, s, w')
    ensures Coherent(w')
  {
    DoKeepsInverse(w.maps, Lost(Some(s)));
    match DeviceOf(w.maps, Some(s)) {
      case None =>
      case Some(d) =>
        var g := w.maps.devices[d].group.value;
        var list :| IsListing(list, w'.maps, g) && w'.inbox == Push(w.inbox, list, list);
        Pushed(w.inbox, list, list);
        assert w'.maps.devices == w.maps.devices - {d};
        forall e | e in w'.maps.devices
          ensures e in w'.inbox && IsListing(w'.inbox[e], w'.maps, w'.maps.devices[e].group.value)
        {
          if e !in list {
            assert IsListing(w.inbox[e], w.maps, w.maps.devices[e].group.value);
          }
        }
    }
  }

  // ----- Whole runs ----------------------------------------------------------

  datatype Event = Joins(d: string, s: Option<string>, g: string) | Leaves(session: string)

  /** A run: the server before each event and after the last. */
  ghost predicate Run(states: seq<Server>, events: seq<Event>) {
    && |states| == |events| + 1
    && forall i :: 0 <= i < |events| ==>
         match events[i]
         case Joins(d, s, g) => Registers(states[i], d, s, g, states[i + 1])
         case Leaves(s) => Disconnects(states[i], s, states[i + 1])
  }

  /** When re-registrations keep their group, every online device's list is current after
      every event of every run. */
  lemma {:induction false} ListsStayCurrent(states: seq<Server>, events: seq<Event>, n: nat)
    requires Run(states, events) && n <= |events| && Coherent(states[0])
    requires forall i :: 0 <= i < |events| && events[i].Joins? ==>
               LeavesNobody(states[i].maps, events[i].d, events[i].g)
    ensures Coherent(states[n])
  {
    if n > 0 {
      ListsStayCurrent(states, events, n - 1);
      match events[n - 1] {
        case Joins(d, s, g) => RegisterCoherentExactly(states[n - 1], d, s, g, states[n]);
        case Leaves(s) => DisconnectCoherent(states[n - 1], s, states[n]);
      }
    }
  }

  /** Two online devices see the same members exactly when they are in the same group, and
      otherwise have no member in common. */
  lemma GroupsPartition(w: Server, d: string, e: string)
    requires Coherent(w) && d in w.maps.devices && e in w.maps.devices
    ensures d in w.inbox[d]
    ensures e in w.inbox[d] <==> w.maps.devices[d].group == w.maps.devices[e].group
    ensures if w.maps.devices[d].group == w.maps.devices[e].group
            then forall x :: x in w.inbox[d] <==> x in w.inbox[e]
            else forall x :: !(x in w.inbox[d] && x in w.inbox[e])
  {
  }

  lemma {:induction false} ListingExists(m: Maps, g: string, names: set<string>) returns (list: seq<string>)
    ensures NoDuplicates(list)
    ensures forall d :: d in list <==> d in names && d in m.devices && m.devices[d].group == Some(g)
    decreases names
  {
    if names == {} {
      list := [];
    } else {
      var d :| d in names;
      list := ListingExists(m, g, names - {d});
      if d in m.devices && m.devices[d].group == Some(g) {
        list := list + [d];
      }
    }
  }

  /** A registration can always be carried out, and keeps the lists current if it leaves nobody. */
  lemma Registered(w: Server, d: string, s: Option<string>, g: string) returns (w': Server)
    requires Coherent(w)
    ensures Registers(w, d, s, g, w') && (Coherent(w') <==> LeavesNobody(w.maps, d, g))
    ensures w'.maps.devices == w.maps.devices[d := DeviceSession(d, s, Some(g))]
  {
    var maps := RegisterDevice(w.maps, d, s, Some(g));
    var list := ListingExists(maps, g, maps.devices.Keys);
    assert IsListing(list, maps, g);
    w' := Server(maps, Push(w.inbox, list, list));
    RegisterCoherentExactly(w, d, s, g, w');
  }

  /** The hypothesis is needed: a device that moves to another group stays on the list of the
      one it left behind. */
  lemma MoveGoesUnnoticed(d: string, e: string, s: Option<string>, t: Option<string>, g: string, h: string)
    returns (w1: Server, w2: Server, w3: Server)
    requires d != e && g != h
    ensures Registers(Server(EMPTY, map[]), d, s, g, w1) && Registers(w1, e, t, g, w2)
    ensures Registers(w2, d, s, h, w3)
    ensures Coherent(w2) && !Coherent(w3)
    ensures d in w3.maps.devices && w3.maps.devices[d].group == Some(h)
    ensures e in w3.maps.devices && w3.maps.devices[e].group == Some(g)
    ensures e in w3.inbox && d in w3.inbox[e]
  {
    w1 := Registered(Server(EMPTY, map[]), d, s, g);
    w2 := Registered(w1, e, t, g);
    w3 := Registered(w2, d, s, h);
    StillListed(w2, d, s, h, w3, e);
  }

  /** A registration in group h does not touch the list of a device in another group. */
  lemma StillListed(w: Server, d: string, s: Option<string>, h: string, w': Server, e: string)
    requires Coherent(w) && Registers(w, d, s, h, w')
    requires d in w.maps.devices && e in w.maps.devices && e != d
    requires w.maps.devices[e].group == w.maps.devices[d].group != Some(h)
    ensures e in w'.inbox && w'.inbox[e] == w.inbox[e] && d in w'.inbox[e]
  {
    var list :| w'.maps == RegisterDevice(w.maps, d, s, Some(h)) && IsListing(list, w'.maps, h) &&
                w'.inbox == Push(w.inbox, list, list);
    Pushed(w.inbox, list, list);
    assert IsListing(w.inbox[e], w.maps, w.maps.devices[e].group.value);
  }

  // ----- The classes ---------------------------------------------------------

  class DeviceService {
    var devices: map<string, DeviceSession>
    var sessionToDevice: map<string, string>

    function State(): Maps
      reads this
    {
      Maps(devices, sessionToDevice)
    }

    constructor ()
      ensures State() == EMPTY
    {
      devices, sessionToDevice := map[], map[];
    }

    method RegisterDevice(deviceId: string, sessionId: Option<string>, group: Option<string>)
      modifies this
      ensures State() == Registry.RegisterDevice(old(State()), deviceId, sessionId, group)
    {
      if deviceId in devices && devices[deviceId].sessionId.Some? {
        sessionToDevice := sessionToDevice - {devices[deviceId].sessionId.value};
      }
      devices := devices[deviceId := DeviceSession(deviceId, sessionId, group)];
      if sessionId.Some? {
        sessionToDevice := sessionToDevice[sessionId.value := deviceId];
      }
    }

    method UnregisterDevice(deviceId: string, sessionId: Option<string>)
      modifies this
      ensures State() == Registry.UnregisterDevice(old(State()), deviceId, sessionId)
    {
      if deviceId !in devices {
        return;
      }
      var session := devices[deviceId];
      if sessionId.Some? && sessionId != session.sessionId {
        sessionToDevice := sessionToDevice - {sessionId.value};
        return;
      }
      devices := devices - {deviceId};
      if session.sessionId.Some? {
        sessionToDevice := sessionToDevice - {session.sessionId.value};
      }
    }

    /** The members in whatever order the map yields them. */
    method GetActiveDevicesInGroup(group: Option<string>) returns (list: seq<string>)
      ensures if group.None? then list == [] else IsListing(list, State(), group.value)
    {
      list := [];
      if group.None? {
        return;
      }
      var rest := devices.Keys;
      while rest != {}
        invariant rest <= devices.Keys
        invariant NoDuplicates(list)
        invariant forall d :: d in list <==> d in devices && d !in rest && devices[d].group == group
        decreases rest
      {
        var d :| d in rest;
        rest := rest - {d};
        if devices[d].group == group {
          list := list + [d];
        }
      }
    }

    method GetDeviceIdBySessionId(sessionId: Option<string>) returns (deviceId: Option<string>)
      ensures deviceId == DeviceOf(State(), sessionId)
    {
      if sessionId.None? || sessionId.value !in sessionToDevice {
        return None;
      }
      deviceId := Some(sessionToDevice[sessionId.value]);
    }

    method GetGroup(deviceId: string) returns (group: Option<string>)
      ensures group == GroupOf(State(), deviceId)
    {
      group := if deviceId in devices then devices[deviceId].group else None;
    }
  }

  /** `Character.isWhitespace`, all of it in the basic plane. */
  predicate IsWhitespace(c: char) {
    var u := c as int;
    || 0x09 <= u <= 0x0D || 0x1C <= u <= 0x20 || u == 0x1680
    || (0x2000 <= u <= 0x200A && u != 0x2007)
    || u == 0x2028 || u == 0x2029 || u == 0x205F || u == 0x3000
  }

  /** `String.isBlank`. */
  predicate IsBlank(text: string) {
    forall c :: c in text ==> IsWhitespace(c)
  }

  /** The 25 white-space characters, one by one. */
  lemma WhiteSpaceExactly(c: char)
    ensures IsWhitespace(c) <==>
            c as int in {9, 10, 11, 12, 13, 28, 29, 30, 31, 32, 5760, 8192, 8193, 8194, 8195, 8196, 8197, 8198,
                         8200, 8201, 8202, 8232, 8233, 8287, 12288}
  {
  }

  /** `WebSocketController` and `WebSocketEventListener` on one service. */
  class Handlers {
    const service: DeviceService
    var inbox: map<string, seq<string>>

    function State(): Server
      reads this, service
    {
      Server(service.State(), inbox)
    }

    constructor ()
      ensures State() == Server(EMPTY, map[]) && fresh(service)
    {
      service := new DeviceService();
      inbox := map[];
    }

    method BroadcastList(group: string) returns (list: seq<string>)
      modifies this
      ensures IsListing(list, service.State(), group) && service.State() == old(service.State())
      ensures inbox == Push(old(inbox), list, list)
    {
      list := service.GetActiveDevicesInGroup(Some(group));
      for i := 0 to |list|
        invariant inbox == Push(old(inbox), list[..i], list)
        invariant service.State() == old(service.State())
      {
        assert list[..i + 1][..i] == list[..i];
        inbox := inbox[list[i] := list];
      }
      assert list[..|list|] == list;
    }

    /** `register`: dropped without a device id or a network group. */
    method Register(deviceId: Option<string>, sessionId: Option<string>, group: Option<string>)
      modifies this, service
      ensures if deviceId.None? || IsBlank(deviceId.value) || group.None? then State() == old(State())
              else Registers(old(State()), deviceId.value, sessionId, group.value, State())
      ensures deviceId.Some? && group.Some? && (exists c :: c in deviceId.value && '!' <= c <= '~') ==>
                Registers(old(State()), deviceId.value, sessionId, group.value, State())
      ensures deviceId.Some? && (forall c :: c in deviceId.value ==> c in " \t\n\r") ==> State() == old(State())
      ensures deviceId.None? || group.None? ==> State() == old(State())
    {
      if deviceId.None? || IsBlank(deviceId.value) || group.None? {
        return;
      }
      service.RegisterDevice(deviceId.value, sessionId, group);
      var list := BroadcastList(group.value);
      assert IsListing(list, State().maps, group.value);
    }

    method HandleDisconnect(sessionId: string)
      modifies this, service
      ensures Disconnects(old(State()), sessionId, State())
    {
      var deviceId := service.GetDeviceIdBySessionId(Some(sessionId));
      if deviceId.None? {
        return;
      }
      var group := service.GetGroup(deviceId.value);
      service.UnregisterDevice(deviceId.value, Some(sessionId));
      if group.Some? {
        var list := BroadcastList(group.value);
        assert IsListing(list, State().maps, group.value);
      }
    }
  }
}
