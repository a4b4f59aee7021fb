/** The session service's registry: connections and rooms in lockstep, and the
    roster that every join and leave sends out. */
module Roster {
  import opened Options
  import opened Quizzes

  type Conn = int
  type Members = map<UserId, string>
  type Conns = map<UserId, Conn>

  /** inbox holds the last roster each connection was sent, closed the connections
      that the service itself has closed. */
  datatype State = State(
    connections: map<SessionId, Conns>,
    rooms: map<SessionId, Members>,
    inbox: map<Conn, Members>,
    closed: set<Conn>,
    nextConn: Conn)
  {
    function RegisterSession(sid: SessionId): State {
      if sid in connections then this
      else this.(connections := connections[sid := map[]], rooms := rooms[sid := map[]])
    }

    function UnregisterSession(sid: SessionId): State {
      this.(connections := connections - {sid}, rooms := rooms - {sid})
    }

    /** The connection is stored before the room is looked up. */
    function RegisterConnection(sid: SessionId, uid: UserId, name: string, conn: Conn): (State, bool) {
      if sid !in connections then (this, false)
      else
        var s := this.(connections := connections[sid := connections[sid][uid := conn]]);
        if sid !in rooms then (s, false)
        else (s.(rooms := rooms[sid := rooms[sid][uid := name]]), true)
    }

    /** The connection registered for a user, if any. */
    function Registered(sid: SessionId, uid: UserId): set<Conn> {
      if sid in connections && uid in connections[sid] then {connections[sid][uid]} else {}
    }

    /** The locked part of UnregisterConnection: whatever connection is registered
        for the user is closed and forgotten. */
    function RemoveConnection(sid: SessionId, uid: UserId): (State, bool) {
      var s := if sid in connections
               then this.(connections := connections[sid := connections[sid] - {uid}], closed := closed + Registered(sid, uid))
               else this;
      var t := if sid in rooms then s.(rooms := rooms[sid := rooms[sid] - {uid}]) else s;
      (t, sid in connections && sid in rooms)
    }

    function Roster(sid: SessionId): Members {
      Get(rooms, sid, map[])
    }

    /** Every connection of the session is sent the message. */
    function Broadcast(sid: SessionId, message: Members): State {
      var live := Get(connections, sid, map[]).Values;
      this.(inbox := inbox + map c | c in live :: message)
    }

    // ---- a join and a leave run on their own ----

    function Join(sid: SessionId, uid: UserId, name: string): State {
      var s := RegisterSession(sid).(nextConn := nextConn + 1).RegisterConnection(sid, uid, name, nextConn).0;
      s.Broadcast(sid, s.Roster(sid))
    }

    function Leave(sid: SessionId, uid: UserId): State {
      var (s, present) := RemoveConnection(sid, uid);
      if present then s.Broadcast(sid, s.Roster(sid)) else s
    }

    // ---- invariants ----

    /** The two maps name the same sessions and the same users in each. */
    ghost predicate Aligned() {
      && connections.Keys == rooms.Keys
      && forall sid :: sid in connections ==> connections[sid].Keys == rooms[sid].Keys
    }

    ghost predicate Separate() {
      && (forall sid, u :: sid in connections && u in connections[sid] ==> connections[sid][u] < nextConn)
      && (forall s, u, t, v :: s in connections && u in connections[s] && t in connections && v in connections[t] ==>
                                 connections[s][u] == connections[t][v] ==> s == t)
    }

    /** Every live connection has last been sent the current roster. */
    ghost predicate Informed() {
      forall sid, u :: sid in connections && u in connections[sid] ==>
                         Get(inbox, connections[sid][u], map[]) == Roster(sid)
    }
  }

  const EMPTY := State(map[], map[], map[], {}, 0)

  function Told(inbox: map<Conn, Members>, listing: seq<Conn>, message: Members): map<Conn, Members> {
    inbox + map c | c in listing :: message
  }

  lemma ToldOneMore(inbox: map<Conn, Members>, listing: seq<Conn>, i: nat, message: Members)
    requires i < |listing|
    ensures Told(inbox, listing[..i + 1], message) == Told(inbox, listing[..i], message)[listing[i] := message]
  {
    assert listing[..i + 1] == listing[..i] + [listing[i]];
  }

  // ---- the registry object ----

  class Registry {
    var connections: map<SessionId, Conns>
    var rooms: map<SessionId, Members>
    var inbox: map<Conn, Members>
    var closed: set<Conn>
    var nextConn: Conn

    ghost function View(): State
      reads this
    {
      State(connections, rooms, inbox, closed, nextConn)
    }

    constructor ()
      ensures View() == EMPTY
    {
      connections, rooms, inbox, closed, nextConn := map[], map[], map[], {}, 0;
    }

    method RegisterSession(sid: SessionId)
      modifies this
      ensures View() == old(View()).RegisterSession(sid)
    {
      if sid !in connections {
        connections := connections[sid := map[]];
        rooms := rooms[sid := map[]];
      }
    }

    method UnregisterSession(sid: SessionId)
      modifies this
      ensures View() == old(View()).UnregisterSession(sid)
    {
      connections := connections - {sid};
      rooms := rooms - {sid};
    }

    method RegisterConnection(sid: SessionId, uid: UserId, name: string, conn: Conn) returns (ok: bool)
      modifies this
      ensures (View(), ok) == old(View()).RegisterConnection(sid, uid, name, conn)
      ensures ok == (sid in old(connections) && sid in old(rooms))
    {
      if sid !in connections {
        return false;
      }
      connections := connections[sid := connections[sid][uid := conn]];
      if sid !in rooms {
        return false;
      }
      rooms := rooms[sid := rooms[sid][uid := name]];
      return true;
    }

    /** The loop that writes the roster to a snapshot of the connections, listed in
        whatever order Go visits the map. */
    method SendRoster(sid: SessionId, message: Members, listing: seq<Conn>)
      requires forall c :: c in listing <==> c in Get(connections, sid, map[]).Values
      modifies this`inbox
      ensures View() == old(View()).Broadcast(sid, message)
      ensures forall c :: c in inbox <==> c in old(inbox) || c in listing
      ensures forall c :: c in inbox ==> inbox[c] == if c in listing then message else old(inbox)[c]
    {
      ghost var before, live := inbox, Get(connections, sid, map[]).Values;
      assert forall c :: c in listing <==> c in live;
      for i := 0 to |listing|
        invariant inbox == Told(before, listing[..i], message)
      {
        ToldOneMore(before, listing, i, message);
        inbox := inbox[listing[i] := message];
      }
      assert listing[..|listing|] == listing;
      assert Told(before, listing, message) == before + map c | c in live :: message;
    }

    /** The websocket handler and the start of handleRead. */
    method Join(sid: SessionId, uid: UserId, name: string, listing: seq<Conn>)
      requires forall c :: c in listing <==> c in Get(connections, sid, map[])[uid := nextConn].Values
      requires View().Aligned()
      modifies this
      ensures View() == old(View()).Join(sid, uid, name)
    {
      var conn := nextConn;
      nextConn := nextConn + 1;
      RegisterSession(sid);
      var ok := RegisterConnection(sid, uid, name, conn);
      SendRoster(sid, Get(rooms, sid, map[]), listing);
    }

    /** UnregisterConnection and the broadcast of handleDelete. */
    method UnregisterConnection(sid: SessionId, uid: UserId, listing: seq<Conn>) returns (present: bool)
      requires forall c :: c in listing <==> c in (Get(connections, sid, map[]) - {uid}).Values
      modifies this
      ensures View() == old(View()).Leave(sid, uid)
      ensures present == (sid in old(connections) && sid in old(rooms))
    {
      present := sid in connections && sid in rooms;
      if sid in connections {
        if uid in connections[sid] {
          closed := closed + {connections[sid][uid]};
        }
        connections := connections[sid := connections[sid] - {uid}];
      }
      if sid in rooms {
        rooms := rooms[sid := rooms[sid] - {uid}];
      }
      if present {
        SendRoster(sid, Get(rooms, sid, map[]), listing);
      }
    }
  }

  // ---- joins and leaves one after another ----

  datatype Visit = Arrive(sid: SessionId, uid: UserId, name: string) | Depart(sid: SessionId, uid: UserId) | Close(sid: SessionId)

  function After(s: State, visits: seq<Visit>): State
    decreases |visits|
  {
    if visits == [] then s
    else
      var t := After(s, visits[..|visits| - 1]);
      match visits[|visits| - 1]
      case Arrive(sid, uid, name) => t.Join(sid, uid, name)
      case Depart(sid, uid) => t.Leave(sid, uid)
      case Close(sid) => t.UnregisterSession(sid)
  }

  ghost predicate Good(s: State) {
    s.Aligned() && s.Separate() && s.Informed()
  }

  /** Sending a session its roster informs it and disturbs no other. */
  lemma BroadcastInforms(s: State, sid: SessionId)
    requires s.Separate()
    requires forall o, u :: o != sid && o in s.connections && u in s.connections[o] ==>
                              Get(s.inbox, s.connections[o][u], map[]) == s.Roster(o)
    ensures s.Broadcast(sid, s.Roster(sid)).Informed()
  {
    var t := s.Broadcast(sid, s.Roster(sid));
    var live := Get(s.connections, sid, map[]).Values;
    forall o, u | o in t.connections && u in t.connections[o]
      ensures Get(t.inbox, t.connections[o][u], map[]) == t.Roster(o)
    {
      var c := s.connections[o][u];
      if c in live {
        var v :| v in s.connections[sid] && s.connections[sid][v] == c;
      } else {
        assert o != sid;
      }
    }
  }

  function Entered(s: State, sid: SessionId, uid: UserId, name: string): State {
    s.RegisterSession(sid).(nextConn := s.nextConn + 1).RegisterConnection(sid, uid, name, s.nextConn).0
  }

  lemma EnteredKnown(s: State, sid: SessionId, uid: UserId, name: string)
    requires sid in s.connections && sid in s.rooms
    ensures Entered(s, sid, uid, name) ==
              State(s.connections[sid := s.connections[sid][uid := s.nextConn]],
                    s.rooms[sid := s.rooms[sid][uid := name]], s.inbox, s.closed, s.nextConn + 1)
  {
  }

  lemma EnteredNew(s: State, sid: SessionId, uid: UserId, name: string)
    requires sid !in s.connections && sid !in s.rooms
    ensures Entered(s, sid, uid, name) ==
              State(s.connections[sid := map[uid := s.nextConn]], s.rooms[sid := map[uid := name]], s.inbox, s.closed, s.nextConn + 1)
  {
  }

  lemma EnteredMaps(s: State, sid: SessionId, uid: UserId, name: string)
    requires s.connections.Keys == s.rooms.Keys
    ensures Entered(s, sid, uid, name) ==
              State(s.connections[sid := Get(s.connections, sid, map[])[uid := s.nextConn]],
                    s.rooms[sid := s.Roster(sid)[uid := name]], s.inbox, s.closed, s.nextConn + 1)
  {
    hide Entered;
    if sid in s.connections {
      EnteredKnown(s, sid, uid, name);
    } else {
      EnteredNew(s, sid, uid, name);
    }
  }

  lemma EnteringKeepsSeparate(s: State, sid: SessionId, uid: UserId, name: string)
    requires s.connections.Keys == s.rooms.Keys && s.Separate()
    ensures Entered(s, sid, uid, name).Separate()
  {
    EnteredMaps(s, sid, uid, name);
    hide Entered;
  }

  lemma EnteringKeepsMaps(s: State, sid: SessionId, uid: UserId, name: string)
    requires s.Aligned() && s.Separate()
    ensures Entered(s, sid, uid, name).Aligned() && Entered(s, sid, uid, name).Separate()
    ensures Entered(s, sid, uid, name).Roster(sid) == s.Roster(sid)[uid := name]
  {
    hide Entered, State.Separate;
    EnteredMaps(s, sid, uid, name);
    EnteringKeepsSeparate(s, sid, uid, name);
  }

  lemma EnteringSparesOthers(s: State, sid: SessionId, uid: UserId, name: string, o: SessionId)
    requires s.Aligned() && o != sid
    ensures var t := Entered(s, sid, uid, name);
            && t.inbox == s.inbox && t.Roster(o) == s.Roster(o)
            && (o in t.connections <==> o in s.connections)
            && (o in t.connections ==> t.connections[o] == s.connections[o])
  {
  }

  lemma JoinIsGood(s: State, sid: SessionId, uid: UserId, name: string)
    requires Good(s)
    ensures Good(s.Join(sid, uid, name))
    ensures s.Join(sid, uid, name).Roster(sid) == s.Roster(sid)[uid := name]
  {
    var t := Entered(s, sid, uid, name);
    EnteringKeepsMaps(s, sid, uid, name);
    assert s.Join(sid, uid, name) == t.Broadcast(sid, t.Roster(sid));
    hide Entered, State.Join, State.Separate, State.Informed;
    OthersStayInformed(s, sid, uid, name);
    BroadcastInforms(t, sid);
    BroadcastKeepsMaps(t, sid, t.Roster(sid));
  }

  lemma OthersStayInformed(s: State, sid: SessionId, uid: UserId, name: string)
    requires s.Aligned() && s.Informed()
    ensures var t := Entered(s, sid, uid, name);
            forall o, u :: o != sid && o in t.connections && u in t.connections[o] ==>
                             Get(t.inbox, t.connections[o][u], map[]) == t.Roster(o)
  {
    hide Entered;
    forall o | o != sid {
      EnteringSparesOthers(s, sid, uid, name, o);
    }
  }

  lemma BroadcastKeepsMaps(t: State, sid: SessionId, message: Members)
    ensures var b := t.Broadcast(sid, message);
            && b.connections == t.connections && b.rooms == t.rooms
            && (t.Aligned() ==> b.Aligned()) && (t.Separate() ==> b.Separate())
  {
  }

  lemma RemovedMaps(s: State, sid: SessionId, uid: UserId)
    requires s.Aligned()
    ensures s.RemoveConnection(sid, uid).0 ==
            if sid !in s.connections then s
            else State(s.connections[sid := s.connections[sid] - {uid}], s.rooms[sid := s.rooms[sid] - {uid}], s.inbox,
                       s.closed + s.Registered(sid, uid), s.nextConn)
    ensures s.RemoveConnection(sid, uid).0.Aligned()
  {
  }

  lemma LeavingKeepsSeparate(s: State, sid: SessionId, uid: UserId)
    requires s.Aligned() && s.Separate()
    ensures s.RemoveConnection(sid, uid).0.Separate()
  {
    RemovedMaps(s, sid, uid);
    hide State.RemoveConnection, State.Aligned;
  }

  lemma LeavingSparesOthers(s: State, sid: SessionId, uid: UserId)
    requires s.Aligned()
    ensures var t := s.RemoveConnection(sid, uid).0;
            && t.inbox == s.inbox && t.Roster(sid) == s.Roster(sid) - {uid}
            && forall o :: o != sid ==> t.Roster(o) == s.Roster(o)
                                        && (o in t.connections <==> o in s.connections)
                                        && (o in t.connections ==> t.connections[o] == s.connections[o])
  {
    assert s.connections.Keys == s.rooms.Keys;
    RemovedMaps(s, sid, uid);
    hide State.RemoveConnection, State.Aligned;
  }

  lemma LeaveIsGood(s: State, sid: SessionId, uid: UserId)
    requires Good(s)
    ensures Good(s.Leave(sid, uid))
    ensures s.Leave(sid, uid).Roster(sid) == s.Roster(sid) - {uid}
  {
    LeavingKeepsSeparate(s, sid, uid);
    LeavingSparesOthers(s, sid, uid);
    RemovedMaps(s, sid, uid);
    var t := s.RemoveConnection(sid, uid).0;
    if sid in s.connections {
      assert s.Leave(sid, uid) == t.Broadcast(sid, t.Roster(sid));
      hide State.Leave, State.RemoveConnection, State.Aligned, State.Separate;
      BroadcastInforms(t, sid);
      BroadcastKeepsMaps(t, sid, t.Roster(sid));
    }
  }

  /** In a sequential run every live connection's last message is the roster. */
  lemma {:induction false} SequentialRunsInform(visits: seq<Visit>)
    ensures Good(After(EMPTY, visits))
    decreases |visits|
  {
    if visits != [] {
      var s := After(EMPTY, visits[..|visits| - 1]);
      SequentialRunsInform(visits[..|visits| - 1]);
      hide State.Join, State.Leave;
      match visits[|visits| - 1]
      case Arrive(sid, uid, name) => JoinIsGood(s, sid, uid, name);
      case Depart(sid, uid) => LeaveIsGood(s, sid, uid);
      case Close(sid) =>
    }
  }

  /** The name under which the user last arrived, unless the user has departed or
      the session was closed since. */
  function NameOf(visits: seq<Visit>, sid: SessionId, u: UserId): Option<string>
    decreases |visits|
  {
    if visits == [] then None
    else
      var last := visits[|visits| - 1];
      if last == Close(sid) || last == Depart(sid, u) then None
      else if last.Arrive? && last.sid == sid && last.uid == u then Some(last.name)
      else NameOf(visits[..|visits| - 1], sid, u)
  }

  ghost predicate Shows(s: State, sid: SessionId, u: UserId, name: Option<string>) {
    if u in s.Roster(sid) then name == Some(s.Roster(sid)[u]) else name == None
  }

  lemma JoinShows(s: State, o: SessionId, v: UserId, name: string, sid: SessionId, u: UserId, before: Option<string>)
    requires s.Aligned() && Shows(s, sid, u, before)
    ensures Shows(s.Join(o, v, name), sid, u, if o == sid && v == u then Some(name) else before)
  {
    EnteredMaps(s, o, v, name);
    var t := Entered(s, o, v, name);
    BroadcastKeepsMaps(t, o, t.Roster(o));
    assert s.Join(o, v, name) == t.Broadcast(o, t.Roster(o));
    hide State.Join, Entered, State.Broadcast;
  }

  lemma LeaveShows(s: State, o: SessionId, v: UserId, sid: SessionId, u: UserId, before: Option<string>)
    requires Shows(s, sid, u, before)
    ensures Shows(s.Leave(o, v), sid, u, if o == sid && v == u then None else before)
  {
    LeaveMaps(s, o, v);
    hide State.Leave;
  }

  /** The roster everybody has been sent is that of the visits: everybody who has
      arrived since the session was last closed and has not departed. */
  lemma {:induction false} RosterOfVisits(visits: seq<Visit>, sid: SessionId, u: UserId)
    ensures Shows(After(EMPTY, visits), sid, u, NameOf(visits, sid, u))
    decreases |visits|
  {
    if visits != [] {
      var init := visits[..|visits| - 1];
      var s := After(EMPTY, init);
      SequentialRunsInform(init);
      RosterOfVisits(init, sid, u);
      hide State.Join, State.Leave, State.Aligned;
      match visits[|visits| - 1]
      case Arrive(o, v, name) =>
        JoinShows(s, o, v, name, sid, u, NameOf(init, sid, u));
        hide Shows;
      case Depart(o, v) =>
        LeaveShows(s, o, v, sid, u, NameOf(init, sid, u));
        hide Shows;
      case Close(o) =>
    }
  }

  /** Unregistering a user again changes neither map and closes nothing. */
  lemma SecondLeaveChangesNothing(s: State, sid: SessionId, uid: UserId)
    ensures var t := s.Leave(sid, uid); var u := t.Leave(sid, uid);
            u.connections == t.connections && u.rooms == t.rooms && u.closed == t.closed
  {
    LeaveMaps(s, sid, uid);
    LeaveMaps(s.Leave(sid, uid), sid, uid);
    hide State.Leave;
    var t := s.Leave(sid, uid);
    if sid in s.connections {
      assert t.connections[sid] - {uid} == t.connections[sid];
    }
    if sid in s.rooms {
      assert t.rooms[sid] - {uid} == t.rooms[sid];
    }
  }

  lemma LeaveMaps(s: State, sid: SessionId, uid: UserId)
    ensures var t := s.Leave(sid, uid);
            && t.connections == (if sid in s.connections then s.connections[sid := s.connections[sid] - {uid}] else s.connections)
            && t.rooms == (if sid in s.rooms then s.rooms[sid := s.rooms[sid] - {uid}] else s.rooms)
            && t.closed == s.closed + s.Registered(sid, uid)
  {
  }
}
