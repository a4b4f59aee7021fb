/** Broadcasts to a session: which rooms they serve rightly, whatever order the
    connections are listed in, and which rooms a run can come to. */
module LiveQuizBroadcasts {
  import opened Quizzes
  import opened Connections
  import opened LiveQuiz
  import opened LiveQuizRooms

  function AdminsOf(room: Room): set<UserId> {
    set u | u in room && room[u].Admin?
  }

  /** The connections of a room, in the order Go happens to visit the map. */
  ghost predicate ListsRoom(listing: seq<Connection>, room: Room) {
    && (forall i, j :: 0 <= i < j < |listing| ==> listing[i].userId != listing[j].userId)
    && (forall c :: c in listing ==> c.userId in room && room[c.userId] == c.role)
    && (forall u :: u in room ==> Connection(u, room[u]) in listing)
  }

  lemma RestLists(listing: seq<Connection>, room: Room)
    requires ListsRoom(listing, room) && listing != []
    ensures listing[0].userId in room && room[listing[0].userId] == listing[0].role
    ensures ListsRoom(listing[1..], room - {listing[0].userId})
  {
    var rest, smaller := listing[1..], room - {listing[0].userId};
    assert listing[0] in listing;
    forall u | u in smaller ensures Connection(u, smaller[u]) in rest {
      assert Connection(u, room[u]) in listing;
    }
    forall c | c in rest ensures c.userId in smaller && smaller[c.userId] == c.role {
      assert c in listing;
    }
  }

  lemma AdminsWithout(room: Room, u: UserId)
    requires u in room
    ensures |AdminsOf(room)| == |AdminsOf(room - {u})| + if room[u].Admin? then 1 else 0
  {
    var rest := AdminsOf(room - {u});
    assert u !in rest;
    assert AdminsOf(room) == if room[u].Admin? then rest + {u} else rest;
  }

  lemma EmptyRoom(room: Room)
    requires ListsRoom([], room)
    ensures AdminsOf(room) == {}
  {
  }

  lemma {:induction false} ListedAdmins(listing: seq<Connection>, room: Room)
    requires ListsRoom(listing, room)
    ensures Admins(listing) == |AdminsOf(room)|
    decreases |listing|
  {
    if listing == [] {
      EmptyRoom(room);
    } else {
      RestLists(listing, room);
      hide ListsRoom, AdminsOf;
      ListedAdmins(listing[1..], room - {listing[0].userId});
      AdminsWithout(room, listing[0].userId);
    }
  }

  lemma LastLists(front: seq<Connection>, room: Room, last: UserId)
    requires last in room && ListsRoom(front, room - {last})
    ensures ListsRoom(front + [Connection(last, room[last])], room)
  {
    var others, listing := room - {last}, front + [Connection(last, room[last])];
    forall c | c in front ensures c.userId in room && room[c.userId] == c.role && c.userId != last {
      assert c.userId in others;
    }
    forall v | v in room ensures Connection(v, room[v]) in listing {
      if v != last {
        assert Connection(v, others[v]) in front;
      }
    }
  }

  /** Go may visit a room in an order that ends with any of its users. */
  lemma {:induction false} ListingEndingIn(room: Room, last: UserId) returns (listing: seq<Connection>)
    requires last in room
    ensures ListsRoom(listing, room) && listing != [] && listing[|listing| - 1] == Connection(last, room[last])
    decreases room.Keys
  {
    var others, front := room - {last}, [];
    if others == map[] {
      assert ListsRoom(front, others);
    } else {
      var u :| u in others;
      assert others.Keys == room.Keys - {last};
      front := ListingEndingIn(others, u);
    }
    hide ListsRoom;
    LastLists(front, room, last);
    listing := front + [Connection(last, room[last])];
  }

  /** What BroadcastToSession owes its callers: it returns, and every user but the
      admins receives the message once. */
  ghost predicate ServesRoom(listing: seq<Connection>, room: Room) {
    && !LastOfSeveral(listing)
    && (forall i, j :: 0 <= i < j < |Swept(listing)| ==> Swept(listing)[i].userId != Swept(listing)[j].userId)
    && (forall u :: (exists c :: c in Swept(listing) && c.userId == u) <==> u in room && !room[u].Admin?)
  }

  lemma {:induction false} WithoutAdminsKeeps(s: seq<Connection>)
    requires forall i, j :: 0 <= i < j < |s| ==> s[i].userId != s[j].userId
    ensures forall c :: c in WithoutAdmins(s) <==> c in s && !c.role.Admin?
    ensures forall i, j :: 0 <= i < j < |WithoutAdmins(s)| ==> WithoutAdmins(s)[i].userId != WithoutAdmins(s)[j].userId
    decreases |s|
  {
    if s != [] {
      WithoutAdminsKeeps(s[1..]);
      assert s == [s[0]] + s[1..];
      assert forall c :: c in WithoutAdmins(s[1..]) ==> c in s[1..] && c.userId != s[0].userId;
    }
  }

  lemma OneAdminServes(listing: seq<Connection>, room: Room)
    requires ListsRoom(listing, room) && |AdminsOf(room)| <= 1
    ensures ServesRoom(listing, room)
  {
    ListedAdmins(listing, room);
    RemovalIsRight(listing);
    WithoutAdminsKeeps(listing);
    hide Swept, WithoutAdmins, LastOfSeveral, Admins;
    forall u ensures (exists c :: c in Swept(listing) && c.userId == u) <==> u in room && !room[u].Admin? {
      if u in room && !room[u].Admin? {
        assert Connection(u, room[u]) in Swept(listing);
      }
    }
  }

  /** A broadcast serves the room in every order of visiting it exactly if the room
      has at most one admin; with more, some order makes it panic. */
  lemma BroadcastsServe(room: Room)
    ensures (forall listing :: ListsRoom(listing, room) ==> ServesRoom(listing, room)) <==> |AdminsOf(room)| <= 1
    ensures (exists listing :: ListsRoom(listing, room) && LastOfSeveral(listing)) <==> |AdminsOf(room)| > 1
  {
    if |AdminsOf(room)| <= 1 {
      forall listing | ListsRoom(listing, room) ensures ServesRoom(listing, room) {
        OneAdminServes(listing, room);
      }
    } else {
      var last :| last in AdminsOf(room);
      var listing := ListingEndingIn(room, last);
      ListedAdmins(listing, room);
      AdminsCounts(listing, |listing| - 1);
      assert ListsRoom(listing, room) && LastOfSeveral(listing);
    }
  }

  // ---- over runs ----

  /** Who has ever connected to the session as an admin. */
  function AdminJoins(events: seq<Event>, sid: SessionId): set<UserId> {
    set e | e in events && e.JoinConnect? && e.sid == sid && e.role.Admin? :: e.uid
  }

  /** Nobody is an admin of a room without having joined as one. */
  lemma RoomAdminsJoined(events: seq<Event>, s: Service, sid: SessionId)
    requires Run(INITIAL, events) == Done(s)
    ensures AdminsOf(RoomOf(s, sid)) <= AdminJoins(events, sid)
  {
    hide Run, RoomOf;
    forall u | u in AdminsOf(RoomOf(s, sid)) ensures u in AdminJoins(events, sid) {
      RoomsAreConnections(events, s, sid, u, Admin);
      var i: nat :| IsIn(events, i, sid, u, Admin);
      assert events[i] in events;
    }
  }

  lemma SubsetSize<T>(a: set<T>, b: set<T>)
    requires a <= b
    ensures |a| <= |b|
  {
    assert b == a + (b - a);
  }

  /** In every run in which at most one user joins the session as an admin, every
      broadcast returns and reaches, once each, exactly the users who are connected
      to the session as participants at that moment. */
  lemma OneAdminIsServed(events: seq<Event>, s: Service, sid: SessionId, listing: seq<Connection>, u: UserId)
    requires Run(INITIAL, events) == Done(s) && |AdminJoins(events, sid)| <= 1
    requires ListsRoom(listing, RoomOf(s, sid))
    ensures ServesRoom(listing, RoomOf(s, sid))
    ensures (exists c :: c in Swept(listing) && c.userId == u) <==> exists i: nat :: IsIn(events, i, sid, u, Participant)
  {
    RoomsAreConnections(events, s, sid, u, Participant);
    hide Run, IsIn;
    RoomAdminsJoined(events, s, sid);
    SubsetSize(AdminsOf(RoomOf(s, sid)), AdminJoins(events, sid));
    OneAdminServes(listing, RoomOf(s, sid));
  }

  lemma Appends(events: seq<Event>, e: Event)
    requires Run(INITIAL, events).Done?
    ensures Run(INITIAL, events + [e]) == Apply(Run(INITIAL, events).value, e)
  {
    assert (events + [e])[..|events|] == events;
  }

  /** The registry's part of an admin's websocket join. */
  function AdminJoin(sid: SessionId, u: UserId): seq<Event> {
    [JoinRegister(sid), JoinConnect(sid, u, Admin)]
  }

  lemma AdminJoinRuns(events: seq<Event>, sid: SessionId, u: UserId)
    requires Run(INITIAL, events).Done?
    ensures Run(INITIAL, events + AdminJoin(sid, u)).Done?
    ensures RoomOf(Run(INITIAL, events + AdminJoin(sid, u)).value, sid) == RoomOf(Run(INITIAL, events).value, sid)[u := Admin]
  {
    Appends(events, JoinRegister(sid));
    Appends(events + [JoinRegister(sid)], JoinConnect(sid, u, Admin));
    assert events + AdminJoin(sid, u) == events + [JoinRegister(sid)] + [JoinConnect(sid, u, Admin)];
    hide Run;
  }

  /** Two admins join: the next broadcast may take the service down. */
  lemma TwoAdminsPanic(sid: SessionId, a: UserId, b: UserId)
    requires a != b
    ensures var r := Run(INITIAL, AdminJoin(sid, a) + AdminJoin(sid, b));
            r.Done? && exists listing :: ListsRoom(listing, RoomOf(r.value, sid)) && LastOfSeveral(listing)
  {
    assert Run(INITIAL, []) == Done(INITIAL) && RoomOf(INITIAL, sid) == map[];
    hide Run, AdminJoin, ListsRoom, LastOfSeveral;
    AdminJoinRuns([], sid, a);
    assert [] + AdminJoin(sid, a) == AdminJoin(sid, a);
    AdminJoinRuns(AdminJoin(sid, a), sid, b);
    var room := RoomOf(Run(INITIAL, AdminJoin(sid, a) + AdminJoin(sid, b)).value, sid);
    hide RoomOf;
    assert AdminsOf(room) == {a, b};
    BroadcastsServe(room);
  }
}
