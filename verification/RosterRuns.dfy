/** The session service's registry under every interleaving of its locked
    sections: roster snapshots that are written out late, and handlers whose
    connection ends after the user has come back on another one. */
module RosterRuns {
  import opened Quizzes
  import opened Roster

  /** A goroutine that sends a roster out. It reads the roster, later the list of
      connections, and then writes to them one by one. at is the number of changes
      the session had seen when the roster was read; the program does not keep it. */
  datatype Writer =
    | Taken(sid: SessionId, roster: Members, at: nat)
    | Listed(sid: SessionId, roster: Members, at: nat, left: set<Conn>)

  datatype Owner = Owner(sid: SessionId, uid: UserId)

  /** Besides the registry: the users whose handlers read the connections, the
      handlers that have left their loops, and how far each connection has heard. */
  datatype World = World(
    reg: State,
    owners: map<Conn, Owner>,
    ended: set<Conn>,
    writers: map<nat, Writer>,
    changes: map<SessionId, nat>,
    heard: map<Conn, nat>)
  {
    function Changes(sid: SessionId): nat {
      Get(changes, sid, 0)
    }

    function Live(sid: SessionId): set<Conn> {
      Get(reg.connections, sid, map[]).Values
    }

    /** A change of one session's registration. */
    function Changed(sid: SessionId, reg': State): World {
      this.(reg := reg', changes := changes[sid := Changes(sid) + 1])
    }

    /** The last roster c was sent is the session's. */
    ghost predicate Informed(sid: SessionId, c: Conn) {
      c in reg.inbox && reg.inbox[c] == reg.Roster(sid)
    }

    ghost predicate AllInformed(sid: SessionId) {
      forall c :: c in Live(sid) ==> Informed(sid, c)
    }
  }

  const NOBODY := World(EMPTY, map[], {}, map[], map[], map[])

  datatype Section =
    | OpenSession(sid: SessionId)
    | CloseSession(sid: SessionId)
    | AddConnection(sid: SessionId, uid: UserId, name: string)
    | DeleteUser(sid: SessionId, uid: UserId)
    | HandlerEnds(conn: Conn)
    | TakeRoster(writer: nat, sid: SessionId)
    | ListConnections(writer: nat)
    | Write(writer: nat, conn: Conn)

  // ---- the sections; one that is not enabled changes nothing ----

  /** A handler starts only if its session is registered. */
  function StepAdd(w: World, sid: SessionId, uid: UserId, name: string): World {
    var c := w.reg.nextConn;
    var (reg', ok) := w.reg.(nextConn := c + 1).RegisterConnection(sid, uid, name, c);
    if ok then w.Changed(sid, reg').(owners := w.owners[c := Owner(sid, uid)]) else w.(reg := reg')
  }

  function StepRemove(w: World, sid: SessionId, uid: UserId): World {
    w.Changed(sid, w.reg.RemoveConnection(sid, uid).0)
  }

  /** A connection that ends takes away whatever is registered for its user. */
  function StepEnd(w: World, c: Conn): World {
    if c !in w.owners || c in w.ended then w
    else StepRemove(w, w.owners[c].sid, w.owners[c].uid).(ended := w.ended + {c})
  }

  function StepTake(w: World, k: nat, sid: SessionId): World {
    if k in w.writers then w else w.(writers := w.writers[k := Taken(sid, w.reg.Roster(sid), w.Changes(sid))])
  }

  function StepList(w: World, k: nat): World {
    if k !in w.writers || !w.writers[k].Taken? then w
    else
      var p := w.writers[k];
      w.(writers := w.writers[k := Listed(p.sid, p.roster, p.at, w.Live(p.sid))])
  }

  predicate CanWrite(w: World, k: nat, c: Conn) {
    k in w.writers && w.writers[k].Listed? && c in w.writers[k].left
  }

  /** A write to a connection the service has closed fails and is skipped. */
  function StepWrite(w: World, k: nat, c: Conn): World {
    if !CanWrite(w, k, c) then w
    else
      var p := w.writers[k];
      var done := w.(writers := w.writers[k := p.(left := p.left - {c})]);
      if c in w.reg.closed then done
      else done.(reg := w.reg.(inbox := w.reg.inbox[c := p.roster]), heard := w.heard[c := p.at])
  }

  function Step(w: World, e: Section): World {
    match e
    case OpenSession(sid) => w.(reg := w.reg.RegisterSession(sid))
    case CloseSession(sid) => w.Changed(sid, w.reg.UnregisterSession(sid))
    case AddConnection(sid, uid, name) => StepAdd(w, sid, uid, name)
    case DeleteUser(sid, uid) => StepRemove(w, sid, uid)
    case HandlerEnds(c) => StepEnd(w, c)
    case TakeRoster(k, sid) => StepTake(w, k, sid)
    case ListConnections(k) => StepList(w, k)
    case Write(k, c) => StepWrite(w, k, c)
  }

  function Interleave(w: World, sections: seq<Section>): World
    decreases |sections|
  {
    if sections == [] then w else Step(Interleave(w, sections[..|sections| - 1]), sections[|sections| - 1])
  }

  // ---- what every section keeps ----

  /** Every registered connection is open, is read by its handler and is registered
      for its own user only. */
  ghost predicate ConnsOk(w: World) {
    && w.reg.Aligned()
    && (forall c :: c in w.owners || c in w.reg.closed || c in w.ended ==> c < w.reg.nextConn)
    && (forall sid, u :: sid in w.reg.connections && u in w.reg.connections[sid] ==>
                           var c := w.reg.connections[sid][u];
                           c in w.owners && w.owners[c] == Owner(sid, u) && c !in w.reg.closed && c !in w.ended)
  }

  /** A roster read after the last change of the session is the session's roster. */
  ghost predicate RosterOk(w: World, sid: SessionId, roster: Members, at: nat) {
    at <= w.Changes(sid) && (at == w.Changes(sid) ==> roster == w.reg.Roster(sid))
  }

  ghost predicate WriterOk(w: World, p: Writer) {
    && RosterOk(w, p.sid, p.roster, p.at)
    && (p.Listed? ==> forall c :: c in p.left ==> c in w.owners && w.owners[c].sid == p.sid)
  }

  ghost predicate WritersOk(w: World) {
    forall k :: k in w.writers ==> WriterOk(w, w.writers[k])
  }

  ghost predicate HeardOk(w: World) {
    && w.heard.Keys == w.reg.inbox.Keys
    && forall c :: c in w.heard ==> c in w.owners && RosterOk(w, w.owners[c].sid, w.reg.inbox[c], w.heard[c])
  }

  ghost predicate WorldOk(w: World) {
    ConnsOk(w) && WritersOk(w) && HeardOk(w)
  }

  /** t has changed the registration of sid only, or has opened a session. */
  ghost predicate Later(w: World, t: World, sid: SessionId) {
    && t.writers == w.writers && t.heard == w.heard && t.reg.inbox == w.reg.inbox
    && (forall c :: c in w.owners ==> c in t.owners && t.owners[c] == w.owners[c])
    && (forall o :: o != sid ==> t.Changes(o) == w.Changes(o) && t.reg.Roster(o) == w.reg.Roster(o))
    && (t.Changes(sid) > w.Changes(sid) || (t.Changes(sid) == w.Changes(sid) && t.reg.Roster(sid) == w.reg.Roster(sid)))
  }

  lemma LaterKeepsRosters(w: World, t: World, sid: SessionId)
    requires WritersOk(w) && HeardOk(w) && Later(w, t, sid)
    ensures WritersOk(t) && HeardOk(t)
  {
    forall o, roster, at: nat | RosterOk(w, o, roster, at) ensures RosterOk(t, o, roster, at) {
    }
    forall k | k in t.writers ensures WriterOk(t, t.writers[k]) {
      assert WriterOk(w, w.writers[k]);
    }
  }

  lemma OpenConns(w: World, sid: SessionId)
    requires ConnsOk(w)
    ensures ConnsOk(w.(reg := w.reg.RegisterSession(sid)))
  {
  }

  lemma OpenKeeps(w: World, sid: SessionId)
    requires WorldOk(w)
    ensures WorldOk(Step(w, OpenSession(sid)))
  {
    OpenConns(w, sid);
    assert w.reg.connections.Keys == w.reg.rooms.Keys;
    hide ConnsOk, WritersOk, HeardOk;
    LaterKeepsRosters(w, Step(w, OpenSession(sid)), sid);
  }

  lemma CloseKeeps(w: World, sid: SessionId)
    requires WorldOk(w)
    ensures WorldOk(Step(w, CloseSession(sid)))
  {
    LaterKeepsRosters(w, Step(w, CloseSession(sid)), sid);
  }

  /** An added connection, seen by its session. */
  ghost predicate Added(w: World, t: World, sid: SessionId, uid: UserId, name: string) {
    var c := w.reg.nextConn;
    && t.reg.connections == w.reg.connections[sid := Get(w.reg.connections, sid, map[])[uid := c]]
    && t.reg.rooms == w.reg.rooms[sid := w.reg.Roster(sid)[uid := name]]
    && t.reg.inbox == w.reg.inbox && t.reg.closed == w.reg.closed && t.reg.nextConn == c + 1
    && t.changes == w.changes[sid := w.Changes(sid) + 1]
    && t.owners == w.owners[c := Owner(sid, uid)]
    && t.writers == w.writers && t.heard == w.heard && t.ended == w.ended
  }

  lemma StepAdds(w: World, sid: SessionId, uid: UserId, name: string)
    requires w.reg.connections.Keys == w.reg.rooms.Keys
    ensures sid in w.reg.connections ==> Added(w, StepAdd(w, sid, uid, name), sid, uid, name)
    ensures sid !in w.reg.connections ==> StepAdd(w, sid, uid, name) == w.(reg := w.reg.(nextConn := w.reg.nextConn + 1))
  {
  }

  lemma AddedAligned(w: World, t: World, sid: SessionId, uid: UserId, name: string)
    requires w.reg.Aligned() && sid in w.reg.connections && Added(w, t, sid, uid, name)
    ensures t.reg.Aligned()
  {
  }

  lemma AddedConns(w: World, t: World, sid: SessionId, uid: UserId, name: string)
    requires ConnsOk(w) && sid in w.reg.connections && Added(w, t, sid, uid, name)
    ensures ConnsOk(t)
  {
    AddedAligned(w, t, sid, uid, name);
    hide State.Aligned;
    forall o, u | o in t.reg.connections && u in t.reg.connections[o]
      ensures var c := t.reg.connections[o][u]; c in t.owners && t.owners[c] == Owner(o, u) && c !in t.reg.closed && c !in t.ended
    {
      if o != sid || u != uid {
        assert t.reg.connections[o][u] == w.reg.connections[o][u];
      }
    }
  }

  lemma AddedLater(w: World, t: World, sid: SessionId, uid: UserId, name: string)
    requires Added(w, t, sid, uid, name) && forall c :: c in w.owners ==> c < w.reg.nextConn
    ensures Later(w, t, sid)
  {
  }

  lemma AddKeeps(w: World, sid: SessionId, uid: UserId, name: string)
    requires WorldOk(w)
    ensures WorldOk(StepAdd(w, sid, uid, name))
  {
    var t := StepAdd(w, sid, uid, name);
    StepAdds(w, sid, uid, name);
    hide StepAdd, Added;
    if sid in w.reg.connections {
      AddedConns(w, t, sid, uid, name);
      AddedLater(w, t, sid, uid, name);
    }
    hide WritersOk, HeardOk;
    LaterKeepsRosters(w, t, sid);
  }

  lemma RemoveConns(w: World, sid: SessionId, uid: UserId)
    requires ConnsOk(w)
    ensures ConnsOk(StepRemove(w, sid, uid))
  {
    RemovedMaps(w.reg, sid, uid);
    hide State.RemoveConnection, State.Aligned;
    var t := StepRemove(w, sid, uid);
    forall o, u | o in t.reg.connections && u in t.reg.connections[o]
      ensures var c := t.reg.connections[o][u]; c in t.owners && t.owners[c] == Owner(o, u) && c !in t.reg.closed && c !in t.ended
    {
      assert t.reg.connections[o][u] == w.reg.connections[o][u] && (o != sid || u != uid);
    }
  }

  lemma RemoveLater(w: World, sid: SessionId, uid: UserId)
    requires ConnsOk(w)
    ensures Later(w, StepRemove(w, sid, uid), sid)
  {
    RemovedMaps(w.reg, sid, uid);
    hide State.RemoveConnection, State.Aligned, ConnsOk;
    var t := StepRemove(w, sid, uid);
    forall o | o != sid ensures t.Changes(o) == w.Changes(o) && t.reg.Roster(o) == w.reg.Roster(o) {
    }
  }

  lemma RemoveKeeps(w: World, sid: SessionId, uid: UserId)
    requires WorldOk(w)
    ensures WorldOk(StepRemove(w, sid, uid))
  {
    hide StepRemove, ConnsOk, WritersOk, HeardOk, Later;
    RemoveConns(w, sid, uid);
    RemoveLater(w, sid, uid);
    LaterKeepsRosters(w, StepRemove(w, sid, uid), sid);
  }

  lemma EndKeeps(w: World, c: Conn)
    requires WorldOk(w)
    ensures WorldOk(StepEnd(w, c))
  {
    if c in w.owners && c !in w.ended {
      var o := w.owners[c];
      RemoveKeeps(w, o.sid, o.uid);
      assert c < w.reg.nextConn;
      RemovedMaps(w.reg, o.sid, o.uid);
      EndedConns(StepRemove(w, o.sid, o.uid), c);
    }
  }

  /** The handler that ends has taken its user's registration away. */
  lemma EndedConns(t: World, c: Conn)
    requires ConnsOk(t) && c in t.owners && c < t.reg.nextConn
    requires t.owners[c].sid in t.reg.connections ==> t.owners[c].uid !in t.reg.connections[t.owners[c].sid]
    ensures ConnsOk(t.(ended := t.ended + {c}))
  {
    hide State.Aligned;
  }

  lemma TakeKeeps(w: World, k: nat, sid: SessionId)
    requires WorldOk(w)
    ensures WorldOk(StepTake(w, k, sid))
  {
    var t := StepTake(w, k, sid);
    forall j | j in t.writers ensures WriterOk(t, t.writers[j]) {
      assert j in w.writers ==> WriterOk(w, w.writers[j]);
    }
  }

  lemma ListKeeps(w: World, k: nat)
    requires WorldOk(w)
    ensures WorldOk(StepList(w, k))
  {
    var t := StepList(w, k);
    forall j | j in t.writers ensures WriterOk(t, t.writers[j]) {
      assert WriterOk(w, w.writers[j]);
    }
  }

  lemma WriteWriters(w: World, k: nat, c: Conn)
    requires WritersOk(w)
    ensures WritersOk(StepWrite(w, k, c))
  {
    var t := StepWrite(w, k, c);
    forall j | j in t.writers ensures WriterOk(t, t.writers[j]) {
      assert WriterOk(w, w.writers[j]);
    }
  }

  lemma WriteHeard(w: World, k: nat, c: Conn)
    requires WritersOk(w) && HeardOk(w)
    ensures HeardOk(StepWrite(w, k, c))
  {
    if CanWrite(w, k, c) {
      assert WriterOk(w, w.writers[k]);
    }
  }

  lemma WriteKeeps(w: World, k: nat, c: Conn)
    requires WorldOk(w)
    ensures WorldOk(StepWrite(w, k, c))
  {
    WriteWriters(w, k, c);
    WriteHeard(w, k, c);
    hide WritersOk, HeardOk;
  }

  lemma SectionKeeps(w: World, e: Section)
    requires WorldOk(w)
    ensures WorldOk(Step(w, e))
  {
    hide WorldOk, StepAdd, StepRemove, StepEnd, StepTake, StepList, StepWrite;
    match e
    case OpenSession(sid) => OpenKeeps(w, sid);
    case CloseSession(sid) => CloseKeeps(w, sid);
    case AddConnection(sid, uid, name) => AddKeeps(w, sid, uid, name);
    case DeleteUser(sid, uid) => RemoveKeeps(w, sid, uid);
    case HandlerEnds(c) => EndKeeps(w, c);
    case TakeRoster(k, sid) => TakeKeeps(w, k, sid);
    case ListConnections(k) => ListKeeps(w, k);
    case Write(k, c) => WriteKeeps(w, k, c);
  }

  lemma {:induction false} EveryInterleavingIsOk(sections: seq<Section>)
    ensures WorldOk(Interleave(NOBODY, sections))
    decreases |sections|
  {
    hide WorldOk, Step;
    if sections == [] {
      NobodyOk();
    } else {
      EveryInterleavingIsOk(sections[..|sections| - 1]);
      SectionKeeps(Interleave(NOBODY, sections[..|sections| - 1]), sections[|sections| - 1]);
    }
  }

  lemma NobodyOk()
    ensures WorldOk(NOBODY)
  {
  }

  /** After every locked section of every interleaving the two maps agree, and every
      registered connection is open, is still read by its handler and is registered
      for the user it belongs to. */
  lemma AlwaysAligned(sections: seq<Section>, sid: SessionId, u: UserId)
    ensures var w := Interleave(NOBODY, sections);
            && w.reg.Aligned()
            && (sid in w.reg.connections && u in w.reg.connections[sid] ==>
                  var c := w.reg.connections[sid][u];
                  c in w.owners && w.owners[c] == Owner(sid, u) && c !in w.reg.closed && c !in w.ended)
  {
    EveryInterleavingIsOk(sections);
  }

  // ---- what a connection has heard ----

  lemma {:induction false} InterleaveOn(w: World, first: seq<Section>, rest: seq<Section>)
    ensures Interleave(Interleave(w, first), rest) == Interleave(w, first + rest)
    decreases |rest|
  {
    hide Step;
    if rest == [] {
      assert first + rest == first;
    } else {
      InterleaveOn(w, first, rest[..|rest| - 1]);
      assert (first + rest)[..|first + rest| - 1] == first + rest[..|rest| - 1];
    }
  }

  lemma StepSpares(w: World, e: Section, c: Conn)
    requires c in w.reg.inbox && c in w.heard && !(e.Write? && e.conn == c)
    ensures var t := Step(w, e); c in t.reg.inbox && t.reg.inbox[c] == w.reg.inbox[c] && c in t.heard && t.heard[c] == w.heard[c]
  {
    if !e.Write? {
      OnlyWritesAreHeard(w, e);
    }
    hide StepAdd, StepRemove, StepEnd, StepTake, StepList;
  }

  lemma OnlyWritesAreHeard(w: World, e: Section)
    requires !e.Write?
    ensures Step(w, e).reg.inbox == w.reg.inbox && Step(w, e).heard == w.heard
  {
    hide State.RegisterConnection, State.RemoveConnection;
    match e
    case AddConnection(sid, uid, name) =>
      RegistrationsSendNothing(w.reg.(nextConn := w.reg.nextConn + 1), sid, uid, name, w.reg.nextConn);
    case DeleteUser(sid, uid) => RegistrationsSendNothing(w.reg, sid, uid, "", 0);
    case HandlerEnds(c) =>
      if c in w.owners {
        RegistrationsSendNothing(w.reg, w.owners[c].sid, w.owners[c].uid, "", 0);
      }
    case _ =>
  }

  lemma RegistrationsSendNothing(s: State, sid: SessionId, uid: UserId, name: string, c: Conn)
    ensures s.RegisterConnection(sid, uid, name, c).0.inbox == s.inbox
    ensures s.RemoveConnection(sid, uid).0.inbox == s.inbox
  {
  }

  lemma {:induction false} Unwritten(w: World, tail: seq<Section>, c: Conn)
    requires c in w.reg.inbox && c in w.heard && forall e :: e in tail ==> !(e.Write? && e.conn == c)
    ensures var t := Interleave(w, tail);
            c in t.reg.inbox && t.reg.inbox[c] == w.reg.inbox[c] && c in t.heard && t.heard[c] == w.heard[c]
    decreases |tail|
  {
    hide Step;
    if tail != [] {
      var init, e := tail[..|tail| - 1], tail[|tail| - 1];
      assert e in tail && forall d :: d in init ==> d in tail;
      Unwritten(w, init, c);
      StepSpares(Interleave(w, init), e, c);
    }
  }

  /** Changes are counted up, connections keep their users, and nothing reopens. */
  ghost predicate Grows(w: World, t: World) {
    && w.reg.closed <= t.reg.closed
    && (forall c :: c in w.owners ==> c in t.owners && t.owners[c] == w.owners[c])
    && forall sid :: w.Changes(sid) <= t.Changes(sid)
  }

  lemma AddGrows(w: World, sid: SessionId, uid: UserId, name: string)
    requires w.reg.connections.Keys == w.reg.rooms.Keys && forall c :: c in w.owners ==> c < w.reg.nextConn
    ensures Grows(w, StepAdd(w, sid, uid, name))
  {
    StepAdds(w, sid, uid, name);
    hide StepAdd;
  }

  lemma RemoveGrows(w: World, sid: SessionId, uid: UserId)
    requires w.reg.Aligned()
    ensures Grows(w, StepRemove(w, sid, uid))
  {
    RemovedMaps(w.reg, sid, uid);
    hide State.RemoveConnection, State.Aligned;
  }

  lemma StepGrows(w: World, e: Section)
    requires ConnsOk(w)
    ensures Grows(w, Step(w, e))
  {
    assert w.reg.connections.Keys == w.reg.rooms.Keys && forall c :: c in w.owners ==> c < w.reg.nextConn;
    hide ConnsOk, State.Aligned, StepAdd, StepRemove;
    match e
    case AddConnection(sid, uid, name) => AddGrows(w, sid, uid, name);
    case DeleteUser(sid, uid) => RemoveGrows(w, sid, uid);
    case HandlerEnds(c) =>
      if c in w.owners {
        RemoveGrows(w, w.owners[c].sid, w.owners[c].uid);
      }
    case _ =>
  }

  lemma {:induction false} InterleaveGrows(w: World, tail: seq<Section>)
    requires WorldOk(w)
    ensures Grows(w, Interleave(w, tail)) && WorldOk(Interleave(w, tail))
    decreases |tail|
  {
    if tail != [] {
      var init := tail[..|tail| - 1];
      InterleaveGrows(w, init);
      StepGrows(Interleave(w, init), tail[|tail| - 1]);
      SectionKeeps(Interleave(w, init), tail[|tail| - 1]);
    }
    hide WorldOk, Step;
  }

  /** A registered connection that is last written to by goroutine k knows the
      session exactly if the roster k had read is the session's; and it is, if the
      session has not changed since k read it. */
  lemma LastWriteDecides(sections: seq<Section>, k: nat, c: Conn, tail: seq<Section>, sid: SessionId, u: UserId)
    requires var w := Interleave(NOBODY, sections); CanWrite(w, k, c)
    requires forall e :: e in tail ==> !(e.Write? && e.conn == c)
    requires var t := Interleave(NOBODY, sections + [Write(k, c)] + tail);
             sid in t.reg.connections && u in t.reg.connections[sid] && t.reg.connections[sid][u] == c
    ensures var p, t := Interleave(NOBODY, sections).writers[k], Interleave(NOBODY, sections + [Write(k, c)] + tail);
            && p.sid == sid && p.at <= t.Changes(sid)
            && (t.Informed(sid, c) <==> p.roster == t.reg.Roster(sid))
            && (p.at == t.Changes(sid) ==> t.Informed(sid, c))
  {
    hide WorldOk, Step;
    EveryInterleavingIsOk(sections);
    var w := Interleave(NOBODY, sections);
    InterleaveOn(NOBODY, sections, [Write(k, c)]);
    InterleaveOn(NOBODY, sections + [Write(k, c)], tail);
    assert Interleave(w, [Write(k, c)]) == Step(w, Write(k, c)) by {
      assert [Write(k, c)][..0] == [];
    }
    var m := Step(w, Write(k, c));
    SectionKeeps(w, Write(k, c));
    InterleaveGrows(m, tail);
    WrittenHears(w, k, c, Interleave(m, tail), sid, u);
    Unwritten(m, tail, c);
    RegisteredHeard(Interleave(m, tail), sid, u);
  }

  lemma WrittenHears(w: World, k: nat, c: Conn, t: World, sid: SessionId, u: UserId)
    requires WorldOk(w) && CanWrite(w, k, c) && Grows(Step(w, Write(k, c)), t) && WorldOk(t)
    requires sid in t.reg.connections && u in t.reg.connections[sid] && t.reg.connections[sid][u] == c
    ensures var m, p := Step(w, Write(k, c)), w.writers[k];
            && p.sid == sid && c in m.reg.inbox && m.reg.inbox[c] == p.roster && c in m.heard && m.heard[c] == p.at
  {
    assert WriterOk(w, w.writers[k]);
    assert c !in t.reg.closed && t.owners[c] == Owner(sid, u);
  }

  lemma RegisteredHeard(t: World, sid: SessionId, u: UserId)
    requires WorldOk(t) && sid in t.reg.connections && u in t.reg.connections[sid] && t.reg.connections[sid][u] in t.heard
    ensures var c := t.reg.connections[sid][u]; c in t.reg.inbox && RosterOk(t, sid, t.reg.inbox[c], t.heard[c])
  {
  }

  // ---- a broadcast that is the last ----

  /** Goroutine k has read the roster, and each connection of the session either
      still waits for it or has it. */
  ghost predicate Sending(w: World, k: nat, p: Writer) {
    && w.Changes(p.sid) == p.at && k in w.writers
    && (w.writers[k] == p ||
        (w.writers[k].Listed? && w.writers[k].(left := {}) == Listed(p.sid, p.roster, p.at, {})
         && forall c :: c in w.Live(p.sid) ==> c in w.writers[k].left || (c in w.reg.inbox && w.reg.inbox[c] == p.roster)))
  }

  /** Nobody else writes to a connection of the session. */
  ghost predicate OnlyWriter(w: World, e: Section, k: nat, sid: SessionId) {
    e.Write? && e.writer != k ==> e.conn !in w.Live(sid)
  }

  lemma UnchangedLive(w: World, e: Section, sid: SessionId)
    requires w.reg.Aligned() && Step(w, e).Changes(sid) == w.Changes(sid)
    ensures Step(w, e).Live(sid) == w.Live(sid)
  {
  }

  lemma OthersSend(w: World, e: Section, k: nat, p: Writer)
    requires p.Taken? && Sending(w, k, p) && Step(w, e).Changes(p.sid) == w.Changes(p.sid) && w.reg.Aligned()
    requires !e.Write? && !e.ListConnections?
    ensures Sending(Step(w, e), k, p)
  {
    UnchangedLive(w, e, p.sid);
    var t := Step(w, e);
    assert t.reg.inbox == w.reg.inbox;
    assert t.writers[k] == w.writers[k];
    hide Step, World.Live;
  }

  lemma ListSends(w: World, j: nat, k: nat, p: Writer)
    requires p.Taken? && Sending(w, k, p)
    ensures Sending(StepList(w, j), k, p)
  {
  }

  lemma SameConnections(w: World, t: World, sid: SessionId)
    requires t.reg.connections == w.reg.connections
    ensures t.Live(sid) == w.Live(sid)
  {
  }

  lemma OwnWriteSends(w: World, c: Conn, k: nat, p: Writer)
    requires p.Taken? && Sending(w, k, p) && c !in w.reg.closed
    ensures Sending(StepWrite(w, k, c), k, p)
  {
    SameConnections(w, StepWrite(w, k, c), p.sid);
    hide World.Live;
  }

  lemma OtherWriteSends(w: World, j: nat, c: Conn, k: nat, p: Writer)
    requires p.Taken? && Sending(w, k, p) && c !in w.Live(p.sid)
    requires j == k ==> c in w.reg.closed
    ensures Sending(StepWrite(w, j, c), k, p)
  {
    SameConnections(w, StepWrite(w, j, c), p.sid);
    hide World.Live;
  }

  lemma WriteSends(w: World, j: nat, c: Conn, k: nat, p: Writer)
    requires p.Taken? && Sending(w, k, p) && ConnsOk(w) && OnlyWriter(w, Write(j, c), k, p.sid)
    ensures Sending(StepWrite(w, j, c), k, p)
  {
    LiveOpen(w, p.sid);
    hide ConnsOk, Sending, StepWrite, World.Live;
    if j == k && c !in w.reg.closed {
      OwnWriteSends(w, c, k, p);
    } else {
      OtherWriteSends(w, j, c, k, p);
    }
  }

  lemma LiveOpen(w: World, sid: SessionId)
    requires ConnsOk(w)
    ensures forall c :: c in w.Live(sid) ==> c !in w.reg.closed && c in w.owners && w.owners[c].sid == sid
  {
  }

  lemma StepSends(w: World, e: Section, k: nat, p: Writer)
    requires p.Taken? && Sending(w, k, p) && ConnsOk(w)
    requires Step(w, e).Changes(p.sid) == w.Changes(p.sid) && OnlyWriter(w, e, k, p.sid)
    ensures Sending(Step(w, e), k, p)
  {
    match e
    case ListConnections(j) => ListSends(w, j, k, p);
    case Write(j, c) => WriteSends(w, j, c, k, p);
    case _ => OthersSend(w, e, k, p);
  }

  /** The tail of a run in which k alone writes to the session's connections. */
  ghost predicate OnlyWriterIn(w: World, tail: seq<Section>, k: nat, sid: SessionId)
    decreases |tail|
  {
    tail == [] ||
    (OnlyWriterIn(w, tail[..|tail| - 1], k, sid) && OnlyWriter(Interleave(w, tail[..|tail| - 1]), tail[|tail| - 1], k, sid))
  }

  lemma {:induction false} TailSends(w: World, tail: seq<Section>, k: nat, p: Writer)
    requires WorldOk(w) && p.Taken? && Sending(w, k, p) && OnlyWriterIn(w, tail, k, p.sid)
    requires Interleave(w, tail).Changes(p.sid) == p.at
    ensures Sending(Interleave(w, tail), k, p)
    decreases |tail|
  {
    if tail != [] {
      var init, e := tail[..|tail| - 1], tail[|tail| - 1];
      InterleaveGrows(w, init);
      StepGrows(Interleave(w, init), e);
      TailSends(w, init, k, p);
      StepSends(Interleave(w, init), e, k, p);
    }
    hide WorldOk, Step, Sending;
  }

  /** A goroutine that read the roster after the session's last change, and that is
      the last to write to its connections, leaves all of them informed once it has
      finished, whatever else went on meanwhile. */
  lemma LastBroadcastInforms(sections: seq<Section>, k: nat, tail: seq<Section>)
    requires var w := Interleave(NOBODY, sections); k in w.writers && w.writers[k].Taken?
    requires OnlyWriterIn(Interleave(NOBODY, sections), tail, k, Interleave(NOBODY, sections).writers[k].sid)
    requires var p, t := Interleave(NOBODY, sections).writers[k], Interleave(NOBODY, sections + tail);
             p.at == t.Changes(p.sid) && k in t.writers && t.writers[k].Listed? && t.writers[k].left == {}
    ensures Interleave(NOBODY, sections + tail).AllInformed(Interleave(NOBODY, sections).writers[k].sid)
  {
    EveryInterleavingIsOk(sections);
    InterleaveOn(NOBODY, sections, tail);
    var w := Interleave(NOBODY, sections);
    var p := w.writers[k];
    InterleaveGrows(w, tail);
    assert WriterOk(w, p);
    hide Step;
    TailSends(w, tail, k, p);
    var t := Interleave(w, tail);
    assert WriterOk(t, t.writers[k]);
  }

  // ---- a connection that ends ----

  predicate Registered(w: World, c: Conn) {
    && c in w.owners && w.owners[c].sid in w.reg.connections
    && w.owners[c].uid in w.reg.connections[w.owners[c].sid]
    && w.reg.connections[w.owners[c].sid][w.owners[c].uid] == c
  }

  /** The end of connection c takes away another connection, which is open and being
      read, exactly if its user is registered with a connection that is not c. That
      one is then closed and forgotten, and so is c; nobody else is touched. */
  lemma EndEvicts(sections: seq<Section>, c: Conn)
    requires var w := Interleave(NOBODY, sections); c in w.owners && c !in w.ended
    ensures var w := Interleave(NOBODY, sections);
            var t, o := Step(w, HandlerEnds(c)), w.owners[c];
            var evicts := o.sid in w.reg.connections && o.uid in w.reg.connections[o.sid] && w.reg.connections[o.sid][o.uid] != c;
            && ((exists d :: d != c && Registered(w, d) && !Registered(t, d)) <==> evicts)
            && (forall d :: d != c && Registered(w, d) && !Registered(t, d) ==>
                              && d == w.reg.connections[o.sid][o.uid]
                              && d !in w.reg.closed && d !in w.ended && d in t.reg.closed)
            && !Registered(t, c)
            && t.reg.closed == w.reg.closed + w.reg.Registered(o.sid, o.uid)
  {
    EveryInterleavingIsOk(sections);
    var w := Interleave(NOBODY, sections);
    var o := w.owners[c];
    EndTakesUser(w, c);
    hide Interleave, Step, State.Aligned, WritersOk, HeardOk;
    if o.sid in w.reg.connections && o.uid in w.reg.connections[o.sid] {
      assert Registered(w, w.reg.connections[o.sid][o.uid]);
    }
  }

  lemma EndTakesUser(w: World, c: Conn)
    requires ConnsOk(w) && c in w.owners && c !in w.ended
    ensures var t := Step(w, HandlerEnds(c));
            && t.reg.closed == w.reg.closed + w.reg.Registered(w.owners[c].sid, w.owners[c].uid)
            && !Registered(t, c)
            && forall d :: Registered(w, d) ==> (Registered(t, d) <==> w.owners[d] != w.owners[c])
  {
    var o := w.owners[c];
    RemovedMaps(w.reg, o.sid, o.uid);
    assert w.reg.connections.Keys == w.reg.rooms.Keys;
    hide State.RemoveConnection, State.Aligned, ConnsOk;
  }

  // ---- runs that go wrong ----

  lemma Appends(sections: seq<Section>, e: Section)
    ensures Interleave(NOBODY, sections + [e]) == Step(Interleave(NOBODY, sections), e)
  {
    assert (sections + [e])[..|sections|] == sections;
  }

  /** A user comes back on a second connection before the first one ends; the end
      of the first closes the second. */
  lemma ReconnectedUserIsEvicted(sid: SessionId, u: UserId, name: string)
    ensures var sections := [] + [OpenSession(sid)] + [AddConnection(sid, u, name)] + [AddConnection(sid, u, name)];
            var w, t := Interleave(NOBODY, sections), Interleave(NOBODY, sections + [HandlerEnds(0)]);
            && Registered(w, 1) && 1 !in w.reg.closed
            && 1 in t.reg.closed && 1 !in t.ended && !Registered(t, 1) && u !in t.reg.Roster(sid)
  {
    var e0: seq<Section> := [];
    var e1 := e0 + [OpenSession(sid)];
    var e2 := e1 + [AddConnection(sid, u, name)];
    var e3 := e2 + [AddConnection(sid, u, name)];
    Appends(e0, OpenSession(sid));
    Appends(e1, AddConnection(sid, u, name));
    Appends(e2, AddConnection(sid, u, name));
    Appends(e3, HandlerEnds(0));
    assert Interleave(NOBODY, e1).reg == State(map[sid := map[]], map[sid := map[]], map[], {}, 0);
    assert Interleave(NOBODY, e2).reg == State(map[sid := map[u := 0]], map[sid := map[u := name]], map[], {}, 1);
    hide Interleave;
    StepAdds(Interleave(NOBODY, e2), sid, u, name);
    assert map[u := 0][u := 1] == map[u := 1] && map[u := name][u := name] == map[u := name];
    assert Interleave(NOBODY, e3).reg == State(map[sid := map[u := 1]], map[sid := map[u := name]], map[], {}, 2);
  }

  /** Two users join; the first one's goroutine reads the roster before the second
      is in, and writes it out after the second one's has finished. */
  function TwoJoins(sid: SessionId, u: UserId, v: UserId, name: string): seq<Section> {
    [] + [OpenSession(sid)] + [AddConnection(sid, u, name)] + [TakeRoster(0, sid)] + [AddConnection(sid, v, name)] + [TakeRoster(1, sid)]
  }

  /** Goroutine k writes to both connections. */
  function Sends(k: nat): seq<Section> {
    [] + [ListConnections(k)] + [Write(k, 0)] + [Write(k, 1)]
  }

  function TwoJoined(sid: SessionId, u: UserId, v: UserId, name: string): World {
    World(State(map[sid := map[u := 0, v := 1]], map[sid := map[u := name, v := name]], map[], {}, 2),
          map[0 := Owner(sid, u), 1 := Owner(sid, v)], {},
          map[0 := Taken(sid, map[u := name], 1), 1 := Taken(sid, map[u := name, v := name], 2)], map[sid := 2], map[])
  }

  lemma OneJoins(sid: SessionId, u: UserId, name: string)
    ensures var e := [] + [OpenSession(sid)] + [AddConnection(sid, u, name)] + [TakeRoster(0, sid)];
            Interleave(NOBODY, e) ==
            World(State(map[sid := map[u := 0]], map[sid := map[u := name]], map[], {}, 1), map[0 := Owner(sid, u)], {},
                  map[0 := Taken(sid, map[u := name], 1)], map[sid := 1], map[])
  {
    var e1 := [] + [OpenSession(sid)];
    Appends([], OpenSession(sid));
    Appends(e1, AddConnection(sid, u, name));
    Appends(e1 + [AddConnection(sid, u, name)], TakeRoster(0, sid));
    assert Interleave(NOBODY, []) == NOBODY;
    hide Interleave;
    assert Interleave(NOBODY, e1).reg == State(map[sid := map[]], map[sid := map[]], map[], {}, 0);
    StepAdds(Interleave(NOBODY, e1), sid, u, name);
    hide StepAdd;
  }

  lemma SecondJoins(w: World, sid: SessionId, u: UserId, v: UserId, name: string)
    requires u != v
    requires w == World(State(map[sid := map[u := 0]], map[sid := map[u := name]], map[], {}, 1), map[0 := Owner(sid, u)], {},
                        map[0 := Taken(sid, map[u := name], 1)], map[sid := 1], map[])
    ensures StepTake(StepAdd(w, sid, v, name), 1, sid) == TwoJoined(sid, u, v, name)
  {
    StepAdds(w, sid, v, name);
    var t := StepAdd(w, sid, v, name);
    assert t.ended == w.ended;
    hide StepAdd;
    assert map[u := 0][v := 1] == map[u := 0, v := 1] && map[u := name][v := name] == map[u := name, v := name];
    assert t.reg == State(map[sid := map[u := 0, v := 1]], map[sid := map[u := name, v := name]], map[], {}, 2);
    assert t.changes == map[sid := 2] && t.owners == map[0 := Owner(sid, u), 1 := Owner(sid, v)];
    assert t == TwoJoined(sid, u, v, name).(writers := w.writers);
  }

  lemma TwoJoin(sid: SessionId, u: UserId, v: UserId, name: string)
    requires u != v
    ensures Interleave(NOBODY, TwoJoins(sid, u, v, name)) == TwoJoined(sid, u, v, name)
  {
    OneJoins(sid, u, name);
    var e := [] + [OpenSession(sid)] + [AddConnection(sid, u, name)] + [TakeRoster(0, sid)];
    Appends(e, AddConnection(sid, v, name));
    Appends(e + [AddConnection(sid, v, name)], TakeRoster(1, sid));
    hide Interleave, StepAdd, StepTake, TwoJoined;
    SecondJoins(Interleave(NOBODY, e), sid, u, v, name);
  }

  lemma StepOn(w: World, sections: seq<Section>, e: Section)
    ensures Interleave(w, sections + [e]) == Step(Interleave(w, sections), e)
  {
    assert (sections + [e])[..|sections|] == sections;
  }

  lemma SendsToBoth(w: World, k: nat)
    requires k in w.writers && w.writers[k].Taken? && w.Live(w.writers[k].sid) == {0, 1} && w.reg.closed == {}
    ensures var p := w.writers[k];
            Interleave(w, Sends(k)) ==
            w.(writers := w.writers[k := Listed(p.sid, p.roster, p.at, {})],
               reg := w.reg.(inbox := w.reg.inbox[0 := p.roster][1 := p.roster]),
               heard := w.heard[0 := p.at][1 := p.at])
  {
    var p := w.writers[k];
    var e1 := [] + [ListConnections(k)];
    StepOn(w, [], ListConnections(k));
    StepOn(w, e1, Write(k, 0));
    StepOn(w, e1 + [Write(k, 0)], Write(k, 1));
    assert Interleave(w, []) == w;
    hide Interleave, World.Live;
    var w1 := StepList(w, k);
    assert w1 == w.(writers := w.writers[k := Listed(p.sid, p.roster, p.at, {0, 1})]);
    var w2 := StepWrite(w1, k, 0);
    assert {0, 1} - {0} == {1} && {1} - {1} == {};
    assert w2 == w.(writers := w.writers[k := Listed(p.sid, p.roster, p.at, {1})],
                    reg := w.reg.(inbox := w.reg.inbox[0 := p.roster]), heard := w.heard[0 := p.at]);
  }

  /** Every goroutine has finished, and nobody knows that the second user is in. */
  lemma LateWriterLeavesStale(sid: SessionId, u: UserId, v: UserId, name: string)
    requires u != v
    ensures var t := Interleave(NOBODY, TwoJoins(sid, u, v, name) + Sends(1) + Sends(0));
            && t.Live(sid) == {0, 1} && t.reg.Roster(sid) == map[u := name, v := name]
            && (forall k :: k in t.writers ==> t.writers[k].Listed? && t.writers[k].left == {})
            && !t.Informed(sid, 0) && !t.Informed(sid, 1)
  {
    TwoJoin(sid, u, v, name);
    InterleaveOn(NOBODY, TwoJoins(sid, u, v, name), Sends(1));
    InterleaveOn(NOBODY, TwoJoins(sid, u, v, name) + Sends(1), Sends(0));
    hide Interleave, Sends, TwoJoins;
    var w := TwoJoined(sid, u, v, name);
    LiveAre(w.reg, sid, u, v);
    SendsToBoth(w, 1);
    SendsToBoth(Interleave(w, Sends(1)), 0);
    var t := Interleave(Interleave(w, Sends(1)), Sends(0));
    assert t.reg.inbox[0] == map[u := name] && t.reg.inbox[1] == map[u := name];
    assert v !in map[u := name];
  }

  lemma LiveAre(s: State, sid: SessionId, u: UserId, v: UserId)
    requires u != v && s.connections == map[sid := map[u := 0, v := 1]]
    ensures Get(s.connections, sid, map[]).Values == {0, 1}
  {
    var conns := s.connections[sid];
    assert conns[u] in conns.Values && conns[v] in conns.Values;
  }
}
