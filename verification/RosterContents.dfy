/** What the session service's registry holds after any interleaving of its locked
    sections, read off the list of sections. */
module RosterContents {
  import opened Options
  import opened Quizzes
  import opened Roster
  import opened RosterRuns

  /** A user's name in the roster, and the connection the roster is sent to. */
  datatype Seat = Seat(name: string, conn: Conn)

  /** Opened, and not closed since. */
  predicate IsOpen(sections: seq<Section>, sid: SessionId)
    decreases |sections|
  {
    sections != [] &&
    (var init, last := sections[..|sections| - 1], sections[|sections| - 1];
     last == OpenSession(sid) || (last != CloseSession(sid) && IsOpen(init, sid)))
  }

  /** How many connections have been accepted; they are numbered in that order. */
  function Accepted(sections: seq<Section>): nat
    decreases |sections|
  {
    if sections == [] then 0
    else Accepted(sections[..|sections| - 1]) + if sections[|sections| - 1].AddConnection? then 1 else 0
  }

  /** Whose handler reads connection c; one accepted for a session that is not open
      gets no handler. */
  function OwnerOf(sections: seq<Section>, c: Conn): Option<Owner>
    decreases |sections|
  {
    if sections == [] then None
    else
      var init, last := sections[..|sections| - 1], sections[|sections| - 1];
      if last.AddConnection? && IsOpen(init, last.sid) && c == Accepted(init) then Some(Owner(last.sid, last.uid))
      else OwnerOf(init, c)
  }

  /** The handler of c has left its loop. */
  predicate HasEnded(sections: seq<Section>, c: Conn)
    decreases |sections|
  {
    sections != [] &&
    (var init, last := sections[..|sections| - 1], sections[|sections| - 1];
     HasEnded(init, c) || (last == HandlerEnds(c) && OwnerOf(init, c).Some?))
  }

  /** The section takes the user out: a deletion, or the first end of one of the
      user's handlers. */
  predicate TakesOut(init: seq<Section>, last: Section, sid: SessionId, u: UserId) {
    || last == DeleteUser(sid, u)
    || (last.HandlerEnds? && OwnerOf(init, last.conn) == Some(Owner(sid, u)) && !HasEnded(init, last.conn))
  }

  /** The user's place in the session: that of the last connection accepted for the
      user while the session was open, unless the user was taken out or the session
      closed since. */
  function SeatOf(sections: seq<Section>, sid: SessionId, u: UserId): Option<Seat>
    decreases |sections|
  {
    if sections == [] then None
    else
      var init, last := sections[..|sections| - 1], sections[|sections| - 1];
      if last == CloseSession(sid) || TakesOut(init, last, sid, u) then None
      else if last.AddConnection? && last.sid == sid && last.uid == u && IsOpen(init, sid) then Some(Seat(last.name, Accepted(init)))
      else SeatOf(init, sid, u)
  }

  ghost predicate Loses(init: seq<Section>, last: Section, sid: SessionId, u: UserId, c: Conn) {
    TakesOut(init, last, sid, u) && SeatOf(init, sid, u).Some? && SeatOf(init, sid, u).value.conn == c
  }

  /** The service has closed c, while it was the connection of a user taken out. */
  ghost predicate WasClosed(sections: seq<Section>, c: Conn)
    decreases |sections|
  {
    sections != [] &&
    (var init, last := sections[..|sections| - 1], sections[|sections| - 1];
     WasClosed(init, c) || exists sid, u :: Loses(init, last, sid, u, c))
  }

  // ---- the same, in a world ----

  function SeatIn(w: World, sid: SessionId, u: UserId): Option<Seat> {
    if sid in w.reg.connections && u in w.reg.connections[sid] && sid in w.reg.rooms && u in w.reg.rooms[sid]
    then Some(Seat(w.reg.rooms[sid][u], w.reg.connections[sid][u]))
    else None
  }

  function OwnerIn(w: World, c: Conn): Option<Owner> {
    if c in w.owners then Some(w.owners[c]) else None
  }

  /** The section takes the user out of the world w. */
  predicate TakesOutOf(w: World, e: Section, sid: SessionId, u: UserId) {
    || e == DeleteUser(sid, u)
    || (e.HandlerEnds? && OwnerIn(w, e.conn) == Some(Owner(sid, u)) && e.conn !in w.ended)
  }

  lemma SessionsFollow(w: World, e: Section, sid: SessionId)
    requires w.reg.Aligned()
    ensures sid in Step(w, e).reg.connections <==> e == OpenSession(sid) || (e != CloseSession(sid) && sid in w.reg.connections)
    ensures Step(w, e).reg.nextConn == w.reg.nextConn + if e.AddConnection? then 1 else 0
  {
    hide StepAdd, StepEnd, StepRemove, Added;
    match e
    case AddConnection(o, v, name) =>
      StepAdds(w, o, v, name);
      AddOpensNothing(w, o, v, name, sid);
    case DeleteUser(o, v) => RemoveOpensNothing(w, o, v, sid);
    case HandlerEnds(c) => EndOpensNothing(w, c, sid);
    case _ =>
  }

  lemma AddOpensNothing(w: World, o: SessionId, v: UserId, name: string, sid: SessionId)
    requires w.reg.Aligned()
    ensures sid in StepAdd(w, o, v, name).reg.connections <==> sid in w.reg.connections
    ensures StepAdd(w, o, v, name).reg.nextConn == w.reg.nextConn + 1
  {
  }

  lemma RemoveOpensNothing(w: World, o: SessionId, v: UserId, sid: SessionId)
    requires w.reg.Aligned()
    ensures sid in StepRemove(w, o, v).reg.connections <==> sid in w.reg.connections
    ensures StepRemove(w, o, v).reg.nextConn == w.reg.nextConn
  {
  }

  lemma EndOpensNothing(w: World, c: Conn, sid: SessionId)
    requires w.reg.Aligned()
    ensures sid in StepEnd(w, c).reg.connections <==> sid in w.reg.connections
    ensures StepEnd(w, c).reg.nextConn == w.reg.nextConn
  {
    hide StepRemove;
    if c in w.owners {
      RemoveOpensNothing(w, w.owners[c].sid, w.owners[c].uid, sid);
    }
  }

  lemma OwnersFollow(w: World, e: Section, c: Conn)
    requires w.reg.Aligned()
    ensures OwnerIn(Step(w, e), c) ==
              if e.AddConnection? && e.sid in w.reg.connections && c == w.reg.nextConn then Some(Owner(e.sid, e.uid)) else OwnerIn(w, c)
    ensures c in Step(w, e).ended <==> c in w.ended || (e == HandlerEnds(c) && c in w.owners)
  {
  }

  lemma AddSeats(w: World, o: SessionId, v: UserId, name: string, sid: SessionId, u: UserId)
    requires w.reg.Aligned()
    ensures SeatIn(StepAdd(w, o, v, name), sid, u) ==
              if o == sid && v == u && sid in w.reg.connections then Some(Seat(name, w.reg.nextConn)) else SeatIn(w, sid, u)
  {
    StepAdds(w, o, v, name);
    hide StepAdd;
  }

  lemma RemoveSeats(w: World, o: SessionId, v: UserId, sid: SessionId, u: UserId)
    requires w.reg.Aligned()
    ensures SeatIn(StepRemove(w, o, v), sid, u) == if o == sid && v == u then None else SeatIn(w, sid, u)
  {
    RemovedMaps(w.reg, o, v);
    hide State.RemoveConnection;
  }

  lemma EndSeats(w: World, c: Conn, sid: SessionId, u: UserId)
    requires w.reg.Aligned()
    ensures SeatIn(StepEnd(w, c), sid, u) == if TakesOutOf(w, HandlerEnds(c), sid, u) then None else SeatIn(w, sid, u)
  {
    if c in w.owners && c !in w.ended {
      RemoveSeats(w, w.owners[c].sid, w.owners[c].uid, sid, u);
      hide StepRemove, State.Aligned;
      assert StepEnd(w, c).reg == StepRemove(w, w.owners[c].sid, w.owners[c].uid).reg;
    }
  }

  lemma SendingKeepsSeats(w: World, e: Section, sid: SessionId, u: UserId)
    requires w.reg.Aligned()
    requires e.TakeRoster? || e.ListConnections? || e.Write? || e.OpenSession? || e.CloseSession?
    ensures SeatIn(Step(w, e), sid, u) == if e == CloseSession(sid) then None else SeatIn(w, sid, u)
  {
  }

  lemma SeatsFollow(w: World, e: Section, sid: SessionId, u: UserId)
    requires w.reg.Aligned()
    ensures SeatIn(Step(w, e), sid, u) ==
              if e == CloseSession(sid) || TakesOutOf(w, e, sid, u) then None
              else if e.AddConnection? && e.sid == sid && e.uid == u && sid in w.reg.connections then Some(Seat(e.name, w.reg.nextConn))
              else SeatIn(w, sid, u)
  {
    hide SeatIn, StepAdd, StepRemove, StepEnd, State.Aligned;
    match e
    case AddConnection(o, v, name) => AddSeats(w, o, v, name, sid, u);
    case DeleteUser(o, v) => RemoveSeats(w, o, v, sid, u);
    case HandlerEnds(c) => EndSeats(w, c, sid, u);
    case _ =>
      hide Step;
      SendingKeepsSeats(w, e, sid, u);
  }

  lemma RemoveCloses(w: World, o: SessionId, v: UserId, c: Conn)
    requires w.reg.Aligned()
    ensures c in StepRemove(w, o, v).reg.closed <==> c in w.reg.closed || (SeatIn(w, o, v).Some? && SeatIn(w, o, v).value.conn == c)
  {
    RemovedMaps(w.reg, o, v);
    hide State.RemoveConnection;
  }

  ghost predicate Evicts(w: World, e: Section, sid: SessionId, u: UserId, c: Conn) {
    TakesOutOf(w, e, sid, u) && SeatIn(w, sid, u).Some? && SeatIn(w, sid, u).value.conn == c
  }

  lemma ClosedFollow(w: World, e: Section, c: Conn)
    requires w.reg.Aligned()
    ensures c in Step(w, e).reg.closed <==> c in w.reg.closed || exists sid, u :: Evicts(w, e, sid, u, c)
  {
    hide SeatIn, StepRemove, State.Aligned;
    match e
    case DeleteUser(o, v) =>
      RemoveCloses(w, o, v, c);
      assert Evicts(w, e, o, v, c) <==> SeatIn(w, o, v).Some? && SeatIn(w, o, v).value.conn == c;
    case HandlerEnds(d) =>
      if d in w.owners && d !in w.ended {
        var o := w.owners[d];
        RemoveCloses(w, o.sid, o.uid, c);
        assert Evicts(w, e, o.sid, o.uid, c) <==> SeatIn(w, o.sid, o.uid).Some? && SeatIn(w, o.sid, o.uid).value.conn == c;
      }
    case _ =>
  }

  // ---- over runs ----

  /** The registry of w is what the sections leave. */
  ghost predicate Read(sections: seq<Section>, w: World) {
    && (forall sid :: sid in w.reg.connections <==> IsOpen(sections, sid))
    && (forall sid, u :: SeatIn(w, sid, u) == SeatOf(sections, sid, u))
    && w.reg.nextConn == Accepted(sections)
    && (forall c :: OwnerIn(w, c) == OwnerOf(sections, c))
    && (forall c :: c in w.ended <==> HasEnded(sections, c))
  }

  lemma StepReads(init: seq<Section>, w: World, e: Section)
    requires w.reg.Aligned() && Read(init, w)
    ensures Read(init + [e], Step(w, e))
  {
    hide Step, SeatIn, State.Aligned;
    assert (init + [e])[..|init|] == init;
    forall sid ensures sid in Step(w, e).reg.connections <==> IsOpen(init + [e], sid) {
      SessionsFollow(w, e, sid);
    }
    SessionsFollow(w, e, "");
    forall c
      ensures OwnerIn(Step(w, e), c) == OwnerOf(init + [e], c)
      ensures c in Step(w, e).ended <==> HasEnded(init + [e], c)
    {
      OwnersFollow(w, e, c);
      assert OwnerIn(w, c) == OwnerOf(init, c);
    }
    forall sid, u ensures SeatIn(Step(w, e), sid, u) == SeatOf(init + [e], sid, u) {
      SeatReads(init, w, e, sid, u);
    }
  }

  lemma SeatReads(init: seq<Section>, w: World, e: Section, sid: SessionId, u: UserId)
    requires w.reg.Aligned() && Read(init, w)
    ensures SeatIn(Step(w, e), sid, u) == SeatOf(init + [e], sid, u)
  {
    hide Step, SeatIn, OwnerIn, State.Aligned;
    assert (init + [e])[..|init|] == init;
    assert sid in w.reg.connections <==> IsOpen(init, sid);
    assert SeatIn(w, sid, u) == SeatOf(init, sid, u);
    assert e.HandlerEnds? ==> OwnerIn(w, e.conn) == OwnerOf(init, e.conn);
    SeatsFollow(w, e, sid, u);
  }

  lemma {:induction false} RunReads(sections: seq<Section>)
    ensures Read(sections, Interleave(NOBODY, sections))
    decreases |sections|
  {
    hide Step, Read;
    if sections == [] {
      NobodySits();
    } else {
      var init, e := sections[..|sections| - 1], sections[|sections| - 1];
      RunReads(init);
      AlwaysAligned(init, "", "");
      StepReads(init, Interleave(NOBODY, init), e);
      assert init + [e] == sections;
    }
  }

  lemma LossesAgree(init: seq<Section>, w: World, e: Section, c: Conn)
    requires Read(init, w)
    ensures (exists sid, u :: Evicts(w, e, sid, u, c)) <==> exists sid, u :: Loses(init, e, sid, u, c)
  {
    forall sid, u ensures Evicts(w, e, sid, u, c) <==> Loses(init, e, sid, u, c) {
      hide SeatIn, SeatOf, OwnerIn, OwnerOf;
    }
    hide Evicts, Loses;
  }

  lemma {:induction false} RunCloses(sections: seq<Section>, c: Conn)
    ensures c in Interleave(NOBODY, sections).reg.closed <==> WasClosed(sections, c)
    decreases |sections|
  {
    hide Step, Read, Evicts, Loses, State.Aligned;
    if sections != [] {
      var init, e := sections[..|sections| - 1], sections[|sections| - 1];
      RunReads(init);
      RunCloses(init, c);
      AlwaysAligned(init, "", "");
      ClosedFollow(Interleave(NOBODY, init), e, c);
      LossesAgree(init, Interleave(NOBODY, init), e, c);
    }
  }

  /** In every run of the registry a session is registered exactly if it was opened
      last, its roster and its connections are the seats the sections leave, and the
      service has closed exactly the connections whose users were taken out. */
  lemma RegistryOfARun(sections: seq<Section>, sid: SessionId, u: UserId, c: Conn)
    ensures var reg := Interleave(NOBODY, sections).reg;
            && (sid in reg.connections <==> IsOpen(sections, sid))
            && (sid in reg.rooms <==> IsOpen(sections, sid))
            && ((sid in reg.rooms && u in reg.rooms[sid]) <==> SeatOf(sections, sid, u).Some?)
            && (sid in reg.rooms && u in reg.rooms[sid] ==>
                  && u in reg.connections[sid]
                  && SeatOf(sections, sid, u).value == Seat(reg.rooms[sid][u], reg.connections[sid][u]))
            && (c in reg.closed <==> WasClosed(sections, c))
  {
    hide Interleave, IsOpen, SeatOf, Accepted, OwnerOf, HasEnded, WasClosed;
    RunReads(sections);
    RunCloses(sections, c);
    AlwaysAligned(sections, sid, u);
    assert SeatIn(Interleave(NOBODY, sections), sid, u) == SeatOf(sections, sid, u);
  }

  lemma NobodySits()
    ensures Read([], NOBODY)
  {
  }
}
