/** Who is in a room, read off the events of a run, and so who is told what. */
module LiveQuizRooms {
  import opened Quizzes
  import opened Tracker
  import opened LiveQuiz
  import opened LiveQuizSafety
  import opened LiveQuizRuns
  import opened LiveQuizStarts

  type Room = map<UserId, Role>

  function RoomOf(s: Service, sid: SessionId): Room {
    Get(s.rooms, sid, map[])
  }

  /** e says whether u is in the room of sid. */
  predicate Decides(e: Event, sid: SessionId, u: UserId) {
    e == End(sid) || e == Leave(sid, u) || (e.JoinConnect? && e.sid == sid && e.uid == u)
  }

  /** The i-th event connects u to the session, while it is registered, and is the
      last word on u. */
  ghost predicate IsIn(events: seq<Event>, i: nat, sid: SessionId, u: UserId, role: Role) {
    && i < |events| && events[i] == JoinConnect(sid, u, role) && !HolderOf(events[..i], sid).Nobody?
    && forall j :: i < j < |events| ==> !Decides(events[j], sid, u)
  }

  lemma OneMoreEvent(events: seq<Event>, sid: SessionId, u: UserId, role: Role)
    requires events != []
    ensures var init, last := events[..|events| - 1], events[|events| - 1];
            (exists i: nat :: IsIn(events, i, sid, u, role)) <==>
              || (last == JoinConnect(sid, u, role) && !HolderOf(init, sid).Nobody?)
              || (!Decides(last, sid, u) && exists i: nat :: IsIn(init, i, sid, u, role))
  {
    var n := |events| - 1;
    var init, last := events[..n], events[n];
    if i: nat :| IsIn(events, i, sid, u, role) && i < n {
      assert init[..i] == events[..i];
      assert IsIn(init, i, sid, u, role);
    }
    if i: nat :| !Decides(last, sid, u) && IsIn(init, i, sid, u, role) {
      assert init[..i] == events[..i];
      assert IsIn(events, i, sid, u, role);
    }
    if last == JoinConnect(sid, u, role) && !HolderOf(init, sid).Nobody? {
      assert IsIn(events, n, sid, u, role);
    }
  }

  ghost predicate Sits(s: Service, sid: SessionId, u: UserId, role: Role) {
    u in RoomOf(s, sid) && RoomOf(s, sid)[u] == role
  }

  lemma ConnectingSits(s: Service, o: SessionId, v: UserId, r: Role, sid: SessionId, u: UserId, role: Role)
    ensures Sits(ApplyJoinConnect(s, o, v, r), sid, u, role) <==>
              if o == sid && v == u && sid in s.rooms then role == r else Sits(s, sid, u, role)
  {
  }

  lemma LeavingEmpties(s: Service, o: SessionId, v: UserId, sid: SessionId, u: UserId, role: Role)
    ensures Sits(ApplyLeave(s, o, v), sid, u, role) <==> !(o == sid && v == u) && Sits(s, sid, u, role)
  {
  }

  lemma EndingEmpties(s: Service, o: SessionId, sid: SessionId, u: UserId, role: Role)
    ensures Sits(ApplyEnd(s, o), sid, u, role) <==> o != sid && Sits(s, sid, u, role)
  {
    assert ApplyEnd(s, o).rooms == s.rooms - {o};
  }

  lemma OpeningSparesRooms(s: Service, o: SessionId, quiz: Quiz, sid: SessionId, u: UserId, role: Role)
    ensures Sits(ApplyJoinRegister(s, o), sid, u, role) <==> Sits(s, sid, u, role)
    ensures Sits(ApplyStartRegister(s, o, quiz), sid, u, role) <==> Sits(s, sid, u, role)
  {
  }

  /** What one event makes of a room. */
  lemma RegistryRooms(s: Service, e: Event, sid: SessionId, u: UserId, role: Role)
    requires e.StartRegister? || e.End? || e.JoinRegister? || e.JoinConnect? || e.Leave?
    ensures Sits(Apply(s, e).value, sid, u, role) <==>
              || (e == JoinConnect(sid, u, role) && sid in s.rooms)
              || (!Decides(e, sid, u) && Sits(s, sid, u, role))
  {
    hide ApplyJoinConnect, ApplyLeave, ApplyEnd, ApplyJoinRegister, ApplyStartRegister;
    match e
    case JoinConnect(o, v, r) =>
      ConnectingSits(s, o, v, r, sid, u, role);
      assert Sits(s, sid, u, role) ==> sid in s.rooms;
    case Leave(o, v) => LeavingEmpties(s, o, v, sid, u, role);
    case End(o) => EndingEmpties(s, o, sid, u, role);
    case JoinRegister(o) => OpeningSparesRooms(s, o, Quiz([]), sid, u, role);
    case StartRegister(o, quiz) => OpeningSparesRooms(s, o, quiz, sid, u, role);
  }

  lemma TurnsSpareRooms(s: Service, sid: SessionId, c: nat)
    ensures ApplyAdvance(s, sid, c).Done? ==> ApplyAdvance(s, sid, c).value.rooms == s.rooms
    ensures ApplyStop(s, sid, c).rooms == s.rooms
  {
    hide Tracker.State.Inc;
  }

  lemma AnnouncingSparesRooms(s: Service, sid: SessionId, c: nat)
    ensures ApplyAnnounce(s, sid, c).Done? ==> ApplyAnnounce(s, sid, c).value.rooms == s.rooms
  {
    hide InBounds, Column;
  }

  lemma AnswersSpareRooms(s: Service, e: Event)
    requires e.JoinTrack? || e.Submit? || e.Record? || e.StartTrack?
    ensures Apply(s, e).Done? ==> Apply(s, e).value.rooms == s.rooms
  {
    hide Tracker.State.RecordAnswer, Tracker.State.AddParticipant, Tracker.State.NewSession;
  }

  lemma OthersSpareRooms(s: Service, e: Event)
    requires !(e.StartRegister? || e.End? || e.JoinRegister? || e.JoinConnect? || e.Leave?)
    ensures Apply(s, e).Done? ==> Apply(s, e).value.rooms == s.rooms
  {
    hide ApplyStartTrack, ApplyJoinTrack, ApplySubmit, ApplyReadIndex, ApplyGrade, ApplyRecord, ApplyAdvance, ApplyScore, ApplyAnnounce, ApplyStop;
    match e
    case Score(sid, c) => ScoreWrites(s, sid, c);
    case ReadIndex(w) => WorkerFollows(s, w);
    case Grade(w) => WorkerFollows(s, w);
    case Advance(sid, c) => TurnsSpareRooms(s, sid, c);
    case Announce(sid, c) => AnnouncingSparesRooms(s, sid, c);
    case Stop(sid, c) => TurnsSpareRooms(s, sid, c);
    case _ => AnswersSpareRooms(s, e);
  }

  /** In every run a user is in a room, in a role, exactly if the last word on the
      user since is a connection in that role to a registered session: neither the
      user has left, nor the session ended, nor has the user connected again. */
  lemma {:induction false} RoomsAreConnections(events: seq<Event>, s: Service, sid: SessionId, u: UserId, role: Role)
    requires Run(INITIAL, events) == Done(s)
    ensures (u in RoomOf(s, sid) && RoomOf(s, sid)[u] == role) <==> exists i: nat :: IsIn(events, i, sid, u, role)
    decreases |events|
  {
    hide Apply, IsIn, HolderOf, Decides;
    if events == [] {
      NobodyIn(sid, u, role);
    } else {
      var init, e := events[..|events| - 1], events[|events| - 1];
      var before := Run(INITIAL, init).value;
      RoomsAreConnections(init, before, sid, u, role);
      OneMoreEvent(events, sid, u, role);
      TrackedWhenOpened(init, before, sid);
      if e.StartRegister? || e.End? || e.JoinRegister? || e.JoinConnect? || e.Leave? {
        RegistryRooms(before, e, sid, u, role);
      } else {
        OthersSpareRooms(before, e);
        OthersDecideNothing(e, sid, u);
      }
    }
  }

  lemma NobodyIn(sid: SessionId, u: UserId, role: Role)
    ensures u !in RoomOf(INITIAL, sid) && !exists i: nat :: IsIn([], i, sid, u, role)
  {
  }

  lemma OthersDecideNothing(e: Event, sid: SessionId, u: UserId)
    requires !(e.StartRegister? || e.End? || e.JoinRegister? || e.JoinConnect? || e.Leave?)
    ensures !Decides(e, sid, u)
  {
  }

  // ---- who hears about an answer ----

  lemma AnnounceSends(s: Service, sid: SessionId, c: nat)
    requires Inv(s) && c < |s.Consumers(sid)| && s.Consumers(sid)[c].phase.Scored?
    ensures var q, r := s.Consumers(sid)[c].phase.qid - 1, ApplyAnnounce(s, sid, c);
            && r.Done? && sid in s.live.answers && InBounds(s.Slices(sid), q)
            && r.value.TraceOf(sid).sent == s.TraceOf(sid).sent + [Sent(q, FlagsFor(Column(s.Slices(sid), q), RoomOf(s, sid)))]
  {
    assert PartOk(PartOf(s, sid));
    var q := s.Consumers(sid)[c].phase.qid - 1;
    hide Inv, GameOk, GameContinues, InBounds, Column, FlagsFor, Elsewhere;
    GameAnnounces(PartOf(s, sid).Play(), c, Sent(q, map[]));
    AnnounceTouches(s, sid, c);
    hide ApplyAnnounce;
  }

  /** An announcement made in a run sends a flag to exactly the participants who are
      connected at that moment, whether or not they have answered; it says whether
      their answer to the question before the consumer's is right. */
  lemma AnnouncementsReachParticipants(events: seq<Event>, s: Service, sid: SessionId, c: nat, u: UserId)
    requires Run(INITIAL, events) == Done(s) && c < |s.Consumers(sid)| && s.Consumers(sid)[c].phase.Scored?
    ensures var q, r := s.Consumers(sid)[c].phase.qid - 1, Run(INITIAL, events + [Announce(sid, c)]);
            && r.Done?
            && exists f :: r.value.TraceOf(sid).sent == s.TraceOf(sid).sent + [f]
                           && f.question == q
                           && (u in f.flags <==> exists i: nat :: IsIn(events, i, sid, u, Participant))
                           && (u in f.flags ==>
                                 (f.flags[u] <==> u in s.Slices(sid) && 0 <= q < |s.Slices(sid)[u]| && s.Slices(sid)[u][q].correct))
  {
    hide IsIn, Inv, ApplyAnnounce;
    EveryRunIsSafe(events);
    assert (events + [Announce(sid, c)])[..|events|] == events;
    AnnounceSends(s, sid, c);
    RoomsAreConnections(events, s, sid, u, Participant);
    var q := s.Consumers(sid)[c].phase.qid - 1;
    var f := Sent(q, FlagsFor(Column(s.Slices(sid), q), RoomOf(s, sid)));
    assert Run(INITIAL, events + [Announce(sid, c)]).value.TraceOf(sid).sent == s.TraceOf(sid).sent + [f];
    hide Run;
  }
}
