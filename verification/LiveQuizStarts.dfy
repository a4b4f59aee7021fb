/** When a session.start event takes hold, and what a restart of the service
    leaves behind: the registry and the tracker's keys as a machine of their own,
    which every run of the service follows. */
module LiveQuizStarts {
  import opened Quizzes
  import RedisCache
  import opened Tracker
  import opened Scoring
  import opened LiveQuiz
  import LiveQuizRuns

  // ---- the registry alone ----

  datatype Registry = Registry(
    rooms: set<SessionId>,
    starting: Starting,
    quizzes: map<SessionId, Quiz>,
    answers: set<SessionId>)

  function RegistryOf(s: Service): Registry {
    Registry(s.rooms.Keys, s.starting, map sid | sid in s.live.tracker :: s.live.tracker[sid].quizData, s.live.answers.Keys)
  }

  function Step(r: Registry, e: Event): Registry {
    match e
    case StartRegister(sid, quiz) =>
      if !r.starting.Free? || sid in r.rooms then r
      else r.(rooms := r.rooms + {sid}, starting := Registered(sid, quiz))
    case StartTrack =>
      if r.starting.Free? then r
      else if r.starting.sid in r.quizzes then r.(starting := Free)
      else r.(starting := Free,
              quizzes := r.quizzes[r.starting.sid := r.starting.quiz],
              answers := r.answers + {r.starting.sid})
    case End(sid) => r.(rooms := r.rooms - {sid})
    case JoinRegister(sid) => r.(rooms := r.rooms + {sid})
    case _ => r
  }

  function Steps(r: Registry, events: seq<Event>): Registry
    decreases |events|
  {
    if events == [] then r else Step(Steps(r, events[..|events| - 1]), events[|events| - 1])
  }

  lemma LifecycleFollows(s: Service, e: Event)
    requires e.StartRegister? || e.End? || e.JoinRegister?
    ensures RegistryOf(Apply(s, e).value) == Step(RegistryOf(s), e)
  {
  }

  lemma StartTrackFollows(s: Service)
    ensures RegistryOf(ApplyStartTrack(s)) == Step(RegistryOf(s), StartTrack)
  {
    hide RedisCache.Store.PutQuiz;
  }

  /** The registry, the quizzes and the names in the answers map are as before. */
  ghost predicate SameRegistry(s: Service, t: Service) {
    && t.rooms.Keys == s.rooms.Keys && t.starting == s.starting
    && t.live.answers.Keys == s.live.answers.Keys
    && t.live.tracker.Keys == s.live.tracker.Keys
    && forall sid :: sid in s.live.tracker ==> t.live.tracker[sid].quizData == s.live.tracker[sid].quizData
  }

  lemma SameFollows(s: Service, t: Service)
    requires SameRegistry(s, t)
    ensures RegistryOf(t) == RegistryOf(s)
  {
  }

  lemma OtherFollows(s: Service, e: Event)
    requires e.JoinConnect? || e.Leave? || e.Stop? || e.Submit?
    ensures RegistryOf(Apply(s, e).value) == RegistryOf(s)
  {
  }

  lemma JoinTrackFollows(s: Service, sid: SessionId, uid: UserId)
    ensures SameRegistry(s, ApplyJoinTrack(s, sid, uid))
  {
  }

  lemma WorkerFollows(s: Service, w: nat)
    ensures ApplyReadIndex(s, w) == s.(workers := ApplyReadIndex(s, w).workers)
    ensures ApplyGrade(s, w) == s.(workers := ApplyGrade(s, w).workers)
    ensures SameRegistry(s, ApplyReadIndex(s, w)) && SameRegistry(s, ApplyGrade(s, w))
  {
    hide Quiz.Key;
  }

  lemma RecordFollows(s: Service, w: nat)
    ensures ApplyRecord(s, w).Done? ==> SameRegistry(s, ApplyRecord(s, w).value)
  {
  }

  lemma AdvanceFollows(s: Service, sid: SessionId, c: nat)
    ensures ApplyAdvance(s, sid, c).Done? ==> SameRegistry(s, ApplyAdvance(s, sid, c).value)
  {
    hide Tracker.State.Inc;
    if sid in s.live.tracker {
      LiveQuizRuns.IncMoves(s.live, sid);
    }
  }

  /** A scoring writes the log, a board and where its consumer stands. */
  lemma ScoreWrites(s: Service, sid: SessionId, c: nat)
    ensures ApplyScore(s, sid, c).Done? ==>
              ApplyScore(s, sid, c).value.(consumers := s.consumers, traces := s.traces, boards := s.boards) == s
  {
    hide PointsOf, AddPoints, InBounds, Column;
  }

  lemma ScoreFollows(s: Service, sid: SessionId, c: nat)
    ensures ApplyScore(s, sid, c).Done? ==> SameRegistry(s, ApplyScore(s, sid, c).value)
  {
    hide ApplyScore;
    ScoreWrites(s, sid, c);
  }

  lemma AnnounceFollows(s: Service, sid: SessionId, c: nat)
    ensures ApplyAnnounce(s, sid, c).Done? ==> SameRegistry(s, ApplyAnnounce(s, sid, c).value)
  {
    hide InBounds, Column;
  }

  lemma EventFollows(s: Service, e: Event)
    ensures Apply(s, e).Done? ==> RegistryOf(Apply(s, e).value) == Step(RegistryOf(s), e)
  {
    hide RegistryOf, SameRegistry, ApplyAdvance, ApplyScore, ApplyAnnounce, ApplyRecord, ApplyJoinTrack, ApplyGrade, ApplyReadIndex;
    match e {
      case StartTrack => StartTrackFollows(s);
      case JoinTrack(sid, uid) => JoinTrackFollows(s, sid, uid);
      case ReadIndex(w) => WorkerFollows(s, w);
      case Grade(w) => WorkerFollows(s, w);
      case Record(w) => RecordFollows(s, w);
      case Advance(sid, c) => AdvanceFollows(s, sid, c);
      case Score(sid, c) => ScoreFollows(s, sid, c);
      case Announce(sid, c) => AnnounceFollows(s, sid, c);
      case JoinConnect(_, _, _) => OtherFollows(s, e);
      case Leave(_, _) => OtherFollows(s, e);
      case Stop(_, _) => OtherFollows(s, e);
      case Submit(_, _, _, _, _) => OtherFollows(s, e);
      case _ => LifecycleFollows(s, e);
    }
    if Apply(s, e).Done? && SameRegistry(s, Apply(s, e).value) {
      SameFollows(s, Apply(s, e).value);
    }
  }

  /** Whatever the goroutines, the consumers and the participants do in between,
      the registry of a run is that of its starts, joins and ends. */
  lemma {:induction false} RunFollows(s: Service, events: seq<Event>)
    ensures Run(s, events).Done? ==> RegistryOf(Run(s, events).value) == Steps(RegistryOf(s), events)
    decreases |events|
  {
    hide Apply, RegistryOf, Step;
    if events != [] {
      var init := events[..|events| - 1];
      RunFollows(s, init);
      if Run(s, init).Done? {
        EventFollows(Run(s, init).value, events[|events| - 1]);
      }
    }
  }

  // ---- who came first ----

  /** Who registered a session since it last ended. */
  datatype Holder = Nobody | ByStart | ByJoin

  /** The session.start consumer is between its two steps. */
  predicate Busy(events: seq<Event>)
    decreases |events|
  {
    events != [] &&
    (var init, last := events[..|events| - 1], events[|events| - 1];
     match last
     case StartRegister(sid, _) => Busy(init) || HolderOf(init, sid).Nobody?
     case StartTrack => false
     case _ => Busy(init))
  }

  function HolderOf(events: seq<Event>, sid: SessionId): Holder
    decreases |events|
  {
    if events == [] then Nobody
    else
      var init, last := events[..|events| - 1], events[|events| - 1];
      var before := HolderOf(init, sid);
      if last == End(sid) then Nobody
      else if !before.Nobody? then before
      else if last == JoinRegister(sid) then ByJoin
      else if last.StartRegister? && last.sid == sid && !Busy(init) then ByStart
      else Nobody
  }

  /** The i-th event is a start that finds its session unregistered. */
  predicate Opens(events: seq<Event>, i: nat, sid: SessionId) {
    && i < |events| && events[i].StartRegister? && events[i].sid == sid
    && !Busy(events[..i]) && HolderOf(events[..i], sid).Nobody?
  }

  ghost predicate Opened(events: seq<Event>, sid: SessionId) {
    exists i: nat :: Opens(events, i, sid)
  }

  predicate First(events: seq<Event>, i: nat, sid: SessionId) {
    Opens(events, i, sid) && forall j: nat :: j < i ==> !Opens(events, j, sid)
  }

  lemma OpensInit(events: seq<Event>, i: nat, sid: SessionId)
    requires events != [] && i < |events| - 1
    ensures Opens(events[..|events| - 1], i, sid) <==> Opens(events, i, sid)
  {
    assert events[..|events| - 1][..i] == events[..i];
  }

  lemma OpenedGrows(events: seq<Event>, sid: SessionId)
    requires events != []
    ensures var init, last := events[..|events| - 1], |events| - 1;
            && (Opened(events, sid) <==> Opened(init, sid) || Opens(events, last, sid))
            && (forall i: nat :: i < last ==> (First(events, i, sid) <==> First(init, i, sid)))
            && (First(events, last, sid) <==> Opens(events, last, sid) && !Opened(init, sid))
  {
    var init, last := events[..|events| - 1], |events| - 1;
    forall i: nat | i < last ensures Opens(init, i, sid) <==> Opens(events, i, sid) {
      OpensInit(events, i, sid);
    }
    forall i: nat ensures Opens(init, i, sid) ==> i < last {
    }
  }

  /** The registry r of a run, read off its events; base is the registry the run
      began with. */
  ghost predicate Explains(events: seq<Event>, base: Registry, r: Registry, sid: SessionId) {
    && (sid in r.rooms <==> !HolderOf(events, sid).Nobody?)
    && (r.starting.Free? <==> !Busy(events))
    && (sid in base.quizzes ==>
          sid in r.quizzes && r.quizzes[sid] == base.quizzes[sid] && (sid in r.answers <==> sid in base.answers))
    && (sid !in base.quizzes ==>
          && (sid in r.answers <==> sid in r.quizzes || sid in base.answers)
          && (Opened(events, sid) <==> sid in r.quizzes || (r.starting.Registered? && r.starting.sid == sid))
          && (forall i: nat :: First(events, i, sid) ==>
                if sid in r.quizzes then r.quizzes[sid] == events[i].quiz
                else r.starting.Registered? && r.starting.sid == sid && r.starting.quiz == events[i].quiz))
  }

  lemma StepExplains(events: seq<Event>, base: Registry, r: Registry, sid: SessionId)
    requires events != [] && Explains(events[..|events| - 1], base, r, sid)
    requires events[|events| - 1].StartRegister? ==> Explains(events[..|events| - 1], base, r, events[|events| - 1].sid)
    ensures Explains(events, base, Step(r, events[|events| - 1]), sid)
  {
    OpenedGrows(events, sid);
    hide Opened, First;
  }

  lemma NothingExplained(base: Registry, sid: SessionId)
    requires base.rooms == {} && base.starting.Free?
    ensures Explains([], base, base, sid)
  {
  }

  lemma {:induction false} StepsExplain(base: Registry, events: seq<Event>, sid: SessionId)
    requires base.rooms == {} && base.starting.Free?
    ensures Explains(events, base, Steps(base, events), sid)
    decreases |events|
  {
    hide Step, Explains;
    if events == [] {
      NothingExplained(base, sid);
    } else {
      var init, last := events[..|events| - 1], events[|events| - 1];
      StepsExplain(base, init, sid);
      if last.StartRegister? {
        StepsExplain(base, init, last.sid);
      }
      StepExplains(events, base, Steps(base, init), sid);
    }
  }

  // ---- when a start takes hold ----

  lemma {:induction false} StartersOpen(events: seq<Event>, sid: SessionId)
    requires HolderOf(events, sid).ByStart?
    ensures Opened(events, sid)
    decreases |events|
  {
    OpenedGrows(events, sid);
    if HolderOf(events[..|events| - 1], sid).ByStart? {
      StartersOpen(events[..|events| - 1], sid);
    } else {
      assert Opens(events, |events| - 1, sid);
    }
  }

  lemma RunExplained(s: Service, events: seq<Event>, t: Service, sid: SessionId)
    requires s.rooms == map[] && s.starting.Free? && Run(s, events) == Done(t)
    ensures Explains(events, RegistryOf(s), RegistryOf(t), sid)
  {
    RunFollows(s, events);
    StepsExplain(RegistryOf(s), events, sid);
  }

  /** In every run a session is registered by whoever came first since its last
      end, and it is tracked, with its answers, once some start has found it
      unregistered; it then keeps the quiz of the first such start. */
  lemma TrackedWhenOpened(events: seq<Event>, s: Service, sid: SessionId)
    requires Run(INITIAL, events) == Done(s)
    ensures sid in s.rooms <==> !HolderOf(events, sid).Nobody?
    ensures sid in s.live.answers <==> sid in s.live.tracker
    ensures Opened(events, sid) <==> sid in s.live.tracker || (s.starting.Registered? && s.starting.sid == sid)
    ensures forall i: nat :: First(events, i, sid) && sid in s.live.tracker ==> s.live.tracker[sid].quizData == events[i].quiz
  {
    RunExplained(INITIAL, events, s, sid);
  }

  /** The two steps of a start, taken one after the other. */
  lemma StartInOneGo(s: Service, sid: SessionId, quiz: Quiz)
    requires s.starting.Free?
    ensures ApplyStartTrack(ApplyStartRegister(s, sid, quiz)) ==
            if sid in s.rooms then s
            else s.(live := s.live.NewSession(sid, quiz),
                    rooms := s.rooms[sid := map[]],
                    consumers := s.consumers[sid := s.Consumers(sid) + [Consumer(Idle, false)]],
                    tags := s.tags[sid := |s.Consumers(sid)|])
  {
    hide Tracker.State.NewSession;
  }

  /** A start delivered to a reached service is without effect on the tracker
      exactly if no start has ever found the session unregistered and a websocket
      join registered it first since its last end. Participants' joins panic after
      it exactly then. */
  lemma StartTakesHold(events: seq<Event>, s: Service, sid: SessionId, quiz: Quiz, u: UserId)
    requires Run(INITIAL, events) == Done(s) && s.starting.Free?
    ensures var t := ApplyStartTrack(ApplyStartRegister(s, sid, quiz));
            && (sid in t.live.tracker <==> sid in s.live.tracker || sid !in s.rooms)
            && (sid !in t.live.tracker <==> HolderOf(events, sid).ByJoin? && !Opened(events, sid))
            && (sid in t.live.tracker ==>
                  t.live.tracker[sid] == if sid in s.live.tracker then s.live.tracker[sid] else OngoingQuiz(-1, quiz))
            && (t.live.AddParticipant(sid, u).Panic? <==> sid !in t.live.tracker)
  {
    TrackedWhenOpened(events, s, sid);
    if HolderOf(events, sid).ByStart? {
      StartersOpen(events, sid);
    }
    StartInOneGo(s, sid, quiz);
    hide ApplyStartTrack, ApplyStartRegister, HolderOf, Opened, First, RedisCache.Store.PutQuiz;
  }

  /** Registered by a join, with no start event under way. */
  predicate Ignored(r: Registry, sid: SessionId) {
    && sid in r.rooms && sid !in r.quizzes && sid !in r.answers
    && !(r.starting.Registered? && r.starting.sid == sid)
  }

  /** A reached session is in that state exactly if a join came first. */
  lemma IgnoredWhenJoinedFirst(events: seq<Event>, s: Service, sid: SessionId)
    requires Run(INITIAL, events) == Done(s)
    ensures Ignored(RegistryOf(s), sid) <==> HolderOf(events, sid).ByJoin? && !Opened(events, sid)
  {
    TrackedWhenOpened(events, s, sid);
    if HolderOf(events, sid).ByStart? {
      StartersOpen(events, sid);
    }
  }

  lemma {:induction false} StaysIgnored(r: Registry, events: seq<Event>, sid: SessionId)
    requires Ignored(r, sid) && End(sid) !in events
    ensures Ignored(Steps(r, events), sid)
    decreases |events|
  {
    if events != [] {
      assert events[|events| - 1] in events;
      StaysIgnored(r, events[..|events| - 1], sid);
    }
  }

  /** Until the session ends its starts are void and every participant's join
      panics; the first start after the end takes hold. */
  lemma LateStartIsIgnored(s: Service, sid: SessionId, events: seq<Event>, t: Service, u: UserId, quiz: Quiz)
    requires Ignored(RegistryOf(s), sid) && End(sid) !in events && Run(s, events) == Done(t)
    ensures sid !in t.live.tracker && t.live.AddParticipant(sid, u).Panic?
    ensures t.starting.Free? ==>
              var again := ApplyStartTrack(ApplyStartRegister(ApplyEnd(t, sid), sid, quiz));
              && sid in again.live.tracker && again.live.tracker[sid] == OngoingQuiz(-1, quiz)
              && again.live.AddParticipant(sid, u).Done?
  {
    RunFollows(s, events);
    StaysIgnored(RegistryOf(s), events, sid);
    if t.starting.Free? {
      var ended := ApplyEnd(t, sid);
      assert sid !in ended.rooms && ended.live == t.live;
      StartInOneGo(ended, sid, quiz);
      hide ApplyStartTrack, ApplyStartRegister, ApplyEnd, RedisCache.Store.PutQuiz;
    }
  }

  /** Ending a tracked session and starting it again resumes it: same quiz, same
      index, same answers, whatever quiz the new start event carries. Consumers
      that are inside a turn go on beside the new one. */
  lemma RestartResumes(s: Service, sid: SessionId, quiz: Quiz)
    requires sid in s.live.tracker && s.starting.Free?
    ensures var t := ApplyStartTrack(ApplyStartRegister(ApplyEnd(s, sid), sid, quiz));
            && t.live == s.live && t.traces == s.traces && t.boards == s.boards && t.workers == s.workers
            && t.rooms == s.rooms[sid := map[]]
            && t.tags == s.tags[sid := |s.Consumers(sid)|]
            && t.Consumers(sid) == CancelTagged(s, sid) + [Consumer(Idle, false)]
  {
    hide ApplyEnd, CancelTagged, ApplyStartTrack, ApplyStartRegister;
    EndCancels(s, sid);
    StartInOneGo(ApplyEnd(s, sid), sid, quiz);
    assert (s.rooms - {sid})[sid := map[]] == s.rooms[sid := map[]];
    assert (s.tags - {sid})[sid := |s.Consumers(sid)|] == s.tags[sid := |s.Consumers(sid)|];
  }

  function CancelTagged(s: Service, sid: SessionId): seq<Consumer> {
    if sid in s.tags && s.tags[sid] < |s.Consumers(sid)| then Cancel(s.Consumers(sid), s.tags[sid]) else s.Consumers(sid)
  }

  lemma EndCancels(s: Service, sid: SessionId)
    ensures var ended := ApplyEnd(s, sid);
            && ended.(rooms := s.rooms, tags := s.tags, consumers := s.consumers) == s
            && ended.rooms == s.rooms - {sid} && ended.tags == s.tags - {sid}
            && ended.Consumers(sid) == CancelTagged(s, sid) && |ended.Consumers(sid)| == |s.Consumers(sid)|
  {
  }

  // ---- a restarted service ----

  /** The process starts anew; the cache and the leaderboard service live on. */
  ghost function Restart(s: Service): Service {
    INITIAL.(live := s.live.Restored(), boards := s.boards)
  }

  /** In every run after a restart a session takes participants exactly if it was
      first tracked after the restart. */
  lemma RestoredSessionsPanic(s: Service, events: seq<Event>, t: Service, sid: SessionId, u: UserId)
    requires Run(Restart(s), events) == Done(t)
    ensures sid in Restart(s).live.tracker ==>
              sid in t.live.tracker && t.live.Quiz(sid) == Restart(s).live.Quiz(sid) && sid !in t.live.answers
    ensures t.live.AddParticipant(sid, u).Done? <==> sid in t.live.tracker && sid !in Restart(s).live.tracker
    ensures t.starting.Free? ==>
              (t.live.AddParticipant(sid, u).Done? <==> sid !in Restart(s).live.tracker && Opened(events, sid))
    ensures forall w :: w in t.workers && t.workers[w].Graded? && t.workers[w].sid in Restart(s).live.tracker ==>
                          ApplyRecord(t, w).Panic?
  {
    RunExplained(Restart(s), events, t, sid);
    forall w | w in t.workers && t.workers[w].Graded? && t.workers[w].sid in Restart(s).live.tracker
      ensures ApplyRecord(t, w).Panic?
    {
      RunExplained(Restart(s), events, t, t.workers[w].sid);
    }
  }

  ghost predicate NothingScored(s: Service, sid: SessionId, board: Totals) {
    s.Board(sid) == board && forall b :: b in s.TraceOf(sid).batches ==> b.entries == map[]
  }

  lemma ScoringNobody(s: Service, sid: SessionId, c: nat, board: Totals)
    requires NothingScored(s, sid, board) && sid !in s.live.answers
    ensures ApplyScore(s, sid, c).Done? ==> NothingScored(ApplyScore(s, sid, c).value, sid, board)
  {
    hide PointsOf, AddPoints;
  }

  lemma ScoringOthers(s: Service, sid: SessionId, c: nat, o: SessionId, board: Totals)
    requires NothingScored(s, sid, board) && o != sid
    ensures ApplyScore(s, o, c).Done? ==> NothingScored(ApplyScore(s, o, c).value, sid, board)
  {
    hide PointsOf, AddPoints, InBounds, Column;
  }

  lemma TurnScoresNobody(s: Service, sid: SessionId, c: nat, o: SessionId, board: Totals)
    requires NothingScored(s, sid, board)
    ensures ApplyAdvance(s, o, c).Done? ==> NothingScored(ApplyAdvance(s, o, c).value, sid, board)
    ensures ApplyAnnounce(s, o, c).Done? ==> NothingScored(ApplyAnnounce(s, o, c).value, sid, board)
  {
    hide InBounds, Column, Tracker.State.Inc;
  }

  lemma RecordScoresNobody(s: Service, sid: SessionId, w: nat, board: Totals)
    requires NothingScored(s, sid, board)
    ensures ApplyRecord(s, w).Done? ==> NothingScored(ApplyRecord(s, w).value, sid, board)
  {
    hide Tracker.State.RecordAnswer;
  }

  lemma LifecycleKeepsLog(s: Service, e: Event)
    requires e.StartRegister? || e.StartTrack? || e.End? || e.JoinRegister? || e.JoinConnect? || e.Leave? || e.Stop?
    ensures Apply(s, e).Done? && Apply(s, e).value.boards == s.boards && Apply(s, e).value.traces == s.traces
  {
    hide Tracker.State.NewSession;
  }

  lemma AnsweringKeepsLog(s: Service, e: Event)
    requires e.JoinTrack? || e.Submit? || e.ReadIndex? || e.Grade?
    ensures Apply(s, e).Done? && Apply(s, e).value.boards == s.boards && Apply(s, e).value.traces == s.traces
  {
    hide Tracker.State.AddParticipant, ApplyReadIndex, ApplyGrade;
    match e
    case ReadIndex(w) => WorkerFollows(s, w);
    case Grade(w) => WorkerFollows(s, w);
    case _ =>
  }

  lemma EventScoresNobody(s: Service, sid: SessionId, e: Event, board: Totals)
    requires NothingScored(s, sid, board) && sid !in s.live.answers
    ensures Apply(s, e).Done? ==> NothingScored(Apply(s, e).value, sid, board)
  {
    hide ApplyAdvance, ApplyScore, ApplyAnnounce, ApplyRecord;
    match e
    case Score(o, c) =>
      if o == sid {
        ScoringNobody(s, sid, c, board);
      } else {
        ScoringOthers(s, sid, c, o, board);
      }
    case Advance(o, c) => TurnScoresNobody(s, sid, c, o, board);
    case Announce(o, c) => TurnScoresNobody(s, sid, c, o, board);
    case Record(w) => RecordScoresNobody(s, sid, w, board);
    case _ =>
      hide Apply;
      if e.StartRegister? || e.StartTrack? || e.End? || e.JoinRegister? || e.JoinConnect? || e.Leave? || e.Stop? {
        LifecycleKeepsLog(s, e);
      } else {
        AnsweringKeepsLog(s, e);
      }
  }

  /** A restored session is never scored again: every batch is empty and its
      totals are those the leaderboard service already had. */
  lemma {:induction false} RestoredSessionsScoreNothing(s: Service, events: seq<Event>, t: Service, sid: SessionId)
    requires Run(Restart(s), events) == Done(t) && sid in Restart(s).live.tracker
    ensures t.Board(sid) == s.Board(sid)
    ensures forall b :: b in t.TraceOf(sid).batches ==> b.entries == map[]
    decreases |events|
  {
    hide Apply;
    if events != [] {
      var m := Run(Restart(s), events[..|events| - 1]).value;
      RestoredSessionsScoreNothing(s, events[..|events| - 1], m, sid);
      RestoredSessionsPanic(s, events[..|events| - 1], m, sid, "");
      EventScoresNobody(m, sid, events[|events| - 1], s.Board(sid));
    }
  }
}
