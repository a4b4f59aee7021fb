/** The cache over whole runs: it mirrors the tracker, and a restart at any
    point reads the tracker back. */
module LiveQuizCache {
  import opened Quizzes
  import opened CacheKeys
  import opened RedisCache
  import opened Tracker
  import opened Scoring
  import opened LiveQuiz
  import opened LiveQuizStarts

  // ---- any session ids: the quiz states ----

  ghost predicate Mirrored(live: State) {
    QuizzesAgree(live.tracker, live.store.quizzes) && KeysApart(live.store.hashes)
  }

  lemma EventMirrors(s: Service, e: Event)
    requires Mirrored(s.live)
    ensures Apply(s, e).Done? ==> Mirrored(Apply(s, e).value.live)
  {
    hide Mirrored, ApplyStartTrack, ApplyAdvance, ApplyRecord, ApplyScore, ApplyAnnounce, ApplyJoinTrack, ApplyReadIndex, ApplyGrade;
    match e
    case StartTrack => StartTrackMirrors(s);
    case JoinTrack(sid, uid) => JoinTrackMirrors(s, sid, uid);
    case ReadIndex(w) => WorkerFollows(s, w);
    case Grade(w) => WorkerFollows(s, w);
    case Record(w) => RecordMirrors(s, w);
    case Advance(sid, c) => AdvanceMirrors(s, sid, c);
    case Score(sid, c) => ScoreWrites(s, sid, c);
    case Announce(sid, c) => AnnounceWrites(s, sid, c);
    case _ =>
  }

  lemma StartTrackMirrors(s: Service)
    requires Mirrored(s.live)
    ensures Mirrored(ApplyStartTrack(s).live)
  {
    hide QuizzesAgree, KeysApart, QuizKey;
    if s.starting.Registered? {
      PutQuizAgrees(s.live.tracker, s.live.store.quizzes, s.starting.sid, OngoingQuiz(-1, s.starting.quiz));
    }
  }

  lemma JoinTrackMirrors(s: Service, sid: SessionId, uid: UserId)
    requires Mirrored(s.live)
    ensures Mirrored(ApplyJoinTrack(s, sid, uid).live)
  {
    hide QuizzesAgree, KeysApart;
  }

  lemma RecordMirrors(s: Service, w: nat)
    requires Mirrored(s.live)
    ensures ApplyRecord(s, w).Done? ==> Mirrored(ApplyRecord(s, w).value.live)
  {
    hide QuizzesAgree, KeysApart, AnswersKey;
    if w in s.workers && s.workers[w].Graded? {
      var p := s.workers[w];
      if s.live.RecordAnswer(p.sid, p.uid, p.answer).Done? {
        RecordAnswerKeepsKeysApart(s.live, p.sid, p.uid, p.answer);
      }
    }
  }

  lemma AdvanceMirrors(s: Service, sid: SessionId, c: nat)
    requires Mirrored(s.live)
    ensures ApplyAdvance(s, sid, c).Done? ==> Mirrored(ApplyAdvance(s, sid, c).value.live)
  {
    hide Mirrored, State.Inc;
    IncMirrors(s.live, sid);
  }

  lemma AnnounceWrites(s: Service, sid: SessionId, c: nat)
    ensures ApplyAnnounce(s, sid, c).Done? ==>
              ApplyAnnounce(s, sid, c).value.(consumers := s.consumers, traces := s.traces) == s
  {
    hide InBounds, Column;
  }

  lemma EmptyMirrors()
    ensures Mirrored(EMPTY)
  {
  }

  lemma IncMirrors(live: State, sid: SessionId)
    requires Mirrored(live)
    ensures Mirrored(live.Inc(sid))
  {
    hide QuizKey, KeysApart;
    if live.CanInc(sid) {
      assert live.store.quizzes[QuizKey(sid)] == live.tracker[sid];
      PutQuizAgrees(live.tracker, live.store.quizzes, sid, live.Inc(sid).tracker[sid]);
    }
  }

  lemma {:induction false} RunMirrors(events: seq<Event>)
    ensures Run(INITIAL, events).Done? ==> Mirrored(Run(INITIAL, events).value.live)
    decreases |events|
  {
    hide Apply, Mirrored;
    if events == [] {
      EmptyMirrors();
    } else {
      RunMirrors(events[..|events| - 1]);
      if Run(INITIAL, events[..|events| - 1]).Done? {
        EventMirrors(Run(INITIAL, events[..|events| - 1]).value, events[|events| - 1]);
      }
    }
  }

  /** Restarting after any run restores the tracker exactly when no tracked
      session id holds a colon. */
  lemma RestartAfterAnyRun(events: seq<Event>, s: Service)
    requires Run(INITIAL, events) == Done(s)
    ensures s.live.Restored().tracker == s.live.tracker <==> forall sid :: sid in s.live.tracker ==> ColonFree(sid)
  {
    RunMirrors(events);
    RestoreRebuildsTracker(s.live);
  }

  /** What comes back after any run: the first pieces of the tracked ids, with the
      quiz and the index of the session whose whole id that is. */
  lemma RestartBringsBack(events: seq<Event>, s: Service, sid: SessionId)
    requires Run(INITIAL, events) == Done(s)
    ensures var r := s.live.Restored();
            && r.answers == map[] && r.store == s.live.store
            && (sid in r.tracker <==> exists o :: o in s.live.tracker && Split(o)[0] == sid)
            && (sid in r.tracker ==> r.tracker[sid] == if sid in s.live.tracker then s.live.tracker[sid] else NO_QUIZ)
  {
    hide Run, Split, State.Restored;
    RunMirrors(events);
    RestoredAre(s.live, sid);
  }

  // ---- session ids that do not collide: the answers as well ----

  ghost predicate InStep(s: Service) {
    s.live.WellFormed() && s.live.Synced()
  }

  lemma EventKeepsInStep(s: Service, e: Event)
    requires InStep(s) && Apart(s.live.tracker.Keys)
    ensures Apply(s, e).Done? ==> InStep(Apply(s, e).value)
  {
    hide InStep, ApplyStartTrack, ApplyAdvance, ApplyRecord, ApplyScore, ApplyAnnounce, ApplyJoinTrack, ApplyReadIndex, ApplyGrade;
    match e
    case StartTrack => StartTrackKeepsInStep(s);
    case JoinTrack(sid, uid) => JoinTrackKeepsInStep(s, sid, uid);
    case ReadIndex(w) =>
      WorkerFollows(s, w);
      SameLive(s, ApplyReadIndex(s, w));
    case Grade(w) =>
      WorkerFollows(s, w);
      SameLive(s, ApplyGrade(s, w));
    case Advance(sid, c) => AdvanceKeepsInStep(s, sid, c);
    case Record(w) => RecordKeepsInStep(s, w);
    case Score(sid, c) =>
      ScoreWrites(s, sid, c);
      if ApplyScore(s, sid, c).Done? {
        SameLive(s, ApplyScore(s, sid, c).value);
      }
    case Announce(sid, c) =>
      AnnounceWrites(s, sid, c);
      if ApplyAnnounce(s, sid, c).Done? {
        SameLive(s, ApplyAnnounce(s, sid, c).value);
      }
    case _ => SameLive(s, Apply(s, e).value);
  }

  lemma SameLive(s: Service, t: Service)
    requires InStep(s) && t.live == s.live
    ensures InStep(t)
  {
  }

  lemma StartTrackKeepsInStep(s: Service)
    requires InStep(s) && Apart(s.live.tracker.Keys)
    ensures InStep(ApplyStartTrack(s))
  {
    hide State.WellFormed, State.Synced;
    if s.starting.Registered? {
      NewSessionSyncs(s.live, s.starting.sid, s.starting.quiz);
    }
  }

  lemma JoinTrackKeepsInStep(s: Service, sid: SessionId, uid: UserId)
    requires InStep(s) && Apart(s.live.tracker.Keys)
    ensures InStep(ApplyJoinTrack(s, sid, uid))
  {
    assert s.live.answers.Keys == s.live.tracker.Keys;
    hide State.WellFormed, State.Synced;
    if s.live.AddParticipant(sid, uid).Done? {
      AddParticipantSyncs(s.live, sid, uid);
    }
  }

  lemma AdvanceKeepsInStep(s: Service, sid: SessionId, c: nat)
    requires InStep(s) && Apart(s.live.tracker.Keys)
    ensures ApplyAdvance(s, sid, c).Done? ==> InStep(ApplyAdvance(s, sid, c).value)
  {
    hide State.WellFormed, State.Synced, State.Inc;
    IncSyncs(s.live, sid);
  }

  lemma RecordKeepsInStep(s: Service, w: nat)
    requires InStep(s) && Apart(s.live.tracker.Keys)
    ensures ApplyRecord(s, w).Done? ==> InStep(ApplyRecord(s, w).value)
  {
    assert s.live.answers.Keys == s.live.tracker.Keys;
    hide State.WellFormed, State.Synced, AnswersKey;
    if w in s.workers && s.workers[w].Graded? {
      var p := s.workers[w];
      if s.live.RecordAnswer(p.sid, p.uid, p.answer).Done? {
        RecordAnswerSyncs(s.live, p.sid, p.uid, p.answer);
      }
    }
  }

  lemma TrackerGrows(s: Service, e: Event)
    requires Apply(s, e).Done?
    ensures s.live.tracker.Keys <= Apply(s, e).value.live.tracker.Keys
  {
    hide Apply;
    EventFollows(s, e);
    var t := Apply(s, e).value;
    assert RegistryOf(s).quizzes.Keys <= RegistryOf(t).quizzes.Keys;
    assert RegistryOf(s).quizzes.Keys == s.live.tracker.Keys && RegistryOf(t).quizzes.Keys == t.live.tracker.Keys;
  }

  lemma {:induction false} RunKeepsInStep(events: seq<Event>, s: Service)
    requires Run(INITIAL, events) == Done(s) && Apart(s.live.tracker.Keys)
    ensures InStep(s)
    decreases |events|
  {
    hide Apply, InStep, QuizzesAgree, AnswersAgree;
    if events == [] {
      NothingInStep();
    } else {
      var before := Run(INITIAL, events[..|events| - 1]).value;
      TrackerGrows(before, events[|events| - 1]);
      RunKeepsInStep(events[..|events| - 1], before);
      EventKeepsInStep(before, events[|events| - 1]);
    }
  }

  lemma NothingInStep()
    ensures InStep(INITIAL)
  {
  }

  /** After any run in which no two tracked session ids collide, the cache holds
      every quiz state and, for every participant, exactly the hash that zero-fills
      to the slice in memory. */
  lemma CacheMirrorsMemory(events: seq<Event>, s: Service, sid: SessionId, uid: UserId)
    requires Run(INITIAL, events) == Done(s) && Apart(s.live.tracker.Keys)
    ensures sid in s.live.tracker ==> Get(s.live.store.quizzes, QuizKey(sid), NO_QUIZ) == s.live.tracker[sid]
    ensures QuizKey(sid) in s.live.store.quizzes <==> sid in s.live.tracker
    ensures uid in s.Slices(sid) ==>
              Completes(s.Slices(sid)[uid], Get(s.live.store.hashes, AnswersKey(sid, uid), map[]))
    ensures uid !in s.Slices(sid) && Apart(s.live.tracker.Keys + {sid}) ==> AnswersKey(sid, uid) !in s.live.store.hashes
  {
    hide QuizKey, AnswersKey;
    RunKeepsInStep(events, s);
    if QuizKey(sid) in s.live.store.quizzes {
      QuizKeyBodyOf(sid);
    }
    if uid in s.Slices(sid) {
      assert Holds(s.live.answers, sid, uid);
    } else if Apart(s.live.tracker.Keys + {sid}) && AnswersKey(sid, uid) in s.live.store.hashes {
      var o, u :| Holds(s.live.answers, o, u) && AnswersKey(sid, uid) == AnswersKey(o, u);
      AnswersKeyInjective(sid, uid, o, u);
    }
  }
}
