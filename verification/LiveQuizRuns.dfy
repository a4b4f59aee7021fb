/** The session invariant lifted to the whole service and to every run. */
module LiveQuizRuns {
  import opened Options
  import opened Quizzes
  import RedisCache
  import opened Tracker
  import opened Scoring
  import opened LiveQuiz
  import opened LiveQuizSafety

  // ---- one session's part of the service ----

  function Lookup<K, V>(m: map<K, V>, k: K): Option<V> {
    if k in m then Some(m[k]) else None
  }

  datatype Part = Part(
    entry: Option<OngoingQuiz>,
    slices: Option<Slices>,
    trace: Option<Trace>,
    consumers: seq<Consumer>,
    board: Option<Totals>)
  {
    predicate Tracked() {
      entry.Some? && slices.Some?
    }

    function Play(): Game
      requires Tracked()
    {
      LiveQuizSafety.Game.Game(entry.value.quizData, entry.value.currQuestionIdx, slices.value,
                               if trace.Some? then trace.value else NO_TRACE,
                               consumers,
                               if board.Some? then board.value else map[])
    }
  }

  const NOTHING := Part(None, None, None, [], None)

  function PartOf(s: Service, sid: SessionId): Part {
    Part(Lookup(s.live.tracker, sid), Lookup(s.live.answers, sid), Lookup(s.traces, sid),
         s.Consumers(sid), Lookup(s.boards, sid))
  }

  /** Tracked and answers name the same sessions; an unknown session has nothing. */
  ghost predicate PartOk(p: Part) {
    if p.entry.Some? then p.slices.Some? && GameOk(p.Play()) else p == NOTHING
  }

  /** What a goroutine carries agrees with the session it read. */
  ghost predicate WorkerOk(p: Part, w: Worker) {
    var quiz := if p.entry.Some? then p.entry.value.quizData else Quiz([]);
    var advances := if p.trace.Some? then p.trace.value.advances else 0;
    match w
    case Submitted(_, _, _, _) => true
    case Looked(_, _, _, _, qid, readAt) => readAt <= advances && qid == IndexAfter(readAt, quiz.Len())
    case Graded(_, _, answer, qid, readAt) =>
      && p.entry.Some?
      && readAt <= advances && qid == IndexAfter(readAt, quiz.Len())
      && answer.answered && answer.correct == (answer.option == quiz.Key(qid))
    case Finished => true
  }

  ghost predicate WorkerFits(s: Service, w: nat) {
    w in s.workers && (s.workers[w].Finished? || WorkerOk(PartOf(s, s.workers[w].sid), s.workers[w]))
  }

  ghost predicate Inv(s: Service) {
    && (forall sid :: PartOk(PartOf(s, sid)))
    && (forall w :: w in s.workers ==> WorkerFits(s, w))
  }

  // ---- what never changes back ----

  ghost predicate Continues(p: Part, q: Part) {
    p.Tracked() ==> q.Tracked() && GameContinues(p.Play(), q.Play())
  }

  lemma ContinuesTransitive(p: Part, q: Part, r: Part)
    requires Continues(p, q) && Continues(q, r)
    ensures Continues(p, r)
  {
    hide GameContinues;
    if p.Tracked() {
      GameContinuesTransitive(p.Play(), q.Play(), r.Play());
    }
  }

  lemma SelfContinues(p: Part)
    ensures Continues(p, p)
  {
  }

  // ---- an event touches one session ----

  /** Every session but sid stays as it is, and so do the goroutines. */
  ghost predicate Elsewhere(s: Service, t: Service, sid: SessionId) {
    && t.workers == s.workers
    && forall o :: o != sid ==> PartOf(t, o) == PartOf(s, o)
  }

  lemma WorkerStays(p: Part, q: Part, w: Worker)
    requires PartOk(p) && PartOk(q) && Continues(p, q) && WorkerOk(p, w)
    ensures WorkerOk(q, w)
  {
  }

  lemma OneSession(s: Service, t: Service, sid: SessionId)
    requires Inv(s)
    requires PartOk(PartOf(t, sid)) && Continues(PartOf(s, sid), PartOf(t, sid))
    requires forall o :: o != sid ==> PartOf(t, o) == PartOf(s, o)
    requires forall w :: w in t.workers && !(w in s.workers && s.workers[w] == t.workers[w]) ==> WorkerFits(t, w)
    ensures Inv(t)
    ensures forall o :: Continues(PartOf(s, o), PartOf(t, o))
  {
    hide GameOk, GameContinues, WorkerOk, PartOf;
    forall o ensures PartOk(PartOf(t, o)) && Continues(PartOf(s, o), PartOf(t, o)) {
      if o != sid {
        assert PartOk(PartOf(s, o));
        SelfContinues(PartOf(s, o));
      }
    }
    forall w | w in t.workers ensures WorkerFits(t, w) {
      if w in s.workers && s.workers[w] == t.workers[w] && !t.workers[w].Finished? {
        assert WorkerFits(s, w);
        var o := t.workers[w].sid;
        WorkerStays(PartOf(s, o), PartOf(t, o), t.workers[w]);
      }
    }
  }

  /** An event that takes a tracked session from one game to the next. */
  lemma GameSteps(s: Service, t: Service, sid: SessionId)
    requires Inv(s) && Elsewhere(s, t, sid) && PartOf(t, sid).Tracked() && GameOk(PartOf(t, sid).Play())
    requires PartOf(s, sid).Tracked() ==> GameContinues(PartOf(s, sid).Play(), PartOf(t, sid).Play())
    ensures Inv(t)
    ensures forall o :: Continues(PartOf(s, o), PartOf(t, o))
  {
    hide GameOk, GameContinues, PartOf;
    assert PartOk(PartOf(s, sid));
    OneSession(s, t, sid);
  }

  /** Events that leave every session's part alone. */
  lemma NoSession(s: Service, t: Service)
    requires Inv(s)
    requires forall o :: PartOf(t, o) == PartOf(s, o)
    requires forall w :: w in t.workers && !(w in s.workers && s.workers[w] == t.workers[w]) ==> WorkerFits(t, w)
    ensures Inv(t)
    ensures forall o :: Continues(PartOf(s, o), PartOf(t, o))
  {
    hide PartOf, PartOk;
    assert PartOk(PartOf(s, ""));
    SelfContinues(PartOf(s, ""));
    OneSession(s, t, "");
  }

  // ---- the registry and the consumers ----

  lemma RegistryKeeps(s: Service, t: Service)
    requires Inv(s)
    requires t.(rooms := s.rooms, starting := s.starting, tags := s.tags) == s
    ensures Inv(t)
    ensures forall o :: Continues(PartOf(s, o), PartOf(t, o))
  {
    assert forall o :: PartOf(t, o) == PartOf(s, o);
    NoSession(s, t);
  }

  /** A start makes a fresh game or gives an old one another consumer. */
  ghost function Started(p: Part, quiz: Quiz): Game {
    var consumers := p.consumers + [Consumer(Idle, false)];
    if p.Tracked() then p.Play().(consumers := consumers)
    else LiveQuizSafety.Game.Game(quiz, -1, map[], NO_TRACE, consumers, map[])
  }

  lemma StartTrackTouches(s: Service)
    requires s.starting.Registered? && PartOk(PartOf(s, s.starting.sid))
    ensures var t, sid := ApplyStartTrack(s), s.starting.sid;
            Elsewhere(s, t, sid) && PartOf(t, sid).Tracked() && PartOf(t, sid).Play() == Started(PartOf(s, sid), s.starting.quiz)
  {
    hide GameOk, RedisCache.Store.PutQuiz;
  }

  lemma StartTrackKeeps(s: Service)
    requires Inv(s)
    ensures Inv(ApplyStartTrack(s))
    ensures forall o :: Continues(PartOf(s, o), PartOf(ApplyStartTrack(s), o))
  {
    hide GameOk, GameContinues;
    if s.starting.Registered? {
      var p := PartOf(s, s.starting.sid);
      assert PartOk(p);
      StartTrackTouches(s);
      hide ApplyStartTrack;
      if p.Tracked() {
        GameBounds(p.Play());
        ConsumersStayOk(p.Play(), Started(p, s.starting.quiz).consumers);
        GameStays(p.Play(), Started(p, s.starting.quiz).consumers);
      } else {
        FreshGame(s.starting.quiz, Started(p, s.starting.quiz).consumers);
      }
      assert GameOk(Started(p, s.starting.quiz));
      hide Elsewhere, Started;
      GameSteps(s, ApplyStartTrack(s), s.starting.sid);
    } else {
      NoSession(s, s);
    }
  }

  /** Consumers that come, are cancelled or stop are not inside a turn. */
  lemma ConsumersStayOk(g: Game, consumers: seq<Consumer>)
    requires GameOk(g)
    requires forall c :: InTurn(consumers, c) ==> InTurn(g.consumers, c) && consumers[c].phase == g.consumers[c].phase
    ensures ConsumersOk(consumers, g.idx)
  {
    GameBounds(g);
  }

  lemma ConsumersKeep(s: Service, t: Service, sid: SessionId)
    requires Inv(s) && Elsewhere(s, t, sid)
    requires PartOf(t, sid) == PartOf(s, sid).(consumers := t.Consumers(sid))
    requires s.Consumers(sid) != []
    requires forall c :: InTurn(t.Consumers(sid), c) ==>
                           InTurn(s.Consumers(sid), c) && t.Consumers(sid)[c].phase == s.Consumers(sid)[c].phase
    ensures Inv(t)
    ensures forall o :: Continues(PartOf(s, o), PartOf(t, o))
  {
    hide GameOk, GameContinues;
    var p := PartOf(s, sid);
    assert PartOk(p);
    ConsumersStayOk(p.Play(), t.Consumers(sid));
    GameStays(p.Play(), t.Consumers(sid));
    assert PartOf(t, sid).Play() == p.Play().(consumers := t.Consumers(sid));
    hide PartOf, Elsewhere;
    GameSteps(s, t, sid);
  }

  lemma EndTouches(s: Service, sid: SessionId)
    requires sid in s.tags && s.tags[sid] < |s.Consumers(sid)|
    ensures var t := ApplyEnd(s, sid);
            && Elsewhere(s, t, sid)
            && PartOf(t, sid) == PartOf(s, sid).(consumers := t.Consumers(sid))
            && t.Consumers(sid) == Cancel(s.Consumers(sid), s.tags[sid])
  {
  }

  lemma EndKeeps(s: Service, sid: SessionId)
    requires Inv(s)
    ensures Inv(ApplyEnd(s, sid))
    ensures forall o :: Continues(PartOf(s, o), PartOf(ApplyEnd(s, sid), o))
  {
    if sid in s.tags && s.tags[sid] < |s.Consumers(sid)| {
      EndTouches(s, sid);
      hide ApplyEnd, Inv, PartOf, Continues, Elsewhere;
      ConsumersKeep(s, ApplyEnd(s, sid), sid);
    } else {
      RegistryKeeps(s, ApplyEnd(s, sid));
    }
  }

  lemma StopTouches(s: Service, sid: SessionId, c: nat)
    requires s.Stands(sid, c, Idle) && s.Consumers(sid)[c].cancelled
    ensures var t := ApplyStop(s, sid, c);
            && Elsewhere(s, t, sid)
            && PartOf(t, sid) == PartOf(s, sid).(consumers := t.Consumers(sid))
            && t.Consumers(sid) == At(s.Consumers(sid), c, Stopped)
  {
  }

  lemma StopKeeps(s: Service, sid: SessionId, c: nat)
    requires Inv(s)
    ensures Inv(ApplyStop(s, sid, c))
    ensures forall o :: Continues(PartOf(s, o), PartOf(ApplyStop(s, sid, c), o))
  {
    if s.Stands(sid, c, Idle) && s.Consumers(sid)[c].cancelled {
      StopTouches(s, sid, c);
      hide ApplyStop, Inv, PartOf, Continues, Elsewhere;
      ConsumersKeep(s, ApplyStop(s, sid, c), sid);
    } else {
      NoSession(s, s);
    }
  }

  // ---- joins ----

  lemma JoinTrackTouches(s: Service, sid: SessionId, uid: UserId)
    requires PartOf(s, sid).Tracked() && uid !in s.live.answers[sid]
    ensures var t, g := ApplyJoinTrack(s, sid, uid), PartOf(s, sid).Play();
            && Elsewhere(s, t, sid) && PartOf(t, sid).Tracked()
            && PartOf(t, sid).Play() == g.(slices := g.slices[uid := Blank(g.quiz.Len())])
  {
  }

  lemma JoinTrackKeeps(s: Service, sid: SessionId, uid: UserId)
    requires Inv(s)
    ensures Inv(ApplyJoinTrack(s, sid, uid))
    ensures forall o :: Continues(PartOf(s, o), PartOf(ApplyJoinTrack(s, sid, uid), o))
  {
    hide GameOk, GameContinues;
    assert PartOk(PartOf(s, sid));
    if sid in s.live.tracker && uid !in s.live.answers[sid] {
      JoinTrackTouches(s, sid, uid);
      GameJoins(PartOf(s, sid).Play(), uid);
      hide ApplyJoinTrack, PartOf, Elsewhere;
      GameSteps(s, ApplyJoinTrack(s, sid, uid), sid);
    } else {
      NoSession(s, s);
    }
  }

  // ---- the answer goroutines ----

  lemma WorkerMoves(s: Service, w: nat, p: Worker)
    requires Inv(s) && (p.Finished? || WorkerOk(PartOf(s, p.sid), p))
    ensures Inv(s.(workers := s.workers[w := p]))
    ensures forall o :: Continues(PartOf(s, o), PartOf(s.(workers := s.workers[w := p]), o))
  {
    hide WorkerOk;
    var t := s.(workers := s.workers[w := p]);
    assert forall o :: PartOf(t, o) == PartOf(s, o);
    NoSession(s, t);
  }

  lemma SubmitKeeps(s: Service, w: nat, sid: SessionId, uid: UserId, option: int, timestamp: int)
    requires Inv(s)
    ensures Inv(ApplySubmit(s, w, sid, uid, option, timestamp))
    ensures forall o :: Continues(PartOf(s, o), PartOf(ApplySubmit(s, w, sid, uid, option, timestamp), o))
  {
    if w in s.workers {
      NoSession(s, s);
    } else {
      WorkerMoves(s, w, Submitted(sid, uid, option, timestamp));
    }
  }

  lemma ReadIndexKeeps(s: Service, w: nat)
    requires Inv(s)
    ensures Inv(ApplyReadIndex(s, w))
    ensures forall o :: Continues(PartOf(s, o), PartOf(ApplyReadIndex(s, w), o))
  {
    if w in s.workers && s.workers[w].Submitted? {
      assert PartOk(PartOf(s, s.workers[w].sid));
      WorkerMoves(s, w, ApplyReadIndex(s, w).workers[w]);
    } else {
      NoSession(s, s);
    }
  }

  lemma GradeFits(s: Service, w: nat)
    requires Inv(s) && w in s.workers && s.workers[w].Looked?
    ensures ApplyGrade(s, w) == s.(workers := s.workers[w := ApplyGrade(s, w).workers[w]])
    ensures var p := ApplyGrade(s, w).workers[w]; p.Finished? || WorkerOk(PartOf(s, p.sid), p)
  {
    assert WorkerFits(s, w);
    assert PartOk(PartOf(s, s.workers[w].sid));
    hide Inv, GameOk, Quiz.Key;
  }

  lemma GradeKeeps(s: Service, w: nat)
    requires Inv(s)
    ensures Inv(ApplyGrade(s, w))
    ensures forall o :: Continues(PartOf(s, o), PartOf(ApplyGrade(s, w), o))
  {
    if w in s.workers && s.workers[w].Looked? {
      GradeFits(s, w);
      hide Inv, Continues, WorkerOk, PartOf;
      WorkerMoves(s, w, ApplyGrade(s, w).workers[w]);
    } else {
      NoSession(s, s);
    }
  }

  ghost function Recorded(g: Game, p: Worker): Game
    requires p.Graded? && 0 <= g.idx < g.quiz.Len() && SlicesFit(g.slices, g.quiz.Len())
  {
    var slice := Get(g.slices, p.uid, Blank(g.quiz.Len()));
    var stamp := Stamp(p.qid, p.readAt, g.trace.advances);
    g.(slices := g.slices[p.uid := slice[g.idx := p.answer]],
       trace := g.trace.(grades := g.trace.grades[(p.uid, g.idx) := stamp]))
  }

  lemma RecordTouches(s: Service, w: nat)
    requires w in s.workers && s.workers[w].Graded? && PartOf(s, s.workers[w].sid).Tracked()
    requires var g := PartOf(s, s.workers[w].sid).Play();
             -1 <= g.idx && (g.idx >= 0 ==> g.idx < g.quiz.Len()) && SlicesFit(g.slices, g.quiz.Len())
    ensures ApplyRecord(s, w).Panic? <==> s.live.Current(s.workers[w].sid) == -1
    ensures ApplyRecord(s, w).Done? ==>
              var t, sid := ApplyRecord(s, w).value, s.workers[w].sid;
              && t.workers == s.workers[w := Finished]
              && (forall o :: o != sid ==> PartOf(t, o) == PartOf(s, o))
              && PartOf(t, sid).Tracked() && PartOf(t, sid).Play() == Recorded(PartOf(s, sid).Play(), s.workers[w])
  {
    hide RedisCache.Store.PutAnswer;
  }

  /** Recording fails only before the first question. */
  lemma RecordKeeps(s: Service, w: nat)
    requires Inv(s)
    ensures ApplyRecord(s, w).Panic? <==>
              w in s.workers && s.workers[w].Graded? && s.live.Current(s.workers[w].sid) == -1
    ensures ApplyRecord(s, w).Done? ==> Inv(ApplyRecord(s, w).value)
    ensures ApplyRecord(s, w).Done? ==> forall o :: Continues(PartOf(s, o), PartOf(ApplyRecord(s, w).value, o))
  {
    hide GameOk, GameContinues;
    if w in s.workers && s.workers[w].Graded? {
      var p := s.workers[w];
      assert WorkerFits(s, w);
      assert PartOk(PartOf(s, p.sid));
      var g := PartOf(s, p.sid).Play();
      GameBounds(g);
      RecordTouches(s, w);
      if ApplyRecord(s, w).Done? {
        GameRecords(g, p.uid, Get(g.slices, p.uid, Blank(g.quiz.Len())), p.answer, Stamp(p.qid, p.readAt, g.trace.advances));
        hide ApplyRecord;
        OneSession(s, ApplyRecord(s, w).value, p.sid);
      }
    } else {
      NoSession(s, s);
    }
  }

  // ---- the steps of a turn ----

  lemma IncMoves(live: State, sid: SessionId)
    requires sid in live.tracker
    ensures live.Inc(sid).answers == live.answers
    ensures live.Inc(sid).tracker.Keys == live.tracker.Keys
    ensures forall o :: o in live.tracker && o != sid ==> live.Inc(sid).tracker[o] == live.tracker[o]
    ensures live.Inc(sid).tracker[sid].quizData == live.Quiz(sid)
    ensures live.Inc(sid).Current(sid) == if live.Current(sid) + 1 < live.Len(sid) then live.Current(sid) + 1 else live.Current(sid)
  {
    hide RedisCache.Store.PutIndex;
  }

  lemma AdvanceMoves(s: Service, sid: SessionId, c: nat)
    requires s.Stands(sid, c, Idle) && PartOf(s, sid).Tracked() && NextIndex(PartOf(s, sid).Play()) != s.live.Len(sid)
    ensures var live, g := s.live.Inc(sid), PartOf(s, sid).Play();
            var phase := if NextIndex(g) > 0 then Advanced(NextIndex(g)) else Idle;
            ApplyAdvance(s, sid, c) ==
            Done(s.(live := live, traces := s.traces[sid := g.trace.(advances := g.trace.advances + 1)]).SetPhase(sid, c, phase))
  {
    hide Tracker.State.Inc;
    IncMoves(s.live, sid);
    assert s.live.Inc(sid).Len(sid) == s.live.Len(sid);
  }

  lemma AdvanceTouches(s: Service, sid: SessionId, c: nat)
    requires s.Stands(sid, c, Idle) && PartOf(s, sid).Tracked() && NextIndex(PartOf(s, sid).Play()) != s.live.Len(sid)
    ensures ApplyAdvance(s, sid, c).Done?
    ensures var t := ApplyAdvance(s, sid, c).value;
            && Elsewhere(s, t, sid) && PartOf(t, sid).Tracked()
            && PartOf(t, sid).Play() == AfterAdvance(PartOf(s, sid).Play(), c)
  {
    hide Tracker.State.Inc, ApplyAdvance;
    AdvanceMoves(s, sid, c);
    IncMoves(s.live, sid);
  }

  lemma AdvanceKeeps(s: Service, sid: SessionId, c: nat)
    requires Inv(s)
    ensures ApplyAdvance(s, sid, c).Done? && Inv(ApplyAdvance(s, sid, c).value)
    ensures forall o :: Continues(PartOf(s, o), PartOf(ApplyAdvance(s, sid, c).value, o))
  {
    hide GameOk, GameContinues;
    assert PartOk(PartOf(s, sid));
    if s.Stands(sid, c, Idle) {
      GameAdvances(PartOf(s, sid).Play(), c);
      AdvanceTouches(s, sid, c);
      hide ApplyAdvance, PartOf, Elsewhere, AfterAdvance;
      GameSteps(s, ApplyAdvance(s, sid, c).value, sid);
    } else {
      NoSession(s, s);
    }
  }

  ghost predicate Scores(s: Service, sid: SessionId, c: nat) {
    && c < |s.Consumers(sid)| && s.Consumers(sid)[c].phase.Advanced? && PartOf(s, sid).Tracked()
    && s.live.tracker[sid].currQuestionIdx > 0
    && InBounds(s.live.answers[sid], s.live.tracker[sid].currQuestionIdx - 1)
  }

  lemma EmptyScoreTouches(s: Service, sid: SessionId, c: nat)
    requires Scores(s, sid, c) && Column(s.live.answers[sid], s.live.tracker[sid].currQuestionIdx - 1) == map[]
    ensures ApplyScore(s, sid, c).Done?
    ensures var t := ApplyScore(s, sid, c).value;
            && Elsewhere(s, t, sid) && PartOf(t, sid).Tracked()
            && PartOf(t, sid).Play() == AfterScore(PartOf(s, sid).Play(), c)
  {
    hide PointsOf, AddPoints, InBounds, Column;
  }

  lemma FullScoreTouches(s: Service, sid: SessionId, c: nat)
    requires Scores(s, sid, c) && Column(s.live.answers[sid], s.live.tracker[sid].currQuestionIdx - 1) != map[]
    ensures ApplyScore(s, sid, c).Done?
    ensures var t := ApplyScore(s, sid, c).value;
            && Elsewhere(s, t, sid) && PartOf(t, sid).Tracked()
            && PartOf(t, sid).Play() == AfterScore(PartOf(s, sid).Play(), c)
  {
    hide PointsOf, AddPoints, InBounds, Column;
  }

  lemma ScoreTouches(s: Service, sid: SessionId, c: nat)
    requires Scores(s, sid, c)
    ensures ApplyScore(s, sid, c).Done?
    ensures var t := ApplyScore(s, sid, c).value;
            && Elsewhere(s, t, sid) && PartOf(t, sid).Tracked()
            && PartOf(t, sid).Play() == AfterScore(PartOf(s, sid).Play(), c)
  {
    hide PointsOf, AddPoints, InBounds, ApplyScore, Elsewhere;
    if Column(s.live.answers[sid], s.live.tracker[sid].currQuestionIdx - 1) == map[] {
      EmptyScoreTouches(s, sid, c);
    } else {
      FullScoreTouches(s, sid, c);
    }
  }

  lemma ScoreKeeps(s: Service, sid: SessionId, c: nat)
    requires Inv(s)
    ensures ApplyScore(s, sid, c).Done? && Inv(ApplyScore(s, sid, c).value)
    ensures forall o :: Continues(PartOf(s, o), PartOf(ApplyScore(s, sid, c).value, o))
  {
    hide GameOk, GameContinues, InBounds, Column;
    assert PartOk(PartOf(s, sid));
    if c < |s.Consumers(sid)| && s.Consumers(sid)[c].phase.Advanced? {
      GameScores(PartOf(s, sid).Play(), c);
      ScoreTouches(s, sid, c);
      hide ApplyScore, PartOf, Elsewhere, AfterScore;
      GameSteps(s, ApplyScore(s, sid, c).value, sid);
    } else {
      NoSession(s, s);
    }
  }

  /** What the connected participants are told about a question. */
  function FlagsFor(column: Entries, room: map<UserId, Role>): map<UserId, bool> {
    map u | u in room && room[u].Participant? :: Get(column, u, NO_ANSWER).correct
  }

  lemma AnnounceTouches(s: Service, sid: SessionId, c: nat)
    requires c < |s.Consumers(sid)| && s.Consumers(sid)[c].phase.Scored? && PartOf(s, sid).Tracked()
    requires InBounds(s.live.answers[sid], s.Consumers(sid)[c].phase.qid - 1)
    ensures ApplyAnnounce(s, sid, c).Done?
    ensures var t := ApplyAnnounce(s, sid, c).value;
            var q := s.Consumers(sid)[c].phase.qid - 1;
            var sent := Sent(q, FlagsFor(Column(s.live.answers[sid], q), Get(s.rooms, sid, map[])));
            && Elsewhere(s, t, sid) && PartOf(t, sid).Tracked()
            && PartOf(t, sid).Play() == AfterAnnounce(PartOf(s, sid).Play(), c, sent)
  {
    hide InBounds, Column;
  }

  lemma AnnounceKeeps(s: Service, sid: SessionId, c: nat)
    requires Inv(s)
    ensures ApplyAnnounce(s, sid, c).Done? && Inv(ApplyAnnounce(s, sid, c).value)
    ensures forall o :: Continues(PartOf(s, o), PartOf(ApplyAnnounce(s, sid, c).value, o))
  {
    hide GameOk, GameContinues, InBounds, Column;
    assert PartOk(PartOf(s, sid));
    if c < |s.Consumers(sid)| && s.Consumers(sid)[c].phase.Scored? {
      var g := PartOf(s, sid).Play();
      var q := s.Consumers(sid)[c].phase.qid - 1;
      GameAnnounces(g, c, Sent(q, map[]));
      GameAnnounces(g, c, Sent(q, FlagsFor(Column(s.live.answers[sid], q), Get(s.rooms, sid, map[]))));
      AnnounceTouches(s, sid, c);
      hide ApplyAnnounce, PartOf, Elsewhere, AfterAnnounce;
      GameSteps(s, ApplyAnnounce(s, sid, c).value, sid);
    } else {
      NoSession(s, s);
    }
  }

  // ---- every event, every run ----

  /** The one way to crash: an answer recorded before the first question. */
  ghost predicate RecordsTooEarly(s: Service, e: Event) {
    && e.Record?
    && e.worker in s.workers && s.workers[e.worker].Graded?
    && s.live.Current(s.workers[e.worker].sid) == -1
  }

  lemma EventKeeps(s: Service, e: Event)
    requires Inv(s)
    ensures Apply(s, e).Panic? <==> RecordsTooEarly(s, e)
    ensures Apply(s, e).Done? ==> Inv(Apply(s, e).value)
    ensures Apply(s, e).Done? ==> forall o :: Continues(PartOf(s, o), PartOf(Apply(s, e).value, o))
  {
    hide Inv, Continues, PartOf;
    match e
    case StartRegister(sid, quiz) => RegistryKeeps(s, ApplyStartRegister(s, sid, quiz));
    case StartTrack => StartTrackKeeps(s);
    case End(sid) => EndKeeps(s, sid);
    case JoinRegister(sid) => RegistryKeeps(s, ApplyJoinRegister(s, sid));
    case JoinConnect(sid, uid, role) => RegistryKeeps(s, ApplyJoinConnect(s, sid, uid, role));
    case JoinTrack(sid, uid) => JoinTrackKeeps(s, sid, uid);
    case Leave(sid, uid) => RegistryKeeps(s, ApplyLeave(s, sid, uid));
    case Submit(w, sid, uid, option, timestamp) => SubmitKeeps(s, w, sid, uid, option, timestamp);
    case ReadIndex(w) => ReadIndexKeeps(s, w);
    case Grade(w) => GradeKeeps(s, w);
    case Record(w) => RecordKeeps(s, w);
    case Advance(sid, c) => AdvanceKeeps(s, sid, c);
    case Score(sid, c) => ScoreKeeps(s, sid, c);
    case Announce(sid, c) => AnnounceKeeps(s, sid, c);
    case Stop(sid, c) => StopKeeps(s, sid, c);
  }

  lemma InitialInv()
    ensures Inv(INITIAL)
  {
  }

  lemma {:induction false} RunKeeps(s: Service, events: seq<Event>)
    requires Inv(s)
    ensures Run(s, events).Done? ==> Inv(Run(s, events).value)
    ensures Run(s, events).Done? ==> forall o :: Continues(PartOf(s, o), PartOf(Run(s, events).value, o))
    decreases |events|
  {
    hide Inv, Continues, PartOf, Apply;
    if events == [] {
      forall o { SelfContinues(PartOf(s, o)); }
    } else {
      var init, e := events[..|events| - 1], events[|events| - 1];
      RunKeeps(s, init);
      if Run(s, init).Done? && Run(s, events).Done? {
        var t := Run(s, init).value;
        EventKeeps(t, e);
        forall o ensures Continues(PartOf(s, o), PartOf(Apply(t, e).value, o)) {
          ContinuesTransitive(PartOf(s, o), PartOf(t, o), PartOf(Apply(t, e).value, o));
        }
      }
    }
  }

  /** Every state any interleaving reaches satisfies the invariant. */
  lemma EveryRunIsSafe(events: seq<Event>)
    ensures Run(INITIAL, events).Done? ==> Inv(Run(INITIAL, events).value)
  {
    InitialInv();
    RunKeeps(INITIAL, events);
  }
}
