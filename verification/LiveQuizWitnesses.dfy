/** Runs from the empty service that show where the guarantees of a session end. */
module LiveQuizWitnesses {
  import opened Quizzes
  import RedisCache
  import opened Tracker
  import opened Scoring
  import opened LiveQuiz
  import opened LiveQuizSafety
  import opened LiveQuizRuns
  import opened LiveQuizOrder
  import opened LiveQuizTheorems
  import opened LiveQuizStarts

  // ---- what a client or an admin does ----

  /** The two steps of a start. */
  function Start(sid: SessionId, quiz: Quiz): seq<Event> {
    [StartRegister(sid, quiz), StartTrack]
  }

  /** The three steps of a participant's websocket join. */
  function Join(sid: SessionId, u: UserId): seq<Event> {
    [JoinRegister(sid), JoinConnect(sid, u, Participant), JoinTrack(sid, u)]
  }

  /** The four steps of an answer. */
  function Answer(w: nat, sid: SessionId, u: UserId, option: int, timestamp: int): seq<Event> {
    [Submit(w, sid, u, option, timestamp), ReadIndex(w), Grade(w), Record(w)]
  }

  lemma RunAppends(s: Service, events: seq<Event>, e: Event)
    requires Run(s, events).Done?
    ensures Run(s, events + [e]) == Apply(Run(s, events).value, e)
    ensures forall sid :: ScoresApart(s, events + [e], sid) ==>
                            ScoresApart(s, events, sid) && ScoresFirst(Run(s, events).value, e, sid)
  {
    assert (events + [e])[..|events|] == events;
  }

  // ---- runs of one session ----

  const WAITING := [Consumer(Idle, false)]

  /** The tracked session is at game g. */
  ghost predicate Plays(s: Service, sid: SessionId, g: Game) {
    PartOf(s, sid).Tracked() && PartOf(s, sid).Play() == g
  }

  /** The session is registered, its first consumer holds the tag, and the goroutine
      numbers from w on are free. */
  ghost predicate Open(s: Service, sid: SessionId, w: nat) {
    && s.starting.Free? && sid in s.rooms && sid in s.tags && s.tags[sid] == 0
    && forall k :: k in s.workers ==> k < w
  }

  ghost predicate RunsTo(events: seq<Event>, sid: SessionId, g: Game, w: nat) {
    Run(INITIAL, events).Done? && Plays(Run(INITIAL, events).value, sid, g) && Open(Run(INITIAL, events).value, sid, w)
  }

  function NewGame(quiz: Quiz): Game {
    LiveQuizSafety.Game.Game(quiz, -1, map[], NO_TRACE, WAITING, map[])
  }

  lemma StartPlays(sid: SessionId, quiz: Quiz)
    ensures var t := ApplyStartTrack(ApplyStartRegister(INITIAL, sid, quiz)); Plays(t, sid, NewGame(quiz)) && Open(t, sid, 0)
  {
    hide RedisCache.Store.PutQuiz;
    StartInOneGo(INITIAL, sid, quiz);
    hide ApplyStartTrack, ApplyStartRegister;
    assert INITIAL.Consumers(sid) == [] && INITIAL.Consumers(sid) + [Consumer(Idle, false)] == WAITING;
  }

  lemma StartRuns(sid: SessionId, quiz: Quiz)
    ensures RunsTo(Start(sid, quiz), sid, NewGame(quiz), 0)
  {
    assert Run(INITIAL, []) == Done(INITIAL);
    hide Run, ScoresApart, ScoresFirst, ApplyStartTrack, ApplyStartRegister, Plays, Open, NewGame;
    RunAppends(INITIAL, [], StartRegister(sid, quiz));
    RunAppends(INITIAL, [] + [StartRegister(sid, quiz)], StartTrack);
    assert Start(sid, quiz) == [] + [StartRegister(sid, quiz)] + [StartTrack];
    StartPlays(sid, quiz);
  }

  function Joined(g: Game, u: UserId): Game {
    g.(slices := g.slices[u := Blank(g.quiz.Len())])
  }

  lemma JoinPlays(s: Service, sid: SessionId, g: Game, u: UserId, w: nat)
    requires Plays(s, sid, g) && Open(s, sid, w) && u !in g.slices
    ensures var t := ApplyJoinTrack(ApplyJoinConnect(ApplyJoinRegister(s, sid), sid, u, Participant), sid, u);
            Plays(t, sid, Joined(g, u)) && Open(t, sid, w)
  {
    var m := ApplyJoinConnect(s, sid, u, Participant);
    assert PartOf(m, sid) == PartOf(s, sid);
    JoinTrackTouches(m, sid, u);
    assert Open(ApplyJoinTrack(m, sid, u), sid, w);
    hide ApplyJoinConnect, ApplyJoinTrack, PartOf;
  }

  lemma JoinRuns(events: seq<Event>, sid: SessionId, g: Game, u: UserId, w: nat)
    requires RunsTo(events, sid, g, w) && u !in g.slices
    ensures RunsTo(events + Join(sid, u), sid, Joined(g, u), w)
  {
    hide ApplyJoinRegister, ApplyJoinConnect, ApplyJoinTrack, Run, ScoresApart, ScoresFirst, Plays, Open;
    RunAppends(INITIAL, events, JoinRegister(sid));
    var e1 := events + [JoinRegister(sid)];
    RunAppends(INITIAL, e1, JoinConnect(sid, u, Participant));
    var e2 := e1 + [JoinConnect(sid, u, Participant)];
    RunAppends(INITIAL, e2, JoinTrack(sid, u));
    assert events + Join(sid, u) == e2 + [JoinTrack(sid, u)];
    JoinPlays(Run(INITIAL, events).value, sid, g, u, w);
  }

  lemma AdvancePlays(s: Service, sid: SessionId, g: Game, c: nat)
    requires Plays(s, sid, g) && c < |g.consumers| && g.consumers[c].phase.Idle? && g.idx + 1 < g.quiz.Len()
    ensures ApplyAdvance(s, sid, c).Done?
    ensures var t := ApplyAdvance(s, sid, c).value;
            Plays(t, sid, AfterAdvance(g, c)) && forall w :: Open(s, sid, w) ==> Open(t, sid, w)
  {
    AdvanceMoves(s, sid, c);
    AdvanceTouches(s, sid, c);
    hide ApplyAdvance;
  }

  lemma AdvanceRuns(events: seq<Event>, sid: SessionId, g: Game, w: nat)
    requires RunsTo(events, sid, g, w) && g.consumers == WAITING && g.idx + 1 < g.quiz.Len()
    ensures RunsTo(events + [Event.Advance(sid, 0)], sid, AfterAdvance(g, 0), w)
  {
    hide ApplyAdvance, Run, ScoresApart, ScoresFirst, Plays, Open;
    RunAppends(INITIAL, events, Event.Advance(sid, 0));
    AdvancePlays(Run(INITIAL, events).value, sid, g, 0);
  }

  function GradedAnswer(s: Service, w: nat, sid: SessionId, u: UserId, option: int, timestamp: int): Service {
    ApplyGrade(ApplyReadIndex(ApplySubmit(s, w, sid, u, option, timestamp), w), w)
  }

  lemma AnswerAppends(events: seq<Event>, w: nat, sid: SessionId, u: UserId, option: int, timestamp: int)
    requires Run(INITIAL, events).Done?
    ensures Run(INITIAL, events + Answer(w, sid, u, option, timestamp)) ==
            ApplyRecord(GradedAnswer(Run(INITIAL, events).value, w, sid, u, option, timestamp), w)
  {
    hide Run, ScoresApart, ScoresFirst, ApplyRecord, ApplyGrade, ApplyReadIndex, ApplySubmit;
    RunAppends(INITIAL, events, Submit(w, sid, u, option, timestamp));
    var e1 := events + [Submit(w, sid, u, option, timestamp)];
    RunAppends(INITIAL, e1, ReadIndex(w));
    RunAppends(INITIAL, e1 + [ReadIndex(w)], Grade(w));
    RunAppends(INITIAL, e1 + [ReadIndex(w)] + [Grade(w)], Record(w));
    assert events + Answer(w, sid, u, option, timestamp) == e1 + [ReadIndex(w)] + [Grade(w)] + [Record(w)];
  }

  /** The answer as its goroutine carries it to the tracker. */
  function Carried(g: Game, sid: SessionId, u: UserId, option: int, timestamp: int): Worker {
    Graded(sid, u, UserAnswer(true, option, option == g.quiz.Key(g.idx), timestamp), g.idx, g.trace.advances)
  }

  lemma AnswerGraded(s: Service, sid: SessionId, g: Game, w: nat, u: UserId, option: int, timestamp: int)
    requires Plays(s, sid, g) && w !in s.workers
    ensures GradedAnswer(s, w, sid, u, option, timestamp) == s.(workers := s.workers[w := Carried(g, sid, u, option, timestamp)])
  {
    hide Quiz.Key;
    var looked := ApplyReadIndex(ApplySubmit(s, w, sid, u, option, timestamp), w);
    assert looked == s.(workers := s.workers[w := Looked(sid, u, option, timestamp, g.idx, g.trace.advances)]);
  }

  lemma RecordWrites(s: Service, w: nat)
    ensures ApplyRecord(s, w).Done? ==>
              var t := ApplyRecord(s, w).value; t.(live := s.live, workers := s.workers, traces := s.traces) == s
  {
    hide Tracker.State.RecordAnswer;
  }

  lemma AnswerPlays(s: Service, sid: SessionId, g: Game, w: nat, u: UserId, option: int, timestamp: int)
    requires Plays(s, sid, g) && Open(s, sid, w) && -1 <= g.idx && (g.idx >= 0 ==> g.idx < g.quiz.Len())
    requires SlicesFit(g.slices, g.quiz.Len())
    ensures var r := ApplyRecord(GradedAnswer(s, w, sid, u, option, timestamp), w);
            && (r.Panic? <==> g.idx == -1)
            && (r.Done? ==> Plays(r.value, sid, Recorded(g, Carried(g, sid, u, option, timestamp))) && Open(r.value, sid, w + 1))
  {
    hide GradedAnswer, Carried, ApplyRecord, SlicesFit;
    AnswerGraded(s, sid, g, w, u, option, timestamp);
    var m := GradedAnswer(s, w, sid, u, option, timestamp);
    assert PartOf(m, sid) == PartOf(s, sid);
    CarriedIsGraded(g, sid, u, option, timestamp);
    hide PartOf;
    RecordTouches(m, w);
    RecordWrites(m, w);
  }

  lemma CarriedIsGraded(g: Game, sid: SessionId, u: UserId, option: int, timestamp: int)
    ensures Carried(g, sid, u, option, timestamp).Graded? && Carried(g, sid, u, option, timestamp).sid == sid
  {
  }

  lemma AnswerRuns(events: seq<Event>, sid: SessionId, g: Game, w: nat, u: UserId, option: int, timestamp: int)
    requires RunsTo(events, sid, g, w) && 0 <= g.idx < g.quiz.Len() && SlicesFit(g.slices, g.quiz.Len())
    ensures Carried(g, sid, u, option, timestamp).Graded?
    ensures RunsTo(events + Answer(w, sid, u, option, timestamp), sid, Recorded(g, Carried(g, sid, u, option, timestamp)), w + 1)
  {
    hide GradedAnswer, ApplyRecord, Run, Plays, Open, SlicesFit, Quiz.Key;
    AnswerAppends(events, w, sid, u, option, timestamp);
    AnswerPlays(Run(INITIAL, events).value, sid, g, w, u, option, timestamp);
  }

  // ---- an answer before the first question ----

  /** A participant who joins and answers before the first question takes the
      service down. */
  lemma EarlyAnswerCrashes(sid: SessionId, quiz: Quiz, u: UserId, option: int, timestamp: int)
    ensures Run(INITIAL, Start(sid, quiz) + Join(sid, u) + Answer(0, sid, u, option, timestamp)).Panic?
  {
    hide GradedAnswer, ApplyRecord, Run, Plays, Open;
    StartRuns(sid, quiz);
    JoinRuns(Start(sid, quiz), sid, NewGame(quiz), u, 0);
    var e := Start(sid, quiz) + Join(sid, u);
    AnswerAppends(e, 0, sid, u, option, timestamp);
    AnswerPlays(Run(INITIAL, e).value, sid, Joined(NewGame(quiz), u), 0, u, option, timestamp);
  }

  // ---- a join before the start ----

  /** A participant who comes before the start makes it void, and every later join
      panics. */
  lemma JoinFirstVoidsStart(sid: SessionId, quiz: Quiz, u: UserId)
    ensures var r := Run(INITIAL, Join(sid, u) + Start(sid, quiz));
            && r.Done? && Ignored(RegistryOf(r.value), sid)
            && r.value.starting.Free? && r.value.live.AddParticipant(sid, u).Panic?
  {
    hide ScoresApart, ScoresFirst;
    RunAppends(INITIAL, [], JoinRegister(sid));
    var e1 := [] + [JoinRegister(sid)];
    RunAppends(INITIAL, e1, JoinConnect(sid, u, Participant));
    var e2 := e1 + [JoinConnect(sid, u, Participant)];
    RunAppends(INITIAL, e2, JoinTrack(sid, u));
    var e3 := e2 + [JoinTrack(sid, u)];
    RunAppends(INITIAL, e3, StartRegister(sid, quiz));
    RunAppends(INITIAL, e3 + [StartRegister(sid, quiz)], StartTrack);
    assert Join(sid, u) + Start(sid, quiz) == e3 + [StartRegister(sid, quiz)] + [StartTrack];
    assert Run(INITIAL, []) == Done(INITIAL);
    hide Run;
    var s := Run(INITIAL, e2).value;
    assert sid in s.rooms && s.live == EMPTY && s.starting.Free?;
  }

  // ---- one participant who does not answer ----

  /** A batch with one unanswered entry adds nothing to anybody's total. */
  lemma SilentBatch(entries: Entries, u: UserId, silent: UserId)
    requires u != silent && entries.Keys == {u, silent}
    requires entries[silent] == NO_ANSWER && entries[u].timestamp > LIMIT - TICK
    ensures AddPoints(map[], PointsOf(entries)) == map[u := 0, silent := 0]
  {
    OneMissingAnswerZeroesTheBatch(entries, silent, u);
    WhoScores(entries, silent);
    assert PointsOf(entries) == map[u := 0, silent := 0];
    hide PointsOf;
  }

  /** The consumer asks for the board of a column with these entries. */
  lemma ScorePlays(s: Service, sid: SessionId, g: Game, c: nat, entries: Entries)
    requires Plays(s, sid, g) && c < |g.consumers| && g.consumers[c].phase.Advanced? && g.idx > 0
    requires InBounds(g.slices, g.idx - 1) && Column(g.slices, g.idx - 1) == entries != map[]
    ensures ApplyScore(s, sid, c).Done?
    ensures Plays(ApplyScore(s, sid, c).value, sid,
                  g.(trace := g.trace.(batches := g.trace.batches + [Batch(g.idx - 1, entries)]),
                     board := AddPoints(g.board, PointsOf(entries)),
                     consumers := At(g.consumers, c, Scored(g.consumers[c].phase.qid, entries))))
  {
    hide ApplyScore, PointsOf, AddPoints, InBounds, Column;
    ScoreTouches(s, sid, c);
  }

  /** Two join, one answers the first question, the other does not; the second
      question begins and the first one is scored. */
  function SilentRun(sid: SessionId, quiz: Quiz, u: UserId, silent: UserId, timestamp: int): seq<Event> {
    Start(sid, quiz) + Join(sid, u) + Join(sid, silent) + [Event.Advance(sid, 0)]
    + Answer(0, sid, u, quiz.Key(0), timestamp) + [Event.Advance(sid, 0)] + [Event.Score(sid, 0)]
  }

  /** The game before the scoring. */
  lemma SilentGame(sid: SessionId, quiz: Quiz, u: UserId, silent: UserId, timestamp: int)
    returns (g: Game)
    requires u != silent && 2 <= quiz.Len()
    ensures g.idx == 1 && g.trace.batches == [] && g.board == map[] && |g.consumers| == 1 && g.consumers[0].phase == Advanced(1)
    ensures InBounds(g.slices, 0) && Column(g.slices, 0) == map[u := UserAnswer(true, quiz.Key(0), true, timestamp), silent := NO_ANSWER]
    ensures RunsTo(Start(sid, quiz) + Join(sid, u) + Join(sid, silent) + [Event.Advance(sid, 0)]
                   + Answer(0, sid, u, quiz.Key(0), timestamp) + [Event.Advance(sid, 0)], sid, g, 1)
  {
    hide RunsTo, Quiz.Key, Start, Join, Answer;
    StartRuns(sid, quiz);
    var e0, g0 := Start(sid, quiz), NewGame(quiz);
    JoinRuns(e0, sid, g0, u, 0);
    var e1, g1 := e0 + Join(sid, u), Joined(g0, u);
    JoinRuns(e1, sid, g1, silent, 0);
    var e2, g2 := e1 + Join(sid, silent), Joined(g1, silent);
    AdvanceRuns(e2, sid, g2, 0);
    var e3, g3 := e2 + [Event.Advance(sid, 0)], AfterAdvance(g2, 0);
    AnswerRuns(e3, sid, g3, 0, u, quiz.Key(0), timestamp);
    var e4, g4 := e3 + Answer(0, sid, u, quiz.Key(0), timestamp), Recorded(g3, Carried(g3, sid, u, quiz.Key(0), timestamp));
    AdvanceRuns(e4, sid, g4, 1);
    g := AfterAdvance(g4, 0);
  }

  /** Two join, one answers rightly and in time, the other stays silent: nobody
      has a point. */
  lemma SilentRunScoresNothing(sid: SessionId, quiz: Quiz, u: UserId, silent: UserId, timestamp: int)
    requires u != silent && 2 <= quiz.Len() && timestamp > LIMIT - TICK
    ensures var r := Run(INITIAL, SilentRun(sid, quiz, u, silent, timestamp));
            && r.Done?
            && r.value.TraceOf(sid).batches ==
               [Batch(0, map[u := UserAnswer(true, quiz.Key(0), true, timestamp), silent := NO_ANSWER])]
            && r.value.Board(sid) == map[u := 0, silent := 0]
  {
    hide Run, ScoresApart, ScoresFirst, Start, Join, Answer, Quiz.Key, ApplyScore, PointsOf, AddPoints, InBounds, Column;
    var g := SilentGame(sid, quiz, u, silent, timestamp);
    var entries := map[u := UserAnswer(true, quiz.Key(0), true, timestamp), silent := NO_ANSWER];
    var e := Start(sid, quiz) + Join(sid, u) + Join(sid, silent) + [Event.Advance(sid, 0)]
             + Answer(0, sid, u, quiz.Key(0), timestamp) + [Event.Advance(sid, 0)];
    RunAppends(INITIAL, e, Event.Score(sid, 0));
    assert u in entries;
    ScorePlays(Run(INITIAL, e).value, sid, g, 0, entries);
    SilentBatch(entries, u, silent);
  }

  // ---- an index that moves on over a pending scoring ----

  /** A participant joins and answers rightly either the first or the second
      question; the second one's turn has begun and owes a scoring. */
  function TwoQuestions(sid: SessionId, quiz: Quiz, u: UserId, answered: int, timestamp: int): seq<Event> {
    Start(sid, quiz) + Join(sid, u) + [Event.Advance(sid, 0)]
    + (if answered == 0 then Answer(0, sid, u, quiz.Key(0), timestamp) else [])
    + [Event.Advance(sid, 0)]
    + if answered == 1 then Answer(0, sid, u, quiz.Key(1), timestamp) else []
  }

  /** The slots of one participant who has answered one question only. */
  ghost predicate AnsweredOnly(slices: Slices, len: nat, u: UserId, answered: int, a: UserAnswer) {
    && slices.Keys == {u} && |slices[u]| == len
    && forall q :: 0 <= q < len ==> slices[u][q] == if q == answered then a else NO_ANSWER
  }

  lemma TwoQuestionsGame(sid: SessionId, quiz: Quiz, u: UserId, answered: int, timestamp: int)
    returns (g: Game)
    requires 3 <= quiz.Len() && 0 <= answered <= 1
    ensures g.quiz == quiz && g.idx == 1 && g.trace.advances == 2 && g.trace.batches == [] && g.board == map[]
    ensures g.consumers == [Consumer(Advanced(1), false)]
    ensures AnsweredOnly(g.slices, quiz.Len(), u, answered, UserAnswer(true, quiz.Key(answered), true, timestamp))
    ensures RunsTo(TwoQuestions(sid, quiz, u, answered, timestamp), sid, g, 1)
  {
    hide RunsTo, Quiz.Key, Start, Join, Answer;
    StartRuns(sid, quiz);
    var e0, g0 := Start(sid, quiz), NewGame(quiz);
    JoinRuns(e0, sid, g0, u, 0);
    var e1, g1 := e0 + Join(sid, u), Joined(g0, u);
    AdvanceRuns(e1, sid, g1, 0);
    var e2, g2 := e1 + [Event.Advance(sid, 0)], AfterAdvance(g1, 0);
    if answered == 0 {
      AnswerRuns(e2, sid, g2, 0, u, quiz.Key(0), timestamp);
      var e3, g3 := e2 + Answer(0, sid, u, quiz.Key(0), timestamp), Recorded(g2, Carried(g2, sid, u, quiz.Key(0), timestamp));
      AdvanceRuns(e3, sid, g3, 1);
      g := AfterAdvance(g3, 0);
      assert TwoQuestions(sid, quiz, u, answered, timestamp) == e3 + [Event.Advance(sid, 0)];
    } else {
      AdvanceRuns(e2, sid, g2, 0);
      var e3, g3 := e2 + [Event.Advance(sid, 0)], AfterAdvance(g2, 0);
      AnswerRuns(e3, sid, g3, 0, u, quiz.Key(1), timestamp);
      g := Recorded(g3, Carried(g3, sid, u, quiz.Key(1), timestamp));
      assert TwoQuestions(sid, quiz, u, answered, timestamp) == e3 + Answer(0, sid, u, quiz.Key(1), timestamp);
    }
  }

  /** Then the session ends and is started again, and the third question begins
      before the first consumer has asked for the board. */
  function OverlappingRun(sid: SessionId, quiz: Quiz, u: UserId, answered: int, timestamp: int): seq<Event> {
    TwoQuestions(sid, quiz, u, answered, timestamp) + [End(sid)] + [StartRegister(sid, quiz)] + [StartTrack]
    + [Event.Advance(sid, 1)] + [Event.Score(sid, 0)] + [Event.Score(sid, 1)]
  }

  lemma RestartRuns(events: seq<Event>, sid: SessionId, g: Game, w: nat, quiz: Quiz)
    requires RunsTo(events, sid, g, w) && g.consumers == [Consumer(Advanced(1), false)]
    ensures var e := events + [End(sid)] + [StartRegister(sid, quiz)] + [StartTrack];
            && Run(INITIAL, e).Done?
            && Plays(Run(INITIAL, e).value, sid, g.(consumers := [Consumer(Advanced(1), true), Consumer(Idle, false)]))
  {
    hide Run, ScoresApart, ScoresFirst, ApplyEnd, ApplyStartRegister, ApplyStartTrack;
    RunAppends(INITIAL, events, End(sid));
    RunAppends(INITIAL, events + [End(sid)], StartRegister(sid, quiz));
    RunAppends(INITIAL, events + [End(sid)] + [StartRegister(sid, quiz)], StartTrack);
    RestartResumes(Run(INITIAL, events).value, sid, quiz);
  }

  ghost function Twice(g: Game, entries: Entries): Game {
    g.(idx := 2,
       trace := g.trace.(advances := 3, batches := [Batch(1, entries), Batch(1, entries)]),
       board := AddPoints(AddPoints(map[], PointsOf(entries)), PointsOf(entries)),
       consumers := [Consumer(Scored(1, entries), true), Consumer(Scored(2, entries), false)])
  }

  lemma OverlapRuns(events: seq<Event>, sid: SessionId, g: Game, entries: Entries)
    requires Run(INITIAL, events).Done? && Plays(Run(INITIAL, events).value, sid, g)
    requires g.idx == 1 && 3 <= g.quiz.Len() && g.trace.advances == 2 && g.trace.batches == [] && g.board == map[]
    requires g.consumers == [Consumer(Advanced(1), true), Consumer(Idle, false)]
    requires InBounds(g.slices, 1) && Column(g.slices, 1) == entries != map[]
    ensures var e := events + [Event.Advance(sid, 1)] + [Event.Score(sid, 0)] + [Event.Score(sid, 1)];
            && !ScoresApart(INITIAL, e, sid)
            && Run(INITIAL, e).Done? && Plays(Run(INITIAL, e).value, sid, Twice(g, entries))
  {
    hide Run, ScoresApart, ApplyAdvance, ApplyScore, PointsOf, AddPoints, InBounds, Column;
    var s := Run(INITIAL, events).value;
    RunAppends(INITIAL, events, Event.Advance(sid, 1));
    assert Pending(s.Consumers(sid), 0);
    assert !ScoresFirst(s, Event.Advance(sid, 1), sid);
    AdvancePlays(s, sid, g, 1);
    hide ScoresFirst, Plays;
    var e1, g1 := events + [Event.Advance(sid, 1)], AfterAdvance(g, 1);
    RunAppends(INITIAL, e1, Event.Score(sid, 0));
    ScorePlays(Run(INITIAL, e1).value, sid, g1, 0, entries);
    var e2 := e1 + [Event.Score(sid, 0)];
    var g2 := g1.(trace := g1.trace.(batches := g1.trace.batches + [Batch(1, entries)]),
                  board := AddPoints(g1.board, PointsOf(entries)), consumers := At(g1.consumers, 0, Scored(1, entries)));
    RunAppends(INITIAL, e2, Event.Score(sid, 1));
    ScorePlays(Run(INITIAL, e2).value, sid, g2, 1, entries);
    assert [] + [Batch(1, entries)] + [Batch(1, entries)] == [Batch(1, entries), Batch(1, entries)];
  }

  lemma CountTwo(b: Batch)
    ensures forall question :: TimesScored([b, b], question) == if question == b.question then 2 else 0
  {
    forall question ensures TimesScored([b, b], question) == if question == b.question then 2 else 0 {
      assert [b, b][..1] == [b];
      assert TimesScored([b], question) == if question == b.question then 1 else 0;
    }
  }

  /** One participant's points: everything for a right answer, nothing for none. */
  lemma AlonePoints(u: UserId, a: UserAnswer)
    requires a == NO_ANSWER || a.correct
    ensures PointsOf(map[u := a]) == map[u := if a == NO_ANSWER then 0 else MAX_SCORE]
  {
    var entries := map[u := a];
    WhoScores(entries, u);
    assert PointsOf(entries).Keys == {u};
    hide PointsOf;
  }

  /** The points u has earned with the answers to the first two questions. */
  lemma EarnedOnce(slices: Slices, len: nat, u: UserId, answered: int, a: UserAnswer)
    requires AnsweredOnly(slices, len, u, answered, a) && 3 <= len && 0 <= answered <= 1 && a.correct
    ensures FinalSum(slices, [{u}, {u}], u) == MAX_SCORE
  {
    AlonePoints(u, slices[u][0]);
    AlonePoints(u, slices[u][1]);
    assert SlotsOf(slices, 0, {u}) == map[u := slices[u][0]] && SlotsOf(slices, 1, {u}) == map[u := slices[u][1]];
    hide PointsOf;
    assert [{u}, {u}][..1] == [{u}] && [{u}][..0] == [];
    assert FinalSum(slices, [], u) == 0;
  }

  /** Each step is allowed by the program, yet the second question is scored twice
      and the first one never. Who answered one of the two rightly has earned 1000
      points, and has 2000 if it was the second, and none if it was the first. */
  lemma OverlapScoresTwice(sid: SessionId, quiz: Quiz, u: UserId, answered: int, timestamp: int)
    requires 3 <= quiz.Len() && 0 <= answered <= 1
    ensures var events := OverlappingRun(sid, quiz, u, answered, timestamp);
            && !ScoresApart(INITIAL, events, sid)
            && Run(INITIAL, events).Done?
            && var s := Run(INITIAL, events).value;
               && Settled(s, sid) && s.TraceOf(sid).advances == 3
               && TimesScored(s.TraceOf(sid).batches, 0) == 0 && TimesScored(s.TraceOf(sid).batches, 1) == 2
               && AnsweredOnly(s.Slices(sid), quiz.Len(), u, answered, UserAnswer(true, quiz.Key(answered), true, timestamp))
               && FinalSum(s.Slices(sid), [{u}, {u}], u) == MAX_SCORE
               && s.Board(sid) == map[u := if answered == 1 then 2 * MAX_SCORE else 0]
  {
    hide Run, ScoresApart, TwoQuestions, PointsOf, AddPoints, Quiz.Key, FinalSum, TimesScored;
    var g := TwoQuestionsGame(sid, quiz, u, answered, timestamp);
    var a := UserAnswer(true, quiz.Key(answered), true, timestamp);
    var e := TwoQuestions(sid, quiz, u, answered, timestamp);
    RestartRuns(e, sid, g, 1, quiz);
    var entries := map[u := if answered == 1 then a else NO_ANSWER];
    assert Column(g.slices, 1) == entries;
    assert u in entries;
    OverlapRuns(e + [End(sid)] + [StartRegister(sid, quiz)] + [StartTrack], sid,
                g.(consumers := [Consumer(Advanced(1), true), Consumer(Idle, false)]), entries);
    CountTwo(Batch(1, entries));
    EarnedOnce(g.slices, quiz.Len(), u, answered, a);
    AlonePoints(u, entries[u]);
    PointsTwice(u, if answered == 1 then MAX_SCORE else 0);
  }

  lemma PointsTwice(u: UserId, points: int)
    ensures AddPoints(AddPoints(map[], map[u := points]), map[u := points]) == map[u := 2 * points]
  {
    assert AddPoints(map[], map[u := points]) == map[u := points];
  }
}
