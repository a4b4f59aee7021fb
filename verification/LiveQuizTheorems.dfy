/** What a session guarantees over whole runs of the service. */
module LiveQuizTheorems {
  import opened Quizzes
  import opened CacheKeys
  import opened Tracker
  import opened Scoring
  import opened LiveQuiz
  import opened LiveQuizSafety
  import opened LiveQuizRuns
  import opened LiveQuizOrder

  /** s is a state some interleaving reaches, and sid is tracked in it. */
  ghost predicate Reaches(events: seq<Event>, s: Service, sid: SessionId) {
    Run(INITIAL, events) == Done(s) && sid in s.live.tracker
  }

  lemma ReachedGame(events: seq<Event>, s: Service, sid: SessionId)
    requires Reaches(events, s, sid)
    ensures Inv(s) && sid in s.live.answers && GameOk(PartOf(s, sid).Play())
  {
    EveryRunIsSafe(events);
    assert PartOk(PartOf(s, sid));
  }

  lemma ReachedLog(events: seq<Event>, s: Service, sid: SessionId)
    requires Reaches(events, s, sid)
    ensures sid in s.live.answers && GameOk(PartOf(s, sid).Play()) && LogOk(PartOf(s, sid).Play())
    ensures ScoresApart(INITIAL, events, sid) ==> OrderOk(PartOf(s, sid).Play())
    ensures !ScoresApart(INITIAL, events, sid) ==> Broken(PartOf(s, sid).Play())
  {
    ReachedGame(events, s, sid);
    RunKeepsLog(events, s, sid);
  }

  /** No consumer of the session owes a scoring. */
  ghost predicate Settled(s: Service, sid: SessionId) {
    forall c :: !Pending(s.Consumers(sid), c)
  }

  // ---- exactly-once scoring ----

  lemma OrderedCounts(g: Game)
    requires GameOk(g) && LogOk(g) && OrderOk(g) && forall c :: !Pending(g.consumers, c)
    ensures forall q :: TimesScored(g.trace.batches, q) == Expected(g.trace.advances, g.quiz.Len(), q)
  {
    NonePending(g.consumers);
    if 2 <= g.quiz.Len() {
      forall q ensures TimesScored(g.trace.batches, q) == Expected(g.trace.advances, g.quiz.Len(), q) {
        CountScorings(g.trace.batches, g.quiz.Len(), q);
      }
    }
    hide GameOk, Pendings, SentOk, HasBatch;
  }

  lemma BrokenMiscounts(g: Game)
    requires GameOk(g) && Broken(g)
    ensures exists q :: TimesScored(g.trace.batches, q) != Expected(g.trace.advances, g.quiz.Len(), q)
  {
    GameBounds(g);
    UpToBounds(g.trace.batches, g.idx);
    var j :| 0 <= j < g.idx - 1 && UpTo(g.trace.batches, j) <= j;
    hide GameOk;
    if forall q :: 0 <= q <= j ==> TimesScored(g.trace.batches, q) == 1 {
      OnceEach(g.trace.batches, j);
    } else {
      var q :| 0 <= q <= j && TimesScored(g.trace.batches, q) != 1;
      assert Expected(g.trace.advances, g.quiz.Len(), q) == 1;
    }
  }

  /** After k question events of a session with len questions, with no scoring
      pending: for k <= len, questions 0..k-2 have been scored once each and no
      other; every event after the len-th scores question len-2 again. That is so
      exactly if the index never moved on while a scoring was pending. In every run
      there are as many scorings as there should be, and the last question has none. */
  lemma ExactlyOnceScoring(events: seq<Event>, s: Service, sid: SessionId)
    requires Reaches(events, s, sid) && Settled(s, sid)
    ensures var k, len, batches := s.TraceOf(sid).advances, s.live.Len(sid), s.TraceOf(sid).batches;
            && ((forall q :: TimesScored(batches, q) == Expected(k, len, q)) <==> ScoresApart(INITIAL, events, sid))
            && |batches| == ScoringsAfter(k, len)
            && (forall q :: q >= len - 1 ==> TimesScored(batches, q) == 0)
  {
    ReachedLog(events, s, sid);
    var g := PartOf(s, sid).Play();
    NonePending(g.consumers);
    GameBounds(g);
    UpToBounds(g.trace.batches, g.idx);
    if ScoresApart(INITIAL, events, sid) {
      OrderedCounts(g);
    } else {
      BrokenMiscounts(g);
    }
    hide GameOk, LogOk, OrderOk, Broken, TimesScored, Expected;
  }

  // ---- totals ----

  ghost function PointSum(batches: seq<Batch>, u: UserId): int {
    if batches == [] then 0
    else PointSum(batches[..|batches| - 1], u) + Get(PointsOf(batches[|batches| - 1].entries), u, 0)
  }

  lemma {:induction false} TallyIsPointSum(batches: seq<Batch>, u: UserId)
    ensures Get(Tally(batches), u, 0) == PointSum(batches, u)
    ensures 0 <= PointSum(batches, u) <= MAX_SCORE * |batches|
    decreases |batches|
  {
    if batches != [] {
      var last := batches[|batches| - 1];
      TallyIsPointSum(batches[..|batches| - 1], u);
      if u in last.entries {
        WhoScores(last.entries, u);
      }
    }
  }

  /** The answers to a question as they stand now, of the participants given. */
  ghost function SlotsOf(slices: Slices, question: int, members: set<UserId>): Entries
    requires InBounds(slices, question)
  {
    map u | u in members && u in slices :: slices[u][question]
  }

  /** A stored total is the sum of the participant's points over the batches. */
  lemma TotalsAreSums(events: seq<Event>, s: Service, sid: SessionId, u: UserId)
    requires Reaches(events, s, sid)
    ensures Get(s.Board(sid), u, 0) == PointSum(s.TraceOf(sid).batches, u)
    ensures 0 <= Get(s.Board(sid), u, 0) <= MAX_SCORE * |s.TraceOf(sid).batches|
  {
    ReachedGame(events, s, sid);
    hide GameOk;
    TallyIsPointSum(s.TraceOf(sid).batches, u);
  }

  /** Every batch holds the answers to its question as they stand now; someone
      who was not there when it was scored has no answer to it. */
  lemma BatchesAreFinalAnswers(events: seq<Event>, s: Service, sid: SessionId, i: nat)
    requires Reaches(events, s, sid) && i < |s.TraceOf(sid).batches|
    ensures var b, slices := s.TraceOf(sid).batches[i], s.Slices(sid);
            && InBounds(slices, b.question)
            && b.entries.Keys <= slices.Keys
            && b.entries == SlotsOf(slices, b.question, b.entries.Keys)
            && 0 <= b.question < s.live.Current(sid)
            && (ScoresApart(INITIAL, events, sid) && s.TraceOf(sid).advances <= s.live.Len(sid) ==> b.question == i)
            && (forall u :: u in slices && u !in b.entries ==> slices[u][b.question] == NO_ANSWER)
  {
    ReachedGame(events, s, sid);
    var g := PartOf(s, sid).Play();
    assert Frozen(g.slices, g.trace.batches[i]);
    if ScoresApart(INITIAL, events, sid) {
      ReachedLog(events, s, sid);
    }
    hide GameOk;
  }

  /** The points of u for questions 0, 1, ..., computed from the answers as they
      stand, among the participants each question was scored for. */
  ghost function FinalSum(slices: map<UserId, seq<UserAnswer>>, members: seq<set<UserId>>, u: UserId): int
    requires forall v :: v in slices ==> |members| <= |slices[v]|
  {
    if members == [] then 0
    else
      var j := |members| - 1;
      FinalSum(slices, members[..j], u) + Get(PointsOf(SlotsOf(slices, j, members[j])), u, 0)
  }

  ghost function Members(batches: seq<Batch>): seq<set<UserId>> {
    seq(|batches|, j requires 0 <= j < |batches| => batches[j].entries.Keys)
  }

  lemma {:induction false} PointSumIsFinalSum(slices: map<UserId, seq<UserAnswer>>, batches: seq<Batch>, u: UserId)
    requires forall v :: v in slices ==> |batches| <= |slices[v]|
    requires forall j :: 0 <= j < |batches| ==>
                           batches[j].question == j && batches[j].entries == SlotsOf(slices, j, batches[j].entries.Keys)
    ensures PointSum(batches, u) == FinalSum(slices, Members(batches), u)
    decreases |batches|
  {
    hide PointsOf, SlotsOf;
    if batches != [] {
      var n := |batches| - 1;
      PointSumIsFinalSum(slices, batches[..n], u);
      assert Members(batches)[..n] == Members(batches[..n]);
    }
  }

  /** End to end: after k <= len question events, the stored total of every user
      is the sum of the points of the final answers to questions 0..k-2. */
  lemma TotalsComeFromFinalAnswers(events: seq<Event>, s: Service, sid: SessionId, u: UserId)
    requires Reaches(events, s, sid) && ScoresApart(INITIAL, events, sid) && Settled(s, sid)
    requires s.TraceOf(sid).advances <= s.live.Len(sid)
    ensures var batches, k := s.TraceOf(sid).batches, s.TraceOf(sid).advances;
            && |batches| == (if k == 0 then 0 else k - 1)
            && (forall v :: v in s.Slices(sid) ==> |batches| <= |s.Slices(sid)[v]|)
            && Get(s.Board(sid), u, 0) == FinalSum(s.Slices(sid), Members(batches), u)
  {
    ReachedLog(events, s, sid);
    var g := PartOf(s, sid).Play();
    NonePending(g.consumers);
    IndexFollowsEvents(events, s, sid);
    TotalsAreSums(events, s, sid, u);
    var batches := s.TraceOf(sid).batches;
    hide GameOk, Pendings, SentOk, HasBatch;
    forall j | 0 <= j < |batches|
      ensures batches[j].question == j && InBounds(s.Slices(sid), j)
      ensures batches[j].entries == SlotsOf(s.Slices(sid), j, batches[j].entries.Keys)
    {
      BatchesAreFinalAnswers(events, s, sid, j);
    }
    PointSumIsFinalSum(s.Slices(sid), batches, u);
  }

  /** When the leaderboard takes v to have answered: Go's zero time, if never. */
  ghost function AnsweredAt(slices: Slices, grades: map<(UserId, int), Stamp>, v: UserId, question: int): int {
    if v in slices && (v, question) in grades && 0 <= question < |slices[v]| then slices[v][question].timestamp else 0
  }

  /** Who scores: a correct answer, if no participant in the batch answered more
      than 19.98 s earlier, where silence counts as an answer at Go's zero time. So
      one silent participant wipes out the points of every answer that is itself
      later than 19.98 s after that time. */
  lemma WhoScoresInARun(events: seq<Event>, s: Service, sid: SessionId, i: nat, u: UserId)
    requires Reaches(events, s, sid) && i < |s.TraceOf(sid).batches|
    requires u in s.TraceOf(sid).batches[i].entries
    ensures var b, grades, slices := s.TraceOf(sid).batches[i], s.TraceOf(sid).grades, s.Slices(sid);
            && (PointsOf(b.entries)[u] > 0 <==>
                  && Correct(slices, u, b.question)
                  && forall v :: v in b.entries ==>
                       AnsweredAt(slices, grades, u, b.question) - AnsweredAt(slices, grades, v, b.question) <= LIMIT - TICK)
            && (AnsweredAt(slices, grades, u, b.question) > LIMIT - TICK && PointsOf(b.entries)[u] > 0 ==>
                  forall v :: v in b.entries ==> (v, b.question) in grades)
  {
    ReachedGame(events, s, sid);
    var g := PartOf(s, sid).Play();
    var b := g.trace.batches[i];
    assert Frozen(g.slices, b);
    WhoScores(b.entries, u);
    forall v | v in b.entries
      ensures b.entries[v].timestamp == AnsweredAt(g.slices, g.trace.grades, v, b.question)
      ensures b.entries[v].correct <==> Correct(g.slices, v, b.question)
    {
      assert g.slices[v][b.question] == b.entries[v];
    }
    hide GameOk, Frozen, PointsOf;
  }

  // ---- grading under interleaving ----

  /** Whatever advances fell between a goroutine's reading the index and its
      recording, the slot it wrote was graded by the options of the question it read;
      the two questions agree exactly when the index did not move in between. */
  lemma GradingUnderInterleaving(events: seq<Event>, s: Service, sid: SessionId, u: UserId, slot: int)
    requires Reaches(events, s, sid) && u in s.Slices(sid) && 0 <= slot < |s.Slices(sid)[u]|
    ensures var a, grades := s.Slices(sid)[u][slot], s.TraceOf(sid).grades;
            && (a.answered <==> (u, slot) in grades)
            && (!a.answered ==> a == NO_ANSWER)
            && (a.answered ==>
                  var st := grades[(u, slot)];
                  && -1 <= st.graded <= slot
                  && (a.correct <==> IsRight(s.live.tracker[sid].quizData, st.graded, a.option))
                  && (st.graded == slot <==> st.readAt == st.recordedAt || st.readAt >= s.live.Len(sid)))
  {
    ReachedGame(events, s, sid);
    var g := PartOf(s, sid).Play();
    if (u, slot) in g.trace.grades {
      KeyIsRight(g.quiz, g.trace.grades[(u, slot)].graded, g.slices[u][slot].option);
      assert SlotOk(g.quiz, g.trace.advances, slot, g.slices[u][slot], g.trace.grades[(u, slot)]);
    }
  }

  /** Run without interference, the three steps grade and record against the
      question that is current. */
  lemma UninterruptedAnswer(s: Service, w: nat)
    requires w in s.workers && s.workers[w].Submitted? && s.workers[w].sid in s.live.tracker
    ensures var p := s.workers[w];
            var entry := s.live.tracker[p.sid];
            var answer := UserAnswer(true, p.option, IsRight(entry.quizData, entry.currQuestionIdx, p.option), p.timestamp);
            var end := ApplyRecord(ApplyGrade(ApplyReadIndex(s, w), w), w);
            && (end.Panic? <==> s.live.RecordAnswer(p.sid, p.uid, answer).Panic?)
            && (end.Done? ==> Done(end.value.live) == s.live.RecordAnswer(p.sid, p.uid, answer))
  {
    hide Quiz.Key, AnswersKey, State.RecordAnswer;
    var entry := s.live.tracker[s.workers[w].sid];
    KeyIsRight(entry.quizData, entry.currQuestionIdx, s.workers[w].option);
    var looked := ApplyReadIndex(s, w);
    assert looked.live == s.live && looked.workers[w].Looked?;
    var graded := ApplyGrade(looked, w);
    assert graded.live == s.live && graded.workers[w].Graded?;
  }

  ghost predicate Gone(s: Service, w: nat) {
    w in s.workers && s.workers[w].Finished?
  }

  lemma AnsweringKeepsDone(s: Service, e: Event, w: nat)
    requires Gone(s, w) && (e.Submit? || e.ReadIndex? || e.Grade? || e.Record?)
    ensures Apply(s, e).Done? ==> Gone(Apply(s, e).value, w)
    ensures e.worker == w ==> Apply(s, e) == Done(s)
  {
    hide State.RecordAnswer, Quiz.Key;
  }

  lemma TurnsKeepWorkers(s: Service, sid: SessionId, c: nat)
    ensures ApplyAdvance(s, sid, c).Done? ==> ApplyAdvance(s, sid, c).value.workers == s.workers
    ensures ApplyScore(s, sid, c).Done? ==> ApplyScore(s, sid, c).value.workers == s.workers
    ensures ApplyAnnounce(s, sid, c).Done? ==> ApplyAnnounce(s, sid, c).value.workers == s.workers
    ensures ApplyStop(s, sid, c).workers == s.workers
  {
    hide State.Inc, InBounds, Column, AddPoints, PointsOf;
  }

  lemma LifecycleKeepsWorkers(s: Service, e: Event)
    requires e.StartRegister? || e.StartTrack? || e.End? || e.JoinRegister? || e.JoinConnect? || e.JoinTrack? || e.Leave?
    ensures Apply(s, e).Done? && Apply(s, e).value.workers == s.workers
  {
    hide State.NewSession, State.AddParticipant;
  }

  lemma EventKeepsDone(s: Service, e: Event, w: nat)
    requires Gone(s, w)
    ensures Apply(s, e).Done? ==> Gone(Apply(s, e).value, w)
  {
    hide Gone, ApplyAdvance, ApplyScore, ApplyAnnounce, ApplyStop;
    if e.Submit? || e.ReadIndex? || e.Grade? || e.Record? {
      AnsweringKeepsDone(s, e, w);
    } else if e.Advance? || e.Score? || e.Announce? || e.Stop? {
      TurnsKeepWorkers(s, e.sid, e.consumer);
      SameWorkersDone(s, e, w);
    } else {
      LifecycleKeepsWorkers(s, e);
      SameWorkersDone(s, e, w);
    }
  }

  lemma SameWorkersDone(s: Service, e: Event, w: nat)
    requires Gone(s, w) && (Apply(s, e).Done? ==> Apply(s, e).value.workers == s.workers)
    ensures Apply(s, e).Done? ==> Gone(Apply(s, e).value, w)
  {
    hide Apply;
  }

  lemma {:induction false} RunKeepsDone(s: Service, events: seq<Event>, w: nat)
    requires Gone(s, w)
    ensures Run(s, events).Done? ==> Gone(Run(s, events).value, w)
    decreases |events|
  {
    hide Apply, Gone;
    if events != [] {
      var init := events[..|events| - 1];
      RunKeepsDone(s, init, w);
      if Run(s, init).Done? {
        EventKeepsDone(Run(s, init).value, events[|events| - 1], w);
      }
    }
  }

  /** An answer that is graded before its session is tracked is dropped for good:
      whatever happens later, also a start of the session, its goroutine does nothing
      more. One whose session is tracked is graded. */
  lemma EarlyGradesAreDropped(s: Service, w: nat, events: seq<Event>, t: Service, e: Event)
    requires w in s.workers && s.workers[w].Looked? && Run(ApplyGrade(s, w), events) == Done(t)
    requires (e.Submit? || e.ReadIndex? || e.Grade? || e.Record?) && e.worker == w
    ensures ApplyGrade(s, w).(workers := s.workers) == s
    ensures s.workers[w].sid in s.live.tracker <==> ApplyGrade(s, w).workers[w].Graded?
    ensures s.workers[w].sid !in s.live.tracker ==> Apply(t, e) == Done(t)
  {
    hide Quiz.Key, Apply;
    if s.workers[w].sid !in s.live.tracker {
      RunKeepsDone(ApplyGrade(s, w), events, w);
      AnsweringKeepsDone(t, e, w);
    }
  }

  // ---- statistics agree with scores ----

  /** In every run a flag that was sent about a question says whether the answer as
      it finally stands is right, and agrees with every batch the question was
      scored in, though answers and joins may fall between the steps. If the index
      never moved on over a pending scoring there is such a batch. */
  lemma StatisticsMatchScores(events: seq<Event>, s: Service, sid: SessionId, f: Sent, u: UserId)
    requires Reaches(events, s, sid) && f in s.TraceOf(sid).sent && u in f.flags
    ensures f.flags[u] == Correct(s.Slices(sid), u, f.question)
    ensures forall b :: b in s.TraceOf(sid).batches && b.question == f.question ==>
                          f.flags[u] == Get(b.entries, u, NO_ANSWER).correct
    ensures ScoresApart(INITIAL, events, sid) ==> exists b :: b in s.TraceOf(sid).batches && b.question == f.question
  {
    ReachedLog(events, s, sid);
    var g := PartOf(s, sid).Play();
    forall b | b in g.trace.batches && b.question == f.question
      ensures f.flags[u] == Get(b.entries, u, NO_ANSWER).correct
    {
      assert Frozen(g.slices, b);
    }
    if ScoresApart(INITIAL, events, sid) {
      assert HasBatch(g.trace.batches, f.question);
    }
    hide GameOk, Numbered, Pendings;
  }

  // ---- what later events cannot change ----

  /** Once a question is behind the index, no later event changes anybody's
      answer to it, and what has been scored stays scored. */
  lemma FrozenSlots(before: seq<Event>, s: Service, sid: SessionId, after: seq<Event>, t: Service, u: UserId, slot: int)
    requires Reaches(before, s, sid) && Run(s, after) == Done(t)
    requires u in s.Slices(sid) && 0 <= slot < s.live.Current(sid)
    ensures sid in t.live.tracker && t.live.Quiz(sid) == s.live.Quiz(sid)
    ensures s.live.Current(sid) <= t.live.Current(sid)
    ensures u in t.Slices(sid)
    ensures slot < |s.Slices(sid)[u]| == |t.Slices(sid)[u]|
    ensures t.Slices(sid)[u][slot] == s.Slices(sid)[u][slot]
    ensures s.TraceOf(sid).batches <= t.TraceOf(sid).batches
  {
    ReachedGame(before, s, sid);
    RunKeeps(s, after);
    var g, h := PartOf(s, sid).Play(), PartOf(t, sid).Play();
    assert Continues(PartOf(s, sid), PartOf(t, sid));
    assert SameBelow(g.slices[u], h.slices[u], g.idx);
  }

  // ---- run safety ----

  /** In a tracked session the index after k question events is min(k, len) - 1,
      every slice has one slot per question, and the end-of-game branch is dead. */
  lemma IndexFollowsEvents(events: seq<Event>, s: Service, sid: SessionId)
    requires Reaches(events, s, sid)
    ensures s.live.Current(sid) == IndexAfter(s.TraceOf(sid).advances, s.live.Len(sid))
    ensures sid in s.live.answers && forall u :: u in s.Slices(sid) ==> |s.Slices(sid)[u]| == s.live.Len(sid)
    ensures s.TraceOf(sid).gameEnds == 0
  {
    ReachedGame(events, s, sid);
  }

  /** The service crashes exactly when a goroutine records an answer for a session
      whose first question has not started, or that has no questions at all. */
  lemma CrashesOnlyTooEarly(events: seq<Event>, s: Service, e: Event)
    requires Run(INITIAL, events) == Done(s)
    ensures Apply(s, e).Panic? <==> RecordsTooEarly(s, e)
    ensures RecordsTooEarly(s, e) ==>
              var sid := s.workers[e.worker].sid;
              sid in s.live.tracker && (s.TraceOf(sid).advances == 0 || s.live.Len(sid) == 0)
  {
    EveryRunIsSafe(events);
    EventKeeps(s, e);
    if RecordsTooEarly(s, e) {
      var sid := s.workers[e.worker].sid;
      assert WorkerFits(s, e.worker);
      assert PartOk(PartOf(s, sid));
    }
  }
}
