/** The quiz tracker: the current question of every session, every participant's
    answer slice, and the write-through copy in the cache. */
module Tracker {
  import opened Quizzes
  import opened CacheKeys
  import opened RedisCache

  type Slices = map<UserId, seq<UserAnswer>>

  /** The tracker's two maps and the cache behind them. */
  datatype State = State(
    tracker: map<SessionId, OngoingQuiz>,
    answers: map<SessionId, Slices>,
    store: Store)
  {
    function Quiz(sid: SessionId): Quiz {
      Get(tracker, sid, NO_QUIZ).quizData
    }

    function Len(sid: SessionId): nat {
      Quiz(sid).Len()
    }

    /** What GetCurrentQuestion answers: -1 for an unknown session. */
    function Current(sid: SessionId): int {
      if sid in tracker then tracker[sid].currQuestionIdx else -1
    }

    function Slice(sid: SessionId, uid: UserId): seq<UserAnswer> {
      Get(Get(answers, sid, map[]), uid, Blank(Len(sid)))
    }

    function NewSession(sid: SessionId, quiz: Quiz): State {
      if sid in tracker then this
      else
        var entry := OngoingQuiz(-1, quiz);
        State(tracker[sid := entry], answers[sid := map[]], store.PutQuiz(sid, entry))
    }

    predicate CanInc(sid: SessionId) {
      sid in tracker && tracker[sid].currQuestionIdx + 1 < tracker[sid].quizData.Len()
    }

    function Inc(sid: SessionId): State {
      if !CanInc(sid) then this
      else
        var idx := tracker[sid].currQuestionIdx + 1;
        this.(tracker := tracker[sid := tracker[sid].(currQuestionIdx := idx)],
              store := store.PutIndex(sid, idx))
    }

    /** Writing into the answers of an unknown session panics. */
    function AddParticipant(sid: SessionId, uid: UserId): Outcome<State> {
      if sid in answers && uid in answers[sid] then Done(this)
      else if sid !in answers then Panic
      else Done(this.(answers := answers[sid := answers[sid][uid := Blank(Len(sid))]]))
    }

    /** The answer goes to the question that is current now; an index outside the
        slice panics. */
    function RecordAnswer(sid: SessionId, uid: UserId, answer: UserAnswer): Outcome<State> {
      var qid := Get(tracker, sid, NO_QUIZ).currQuestionIdx;
      var slice := Slice(sid, uid);
      if sid !in answers || qid < 0 || qid >= |slice| then Panic
      else Done(this.(answers := answers[sid := answers[sid][uid := slice[qid := answer]]],
                      store := store.PutAnswer(sid, uid, qid, answer)))
    }

    ghost function DeleteSession(sid: SessionId): State {
      if sid !in tracker then this
      else State(tracker - {sid}, answers - {sid}, store.Drop(sid))
    }

    /** A restarted service: the tracker comes from the cache, the answers do not. */
    ghost function Restored(): State {
      State(store.Sessions(), map[], store)
    }

    ghost predicate WellFormed() {
      && tracker.Keys == answers.Keys
      && (forall sid :: sid in tracker ==> IndexInRange(tracker[sid]) && SlicesFit(answers[sid], Len(sid)))
    }

    ghost predicate Synced() {
      QuizzesAgree(tracker, store.quizzes) && AnswersAgree(answers, store.hashes)
    }
  }

  const EMPTY := State(map[], map[], Store(map[], map[]))

  ghost predicate IndexInRange(entry: OngoingQuiz) {
    entry.currQuestionIdx == -1 || 0 <= entry.currQuestionIdx < entry.quizData.Len()
  }

  ghost predicate SlicesFit(slices: Slices, len: nat) {
    forall uid :: uid in slices ==> |slices[uid]| == len
  }

  // ---- agreement of memory and cache ----

  ghost predicate QuizzesAgree(tracker: map<SessionId, OngoingQuiz>, quizzes: map<string, OngoingQuiz>) {
    && (forall sid :: sid in tracker ==> QuizKey(sid) in quizzes && quizzes[QuizKey(sid)] == tracker[sid])
    && (forall k :: k in quizzes ==> k == QuizKey(QuizKeyBody(k)) && QuizKeyBody(k) in tracker)
  }

  /** The slice is the zero-filled completion of the hash. */
  ghost predicate Completes(slice: seq<UserAnswer>, hash: Answers) {
    && (forall i :: 0 <= i < |slice| ==> slice[i] == Get(hash, i, NO_ANSWER))
    && (forall i :: i in hash ==> 0 <= i < |slice|)
  }

  ghost function Hash(hashes: map<string, Answers>, sid: SessionId, uid: UserId): Answers {
    Get(hashes, AnswersKey(sid, uid), map[])
  }

  ghost predicate Holds(answers: map<SessionId, Slices>, sid: SessionId, uid: UserId) {
    sid in answers && uid in answers[sid]
  }

  ghost predicate Owned(answers: map<SessionId, Slices>, key: string) {
    exists sid, uid :: Holds(answers, sid, uid) && key == AnswersKey(sid, uid)
  }

  ghost predicate AnswersAgree(answers: map<SessionId, Slices>, hashes: map<string, Answers>) {
    && (forall sid, uid :: Holds(answers, sid, uid) ==> Completes(answers[sid][uid], Hash(hashes, sid, uid)))
    && (forall k :: k in hashes ==> Owned(answers, k))
  }

  lemma PutQuizAgrees(tracker: map<SessionId, OngoingQuiz>, quizzes: map<string, OngoingQuiz>,
                      sid: SessionId, entry: OngoingQuiz)
    requires QuizzesAgree(tracker, quizzes)
    ensures QuizzesAgree(tracker[sid := entry], quizzes[QuizKey(sid) := entry])
  {
    hide QuizKey;
    forall other | other in tracker && QuizKey(other) == QuizKey(sid) ensures other == sid {
      QuizKeyInjective(other, sid);
    }
    QuizKeyBodyOf(sid);
  }

  lemma NewSlicesAgree(answers: map<SessionId, Slices>, hashes: map<string, Answers>, sid: SessionId)
    requires AnswersAgree(answers, hashes) && sid !in answers
    ensures AnswersAgree(answers[sid := map[]], hashes)
  {
    hide AnswersKey;
    var answers' := answers[sid := map[]];
    forall k | k in hashes ensures Owned(answers', k) {
      var o, u :| Holds(answers, o, u) && k == AnswersKey(o, u);
      assert Holds(answers', o, u);
    }
    forall o, u | Holds(answers', o, u) ensures Completes(answers'[o][u], Hash(hashes, o, u)) {
      assert Holds(answers, o, u);
    }
  }

  /** No two of these sessions can share an answers key. */
  ghost predicate Apart(ids: set<SessionId>) {
    forall s, t :: s in ids && t in ids ==> !Collide(s, t)
  }

  /** One participant's slice and hash may change together; nothing else moves. */
  lemma PutSliceAgrees(answers: map<SessionId, Slices>, hashes: map<string, Answers>,
                       sid: SessionId, uid: UserId, slice: seq<UserAnswer>, hashes': map<string, Answers>)
    requires AnswersAgree(answers, hashes) && Apart(answers.Keys) && sid in answers
    requires hashes' - {AnswersKey(sid, uid)} == hashes - {AnswersKey(sid, uid)}
    requires Completes(slice, Hash(hashes', sid, uid))
    ensures AnswersAgree(answers[sid := answers[sid][uid := slice]], hashes')
  {
    hide AnswersKey;
    var key := AnswersKey(sid, uid);
    var answers' := answers[sid := answers[sid][uid := slice]];
    forall k | k in hashes' ensures Owned(answers', k) {
      if k == key {
        assert Holds(answers', sid, uid);
      } else {
        assert k in hashes - {key};
        var o, u :| Holds(answers, o, u) && k == AnswersKey(o, u);
        assert Holds(answers', o, u);
      }
    }
    forall o, u | Holds(answers', o, u) ensures Completes(answers'[o][u], Hash(hashes', o, u)) {
      if AnswersKey(o, u) == key {
        AnswersKeyInjective(o, u, sid, uid);
      } else {
        assert Holds(answers, o, u);
        assert Hash(hashes', o, u) == Hash(hashes, o, u) by {
          assert AnswersKey(o, u) in hashes <==> AnswersKey(o, u) in hashes - {key};
          assert AnswersKey(o, u) in hashes' <==> AnswersKey(o, u) in hashes' - {key};
        }
      }
    }
  }

  /** A participant's slice, existing or fresh, completes its hash. */
  lemma SliceCompletes(s: State, sid: SessionId, uid: UserId)
    requires s.WellFormed() && s.Synced() && Apart(s.answers.Keys) && sid in s.answers
    ensures Completes(s.Slice(sid, uid), Hash(s.store.hashes, sid, uid))
  {
    hide AnswersKey;
    if uid in s.answers[sid] {
      assert Holds(s.answers, sid, uid);
    } else if AnswersKey(sid, uid) in s.store.hashes {
      var o, u :| Holds(s.answers, o, u) && AnswersKey(sid, uid) == AnswersKey(o, u);
      AnswersKeyInjective(sid, uid, o, u);
    }
  }

  // ---- every operation keeps memory and cache in step ----

  lemma NewSessionSyncs(s: State, sid: SessionId, quiz: Quiz)
    requires s.WellFormed() && s.Synced()
    ensures s.NewSession(sid, quiz).WellFormed() && s.NewSession(sid, quiz).Synced()
  {
    hide QuizKey, AnswersKey, QuizzesAgree, AnswersAgree;
    if sid !in s.tracker {
      PutQuizAgrees(s.tracker, s.store.quizzes, sid, OngoingQuiz(-1, quiz));
      NewSlicesAgree(s.answers, s.store.hashes, sid);
    }
  }

  lemma IncSyncs(s: State, sid: SessionId)
    requires s.WellFormed() && s.Synced()
    ensures s.Inc(sid).WellFormed() && s.Inc(sid).Synced()
  {
    hide QuizKey, AnswersKey, AnswersAgree;
    if s.CanInc(sid) {
      var entry := s.Inc(sid).tracker[sid];
      assert s.store.quizzes[QuizKey(sid)] == s.tracker[sid];
      PutQuizAgrees(s.tracker, s.store.quizzes, sid, entry);
    }
  }

  lemma AddParticipantSyncs(s: State, sid: SessionId, uid: UserId)
    requires s.WellFormed() && s.Synced() && Apart(s.answers.Keys)
    requires s.AddParticipant(sid, uid).Done?
    ensures var t := s.AddParticipant(sid, uid).value; t.WellFormed() && t.Synced()
  {
    hide QuizKey, AnswersKey, QuizzesAgree, AnswersAgree, Hash;
    if !Holds(s.answers, sid, uid) {
      SliceCompletes(s, sid, uid);
      PutSliceAgrees(s.answers, s.store.hashes, sid, uid, s.Slice(sid, uid), s.store.hashes);
    }
  }

  lemma RecordAnswerSyncs(s: State, sid: SessionId, uid: UserId, answer: UserAnswer)
    requires s.WellFormed() && s.Synced() && Apart(s.answers.Keys)
    requires s.RecordAnswer(sid, uid, answer).Done?
    ensures var t := s.RecordAnswer(sid, uid, answer).value; t.WellFormed() && t.Synced()
  {
    hide QuizKey, AnswersKey, QuizzesAgree, AnswersAgree;
    var t := s.RecordAnswer(sid, uid, answer).value;
    SliceCompletes(s, sid, uid);
    PutSliceAgrees(s.answers, s.store.hashes, sid, uid, t.answers[sid][uid], t.store.hashes);
  }

  /** When two sessions' keys do meet, the later answer is the one both of them
      would be completed with. */
  lemma CollidingAnswersOverwrite(s: State, sid: SessionId, uid: UserId, other: SessionId, uid': UserId, a: UserAnswer, b: UserAnswer)
    requires s.WellFormed() && s.Synced() && sid != other && AnswersKey(sid, uid) == AnswersKey(other, uid')
    requires sid in s.tracker && other in s.tracker && a != b
    requires s.Current(sid) == s.Current(other) >= 0
    ensures var first := s.RecordAnswer(sid, uid, a);
            && first.Done?
            && var second := first.value.RecordAnswer(other, uid', b);
               second.Done? && Holds(second.value.answers, sid, uid) && !second.value.Synced()
  {
    hide AnswersKey, QuizKey, QuizzesAgree, Owned;
    var t := s.RecordAnswer(sid, uid, a).value;
    var q := s.Current(sid);
    assert |t.Slice(other, uid')| == t.Len(other) && q < t.Len(other);
    var u := t.RecordAnswer(other, uid', b).value;
    assert u.answers[sid][uid][q] == a;
    assert Hash(u.store.hashes, sid, uid)[q] == b;
    assert !Completes(u.answers[sid][uid], Hash(u.store.hashes, sid, uid));
    assert Holds(u.answers, sid, uid);
  }

  lemma DeleteSessionSyncs(s: State, sid: SessionId)
    requires s.WellFormed() && s.Synced() && Apart(s.answers.Keys) && Literal(sid)
    ensures var t := s.DeleteSession(sid); t.WellFormed() && t.Synced()
  {
    hide QuizKey, AnswersKey, Glob;
    var t := s.DeleteSession(sid);
    if sid in s.tracker {
      DropQuizAgrees(s, sid);
      DropSlicesAgree(s, sid);
    }
  }

  lemma DropQuizAgrees(s: State, sid: SessionId)
    requires s.WellFormed() && s.Synced() && Apart(s.answers.Keys) && Literal(sid) && sid in s.tracker
    ensures QuizzesAgree(s.tracker - {sid}, s.store.Drop(sid).quizzes)
  {
    hide QuizKey, AnswersKey, Glob;
    forall o | o in s.tracker - {sid}
      ensures QuizKey(o) in s.store.Drop(sid).quizzes
    {
      DropIsExact(s.store, sid, o, "");
    }
    forall k | k in s.store.Drop(sid).quizzes ensures QuizKeyBody(k) != sid {
      assert k == QuizKey(QuizKeyBody(k));
    }
  }

  lemma DropSlicesAgree(s: State, sid: SessionId)
    requires s.WellFormed() && s.Synced() && Apart(s.answers.Keys) && Literal(sid) && sid in s.tracker
    ensures AnswersAgree(s.answers - {sid}, s.store.Drop(sid).hashes)
  {
    hide QuizKey, AnswersKey, Glob, QuizzesAgree, AnswersAgree;
    var hashes' := s.store.Drop(sid).hashes;
    forall o, u | o in s.answers
      ensures o != sid ==> Hash(hashes', o, u) == Hash(s.store.hashes, o, u)
      ensures AnswersKey(sid, u) !in hashes'
    {
      DropIsExact(s.store, sid, o, u);
      DropIsExact(s.store, sid, sid, u);
    }
    RemoveSlicesAgree(s.answers, s.store.hashes, sid, hashes');
  }

  lemma RemoveSlicesAgree(answers: map<SessionId, Slices>, hashes: map<string, Answers>,
                          sid: SessionId, hashes': map<string, Answers>)
    requires AnswersAgree(answers, hashes)
    requires hashes'.Keys <= hashes.Keys
    requires forall o, u :: o in answers ==>
                              && (o != sid ==> Hash(hashes', o, u) == Hash(hashes, o, u))
                              && AnswersKey(sid, u) !in hashes'
    ensures AnswersAgree(answers - {sid}, hashes')
  {
    hide AnswersKey;
    var answers' := answers - {sid};
    forall k | k in hashes' ensures Owned(answers', k) {
      var o, u :| Holds(answers, o, u) && k == AnswersKey(o, u);
      assert Holds(answers', o, u);
    }
    forall o, u | Holds(answers', o, u) ensures Completes(answers'[o][u], Hash(hashes', o, u)) {
      assert Holds(answers, o, u);
    }
  }

  // ---- restart ----

  /** No answer hash looks like a quiz state to the restore scan. */
  ghost predicate KeysApart(hashes: map<string, Answers>) {
    forall k :: k in hashes ==> !Glob(QUIZ_PATTERN, k)
  }

  lemma RecordAnswerKeepsKeysApart(s: State, sid: SessionId, uid: UserId, answer: UserAnswer)
    requires KeysApart(s.store.hashes) && s.RecordAnswer(sid, uid, answer).Done?
    ensures KeysApart(s.RecordAnswer(sid, uid, answer).value.store.hashes)
  {
    hide AnswersKey, Glob;
    QuizPatternSparesAnswersKeys(sid, uid);
  }

  lemma FoundSessions(s: State, sid: SessionId)
    requires QuizzesAgree(s.tracker, s.store.quizzes) && KeysApart(s.store.hashes)
    ensures sid in s.tracker && ColonFree(sid) ==> sid in s.store.Sessions()
    ensures sid in s.store.Sessions() ==> ColonFree(sid)
    ensures sid in s.store.Sessions() && (forall o :: o in s.tracker ==> ColonFree(o)) ==> sid in s.tracker
  {
    hide QuizKey, AnswersKey, Glob;
    var found := Matching(QUIZ_PATTERN, s.store.Keys());
    if sid in s.tracker {
      QuizKeyBodyOf(sid);
      QuizPatternSelects(QuizKey(sid));
      SplitQuizKey(sid);
      assert QuizKey(sid) in found;
    }
    if sid in s.store.Sessions() {
      var k :| k in found && |Split(k)| >= 3 && Split(k)[1] == sid;
      QuizPatternSelects(k);
      SplitQuizKey(QuizKeyBody(k));
    }
  }

  lemma FoundQuiz(s: State, sid: SessionId)
    requires QuizzesAgree(s.tracker, s.store.quizzes)
    requires sid in s.tracker && sid in s.store.Sessions()
    ensures s.store.Sessions()[sid] == s.tracker[sid]
  {
    hide QuizKey, Glob, Matching;
  }

  /** What a restart makes of the tracker: a session comes back under its id up to
      the first colon, with its quiz and index if that is its whole id or that of
      another session, and otherwise with nothing. */
  lemma RestoredAre(s: State, sid: SessionId)
    requires QuizzesAgree(s.tracker, s.store.quizzes) && KeysApart(s.store.hashes)
    ensures sid in s.Restored().tracker <==> exists o :: o in s.tracker && Split(o)[0] == sid
    ensures sid in s.Restored().tracker ==> s.Restored().tracker[sid] == if sid in s.tracker then s.tracker[sid] else NO_QUIZ
    ensures s.Restored().answers == map[] && s.Restored().store == s.store
  {
    hide QuizKey, Glob, Split, AnswersKey;
    var found := Matching(QUIZ_PATTERN, s.store.Keys());
    if o :| o in s.tracker && Split(o)[0] == sid {
      QuizKeyBodyOf(o);
      QuizPatternSelects(QuizKey(o));
      SecondPieceOfQuizKey(o);
      assert QuizKey(o) in found;
    }
    if sid in s.store.Sessions() {
      var k :| k in found && |Split(k)| >= 3 && Split(k)[1] == sid;
      QuizPatternSelects(k);
      SecondPieceOfQuizKey(QuizKeyBody(k));
      if sid !in s.tracker && QuizKey(sid) in s.store.quizzes {
        QuizKeyBodyOf(sid);
      }
    }
  }

  /** A restart rebuilds the tracker exactly when no session id holds a colon,
      which is when the text of a key determines the id it was made from. */
  lemma RestoreRebuildsTracker(s: State)
    requires QuizzesAgree(s.tracker, s.store.quizzes) && KeysApart(s.store.hashes)
    ensures s.Restored().tracker == s.tracker <==> forall sid :: sid in s.tracker ==> ColonFree(sid)
  {
    hide QuizzesAgree, KeysApart, Glob, Matching, SessionsOf, ColonFree;
    var r := s.Restored().tracker;
    assert r == s.store.Sessions();
    if sid :| sid in s.tracker && !ColonFree(sid) {
      FoundSessions(s, sid);
    } else {
      forall sid
        ensures sid in r <==> sid in s.tracker
        ensures sid in r ==> r[sid] == s.tracker[sid]
      {
        FoundSessions(s, sid);
        if sid in r {
          FoundQuiz(s, sid);
        }
      }
    }
  }

  // ---- the tracker object ----

  class QuizTracker {
    var answers: map<SessionId, Slices>
    var tracker: map<SessionId, OngoingQuiz>
    const cache: Client

    ghost function View(): State
      reads this, cache
    {
      State(tracker, answers, cache.View())
    }

    /** A service that has just come up: both maps start empty and the tracker is
        read back from the cache. */
    constructor (cache: Client, replies: seq<seq<string>>)
      requires IsScan(replies, QUIZ_PATTERN, cache.View().Keys())
      ensures this.cache == cache && cache.View() == old(cache.View())
      ensures View() == State(map[], map[], cache.View()).Restored()
    {
      this.cache := cache;
      answers, tracker := map[], map[];
      new;
      tracker := cache.GetAllSessions(replies);
    }

    method GetCurrentQuestion(sid: SessionId) returns (idx: int, question: Outcome<Question>)
      ensures idx == if sid in tracker then tracker[sid].currQuestionIdx else -1
      ensures question.Panic? <==> sid !in tracker
      ensures sid in tracker ==>
                var questions := tracker[sid].quizData.questions;
                question == Done(if 0 <= idx < |questions| then questions[idx] else NO_QUESTION)
    {
      if sid !in tracker {
        return -1, Panic;
      }
      var quiz := tracker[sid];
      return quiz.currQuestionIdx, Done(quiz.quizData.GetQuestion(quiz.currQuestionIdx));
    }

    method IncQuestionIdx(sid: SessionId) returns (moved: bool)
      modifies this, cache
      ensures moved <==>
                sid in old(tracker) && old(tracker)[sid].currQuestionIdx + 1 < |old(tracker)[sid].quizData.questions|
      ensures answers == old(answers)
      ensures tracker == if moved
                         then old(tracker)[sid := OngoingQuiz(old(tracker)[sid].currQuestionIdx + 1, old(tracker)[sid].quizData)]
                         else old(tracker)
      ensures View() == old(View()).Inc(sid)
    {
      if sid !in tracker {
        return false;
      }
      var quiz := tracker[sid];
      if quiz.currQuestionIdx + 1 >= quiz.quizData.Len() {
        return false;
      }
      quiz := quiz.(currQuestionIdx := quiz.currQuestionIdx + 1);
      tracker := tracker[sid := quiz];
      var _ := cache.SetQuestionIndex(sid, quiz.currQuestionIdx);
      return true;
    }

    method GetCorrectOption(sid: SessionId, questionIdx: int) returns (idx: int, known: bool)
      ensures known == (sid in tracker)
      ensures if known then IsRight(tracker[sid].quizData, questionIdx, idx) else idx == -1
    {
      if sid !in tracker {
        return -1, false;
      }
      var question := tracker[sid].quizData.GetQuestion(questionIdx);
      KeyIsRight(tracker[sid].quizData, questionIdx, Quizzes.GetCorrectOption(question).0);
      return Quizzes.GetCorrectOption(question).0, true;
    }

    /** The slot an answer goes to; Go reads 0 for a session that is not tracked. */
    ghost function Slot(sid: SessionId): int
      reads this
    {
      if sid in tracker then tracker[sid].currQuestionIdx else 0
    }

    /** How many slots a slice has, or would have if it were made now. */
    ghost function Slots(sid: SessionId, uid: UserId): nat
      reads this
    {
      if sid in answers && uid in answers[sid] then |answers[sid][uid]|
      else if sid in tracker then |tracker[sid].quizData.questions|
      else 0
    }

    /** The participant has a slice; everything else is as it was. */
    twostate predicate OnlySlice(sid: SessionId, uid: UserId)
      reads this
    {
      && tracker == old(tracker)
      && answers.Keys == old(answers).Keys && sid in answers
      && (forall o :: o in answers && o != sid ==> answers[o] == old(answers)[o])
      && answers[sid].Keys == old(answers)[sid].Keys + {uid}
      && (forall u :: u in answers[sid] && u != uid ==> answers[sid][u] == old(answers)[sid][u])
      && |answers[sid][uid]| == old(Slots(sid, uid))
    }

    /** One slot of one participant is what the two states differ in. */
    twostate predicate OneSlotWritten(sid: SessionId, uid: UserId, slot: int, answer: UserAnswer)
      reads this
    {
      && OnlySlice(sid, uid)
      && forall q :: 0 <= q < |answers[sid][uid]| ==>
           answers[sid][uid][q] == if q == slot then answer
                                   else if uid in old(answers)[sid] then old(answers)[sid][uid][q]
                                   else NO_ANSWER
    }

    method RecordAnswer(sid: SessionId, uid: UserId, answer: UserAnswer) returns (panicked: bool)
      modifies this, cache
      ensures panicked <==>
                sid !in old(answers) || old(Slot(sid)) < 0 || old(Slot(sid)) >= old(Slots(sid, uid))
      ensures !panicked ==> OneSlotWritten(sid, uid, old(Slot(sid)), answer)
      ensures panicked == old(View()).RecordAnswer(sid, uid, answer).Panic?
      ensures !panicked ==> View() == old(View()).RecordAnswer(sid, uid, answer).value
      ensures panicked ==> tracker == old(tracker) && cache.View() == old(cache.View())
    {
      var entry := Get(tracker, sid, NO_QUIZ);
      if uid !in Get(answers, sid, map[]) {
        if sid !in answers {
          return true;
        }
        answers := answers[sid := answers[sid][uid := Blank(entry.quizData.Len())]];
      }
      var qid := entry.currQuestionIdx;
      if qid < 0 || qid >= |answers[sid][uid]| {
        return true;
      }
      ghost var slice := old(View()).Slice(sid, uid);
      assert slice == answers[sid][uid];
      answers := answers[sid := answers[sid][uid := answers[sid][uid][qid := answer]]];
      assert answers[sid] == old(answers)[sid][uid := slice[qid := answer]];
      assert answers == old(answers)[sid := answers[sid]];
      cache.RecordAnswer(sid, uid, qid, answer);
      return false;
    }

    method AddParticipant(sid: SessionId, uid: UserId) returns (panicked: bool)
      modifies this
      ensures panicked <==> sid !in old(answers)
      ensures tracker == old(tracker)
      ensures panicked || uid in old(answers)[sid] ==> answers == old(answers)
      ensures !panicked && uid !in old(answers)[sid] ==>
                && OnlySlice(sid, uid)
                && forall q :: 0 <= q < |answers[sid][uid]| ==> answers[sid][uid][q] == NO_ANSWER
      ensures View() == if panicked then old(View()) else old(View()).AddParticipant(sid, uid).value
    {
      if uid !in Get(answers, sid, map[]) {
        if sid !in answers {
          return true;
        }
        answers := answers[sid := answers[sid][uid := Blank(Get(tracker, sid, NO_QUIZ).quizData.Len())]];
      }
      return false;
    }

    method NewSession(sid: SessionId, quizData: Quiz)
      modifies this, cache
      ensures sid in old(tracker) ==> tracker == old(tracker) && answers == old(answers)
      ensures sid !in old(tracker) ==>
                && tracker == old(tracker)[sid := OngoingQuiz(-1, quizData)]
                && answers == old(answers)[sid := map[]]
      ensures View() == old(View()).NewSession(sid, quizData)
    {
      if sid !in tracker {
        tracker := tracker[sid := OngoingQuiz(-1, quizData)];
        answers := answers[sid := map[]];
        cache.SetSessionQuiz(sid, tracker[sid]);
      }
    }

    method DeleteSession(sid: SessionId, replies: seq<seq<string>>)
      requires IsScan(replies, AnswersPattern(sid), cache.View().Keys())
      modifies this, cache
      ensures tracker == old(tracker) - {sid}
      ensures answers == if sid in old(tracker) then old(answers) - {sid} else old(answers)
      ensures View() == old(View()).DeleteSession(sid)
    {
      if sid in tracker {
        answers := answers - {sid};
        tracker := tracker - {sid};
        cache.DeleteSession(sid, replies);
      }
    }

    /** processAnswer run without interference: read the index, grade, record. */
    method ProcessAnswer(sid: SessionId, uid: UserId, option: int, timestamp: int)
      returns (recorded: bool, panicked: bool)
      modifies this, cache
      ensures sid !in old(tracker) ==> !recorded && !panicked && View() == old(View())
      ensures sid in old(tracker) ==>
                var idx := old(tracker)[sid].currQuestionIdx;
                var answer := UserAnswer(true, option, IsRight(old(tracker)[sid].quizData, idx, option), timestamp);
                && (panicked <==> sid !in old(answers) || idx < 0 || idx >= old(Slots(sid, uid)))
                && recorded == !panicked
                && (recorded ==> OneSlotWritten(sid, uid, idx, answer))
                && (recorded ==> View() == old(View()).RecordAnswer(sid, uid, answer).value)
    {
      var qid, _ := GetCurrentQuestion(sid);
      var correctIdx, known := GetCorrectOption(sid, qid);
      if !known {
        return false, false;
      }
      KeyIsRight(tracker[sid].quizData, qid, option);
      KeyIsRight(tracker[sid].quizData, qid, correctIdx);
      panicked := RecordAnswer(sid, uid, UserAnswer(true, option, option == correctIdx, timestamp));
      recorded := !panicked;
    }
  }
}
