/** The real-time service's Redis client: one string key for each session's
    quiz state, one hash for each participant's answers. */
module RedisCache {
  import opened Quizzes
  import opened CacheKeys

  type Answers = map<int, UserAnswer>

  /** What the cache holds. Marshalling is lossless, so values are kept as such. */
  datatype Store = Store(quizzes: map<string, OngoingQuiz>, hashes: map<string, Answers>) {
    ghost function Keys(): set<string> {
      quizzes.Keys + hashes.Keys
    }

    function PutQuiz(sid: SessionId, quiz: OngoingQuiz): Store {
      this.(quizzes := quizzes[QuizKey(sid) := quiz])
    }

    /** Read-modify-write; a session without a quiz state is left alone. */
    function PutIndex(sid: SessionId, idx: int): Store {
      if QuizKey(sid) in quizzes
      then PutQuiz(sid, quizzes[QuizKey(sid)].(currQuestionIdx := idx))
      else this
    }

    function PutAnswer(sid: SessionId, uid: UserId, question: int, answer: UserAnswer): Store {
      var key := AnswersKey(sid, uid);
      this.(hashes := hashes[key := Get(hashes, key, map[])[question := answer]])
    }

    ghost function Doomed(sid: SessionId): set<string> {
      {QuizKey(sid)} + Matching(AnswersPattern(sid), Keys())
    }

    ghost function Drop(sid: SessionId): Store {
      Store(quizzes - Doomed(sid), hashes - Doomed(sid))
    }

    /** The sessions the restore path finds, read through the text of their keys. */
    ghost function Sessions(): map<SessionId, OngoingQuiz> {
      SessionsOf(quizzes, Matching(QUIZ_PATTERN, Keys()))
    }
  }

  ghost function Matching(pattern: string, keys: set<string>): set<string> {
    set k | k in keys && Glob(pattern, k)
  }

  ghost function NamedSessions(keys: set<string>): set<SessionId> {
    set k | k in keys && |Split(k)| >= 3 :: Split(k)[1]
  }

  ghost function SessionsOf(quizzes: map<string, OngoingQuiz>, keys: set<string>): map<SessionId, OngoingQuiz> {
    map sid | sid in NamedSessions(keys) :: Get(quizzes, QuizKey(sid), NO_QUIZ)
  }

  /** The replies of one SCAN iteration. Redis promises that a key present from
      start to end is returned at least once; batching, order and repetition are
      up to the server. */
  ghost predicate IsScan(replies: seq<seq<string>>, pattern: string, keys: set<string>) {
    && |replies| > 0
    && (forall i, j :: 0 <= i < |replies| && 0 <= j < |replies[i]| ==>
                         replies[i][j] in keys && Glob(pattern, replies[i][j]))
    && (forall k :: k in keys && Glob(pattern, k) ==>
                      exists i :: 0 <= i < |replies| && k in replies[i])
  }

  ghost function KeysIn(keys: seq<string>): set<string> {
    set k | k in keys
  }

  lemma KeysInConcat(a: seq<string>, b: seq<string>)
    ensures KeysIn(a + b) == KeysIn(a) + KeysIn(b)
  {
  }

  lemma NothingFound(quizzes: map<string, OngoingQuiz>)
    ensures SessionsOf(quizzes, {}) == map[]
  {
  }

  lemma SessionsOfOneMore(quizzes: map<string, OngoingQuiz>, keys: set<string>, k: string)
    ensures SessionsOf(quizzes, keys + {k}) ==
              if |Split(k)| >= 3
              then SessionsOf(quizzes, keys)[Split(k)[1] := Get(quizzes, QuizKey(Split(k)[1]), NO_QUIZ)]
              else SessionsOf(quizzes, keys)
  {
    hide Split, QuizKey;
    assert k in keys + {k};
    var names := NamedSessions(keys + {k});
    forall n ensures n in names <==> n in NamedSessions(keys) || (|Split(k)| >= 3 && n == Split(k)[1]) {
      if n in NamedSessions(keys) {
        var k' :| k' in keys && |Split(k')| >= 3 && Split(k')[1] == n;
        assert k' in keys + {k};
      }
    }
  }

  /** Every key the first n replies hold. */
  ghost function Returned(replies: seq<seq<string>>, n: nat): set<string>
    requires n <= |replies|
  {
    if n == 0 then {} else Returned(replies, n - 1) + KeysIn(replies[n - 1])
  }

  lemma {:induction false} ReturnedElement(replies: seq<seq<string>>, n: nat, k: string)
    requires n <= |replies|
    ensures k in Returned(replies, n) <==> exists i :: 0 <= i < n && k in replies[i]
  {
    if n > 0 {
      ReturnedElement(replies, n - 1, k);
    }
  }

  lemma {:induction false} ScanOfMatches(replies: seq<seq<string>>, pattern: string, keys: set<string>)
    requires |replies| > 0 && Returned(replies, |replies|) == Matching(pattern, keys)
    ensures IsScan(replies, pattern, keys)
  {
    forall i, j | 0 <= i < |replies| && 0 <= j < |replies[i]|
      ensures replies[i][j] in keys && Glob(pattern, replies[i][j])
    {
      ReturnedElement(replies, |replies|, replies[i][j]);
    }
    forall k | k in keys && Glob(pattern, k) ensures exists i :: 0 <= i < |replies| && k in replies[i] {
      ReturnedElement(replies, |replies|, k);
    }
  }

  /** Replies are a scan exactly if together they hold the matching keys, in whatever
      batches, order and repetition. */
  lemma ScansAre(replies: seq<seq<string>>, pattern: string, keys: set<string>)
    ensures IsScan(replies, pattern, keys) <==> |replies| > 0 && Returned(replies, |replies|) == Matching(pattern, keys)
  {
    if IsScan(replies, pattern, keys) {
      ScanReturnsMatches(replies, pattern, keys);
    } else if |replies| > 0 && Returned(replies, |replies|) == Matching(pattern, keys) {
      ScanOfMatches(replies, pattern, keys);
    }
  }

  /** Any complete scan returns the same set of keys. */
  lemma ScanReturnsMatches(replies: seq<seq<string>>, pattern: string, keys: set<string>)
    requires IsScan(replies, pattern, keys)
    ensures Returned(replies, |replies|) == Matching(pattern, keys)
  {
    forall k ensures k in Returned(replies, |replies|) <==> k in keys && Glob(pattern, k) {
      ReturnedElement(replies, |replies|, k);
    }
  }

  class Client {
    var quizzes: map<string, OngoingQuiz>
    var hashes: map<string, Answers>

    ghost function View(): Store
      reads this
    {
      Store(quizzes, hashes)
    }

    constructor ()
      ensures View() == Store(map[], map[])
    {
      quizzes, hashes := map[], map[];
    }

    method SetSessionQuiz(sid: SessionId, quiz: OngoingQuiz)
      modifies this
      ensures View() == old(View()).PutQuiz(sid, quiz)
    {
      quizzes := quizzes[QuizKey(sid) := quiz];
    }

    method GetSessionQuiz(sid: SessionId) returns (quiz: OngoingQuiz, ok: bool)
      ensures ok == (QuizKey(sid) in quizzes)
      ensures quiz == Get(quizzes, QuizKey(sid), NO_QUIZ)
    {
      var key := QuizKey(sid);
      if key !in quizzes {
        return NO_QUIZ, false;
      }
      return quizzes[key], true;
    }

    method SetQuestionIndex(sid: SessionId, idx: int) returns (ok: bool)
      modifies this
      ensures ok == (QuizKey(sid) in old(quizzes))
      ensures hashes == old(hashes)
      ensures quizzes == if ok then old(quizzes)[QuizKey(sid) := old(quizzes)[QuizKey(sid)].(currQuestionIdx := idx)] else old(quizzes)
      ensures View() == old(View()).PutIndex(sid, idx)
    {
      var state;
      state, ok := GetSessionQuiz(sid);
      if ok {
        SetSessionQuiz(sid, state.(currQuestionIdx := idx));
      }
    }

    method RecordAnswer(sid: SessionId, uid: UserId, question: int, answer: UserAnswer)
      modifies this
      ensures View() == old(View()).PutAnswer(sid, uid, question, answer)
    {
      var key := AnswersKey(sid, uid);
      hashes := hashes[key := Get(hashes, key, map[])[question := answer]];
    }

    method DeleteSession(sid: SessionId, replies: seq<seq<string>>)
      requires IsScan(replies, AnswersPattern(sid), View().Keys())
      modifies this
      ensures View() == old(View()).Drop(sid)
      ensures forall k :: k in quizzes <==> k in old(quizzes) && k != QuizKey(sid) && !Glob(AnswersPattern(sid), k)
      ensures forall k :: k in hashes <==> k in old(hashes) && k != QuizKey(sid) && !Glob(AnswersPattern(sid), k)
      ensures forall k :: k in quizzes ==> quizzes[k] == old(quizzes)[k]
      ensures forall k :: k in hashes ==> hashes[k] == old(hashes)[k]
    {
      ScanReturnsMatches(replies, AnswersPattern(sid), View().Keys());
      var keys := [QuizKey(sid)];
      assert KeysIn(keys) == {QuizKey(sid)};
      var cursor := 0;
      while true
        invariant 0 <= cursor < |replies|
        invariant View() == old(View())
        invariant KeysIn(keys) == {QuizKey(sid)} + Returned(replies, cursor)
        decreases |replies| - cursor
      {
        KeysInConcat(keys, replies[cursor]);
        keys := keys + replies[cursor];
        assert KeysIn(keys) == {QuizKey(sid)} + Returned(replies, cursor + 1);
        if cursor + 1 == |replies| {
          break;
        }
        cursor := cursor + 1;
      }
      assert KeysIn(keys) == View().Doomed(sid);
      quizzes := quizzes - (set k | k in keys);
      hashes := hashes - (set k | k in keys);
    }

    /** One reply's worth of the restore loop. */
    method AddSessions(keys: seq<string>, found: map<SessionId, OngoingQuiz>, ghost before: set<string>)
      returns (sessions: map<SessionId, OngoingQuiz>)
      requires found == SessionsOf(quizzes, before)
      ensures sessions == SessionsOf(quizzes, before + KeysIn(keys))
    {
      sessions := found;
      assert before + KeysIn(keys[..0]) == before;
      for i := 0 to |keys|
        invariant sessions == SessionsOf(quizzes, before + KeysIn(keys[..i]))
      {
        assert keys[..i + 1] == keys[..i] + [keys[i]];
        KeysInConcat(keys[..i], [keys[i]]);
        assert before + KeysIn(keys[..i + 1]) == before + KeysIn(keys[..i]) + {keys[i]};
        SessionsOfOneMore(quizzes, before + KeysIn(keys[..i]), keys[i]);
        var parts := Split(keys[i]);
        if |parts| >= 3 {
          var sid := parts[1];
          var quiz, _ := GetSessionQuiz(sid);
          sessions := sessions[sid := quiz];
        }
      }
      assert keys[..|keys|] == keys;
    }

    method GetAllSessions(replies: seq<seq<string>>) returns (sessions: map<SessionId, OngoingQuiz>)
      requires IsScan(replies, QUIZ_PATTERN, View().Keys())
      ensures sessions == View().Sessions()
    {
      assert |replies| > 0;
      hide Split, QuizKey, Glob, SessionsOf, IsScan;
      ScanReturnsMatches(replies, QUIZ_PATTERN, View().Keys());
      sessions := map[];
      NothingFound(quizzes);
      var cursor := 0;
      while true
        invariant 0 <= cursor < |replies|
        invariant sessions == SessionsOf(quizzes, Returned(replies, cursor))
        decreases |replies| - cursor
      {
        sessions := AddSessions(replies[cursor], sessions, Returned(replies, cursor));
        assert sessions == SessionsOf(quizzes, Returned(replies, cursor + 1));
        if cursor + 1 == |replies| {
          break;
        }
        cursor := cursor + 1;
      }
    }
  }

  /** Deleting a session removes its quiz state and all its answer hashes and
      nothing of any other session. */
  lemma DropIsExact(store: Store, sid: SessionId, other: SessionId, uid: UserId)
    requires Literal(sid) && !Collide(sid, other)
    ensures QuizKey(other) in store.Drop(sid).quizzes <==>
              QuizKey(other) in store.quizzes && other != sid
    ensures AnswersKey(other, uid) in store.Drop(sid).hashes <==>
              AnswersKey(other, uid) in store.hashes && other != sid
    ensures other != sid ==>
              && Get(store.Drop(sid).quizzes, QuizKey(other), NO_QUIZ) == Get(store.quizzes, QuizKey(other), NO_QUIZ)
              && Get(store.Drop(sid).hashes, AnswersKey(other, uid), map[]) == Get(store.hashes, AnswersKey(other, uid), map[])
  {
    AnswersPatternSparesQuizKeys(sid, other);
    AnswersPatternSelects(sid, other, uid);
    if QuizKey(other) == QuizKey(sid) {
      QuizKeyInjective(other, sid);
    }
    QuizPatternSelects(QuizKey(sid));
    QuizPatternSparesAnswersKeys(other, uid);
    assert QuizKeyBody(QuizKey(sid)) == sid by { QuizKeyBodyOf(sid); }
  }
}
