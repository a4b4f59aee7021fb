/** The layout of the cache's keys, Redis glob matching and Go's strings.Split. */
module CacheKeys {

  const SESSION := "session:"
  const QUIZ_SUFFIX := ":quiz_state"
  const USER := ":user:"
  const ANSWERS_SUFFIX := ":answers"

  function QuizKey(sid: string): string {
    SESSION + sid + QUIZ_SUFFIX
  }

  function AnswersKey(sid: string, uid: string): string {
    SESSION + sid + USER + uid + ANSWERS_SUFFIX
  }

  predicate ColonFree(s: string) {
    ':' !in s
  }

  // ---- glob patterns ----

  /** Glob matching with '*' and '?'. Classes and escapes are not interpreted;
      every statement below keeps '[' and '\\' out of the literal parts. */
  predicate Glob(p: string, s: string)
    decreases |p| + |s|
  {
    if p == "" then
      s == ""
    else if p[0] == '*' then
      Glob(p[1..], s) || (s != "" && Glob(p, s[1..]))
    else
      s != "" && (p[0] == '?' || p[0] == s[0]) && Glob(p[1..], s[1..])
  }

  predicate Literal(p: string) {
    '*' !in p && '?' !in p && '[' !in p && '\\' !in p
  }

  lemma {:induction false} GlobLiteralPrefix(pre: string, rest: string, s: string)
    requires Literal(pre)
    ensures Glob(pre + rest, s) <==> pre <= s && Glob(rest, s[|pre|..])
    decreases |pre|
  {
    if pre == "" {
      assert pre + rest == rest && s[0..] == s;
    } else {
      assert (pre + rest)[1..] == pre[1..] + rest;
      assert (pre + rest)[0] == pre[0];
      if s != "" {
        GlobLiteralPrefix(pre[1..], rest, s[1..]);
        if pre[0] == s[0] {
          assert pre == [pre[0]] + pre[1..] && s == [s[0]] + s[1..];
          assert pre <= s <==> pre[1..] <= s[1..];
          if |pre| <= |s| {
            assert s[1..][|pre| - 1..] == s[|pre|..];
          }
        }
      }
    }
  }

  lemma {:induction false} GlobStarSuffix(post: string, s: string)
    requires Literal(post)
    ensures Glob("*" + post, s) <==> |post| <= |s| && s[|s| - |post|..] == post
    decreases |s|
  {
    var p := "*" + post;
    assert p[0] == '*' && p[1..] == post;
    GlobLiteralPrefix(post, "", s);
    assert post + "" == post;
    assert Glob(post, s) <==> post == s by {
      if post <= s {
        assert s == post + s[|post|..];
      }
    }
    if s != "" {
      GlobStarSuffix(post, s[1..]);
      if |post| < |s| {
        assert s[1..][|s| - 1 - |post|..] == s[|s| - |post|..];
      }
    }
  }

  predicate Sandwich(pre: string, post: string, s: string) {
    |pre| + |post| <= |s| && s[..|pre|] == pre && s[|s| - |post|..] == post
  }

  lemma GlobOneStar(pre: string, post: string, s: string)
    requires Literal(pre) && Literal(post)
    ensures Glob(pre + "*" + post, s) <==> Sandwich(pre, post, s)
  {
    var rest := "*" + post;
    assert pre + "*" + post == pre + rest;
    GlobLiteralPrefix(pre, rest, s);
    assert pre <= s <==> |pre| <= |s| && s[..|pre|] == pre;
    if pre <= s {
      StarTail(pre, rest, post, s);
    }
  }

  lemma StarTail(pre: string, rest: string, post: string, s: string)
    requires Literal(post) && rest == "*" + post && pre <= s
    ensures Glob(rest, s[|pre|..]) <==> |pre| + |post| <= |s| && s[|s| - |post|..] == post
  {
    var t := s[|pre|..];
    GlobStarSuffix(post, t);
    if |post| <= |t| {
      assert t[|t| - |post|..] == s[|s| - |post|..];
    }
  }

  // ---- strings.Split ----

  function Split(s: string): (r: seq<string>)
    ensures |r| >= 1
    ensures forall i :: 0 <= i < |r| ==> ColonFree(r[i])
  {
    if s == "" then
      [""]
    else if s[0] == ':' then
      [""] + Split(s[1..])
    else
      var r := Split(s[1..]);
      [[s[0]] + r[0]] + r[1..]
  }

  lemma {:induction false} SplitAtColon(a: string, b: string)
    requires ColonFree(a)
    ensures Split(a + ":" + b) == [a] + Split(b)
    decreases |a|
  {
    var s := a + ":" + b;
    if a == "" {
      assert s[1..] == b;
    } else {
      assert s[1..] == a[1..] + ":" + b;
      SplitAtColon(a[1..], b);
      assert a == [a[0]] + a[1..];
    }
  }

  /** The session id that the restore path cuts out of a quiz-state key. */
  lemma {:induction false} SplitQuizKey(sid: string)
    ensures |Split(QuizKey(sid))| >= 3
    ensures ColonFree(sid) ==> Split(QuizKey(sid))[1] == sid
  {
    assert QuizKey(sid) == "session" + ":" + (sid + ":" + "quiz_state");
    SplitAtColon("session", sid + ":" + "quiz_state");
    SplitLen(sid, "quiz_state");
    if ColonFree(sid) {
      SplitAtColon(sid, "quiz_state");
    }
  }

  /** The piece a quiz key is read back by is the session id's first. */
  lemma {:induction false} FirstPiece(sid: string, tail: string)
    ensures Split(sid + ":" + tail)[0] == Split(sid)[0]
    decreases |sid|
  {
    var s := sid + ":" + tail;
    if sid == "" {
      assert s[0] == ':';
    } else {
      assert s[1..] == sid[1..] + ":" + tail;
      FirstPiece(sid[1..], tail);
    }
  }

  lemma SecondPieceOfQuizKey(sid: string)
    ensures |Split(QuizKey(sid))| >= 3 && Split(QuizKey(sid))[1] == Split(sid)[0]
  {
    SplitQuizKey(sid);
    assert QuizKey(sid) == "session" + ":" + (sid + ":" + "quiz_state");
    SplitAtColon("session", sid + ":" + "quiz_state");
    FirstPiece(sid, "quiz_state");
    hide Split;
  }

  lemma {:induction false} SplitLen(a: string, b: string)
    ensures |Split(a + ":" + b)| >= 2
    decreases |a|
  {
    var s := a + ":" + b;
    if a == "" {
      assert s[1..] == b;
    } else {
      assert s[1..] == a[1..] + ":" + b;
      SplitLen(a[1..], b);
    }
  }

  // ---- keys determine what they name ----

  lemma QuizKeyInjective(s: string, t: string)
    requires QuizKey(s) == QuizKey(t)
    ensures s == t
  {
    Cancel("", SESSION + s, SESSION + t, QUIZ_SUFFIX);
    Cancel(SESSION, s, t, "");
  }

  lemma PrefixUpToColon(a: string, x: string, b: string, y: string)
    requires ColonFree(a) && ColonFree(b)
    requires a + ":" + x == b + ":" + y
    ensures a == b && x == y
  {
    SplitAtColon(a, x);
    SplitAtColon(b, y);
    assert ([a] + Split(x))[0] == ([b] + Split(y))[0];
    assert (a + ":" + x)[|a| + 1..] == x;
    assert (b + ":" + y)[|b| + 1..] == y;
  }

  // ---- which keys the SCAN patterns select ----

  const QUIZ_PATTERN := SESSION + "*" + QUIZ_SUFFIX

  function AnswersPattern(sid: string): string {
    (SESSION + sid + USER) + "*" + ANSWERS_SUFFIX
  }

  function Middle(pre: string, post: string, k: string): string {
    if |pre| + |post| <= |k| then k[|pre|..|k| - |post|] else ""
  }

  lemma OneStarSelects(pre: string, post: string, k: string)
    requires Literal(pre) && Literal(post)
    ensures Glob(pre + "*" + post, k) <==> k == pre + Middle(pre, post, k) + post
  {
    GlobOneStar(pre, post, k);
    var m := Middle(pre, post, k);
    if Sandwich(pre, post, k) {
      assert k == k[..|pre|] + m + k[|k| - |post|..];
    }
    if k == pre + m + post {
      assert k[..|pre|] == pre;
    }
  }

  function QuizKeyBody(k: string): string {
    Middle(SESSION, QUIZ_SUFFIX, k)
  }

  lemma QuizKeyBodyOf(sid: string)
    ensures QuizKeyBody(QuizKey(sid)) == sid
  {
    assert QuizKey(sid)[|SESSION|..|SESSION| + |sid|] == sid;
  }

  lemma QuizPatternSelects(k: string)
    ensures Glob(QUIZ_PATTERN, k) <==> k == QuizKey(QuizKeyBody(k))
  {
    OneStarSelects(SESSION, QUIZ_SUFFIX, k);
  }

  lemma CutSession(sid: string, x: string, other: string, y: string)
    requires ColonFree(sid) && ColonFree(other)
    requires sid + USER + x == other + USER + y
    ensures sid == other && x == y
  {
    assert sid + USER + x == sid + ":" + ("user:" + x);
    assert other + USER + y == other + ":" + ("user:" + y);
    PrefixUpToColon(sid, "user:" + x, other, "user:" + y);
    assert ("user:" + x)[5..] == x && ("user:" + y)[5..] == y;
  }

  /** Cancelling a common prefix or suffix. */
  lemma Cancel(pre: string, x: string, y: string, post: string)
    ensures pre + x == pre + y ==> x == y
    ensures x + post == y + post ==> x == y
  {
    assert (pre + x)[|pre|..] == x && (pre + y)[|pre|..] == y;
    if x + post == y + post {
      assert |x| == |y|;
      assert (x + post)[..|x|] == x && (y + post)[..|y|] == y;
    }
  }

  lemma Reassociate(a: string, b: string, c: string, d: string, e: string)
    ensures a + b + c + d + e == a + (b + c + (d + e)) == (a + b + c) + d + e
  {
  }

  /** Two session ids whose answer hashes can share a key: the text up to the user
      id of one begins with that of the other. */
  predicate Collide(s: string, t: string) {
    s != t && (s + USER <= t + USER || t + USER <= s + USER)
  }

  lemma Comparable(a: string, x: string, b: string, y: string)
    requires a + x == b + y
    ensures a <= b || b <= a
  {
    assert (a + x)[..|a|] == a && (b + y)[..|b|] == b;
    if |a| <= |b| {
      assert a == (b + y)[..|a|] == b[..|a|];
    } else {
      assert b == (a + x)[..|b|] == a[..|b|];
    }
  }

  lemma AnswersKeyTail(s: string, u: string)
    ensures AnswersKey(s, u) == SESSION + ((s + USER) + (u + ANSWERS_SUFFIX))
  {
    Reassociate(SESSION, s, USER, u, ANSWERS_SUFFIX);
  }

  lemma KeysMeet(s: string, t: string, u: string, v: string)
    requires AnswersKey(s, u) == AnswersKey(t, v)
    ensures (s + USER) + (u + ANSWERS_SUFFIX) == (t + USER) + (v + ANSWERS_SUFFIX)
    ensures s + USER <= t + USER || t + USER <= s + USER
  {
    AnswersKeyTail(s, u);
    AnswersKeyTail(t, v);
    Cancel(SESSION, (s + USER) + (u + ANSWERS_SUFFIX), (t + USER) + (v + ANSWERS_SUFFIX), "");
    Comparable(s + USER, u + ANSWERS_SUFFIX, t + USER, v + ANSWERS_SUFFIX);
  }

  lemma ShorterMeets(s: string, t: string)
    requires s + USER <= t + USER
    ensures AnswersKey(s, (t + USER)[|s + USER|..]) == AnswersKey(t, "")
  {
    var x := (t + USER)[|s + USER|..];
    assert t + USER == (s + USER) + x;
    AnswersKeyTail(s, x);
    AnswersKeyTail(t, "");
    assert "" + ANSWERS_SUFFIX == ANSWERS_SUFFIX;
    assert (s + USER) + (x + ANSWERS_SUFFIX) == ((s + USER) + x) + ANSWERS_SUFFIX;
  }

  /** Two sessions can share a hash exactly when their ids collide. */
  lemma CollidingIdsShareKeys(s: string, t: string)
    requires s != t
    ensures Collide(s, t) <==> exists u, v :: AnswersKey(s, u) == AnswersKey(t, v)
  {
    if s + USER <= t + USER {
      ShorterMeets(s, t);
    } else if t + USER <= s + USER {
      ShorterMeets(t, s);
    }
    hide AnswersKey;
    if u, v :| AnswersKey(s, u) == AnswersKey(t, v) {
      KeysMeet(s, t, u, v);
    }
  }

  /** Otherwise a key determines session and user, whatever the user's id holds. */
  lemma AnswersKeyInjective(s: string, u: string, t: string, v: string)
    requires !Collide(s, t)
    requires AnswersKey(s, u) == AnswersKey(t, v)
    ensures s == t && u == v
  {
    KeysMeet(s, t, u, v);
    Cancel(s + USER, u + ANSWERS_SUFFIX, v + ANSWERS_SUFFIX, "");
    Cancel("", u, v, ANSWERS_SUFFIX);
  }

  lemma ColonFreeIdsDiffer(s: string, t: string)
    requires ColonFree(s) && ColonFree(t) && s + USER <= t + USER
    ensures s == t
  {
    var x := (t + USER)[|s + USER|..];
    assert t + USER + "" == s + USER + x;
    CutSession(t, "", s, x);
  }

  /** Ids without colons never collide. */
  lemma ColonFreeIdsDoNotCollide(s: string, t: string)
    requires ColonFree(s) && ColonFree(t)
    ensures !Collide(s, t)
  {
    if s + USER <= t + USER {
      ColonFreeIdsDiffer(s, t);
    }
    if t + USER <= s + USER {
      ColonFreeIdsDiffer(t, s);
    }
  }

  /** With colons they may: here user "b:user:c" of session "a" and user "c" of
      session "a:user:b". */
  lemma AnswersKeyCollides()
    ensures Collide("a", "a:user:b") && AnswersKey("a", "b:user:c") == AnswersKey("a:user:b", "c")
  {
    assert "a" + USER <= "a:user:b" + USER;
    assert AnswersKey("a", "b:user:c") == "session:a:user:b:user:c:answers";
    assert AnswersKey("a:user:b", "c") == "session:a:user:b:user:c:answers";
  }

  lemma LiteralConcat(a: string, b: string, c: string)
    requires Literal(a) && Literal(b) && Literal(c)
    ensures Literal(a + b + c)
  {
  }

  /** One session's answers pattern selects that session's answer hashes and none
      of a session whose id does not collide. */
  lemma AnswersPatternSelects(sid: string, other: string, uid: string)
    requires Literal(sid) && !Collide(sid, other)
    ensures Glob(AnswersPattern(sid), AnswersKey(other, uid)) <==> sid == other
  {
    var pre, k := SESSION + sid + USER, AnswersKey(other, uid);
    LiteralConcat(SESSION, sid, USER);
    GlobOneStar(pre, ANSWERS_SUFFIX, k);
    EndsInSuffix(SESSION + other + USER + uid, ANSWERS_SUFFIX);
    hide Glob;
    if sid == other {
      assert k == pre + (uid + ANSWERS_SUFFIX);
    } else if pre <= k {
      PrefixOfKey(sid, other, uid);
    }
  }

  lemma EndsInSuffix(a: string, b: string)
    ensures (a + b)[|a + b| - |b|..] == b
  {
  }

  lemma PrefixOfKey(sid: string, other: string, uid: string)
    requires SESSION + sid + USER <= AnswersKey(other, uid)
    ensures sid + USER <= other + USER || other + USER <= sid + USER
  {
    var pre, k := SESSION + sid + USER, AnswersKey(other, uid);
    var x := k[|pre|..];
    AnswersKeyTail(other, uid);
    assert k == SESSION + ((sid + USER) + x);
    Cancel(SESSION, (sid + USER) + x, (other + USER) + (uid + ANSWERS_SUFFIX), "");
    Comparable(sid + USER, x, other + USER, uid + ANSWERS_SUFFIX);
  }

  lemma LastOfConcat(a: string, b: string)
    requires b != ""
    ensures (a + b)[|a + b| - 1] == b[|b| - 1]
  {
  }

  /** No answers pattern selects a quiz-state key. */
  lemma AnswersPatternSparesQuizKeys(sid: string, other: string)
    requires Literal(sid)
    ensures !Glob(AnswersPattern(sid), QuizKey(other))
  {
    var pre, k := SESSION + sid + USER, QuizKey(other);
    LiteralConcat(SESSION, sid, USER);
    OneStarSelects(pre, ANSWERS_SUFFIX, k);
    LastOfConcat(SESSION + other, QUIZ_SUFFIX);
    LastOfConcat(pre + Middle(pre, ANSWERS_SUFFIX, k), ANSWERS_SUFFIX);
  }

  /** The quiz pattern selects no answers key. */
  lemma QuizPatternSparesAnswersKeys(sid: string, uid: string)
    ensures !Glob(QUIZ_PATTERN, AnswersKey(sid, uid))
  {
    var k := AnswersKey(sid, uid);
    OneStarSelects(SESSION, QUIZ_SUFFIX, k);
    LastOfConcat(SESSION + sid + USER + uid, ANSWERS_SUFFIX);
    LastOfConcat(SESSION + QuizKeyBody(k), QUIZ_SUFFIX);
  }
}
