/** Reading all answers of a session back from the cache. The loop appends the
    answers of every key a scan returns, so a key returned twice counts twice. */
module AnswerScan {
  import opened Quizzes
  import opened CacheKeys

  type Values = map<string, seq<UserAnswer>>

  function AddKey(m: map<UserId, seq<UserAnswer>>, key: string, values: Values): map<UserId, seq<UserAnswer>> {
    var parts := Split(key);
    if |parts| < 5 then m else m[parts[3] := Get(m, parts[3], []) + Get(values, key, [])]
  }

  function Gather(keys: seq<string>, values: Values): map<UserId, seq<UserAnswer>> {
    if keys == [] then map[] else AddKey(Gather(keys[..|keys| - 1], values), keys[|keys| - 1], values)
  }

  function Flatten(replies: seq<seq<string>>): seq<string> {
    if replies == [] then [] else Flatten(replies[..|replies| - 1]) + replies[|replies| - 1]
  }

  /** values holds the HGETALL replies, each in the order Redis gave it. */
  method GetAllAnswers(replies: seq<seq<string>>, values: Values) returns (result: map<UserId, seq<UserAnswer>>)
    requires replies != []
    ensures result == Gather(Flatten(replies), values)
  {
    result := map[];
    for cursor := 0 to |replies|
      invariant result == Gather(Flatten(replies[..cursor]), values)
    {
      var keys := replies[cursor];
      ghost var done := Flatten(replies[..cursor]);
      assert done + keys[..0] == done;
      for i := 0 to |keys|
        invariant result == Gather(done + keys[..i], values)
      {
        GatherOne(done, keys, i, values);
        var parts := Split(keys[i]);
        if |parts| < 5 {
          continue;
        }
        result := result[parts[3] := Get(result, parts[3], []) + Get(values, keys[i], [])];
      }
      assert keys[..|keys|] == keys;
      assert replies[..cursor + 1][..cursor] == replies[..cursor];
    }
    assert replies[..|replies|] == replies;
  }

  lemma GatherOne(done: seq<string>, keys: seq<string>, i: nat, values: Values)
    requires i < |keys|
    ensures Gather(done + keys[..i + 1], values) == AddKey(Gather(done + keys[..i], values), keys[i], values)
  {
    hide AddKey;
    var longer := done + keys[..i + 1];
    assert longer[..|longer| - 1] == done + keys[..i];
    assert longer[|longer| - 1] == keys[i];
  }

  /** The replies of a scan, one after the other. */
  lemma {:induction false} FlattenJoins(a: seq<seq<string>>, b: seq<seq<string>>, reply: seq<string>)
    ensures Flatten([]) == [] && Flatten([reply]) == reply && Flatten(a + b) == Flatten(a) + Flatten(b)
    decreases |b|
  {
    assert [reply][..0] == [];
    if b == [] {
      assert a + b == a;
    } else {
      var n := |b| - 1;
      assert (a + b)[..|a + b| - 1] == a + b[..n];
      FlattenJoins(a, b[..n], reply);
    }
  }

  function Times(keys: seq<string>, key: string): nat {
    if keys == [] then 0 else Times(keys[..|keys| - 1], key) + if keys[|keys| - 1] == key then 1 else 0
  }

  // ---- whose answers a key is read back as ----

  /** The user id that the loop cuts out of a key. */
  function Named(key: string): UserId
    requires |Split(key)| >= 5
  {
    Split(key)[3]
  }

  lemma {:induction false} SplitApart(a: string, b: string)
    ensures Split(a + ":" + b) == Split(a) + Split(b)
    decreases |a|
  {
    var s := a + ":" + b;
    if a == "" {
      assert s[1..] == b;
    } else {
      assert s[1..] == a[1..] + ":" + b;
      SplitApart(a[1..], b);
    }
  }

  lemma {:induction false} SplitLast(s: string)
    ensures ColonFree(s) ==> Split(s) == [s]
    ensures |Split(s)| == 1 ==> ColonFree(s)
    decreases |s|
  {
    if s != "" {
      SplitLast(s[1..]);
      assert s == [s[0]] + s[1..];
    }
  }

  lemma SplitAnswersKey(sid: SessionId, uid: UserId)
    ensures Split(AnswersKey(sid, uid)) == ["session"] + (Split(sid) + (["user"] + (Split(uid) + ["answers"])))
  {
    hide Split;
    var tail := "user" + ":" + (uid + ":" + "answers");
    assert AnswersKey(sid, uid) == "session" + ":" + (sid + ":" + tail);
    hide AnswersKey;
    SplitApart("session", sid + ":" + tail);
    SplitApart(sid, tail);
    SplitApart("user", uid + ":" + "answers");
    SplitApart(uid, "answers");
    SplitLast("session");
    SplitLast("user");
    SplitLast("answers");
  }

  /** A key is read back as its own user's exactly if session and user id hold no
      colon, or, by accident, the user is called like what stands in that place: a
      second and last piece of the session id is followed by "user", and a third
      piece of the session id stands there itself. */
  lemma NamesItsUser(sid: SessionId, uid: UserId)
    ensures |Split(AnswersKey(sid, uid))| >= 5
    ensures Named(AnswersKey(sid, uid)) == uid <==>
              || (ColonFree(sid) && ColonFree(uid))
              || (|Split(sid)| == 2 && uid == "user")
              || (|Split(sid)| >= 3 && uid == Split(sid)[2])
  {
    SplitAnswersKey(sid, uid);
    SplitLast(sid);
    SplitLast(uid);
    hide AnswersKey;
    var parts := Split(sid);
    var tail := ["user"] + (Split(uid) + ["answers"]);
    var all := ["session"] + (parts + tail);
    assert all[3] == if |parts| >= 3 then parts[2] else if |parts| == 2 then "user" else Split(uid)[0];
    hide Split;
  }

  /** Of the keys the user's own, and no other, is read back as the user's. */
  ghost predicate OnlyOwnKeyNames(keys: seq<string>, sid: SessionId, uid: UserId) {
    forall i :: 0 <= i < |keys| ==>
                  |Split(keys[i])| >= 5 && (Named(keys[i]) == uid <==> keys[i] == AnswersKey(sid, uid))
  }

  /** So it is when nobody's id holds a colon. */
  lemma ColonFreeKeysName(keys: seq<string>, sid: SessionId, uid: UserId)
    requires ColonFree(sid) && ColonFree(uid)
    requires forall i :: 0 <= i < |keys| ==> exists u :: ColonFree(u) && keys[i] == AnswersKey(sid, u)
    ensures OnlyOwnKeyNames(keys, sid, uid)
  {
    forall i | 0 <= i < |keys|
      ensures |Split(keys[i])| >= 5 && (Named(keys[i]) == uid <==> keys[i] == AnswersKey(sid, uid))
    {
      var u :| ColonFree(u) && keys[i] == AnswersKey(sid, u);
      NamesItsUser(sid, u);
      NamesItsUser(sid, uid);
    }
    hide Split, AnswersKey;
  }

  lemma {:induction false} NothingUnderName(keys: seq<string>, values: Values, uid: UserId)
    requires forall i :: 0 <= i < |keys| ==> |Split(keys[i])| >= 5 && Named(keys[i]) != uid
    ensures uid !in Gather(keys, values)
    decreases |keys|
  {
    hide Split;
    if keys != [] {
      NothingUnderName(keys[..|keys| - 1], values, uid);
    }
  }

  /** A user whose key is read back as somebody else's gets nothing back from it. */
  lemma MisnamedUserGetsNothing(values: Values, sid: SessionId, uid: UserId)
    requires |Split(AnswersKey(sid, uid))| >= 5 && Named(AnswersKey(sid, uid)) != uid
    ensures var key := AnswersKey(sid, uid);
            && uid !in Gather([key], values)
            && Get(Gather([key], values), Named(key), []) == Get(values, key, [])
  {
    hide Split, AnswersKey;
    var key := AnswersKey(sid, uid);
    NothingUnderName([key], values, uid);
    assert [key][..0] == [];
  }

  function Repeat(answers: seq<UserAnswer>, times: nat): seq<UserAnswer> {
    if times == 0 then [] else Repeat(answers, times - 1) + answers
  }

  lemma {:induction false} RepeatOnce(answers: seq<UserAnswer>, times: nat)
    ensures |Repeat(answers, times)| >= times * |answers|
    ensures times >= 1 ==> (Repeat(answers, times) == answers <==> times == 1 || answers == [])
    decreases times
  {
    if times > 1 {
      RepeatOnce(answers, times - 1);
      Longer(times - 1, |answers|);
    }
  }

  lemma Longer(n: nat, len: nat)
    ensures (n + 1) * len == n * len + len
    ensures n >= 1 && len >= 1 ==> n * len + len > len
  {
  }

  /** Each user's answers come back as often as the scan returned the user's key. */
  lemma {:induction false} RepeatedKeysRepeatAnswers(keys: seq<string>, values: Values, sid: SessionId, uid: UserId)
    requires OnlyOwnKeyNames(keys, sid, uid)
    ensures Get(Gather(keys, values), uid, []) ==
              Repeat(Get(values, AnswersKey(sid, uid), []), Times(keys, AnswersKey(sid, uid)))
    decreases |keys|
  {
    hide AnswersKey, Split;
    if keys != [] {
      RepeatedKeysRepeatAnswers(keys[..|keys| - 1], values, sid, uid);
    }
  }

  /** So what is read back for a user whose key was returned is the stored hash's
      reply exactly if the key was not repeated, or there was nothing to repeat. */
  lemma AnswersReadBackOnce(keys: seq<string>, values: Values, sid: SessionId, uid: UserId)
    requires OnlyOwnKeyNames(keys, sid, uid) && AnswersKey(sid, uid) in keys
    ensures var key := AnswersKey(sid, uid);
            Get(Gather(keys, values), uid, []) == Get(values, key, []) <==>
            Times(keys, key) == 1 || Get(values, key, []) == []
  {
    hide AnswersKey;
    var key := AnswersKey(sid, uid);
    RepeatedKeysRepeatAnswers(keys, values, sid, uid);
    TimesPositive(keys, key);
    RepeatOnce(Get(values, key, []), Times(keys, key));
  }

  lemma {:induction false} TimesPositive(keys: seq<string>, key: string)
    ensures key in keys ==> Times(keys, key) >= 1
    decreases |keys|
  {
    if keys != [] {
      TimesPositive(keys[..|keys| - 1], key);
    }
  }
}
