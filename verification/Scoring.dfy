/** The leaderboard service's arithmetic: points for one batch of answers, and
    how batches add up. */
module Scoring {
  import opened Quizzes
  import opened Decimal

  /** One answer as it crosses to the leaderboard service. */
  datatype Answer = Answer(userId: UserId, correct: bool, answered: bool, option: string, timestamp: int)

  datatype UserPoint = UserPoint(userId: UserId, score: int)

  type Totals = map<UserId, int>

  const MAX_SCORE := 1000
  const SECOND := 1_000_000_000
  /** Nobody scores from here on. */
  const LIMIT := 20 * SECOND
  /** The time that costs one point. */
  const TICK := 20_000_000

  // ---- points of one answer ----

  /** time.Time.Sub saturates at the ends of a 64-bit duration. */
  function Sub(t: int, u: int): int {
    if t - u > 0x7FFF_FFFF_FFFF_FFFF then 0x7FFF_FFFF_FFFF_FFFF
    else if t - u < -0x8000_0000_0000_0000 then -0x8000_0000_0000_0000
    else t - u
  }

  function Abs(x: int): nat {
    if x < 0 then -x else x
  }

  /** No 64-bit duration is nearer to the difference. */
  lemma SubIsNearest(t: int, u: int, d: int)
    requires -0x8000_0000_0000_0000 <= d <= 0x7FFF_FFFF_FFFF_FFFF
    ensures -0x8000_0000_0000_0000 <= Sub(t, u) <= 0x7FFF_FFFF_FFFF_FFFF
    ensures Abs(t - u - Sub(t, u)) <= Abs(t - u - d)
  {
  }

  function Seconds(d: int): real {
    d as real / 1_000_000_000.0
  }

  /** The clamped decay of the scoring loop, with exact reals in place of doubles. */
  function Decayed(seconds: real): int {
    var elapsed := if seconds <= 0.0 then 0.0 else seconds;
    var penalty := if elapsed / 20.0 > 1.0 then 1.0 else elapsed / 20.0;
    var point := (1000.0 * (1.0 - penalty)).Floor;
    if point <= 0 then 0 else if point >= MAX_SCORE then MAX_SCORE else point
  }

  /** The same points without reals: whole ticks left until the limit. */
  function Points(elapsed: int): int {
    if elapsed <= 0 then MAX_SCORE
    else if elapsed >= LIMIT then 0
    else (LIMIT - elapsed) / TICK
  }

  lemma DecayedIsPoints(t: int, u: int)
    ensures Decayed(Seconds(Sub(t, u))) == Points(t - u)
  {
    var d := Sub(t, u);
    var x := 1000.0 * (1.0 - Seconds(d) / 20.0);
    if 0 < d < LIMIT {
      var q := (LIMIT - d) / TICK;
      assert q * TICK <= LIMIT - d < (q + 1) * TICK;
      assert x == (LIMIT - d) as real / 20_000_000.0;
      assert q as real <= x < (q + 1) as real;
      assert x.Floor == q;
    }
  }

  /** A thousand points, less one for every 20 ms begun, until nothing is left after
      20 s. Elapsed times are in nanoseconds. */
  lemma PointsAreMilliseconds(elapsed: int)
    ensures elapsed <= 0 ==> Points(elapsed) == 1000
    ensures 0 < elapsed <= 20_000_000_000 ==> (1000 - Points(elapsed) - 1) * 20_000_000 < elapsed <= (1000 - Points(elapsed)) * 20_000_000
    ensures elapsed > 20_000_000_000 ==> Points(elapsed) == 0
  {
    if 0 < elapsed < LIMIT {
      var q := (LIMIT - elapsed) / TICK;
      assert q * TICK <= LIMIT - elapsed < (q + 1) * TICK;
    }
  }

  lemma PointsBounds(elapsed: int)
    ensures 0 <= Points(elapsed) <= MAX_SCORE
    ensures Points(elapsed) == MAX_SCORE <==> elapsed <= 0
    ensures Points(elapsed) == 0 <==> elapsed > LIMIT - TICK
  {
    if 0 < elapsed < LIMIT {
      var q := (LIMIT - elapsed) / TICK;
      assert q * TICK <= LIMIT - elapsed < (q + 1) * TICK;
    }
  }

  lemma PointsFall(early: int, late: int)
    requires early <= late
    ensures Points(early) >= Points(late)
  {
    PointsBounds(early);
    PointsBounds(late);
    if 0 < early && late < LIMIT {
      var p, q := (LIMIT - early) / TICK, (LIMIT - late) / TICK;
      assert p * TICK <= LIMIT - early < (p + 1) * TICK;
      assert q * TICK <= LIMIT - late < (q + 1) * TICK;
    }
  }

  // ---- points of one batch, as the service receives it ----

  ghost predicate IsEarliest(answers: seq<Answer>, t: int) {
    && (exists i :: 0 <= i < |answers| && answers[i].timestamp == t)
    && (forall i :: 0 <= i < |answers| ==> t <= answers[i].timestamp)
  }

  /** An empty batch panics on its first element. */
  method GetEarliestTimestamp(answers: seq<Answer>) returns (r: Outcome<int>)
    ensures r.Panic? <==> answers == []
    ensures r.Done? ==> IsEarliest(answers, r.value)
  {
    if answers == [] {
      return Panic;
    }
    var earliest := answers[0].timestamp;
    for i := 1 to |answers|
      invariant IsEarliest(answers[..i], earliest)
    {
      assert answers[..i + 1] == answers[..i] + [answers[i]];
      if answers[i].timestamp < earliest {
        earliest := answers[i].timestamp;
        assert answers[..i + 1][i].timestamp == earliest;
      } else {
        var j :| 0 <= j < i && answers[..i][j].timestamp == earliest;
        assert answers[..i + 1][j].timestamp == earliest;
      }
    }
    assert answers[..|answers|] == answers;
    return Done(earliest);
  }

  function PointFor(a: Answer, earliest: int): UserPoint {
    UserPoint(a.userId, if a.correct then Points(a.timestamp - earliest) else 0)
  }

  /** The points of a batch, measured from the earliest timestamp it holds. */
  ghost predicate ArePoints(answers: seq<Answer>, points: seq<UserPoint>) {
    exists t :: IsEarliest(answers, t) && points == seq(|answers|, i requires 0 <= i < |answers| => PointFor(answers[i], t))
  }

  method CurrentPoints(answers: seq<Answer>) returns (r: Outcome<seq<UserPoint>>)
    ensures r.Panic? <==> answers == []
    ensures r.Done? ==> ArePoints(answers, r.value)
  {
    var best := GetEarliestTimestamp(answers);
    if best.Panic? {
      return Panic;
    }
    var points: seq<UserPoint> := [];
    for i := 0 to |answers|
      invariant |points| == i
      invariant forall j :: 0 <= j < i ==> points[j] == PointFor(answers[j], best.value)
    {
      var u := answers[i];
      if u.correct {
        var elapsed := Seconds(Sub(u.timestamp, best.value));
        if elapsed <= 0.0 {
          elapsed := 0.0;
        }
        var timePenalty := elapsed / 20.0;
        if timePenalty > 1.0 {
          timePenalty := 1.0;
        }
        var userPoint := (1000.0 * (1.0 - timePenalty)).Floor;
        if userPoint <= 0 {
          userPoint := 0;
        }
        if userPoint >= MAX_SCORE {
          userPoint := MAX_SCORE;
        }
        assert userPoint == Decayed(Seconds(Sub(u.timestamp, best.value)));
        DecayedIsPoints(u.timestamp, best.value);
        points := points + [UserPoint(u.userId, userPoint)];
      } else {
        points := points + [UserPoint(u.userId, 0)];
      }
    }
    assert points == seq(|answers|, i requires 0 <= i < |answers| => PointFor(answers[i], best.value));
    return Done(points);
  }

  function Shifted(answers: seq<Answer>, offset: int): seq<Answer> {
    seq(|answers|, i requires 0 <= i < |answers| => answers[i].(timestamp := answers[i].timestamp + offset))
  }

  /** Only differences of timestamps matter. */
  lemma PointsIgnoreShift(answers: seq<Answer>, offset: int, points: seq<UserPoint>)
    ensures ArePoints(answers, points) <==> ArePoints(Shifted(answers, offset), points)
  {
    ShiftKeepsPoints(answers, offset, points);
    ShiftKeepsPoints(Shifted(answers, offset), -offset, points);
    assert Shifted(Shifted(answers, offset), -offset) == answers;
  }

  lemma ShiftKeepsPoints(answers: seq<Answer>, offset: int, points: seq<UserPoint>)
    ensures ArePoints(answers, points) ==> ArePoints(Shifted(answers, offset), points)
  {
    if ArePoints(answers, points) {
      var t :| IsEarliest(answers, t) && points == seq(|answers|, i requires 0 <= i < |answers| => PointFor(answers[i], t));
      var shifted := Shifted(answers, offset);
      var i :| 0 <= i < |answers| && answers[i].timestamp == t;
      assert shifted[i].timestamp == t + offset;
      assert IsEarliest(shifted, t + offset);
      assert points == seq(|shifted|, i requires 0 <= i < |shifted| => PointFor(shifted[i], t + offset));
    }
  }

  /** A batch has exactly one list of points, and reordering the batch gives
      every answer the points it had. */
  lemma PointsIgnoreOrder(a: seq<Answer>, b: seq<Answer>, p: seq<UserPoint>, q: seq<UserPoint>, i: nat, j: nat)
    requires multiset(a) == multiset(b)
    requires ArePoints(a, p) && ArePoints(b, q)
    requires i < |a| && j < |b| && a[i] == b[j]
    ensures p[i] == q[j]
  {
    var t :| IsEarliest(a, t) && p == seq(|a|, i requires 0 <= i < |a| => PointFor(a[i], t));
    var u :| IsEarliest(b, u) && q == seq(|b|, i requires 0 <= i < |b| => PointFor(b[i], u));
    var k :| 0 <= k < |a| && a[k].timestamp == t;
    var l :| 0 <= l < |b| && b[l].timestamp == u;
    assert a[k] in multiset(b) && b[l] in multiset(a);
    assert a[k] in b && b[l] in a;
  }

  // ---- adding points up ----

  function AddPoint(m: Totals, p: UserPoint): Totals {
    m[p.userId := Get(m, p.userId, 0) + p.score]
  }

  /** ZINCRBY once for every point, in order. */
  function AddAll(m: Totals, points: seq<UserPoint>): Totals {
    if points == [] then m
    else AddPoint(AddAll(m, points[..|points| - 1]), points[|points| - 1])
  }

  function SumScores(points: seq<UserPoint>): int {
    if points == [] then 0 else SumScores(points[..|points| - 1]) + points[|points| - 1].score
  }

  ghost function Sum(m: Totals): int {
    if m == map[] then 0
    else
      var u :| u in m;
      m[u] + Sum(m - {u})
  }

  lemma {:induction false} SumWithout(m: Totals, u: UserId)
    requires u in m
    ensures Sum(m) == m[u] + Sum(m - {u})
    decreases |m|
  {
    var v :| v in m && Sum(m) == m[v] + Sum(m - {v});
    if u != v {
      SumWithout(m - {v}, u);
      SumWithout(m - {u}, v);
      assert m - {v} - {u} == m - {u} - {v};
    }
  }

  lemma SumAfterAddPoint(m: Totals, p: UserPoint)
    ensures Sum(AddPoint(m, p)) == Sum(m) + p.score
  {
    var m' := AddPoint(m, p);
    SumWithout(m', p.userId);
    if p.userId in m {
      SumWithout(m, p.userId);
      assert m' - {p.userId} == m - {p.userId};
    } else {
      assert m' - {p.userId} == m;
    }
  }

  /** The totals grow by exactly the batch's points. */
  lemma {:induction false} SumGrowsByBatch(m: Totals, points: seq<UserPoint>)
    ensures Sum(AddAll(m, points)) == Sum(m) + SumScores(points)
    decreases |points|
  {
    if points != [] {
      SumGrowsByBatch(m, points[..|points| - 1]);
      SumAfterAddPoint(AddAll(m, points[..|points| - 1]), points[|points| - 1]);
    }
  }

  // ---- the same batch as a map: one entry per participant ----

  type Entries = map<UserId, UserAnswer>

  ghost predicate NotLater(entries: Entries, t: int) {
    forall v :: v in entries ==> t <= entries[v].timestamp
  }

  lemma {:induction false} SomeEntryIsEarliest(entries: Entries)
    requires entries != map[]
    ensures exists u :: u in entries && NotLater(entries, entries[u].timestamp)
    decreases |entries|
  {
    var u :| u in entries;
    var rest := entries - {u};
    assert forall v :: v in entries ==> v in rest || v == u;
    if rest != map[] && !NotLater(rest, entries[u].timestamp) {
      SomeEntryIsEarliest(rest);
      var w :| w in rest && NotLater(rest, rest[w].timestamp);
      assert NotLater(entries, entries[w].timestamp);
    } else {
      assert NotLater(entries, entries[u].timestamp);
    }
  }

  ghost function Earliest(entries: Entries): (t: int)
    requires entries != map[]
    ensures forall v :: v in entries ==> t <= entries[v].timestamp
    ensures exists u :: u in entries && entries[u].timestamp == t
  {
    SomeEntryIsEarliest(entries);
    var u :| u in entries && NotLater(entries, entries[u].timestamp);
    entries[u].timestamp
  }

  ghost function PointsOf(entries: Entries): Totals {
    map u | u in entries :: if entries[u].correct then Points(entries[u].timestamp - Earliest(entries)) else 0
  }

  ghost function AddPoints(m: Totals, points: Totals): Totals {
    map u | u in m.Keys + points.Keys :: Get(m, u, 0) + Get(points, u, 0)
  }

  ghost predicate IsListing(order: seq<UserId>, entries: Entries) {
    && (forall i, j :: 0 <= i < j < |order| ==> order[i] != order[j])
    && (forall u :: u in order <==> u in entries)
  }

  /** Options are sent 1-based and printed. */
  function ToAnswer(u: UserId, a: UserAnswer): Answer {
    Answer(u, a.correct, a.answered, Itoa(a.option + 1), a.timestamp)
  }

  ghost predicate Lists(answers: seq<Answer>, order: seq<UserId>, entries: Entries) {
    && IsListing(order, entries)
    && |answers| == |order|
    && forall i :: 0 <= i < |order| ==> answers[i] == ToAnswer(order[i], entries[order[i]])
  }

  lemma ListedEarliest(answers: seq<Answer>, order: seq<UserId>, entries: Entries, t: int)
    requires Lists(answers, order, entries) && IsEarliest(answers, t)
    ensures entries != map[] && t == Earliest(entries)
  {
    hide Itoa;
    var k :| 0 <= k < |answers| && answers[k].timestamp == t;
    assert order[k] in entries;
    var u :| u in entries && entries[u].timestamp == Earliest(entries);
    var l :| 0 <= l < |order| && order[l] == u;
    assert answers[l].timestamp == Earliest(entries);
  }

  lemma ListedPoints(answers: seq<Answer>, order: seq<UserId>, entries: Entries, points: seq<UserPoint>)
    requires Lists(answers, order, entries) && ArePoints(answers, points)
    ensures |points| == |order|
    ensures forall i :: 0 <= i < |order| ==> points[i] == UserPoint(order[i], PointsOf(entries)[order[i]])
  {
    hide Itoa, IsEarliest, Points;
    var t :| IsEarliest(answers, t) && points == seq(|answers|, i requires 0 <= i < |answers| => PointFor(answers[i], t));
    ListedEarliest(answers, order, entries, t);
    forall i | 0 <= i < |order| ensures points[i] == UserPoint(order[i], PointsOf(entries)[order[i]]) {
      assert order[i] in entries;
      assert answers[i] == ToAnswer(order[i], entries[order[i]]);
    }
  }

  lemma {:induction false} AddAllSkips(m: Totals, points: seq<UserPoint>, u: UserId)
    requires forall i :: 0 <= i < |points| ==> points[i].userId != u
    ensures u in AddAll(m, points) <==> u in m
    ensures Get(AddAll(m, points), u, 0) == Get(m, u, 0)
    decreases |points|
  {
    if points != [] {
      AddAllSkips(m, points[..|points| - 1], u);
    }
  }

  lemma {:induction false} AddAllHits(m: Totals, points: seq<UserPoint>, i: nat)
    requires i < |points|
    requires forall j, k :: 0 <= j < k < |points| ==> points[j].userId != points[k].userId
    ensures points[i].userId in AddAll(m, points)
    ensures AddAll(m, points)[points[i].userId] == Get(m, points[i].userId, 0) + points[i].score
    decreases |points|
  {
    var init := points[..|points| - 1];
    if i == |points| - 1 {
      AddAllSkips(m, init, points[i].userId);
    } else {
      AddAllHits(m, init, i);
    }
  }

  lemma ListedUserAdds(m: Totals, order: seq<UserId>, entries: Entries, points: seq<UserPoint>, u: UserId)
    requires IsListing(order, entries) && |points| == |order|
    requires forall i :: 0 <= i < |order| ==> points[i] == UserPoint(order[i], PointsOf(entries)[order[i]])
    ensures u in AddAll(m, points) <==> u in m || u in PointsOf(entries)
    ensures Get(AddAll(m, points), u, 0) == Get(m, u, 0) + Get(PointsOf(entries), u, 0)
  {
    hide Points, AddAll;
    if u in entries {
      var i :| 0 <= i < |order| && order[i] == u;
      AddAllHits(m, points, i);
    } else {
      AddAllSkips(m, points, u);
    }
  }

  /** Whatever order the batch is sent in, every participant's total grows by the
      participant's points. */
  lemma AnyListingAddsPoints(m: Totals, answers: seq<Answer>, order: seq<UserId>, entries: Entries, points: seq<UserPoint>)
    requires Lists(answers, order, entries) && ArePoints(answers, points)
    ensures AddAll(m, points) == AddPoints(m, PointsOf(entries))
  {
    ListedPoints(answers, order, entries, points);
    assert IsListing(order, entries);
    hide *;
    AnyOrderAdds(m, order, entries, points);
  }

  lemma AnyOrderAdds(m: Totals, order: seq<UserId>, entries: Entries, points: seq<UserPoint>)
    requires IsListing(order, entries) && |points| == |order|
    requires forall i :: 0 <= i < |order| ==> points[i] == UserPoint(order[i], PointsOf(entries)[order[i]])
    ensures AddAll(m, points) == AddPoints(m, PointsOf(entries))
  {
    hide AddAll, IsListing, PointsOf;
    var sum, batch := AddAll(m, points), PointsOf(entries);
    forall u
      ensures u in sum <==> u in m || u in batch
      ensures Get(sum, u, 0) == Get(m, u, 0) + Get(batch, u, 0)
    {
      ListedUserAdds(m, order, entries, points, u);
    }
  }

  /** Who scores at all: a correct answer within 19.98 s of the earliest entry of
      the batch, whether or not that entry is an answer. */
  lemma WhoScores(entries: Entries, u: UserId)
    requires u in entries
    ensures 0 <= PointsOf(entries)[u] <= MAX_SCORE
    ensures PointsOf(entries)[u] > 0 <==>
              entries[u].correct && forall v :: v in entries ==> entries[u].timestamp - entries[v].timestamp <= LIMIT - TICK
    ensures PointsOf(entries)[u] == MAX_SCORE <==>
              entries[u].correct && forall v :: v in entries ==> entries[u].timestamp <= entries[v].timestamp
  {
    PointsBounds(entries[u].timestamp - Earliest(entries));
    var w :| w in entries && entries[w].timestamp == Earliest(entries);
  }

  /** One participant who has not answered carries Go's zero time into the batch,
      and every answer given later than 19.98 s after year 1 scores nothing. */
  lemma OneMissingAnswerZeroesTheBatch(entries: Entries, missing: UserId, u: UserId)
    requires missing in entries && entries[missing] == NO_ANSWER
    requires u in entries && entries[u].timestamp > LIMIT - TICK
    ensures PointsOf(entries)[u] == 0
  {
    WhoScores(entries, u);
  }
}
