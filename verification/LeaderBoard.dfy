/** The leaderboard service: stored totals, the sorted table and the histogram of
    chosen options. */
module LeaderBoard {
  import opened Quizzes
  import opened Decimal
  import opened Scoring

  datatype UserScore = UserScore(userId: UserId, totalScore: int)

  ghost predicate Descending(scores: seq<UserScore>) {
    forall i, j :: 0 <= i < j < |scores| ==> scores[i].totalScore >= scores[j].totalScore
  }

  ghost function Rows(totals: Totals): set<UserScore> {
    set u | u in totals :: UserScore(u, totals[u])
  }

  /** Every stored total once. */
  ghost predicate ListsTotals(scores: seq<UserScore>, totals: Totals) {
    multiset(scores) == multiset(Rows(totals))
  }

  /** A row for each user with the stored total, one time, and no other row. */
  lemma ListsTotalsOnce(scores: seq<UserScore>, totals: Totals)
    ensures ListsTotals(scores, totals) <==>
              forall row :: multiset(scores)[row] == if row.userId in totals && totals[row.userId] == row.totalScore then 1 else 0
  {
    var rows := multiset(Rows(totals));
    assert forall row :: rows[row] == if row.userId in totals && totals[row.userId] == row.totalScore then 1 else 0;
    if forall row :: multiset(scores)[row] == if row.userId in totals && totals[row.userId] == row.totalScore then 1 else 0 {
      assert forall row :: multiset(scores)[row] == rows[row];
      assert multiset(scores) == rows;
    }
  }

  /** The first i + 1 scores are in order but for the one at j, which is still
      moving to the front. */
  ghost predicate OrderedBut(scores: seq<UserScore>, i: nat, j: nat)
    requires j <= i < |scores|
  {
    forall k, l :: 0 <= k < l <= i && l != j ==> scores[k].totalScore >= scores[l].totalScore
  }

  lemma SwapKeepsOrder(s: seq<UserScore>, i: nat, j: nat)
    requires 0 < j <= i < |s| && OrderedBut(s, i, j) && s[j].totalScore > s[j - 1].totalScore
    ensures OrderedBut(s[j - 1 := s[j]][j := s[j - 1]], i, j - 1)
    ensures multiset(s[j - 1 := s[j]][j := s[j - 1]]) == multiset(s)
  {
  }

  /** One pass of insertion sort, in place. */
  method Insert(a: array<UserScore>, i: nat)
    requires i < a.Length && Descending(a[..i])
    modifies a
    ensures Descending(a[..i + 1])
    ensures multiset(a[..]) == multiset(old(a[..]))
  {
    var j := i;
    assert forall k :: 0 <= k < i ==> a[k] == a[..i][k];
    while j > 0 && a[j].totalScore > a[j - 1].totalScore
      invariant 0 <= j <= i
      invariant multiset(a[..]) == multiset(old(a[..]))
      invariant OrderedBut(a[..], i, j)
    {
      SwapKeepsOrder(a[..], i, j);
      ghost var s := a[..];
      a[j - 1], a[j] := a[j], a[j - 1];
      assert a[..] == s[j - 1 := s[j]][j := s[j - 1]];
      j := j - 1;
    }
    ghost var s := a[..];
    assert a[..i + 1] == s[..i + 1];
    FrontIsOrdered(s, i, j);
  }

  lemma FrontIsOrdered(s: seq<UserScore>, i: nat, j: nat)
    requires j <= i < |s| && OrderedBut(s, i, j) && (j > 0 ==> s[j].totalScore <= s[j - 1].totalScore)
    ensures Descending(s[..i + 1])
  {
    forall k, l | 0 <= k < l <= i ensures s[k].totalScore >= s[l].totalScore {
      if l == j && k < j - 1 {
        assert s[k].totalScore >= s[j - 1].totalScore;
      }
    }
  }

  /** sort.Slice promises a descending permutation and nothing about ties; this is
      the insertion sort it runs on short slices, on a copy. */
  method SortUserScoresByScoreDesc(scores: seq<UserScore>) returns (sorted: seq<UserScore>)
    ensures multiset(sorted) == multiset(scores)
    ensures Descending(sorted)
  {
    var n := |scores|;
    var a := new UserScore[n](i requires 0 <= i < n => scores[i]);
    assert a[..] == scores;
    for i := 0 to n
      invariant multiset(a[..]) == multiset(scores)
      invariant Descending(a[..i])
    {
      Insert(a, i);
    }
    assert a[..n] == a[..];
    sorted := a[..];
  }

  // ---- the histogram ----

  function CountOf(answers: seq<Answer>, key: string): nat {
    if answers == [] then 0
    else
      var last := answers[|answers| - 1];
      CountOf(answers[..|answers| - 1], key) + if last.answered && last.option == key then 1 else 0
  }

  function Answered(answers: seq<Answer>): nat {
    if answers == [] then 0
    else Answered(answers[..|answers| - 1]) + if answers[|answers| - 1].answered then 1 else 0
  }

  ghost function Chosen(answers: seq<Answer>): set<string> {
    set i | 0 <= i < |answers| && answers[i].answered :: answers[i].option
  }

  ghost function Offered(optionsAmount: int): set<string> {
    set i | 1 <= i <= optionsAmount :: Itoa(i)
  }

  method PopularAns(optionsAmount: int, answers: seq<Answer>) returns (counts: map<string, int>)
    ensures counts.Keys == Offered(optionsAmount) + Chosen(answers)
    ensures forall k :: k in counts ==> counts[k] == CountOf(answers, k)
  {
    counts := map[];
    var i := 1;
    while i < optionsAmount + 1
      invariant counts.Keys == set k | 1 <= k < i :: Itoa(k)
      invariant i <= optionsAmount + 1 || i == 1
      invariant forall k :: k in counts ==> counts[k] == 0
    {
      counts := counts[Itoa(i) := 0];
      i := i + 1;
    }
    assert counts.Keys == Offered(optionsAmount);
    for n := 0 to |answers|
      invariant counts.Keys == Offered(optionsAmount) + Chosen(answers[..n])
      invariant forall k :: k in counts ==> counts[k] == CountOf(answers[..n], k)
    {
      assert answers[..n + 1][..n] == answers[..n];
      ChosenGrows(answers, n);
      NotCounted(answers[..n]);
      if answers[n].answered {
        counts := counts[answers[n].option := Get(counts, answers[n].option, 0) + 1];
      }
    }
    assert answers[..|answers|] == answers;
  }

  lemma ChosenGrows(answers: seq<Answer>, n: nat)
    requires n < |answers|
    ensures Chosen(answers[..n + 1]) == Chosen(answers[..n]) + if answers[n].answered then {answers[n].option} else {}
  {
    var longer := answers[..n + 1];
    forall k ensures k in Chosen(longer) <==> k in Chosen(answers[..n]) || (answers[n].answered && k == answers[n].option) {
      if k in Chosen(answers[..n]) {
        var i :| 0 <= i < n && answers[..n][i].answered && answers[..n][i].option == k;
        assert longer[i].option == k;
      }
      if answers[n].answered && k == answers[n].option {
        assert longer[n].option == k;
      }
    }
  }

  lemma {:induction false} NotCounted(answers: seq<Answer>)
    ensures forall k :: k !in Chosen(answers) ==> CountOf(answers, k) == 0
    decreases |answers|
  {
    if answers != [] {
      var n := |answers| - 1;
      NotCounted(answers[..n]);
      ChosenGrows(answers, n);
      assert answers[..n + 1] == answers;
    }
  }

  ghost function CountsOver(keys: set<string>, answers: seq<Answer>): Totals {
    map k | k in keys :: CountOf(answers, k)
  }

  lemma {:induction false} CountsSum(keys: set<string>, answers: seq<Answer>)
    requires Chosen(answers) <= keys
    ensures Sum(CountsOver(keys, answers)) == Answered(answers)
    decreases |answers|
  {
    if answers == [] {
      ZeroesSum(keys);
      assert CountsOver(keys, answers) == map k | k in keys :: 0;
    } else {
      var n := |answers| - 1;
      var init, last := answers[..n], answers[n];
      assert answers[..n + 1] == answers;
      ChosenGrows(answers, n);
      CountsSum(keys, init);
      if last.answered {
        SumAfterAddPoint(CountsOver(keys, init), UserPoint(last.option, 1));
        assert AddPoint(CountsOver(keys, init), UserPoint(last.option, 1)) == CountsOver(keys, answers);
      } else {
        assert CountsOver(keys, init) == CountsOver(keys, answers);
      }
    }
  }

  lemma {:induction false} ZeroesSum(keys: set<string>)
    ensures Sum(map k | k in keys :: 0) == 0
    decreases |keys|
  {
    var m: Totals := map k | k in keys :: 0;
    if k :| k in keys {
      SumWithout(m, k);
      ZeroesSum(keys - {k});
      assert m - {k} == map j | j in keys - {k} :: 0;
    } else {
      assert m == map[];
    }
  }

  /** No answer is lost or counted twice. */
  lemma HistogramConserves(optionsAmount: int, answers: seq<Answer>, counts: map<string, int>)
    requires counts.Keys == Offered(optionsAmount) + Chosen(answers)
    requires forall k :: k in counts ==> counts[k] == CountOf(answers, k)
    ensures Sum(counts) == Answered(answers)
  {
    CountsSum(counts.Keys, answers);
    assert counts == CountsOver(counts.Keys, answers);
  }

  ghost function Choosers(order: seq<UserId>, entries: Entries, option: int): set<UserId>
    requires forall u :: u in order ==> u in entries
  {
    set u | u in order && entries[u].answered && entries[u].option == option
  }

  /** The count under a printed, 1-based key is the number of participants who
      chose that zero-based option. */
  lemma {:induction false} CountIsChoosers(answers: seq<Answer>, order: seq<UserId>, entries: Entries, option: int)
    requires |answers| == |order|
    requires forall i, j :: 0 <= i < j < |order| ==> order[i] != order[j]
    requires forall u :: u in order ==> u in entries
    requires forall i :: 0 <= i < |order| ==> answers[i] == ToAnswer(order[i], entries[order[i]])
    ensures CountOf(answers, Itoa(option + 1)) == |Choosers(order, entries, option)|
    decreases |order|
  {
    hide Itoa;
    if order == [] {
      assert Choosers(order, entries, option) == {};
    } else {
      var n := |order| - 1;
      var u := order[n];
      CountIsChoosers(answers[..n], order[..n], entries, option);
      var before := Choosers(order[..n], entries, option);
      assert forall v :: v in order <==> v in order[..n] || v == u;
      if Itoa(entries[u].option + 1) == Itoa(option + 1) {
        ItoaInjective(entries[u].option + 1, option + 1);
      }
      if entries[u].answered && entries[u].option == option {
        assert Choosers(order, entries, option) == before + {u};
      } else {
        assert Choosers(order, entries, option) == before;
      }
    }
  }

  ghost function ChosenBy(entries: Entries, option: int): set<UserId> {
    set u | u in entries && entries[u].answered && entries[u].option == option
  }

  /** The histogram of a batch of participants: one key for each offered option
      and each chosen one, and under it the participants who chose that option. */
  ghost predicate IsHistogram(counts: map<string, int>, optionsAmount: int, entries: Entries) {
    && counts.Keys == Offered(optionsAmount) + (set u | u in entries && entries[u].answered :: Itoa(entries[u].option + 1))
    && forall option: int :: Itoa(option + 1) in counts ==> counts[Itoa(option + 1)] == |ChosenBy(entries, option)|
  }

  lemma ChosenOfEntries(answers: seq<Answer>, order: seq<UserId>, entries: Entries)
    requires Lists(answers, order, entries)
    ensures Chosen(answers) == set u | u in entries && entries[u].answered :: Itoa(entries[u].option + 1)
  {
    hide Itoa;
    var keys := set u | u in entries && entries[u].answered :: Itoa(entries[u].option + 1);
    forall k | k in Chosen(answers) ensures k in keys {
      var i :| 0 <= i < |answers| && answers[i].answered && answers[i].option == k;
      assert order[i] in entries;
    }
    forall k | k in keys ensures k in Chosen(answers) {
      var u :| u in entries && entries[u].answered && Itoa(entries[u].option + 1) == k;
      var i :| 0 <= i < |order| && order[i] == u;
      assert answers[i].option == k;
    }
  }

  lemma HistogramOfEntries(counts: map<string, int>, optionsAmount: int, answers: seq<Answer>, order: seq<UserId>, entries: Entries)
    requires Lists(answers, order, entries)
    requires counts.Keys == Offered(optionsAmount) + Chosen(answers)
    requires forall k :: k in counts ==> counts[k] == CountOf(answers, k)
    ensures IsHistogram(counts, optionsAmount, entries)
  {
    hide Itoa, Offered, Chosen;
    ChosenOfEntries(answers, order, entries);
    forall option: int | Itoa(option + 1) in counts
      ensures counts[Itoa(option + 1)] == |ChosenBy(entries, option)|
    {
      CountIsChoosers(answers, order, entries, option);
      assert Choosers(order, entries, option) == ChosenBy(entries, option);
    }
  }

  /** The histogram of the answers to one question made with another question's
      number of options: it is the right one exactly if every (zero-based) option
      that only one of the two questions offers was chosen by somebody. */
  lemma HistogramFitsQuestion(counts: map<string, int>, current: nat, previous: nat, entries: Entries)
    requires IsHistogram(counts, current, entries)
    ensures IsHistogram(counts, previous, entries) <==>
              forall option :: current <= option < previous || previous <= option < current ==> ChosenBy(entries, option) != {}
  {
    hide Itoa;
    var chosen := set u | u in entries && entries[u].answered :: Itoa(entries[u].option + 1);
    forall option: int
      ensures Itoa(option + 1) in chosen <==> ChosenBy(entries, option) != {}
      ensures Itoa(option + 1) in Offered(current) <==> 0 <= option < current
      ensures Itoa(option + 1) in Offered(previous) <==> 0 <= option < previous
    {
      ChosenKey(entries, option);
      OfferedKey(option, current);
      OfferedKey(option, previous);
    }
    if IsHistogram(counts, previous, entries) {
      forall option | current <= option < previous || previous <= option < current ensures ChosenBy(entries, option) != {} {
        assert Itoa(option + 1) in Offered(current) + chosen <==> Itoa(option + 1) in Offered(previous) + chosen;
      }
    } else {
      var key :| (key in Offered(current)) != (key in Offered(previous)) && key !in chosen;
      var i :| 1 <= i <= (if key in Offered(current) then current else previous) && key == Itoa(i);
      assert ChosenBy(entries, i - 1) == {} by {
        assert key == Itoa((i - 1) + 1);
      }
    }
  }

  lemma ChosenKey(entries: Entries, option: int)
    ensures Itoa(option + 1) in (set u | u in entries && entries[u].answered :: Itoa(entries[u].option + 1)) <==>
            ChosenBy(entries, option) != {}
  {
    hide Itoa;
    var chosen := set u | u in entries && entries[u].answered :: Itoa(entries[u].option + 1);
    if ChosenBy(entries, option) != {} {
      var u :| u in ChosenBy(entries, option);
      assert Itoa(entries[u].option + 1) in chosen;
    }
    if Itoa(option + 1) in chosen {
      var u :| u in entries && entries[u].answered && Itoa(entries[u].option + 1) == Itoa(option + 1);
      ItoaInjective(entries[u].option + 1, option + 1);
      assert u in ChosenBy(entries, option);
    }
  }

  lemma OfferedKey(option: int, amount: nat)
    ensures Itoa(option + 1) in Offered(amount) <==> 0 <= option < amount
  {
    hide Itoa;
    if Itoa(option + 1) in Offered(amount) {
      var i :| 1 <= i <= amount && Itoa(i) == Itoa(option + 1);
      ItoaInjective(i, option + 1);
    }
  }

  /** After a question of two options, of which only the first was chosen, a
      question of three makes the histogram show a third bar. */
  lemma HistogramShowsForeignOption(counts: map<string, int>, u: UserId, timestamp: int)
    requires IsHistogram(counts, 3, map[u := UserAnswer(true, 0, true, timestamp)])
    ensures !IsHistogram(counts, 2, map[u := UserAnswer(true, 0, true, timestamp)])
    ensures Itoa(2 + 1) in counts && counts[Itoa(2 + 1)] == 0
  {
    var entries := map[u := UserAnswer(true, 0, true, timestamp)];
    OfferedKey(2, 3);
    HistogramFitsQuestion(counts, 3, 2, entries);
    hide Itoa;
    assert ChosenBy(entries, 2) == {};
  }

  // ---- the stored board ----

  class Service {
    var boards: map<SessionId, Totals>

    ghost function Board(code: SessionId): Totals
      reads this
    {
      Get(boards, code, map[])
    }

    constructor ()
      ensures boards == map[]
    {
      boards := map[];
    }

    /** One ZINCRBY for every update; an empty pipeline leaves no key behind. */
    method AddScoresBatch(code: SessionId, updates: seq<UserPoint>)
      modifies this
      ensures boards == if updates == [] then old(boards) else old(boards)[code := AddAll(old(Board(code)), updates)]
    {
      for i := 0 to |updates|
        invariant boards == if i == 0 then old(boards) else old(boards)[code := AddAll(old(Board(code)), updates[..i])]
      {
        assert updates[..i + 1][..i] == updates[..i];
        boards := boards[code := AddPoint(Get(boards, code, map[]), updates[i])];
      }
      assert updates[..|updates|] == updates;
    }

    /** The reply is what ZREVRANGE returned. */
    method LoadLeaderboard(code: SessionId, reply: seq<UserScore>) returns (scores: seq<UserScore>)
      requires ListsTotals(reply, Board(code))
      ensures ListsTotals(scores, Board(code)) && scores == reply
    {
      scores := [];
      for i := 0 to |reply|
        invariant scores == reply[..i]
      {
        scores := scores + [UserScore(reply[i].userId, reply[i].totalScore)];
      }
      assert reply[..|reply|] == reply;
    }

    /** An empty batch fails before anything is stored. Otherwise every listed
        participant's total grows by the participant's points and the table is a
        descending listing of all totals. */
    method ComputeLeaderBoard(code: SessionId, answers: seq<Answer>, ghost order: seq<UserId>, ghost entries: Entries,
                              reply: seq<UserScore>)
      returns (table: Outcome<seq<UserScore>>)
      requires Lists(answers, order, entries)
      requires ListsTotals(reply, AddPoints(Board(code), PointsOf(entries)))
      modifies this
      ensures table.Panic? <==> answers == []
      ensures table.Panic? ==> boards == old(boards)
      ensures table.Done? ==>
                && boards == old(boards)[code := AddPoints(old(Board(code)), PointsOf(entries))]
                && ListsTotals(table.value, Board(code))
                && (forall row :: multiset(table.value)[row] ==
                      if row.userId in Board(code) && Board(code)[row.userId] == row.totalScore then 1 else 0)
                && forall i, j :: 0 <= i < j < |table.value| ==> table.value[i].totalScore >= table.value[j].totalScore
    {
      var points := CurrentPoints(answers);
      if points.Panic? {
        return Panic;
      }
      AnyListingAddsPoints(Board(code), answers, order, entries, points.value);
      AddScoresBatch(code, points.value);
      var scores := LoadLeaderboard(code, reply);
      var sorted := SortUserScoresByScoreDesc(scores);
      ListsTotalsOnce(sorted, Board(code));
      return Done(sorted);
    }
  }
}
