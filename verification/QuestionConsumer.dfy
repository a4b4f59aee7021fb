/** One turn of the question.start loop, run without interference, does exactly
    the three events Advance, Score and Announce. */
module QuestionConsumer {
  import opened Quizzes
  import opened Tracker
  import opened Scoring
  import opened LiveQuiz
  import opened LiveQuizSafety
  import opened LiveQuizRuns
  import LB = LeaderBoard

  ghost function Turn(s: Service, sid: SessionId, c: nat): Outcome<Service> {
    match ApplyAdvance(s, sid, c)
    case Panic => Panic
    case Done(t) =>
      match ApplyScore(t, sid, c)
      case Panic => Panic
      case Done(u) => ApplyAnnounce(u, sid, c)
  }

  ghost function AfterTurn(s: Service, sid: SessionId, c: nat): Service {
    if Turn(s, sid, c).Done? then Turn(s, sid, c).value else s
  }

  lemma TurnCompletes(s: Service, sid: SessionId, c: nat)
    requires Inv(s)
    ensures ApplyAdvance(s, sid, c).Done? && Inv(ApplyAdvance(s, sid, c).value)
    ensures ApplyScore(ApplyAdvance(s, sid, c).value, sid, c).Done?
    ensures Turn(s, sid, c).Done? && Inv(Turn(s, sid, c).value)
    ensures Turn(s, sid, c) == ApplyAnnounce(ApplyScore(ApplyAdvance(s, sid, c).value, sid, c).value, sid, c)
    ensures Run(s, [Event.Advance(sid, c), Event.Score(sid, c), Event.Announce(sid, c)]) == Turn(s, sid, c)
  {
    hide ApplyAdvance, ApplyScore, ApplyAnnounce, Inv;
    AdvanceKeeps(s, sid, c);
    var t := ApplyAdvance(s, sid, c).value;
    ScoreKeeps(t, sid, c);
    AnnounceKeeps(ApplyScore(t, sid, c).value, sid, c);
    var e := [Event.Advance(sid, c), Event.Score(sid, c), Event.Announce(sid, c)];
    assert e[..2][..1] == e[..1] && e[..1][..0] == [];
    assert Run(s, e[..0]) == Done(s);
    assert Run(s, e[..1]) == ApplyAdvance(s, sid, c);
    assert Run(s, e[..2]) == ApplyScore(t, sid, c);
  }

  ghost function Room(s: Service, sid: SessionId): map<UserId, Role> {
    Get(s.rooms, sid, map[])
  }

  /** Two states that differ in the traces, boards and phases only. */
  ghost predicate SameProgram(s: Service, t: Service) {
    t.live == s.live && t.rooms == s.rooms
  }

  lemma AdvanceUnfolds(s: Service, sid: SessionId, c: nat)
    requires Inv(s) && s.Stands(sid, c, Idle)
    ensures sid in s.live.tracker && sid in s.live.answers && ApplyAdvance(s, sid, c).Done?
    ensures var t, qid := ApplyAdvance(s, sid, c).value, s.live.Inc(sid).Current(sid);
            && t.live == s.live.Inc(sid) && t.live.answers == s.live.answers && t.rooms == s.rooms && t.boards == s.boards
            && t.TraceOf(sid).batches == s.TraceOf(sid).batches && t.TraceOf(sid).sent == s.TraceOf(sid).sent
            && t.Stands(sid, c, if qid > 0 then Advanced(qid) else Idle)
  {
    assert PartOk(PartOf(s, sid));
    hide Inv, GameOk, State.Inc, ApplyAdvance;
    var g := PartOf(s, sid).Play();
    GameAdvances(g, c);
    AdvanceMoves(s, sid, c);
    IncMoves(s.live, sid);
  }

  lemma EmptyScore(t: Service, sid: SessionId, c: nat, qid: int)
    requires t.Stands(sid, c, Advanced(qid)) && sid in t.live.tracker && t.live.Current(sid) == qid > 0
    requires InBounds(t.Slices(sid), qid - 1) && Column(t.Slices(sid), qid - 1) == map[]
    ensures ApplyScore(t, sid, c).Done?
    ensures var u := ApplyScore(t, sid, c).value;
            && SameProgram(t, u) && u.boards == t.boards && u.Stands(sid, c, Idle)
            && u.TraceOf(sid).batches == t.TraceOf(sid).batches + [Batch(qid - 1, map[])]
            && u.TraceOf(sid).sent == t.TraceOf(sid).sent + [Sent(qid - 1, map[])]
  {
    hide InBounds, Column;
  }

  lemma FullScore(t: Service, sid: SessionId, c: nat, qid: int)
    requires t.Stands(sid, c, Advanced(qid)) && sid in t.live.tracker && t.live.Current(sid) == qid > 0
    requires InBounds(t.Slices(sid), qid - 1) && Column(t.Slices(sid), qid - 1) != map[]
    ensures ApplyScore(t, sid, c).Done?
    ensures var u, entries := ApplyScore(t, sid, c).value, Column(t.Slices(sid), qid - 1);
            && SameProgram(t, u) && u.Stands(sid, c, Scored(qid, entries))
            && u.boards == t.boards[sid := AddPoints(t.Board(sid), PointsOf(entries))]
            && u.TraceOf(sid).batches == t.TraceOf(sid).batches + [Batch(qid - 1, entries)]
            && u.TraceOf(sid).sent == t.TraceOf(sid).sent
  {
    hide PointsOf, AddPoints, InBounds, Column;
  }

  lemma ScoreFinds(t: Service, sid: SessionId, c: nat, qid: int)
    requires Inv(t) && t.Stands(sid, c, Advanced(qid)) && t.live.Current(sid) == qid
    ensures sid in t.live.tracker && sid in t.live.answers && qid > 0 && InBounds(t.Slices(sid), qid - 1)
  {
    assert PartOk(PartOf(t, sid));
    hide Inv, GameOk, InBounds;
    GameScores(PartOf(t, sid).Play(), c);
  }

  lemma AnnounceUnfolds(u: Service, sid: SessionId, c: nat, qid: int, entries: Entries)
    requires u.Stands(sid, c, Scored(qid, entries)) && InBounds(u.Slices(sid), qid - 1)
    ensures ApplyAnnounce(u, sid, c).Done?
    ensures var v := ApplyAnnounce(u, sid, c).value;
            && SameProgram(u, v) && v.boards == u.boards && v.TraceOf(sid).batches == u.TraceOf(sid).batches
            && v.TraceOf(sid).sent == u.TraceOf(sid).sent + [Sent(qid - 1, FlagsFor(Column(u.Slices(sid), qid - 1), Room(u, sid)))]
  {
    hide InBounds, Column;
  }

  lemma IdleSkips(t: Service, sid: SessionId, c: nat)
    requires t.Stands(sid, c, Idle)
    ensures ApplyScore(t, sid, c) == Done(t) && ApplyAnnounce(t, sid, c) == Done(t)
  {
  }

  lemma UnscoredTurn(s: Service, sid: SessionId, c: nat)
    requires Inv(s) && s.Stands(sid, c, Idle)
    requires s.live.Inc(sid).Current(sid) <= 0
    ensures var s' := AfterTurn(s, sid, c);
            && s'.live == s.live.Inc(sid) && s'.boards == s.boards
            && s'.TraceOf(sid).batches == s.TraceOf(sid).batches && s'.TraceOf(sid).sent == s.TraceOf(sid).sent
  {
    hide *;
    AdvanceUnfolds(s, sid, c);
    IdleSkips(ApplyAdvance(s, sid, c).value, sid, c);
    TurnIsLast(s, sid, c);
  }

  lemma TurnIsLast(s: Service, sid: SessionId, c: nat)
    requires Inv(s)
    ensures ApplyAdvance(s, sid, c).Done? && Inv(ApplyAdvance(s, sid, c).value)
    ensures ApplyScore(ApplyAdvance(s, sid, c).value, sid, c).Done?
    ensures Done(AfterTurn(s, sid, c)) == ApplyAnnounce(ApplyScore(ApplyAdvance(s, sid, c).value, sid, c).value, sid, c)
  {
    TurnCompletes(s, sid, c);
  }

  lemma ScoredTurn(s: Service, sid: SessionId, c: nat)
    requires Inv(s) && s.Stands(sid, c, Idle)
    requires s.live.Inc(sid).Current(sid) > 0
    ensures sid in s.live.answers && s.live.Inc(sid).answers == s.live.answers
    ensures InBounds(s.Slices(sid), s.live.Inc(sid).Current(sid) - 1)
    ensures AfterTurn(s, sid, c).live == s.live.Inc(sid)
    ensures var s', entries := AfterTurn(s, sid, c), Column(s.Slices(sid), s.live.Inc(sid).Current(sid) - 1);
            && s'.TraceOf(sid).batches == s.TraceOf(sid).batches + [Batch(s.live.Inc(sid).Current(sid) - 1, entries)]
            && s'.boards == (if entries == map[] then s.boards
                             else s.boards[sid := AddPoints(s.Board(sid), PointsOf(entries))])
            && s'.TraceOf(sid).sent ==
               s.TraceOf(sid).sent + [Sent(s.live.Inc(sid).Current(sid) - 1, if entries == map[] then map[] else FlagsFor(entries, Room(s, sid)))]
  {
    hide Inv, PointsOf, AddPoints, State.Inc, ApplyAdvance, ApplyScore, ApplyAnnounce, Turn, AfterTurn, FlagsFor, Column, InBounds;
    TurnIsLast(s, sid, c);
    AdvanceUnfolds(s, sid, c);
    var t, qid := ApplyAdvance(s, sid, c).value, s.live.Inc(sid).Current(sid);
    ScoreFinds(t, sid, c, qid);
    var u, entries := ApplyScore(t, sid, c).value, Column(t.Slices(sid), qid - 1);
    if entries == map[] {
      EmptyScore(t, sid, c, qid);
      IdleSkips(u, sid, c);
    } else {
      FullScore(t, sid, c, qid);
      AnnounceUnfolds(u, sid, c, qid, entries);
    }
  }

  /** The batch the leaderboard is asked about; Go visits the map in any order. */
  method CollectAnswers(slices: map<UserId, seq<UserAnswer>>, order: seq<UserId>, qid: int) returns (batch: seq<Answer>)
    requires InBounds(slices, qid) && IsListing(order, Column(slices, qid))
    ensures Lists(batch, order, Column(slices, qid))
  {
    batch := [];
    for i := 0 to |order|
      invariant |batch| == i
      invariant forall j :: 0 <= j < i ==> batch[j] == ToAnswer(order[j], Column(slices, qid)[order[j]])
    {
      assert order[i] in Column(slices, qid);
      batch := batch + [ToAnswer(order[i], slices[order[i]][qid])];
    }
  }

  /** SendQuestionStat: each connected participant gets the flag of one answer. */
  method SendQuestionStat(room: map<UserId, Role>, receivers: seq<UserId>, answers: Entries) returns (flags: map<UserId, bool>)
    requires forall u :: u in receivers <==> u in room
    ensures flags == FlagsFor(answers, room)
  {
    flags := map[];
    for i := 0 to |receivers|
      invariant flags == map u | u in receivers[..i] && room[u].Participant? :: Get(answers, u, NO_ANSWER).correct
    {
      var u := receivers[i];
      if room[u].Admin? {
        continue;
      }
      flags := flags[u := Get(answers, u, NO_ANSWER).correct];
    }
    assert receivers[..|receivers|] == receivers;
  }

  /** The scoring half of a turn. The histogram counts the answers to the previous
      question but offers the options of the current one. */
  method ScorePrevious(t: QuizTracker, lb: LB.Service, sid: SessionId, qid: int, current: Question,
                       room: map<UserId, Role>, order: seq<UserId>, receivers: seq<UserId>, reply: seq<LB.UserScore>)
    returns (flags: map<UserId, bool>, popular: map<string, int>)
    requires sid in t.answers && InBounds(t.answers[sid], qid - 1) && IsListing(order, Column(t.answers[sid], qid - 1))
    requires forall u :: u in receivers <==> u in room
    requires LB.ListsTotals(reply, AddPoints(lb.Board(sid), PointsOf(Column(t.answers[sid], qid - 1))))
    modifies lb
    ensures var entries := Column(t.answers[sid], qid - 1);
            if entries == map[] then lb.boards == old(lb.boards) && flags == map[]
            else lb.boards == old(lb.boards)[sid := AddPoints(old(lb.Board(sid)), PointsOf(entries))]
                 && flags == FlagsFor(entries, room)
                 && LB.IsHistogram(popular, |current.options|, entries)
  {
    hide PointsOf, AddPoints, ToAnswer, LB.ListsTotals, LB.Descending, LB.IsHistogram, LB.CountOf, LB.Chosen, LB.Offered;
    var slices := t.answers[sid];
    ghost var entries := Column(slices, qid - 1);
    flags, popular := map[], map[];
    var batch := CollectAnswers(slices, order, qid - 1);
    assert batch == [] <==> entries == map[] by {
      assert batch != [] ==> order[0] in entries;
      assert forall u :: u in entries ==> u in order;
    }
    var board := lb.ComputeLeaderBoard(sid, batch, order, entries, reply);
    if board.Done? {
      popular := LB.PopularAns(|current.options|, batch);
      LB.HistogramOfEntries(popular, |current.options|, batch, order, entries);
      flags := SendQuestionStat(room, receivers, Column(slices, qid - 1));
    }
  }

  /** Visiting every participant of a map once, in some order. */
  ghost predicate Visits(order: seq<UserId>, slices: map<UserId, seq<UserAnswer>>) {
    && (forall i, j :: 0 <= i < j < |order| ==> order[i] != order[j])
    && (forall u :: u in order <==> u in slices)
  }

  lemma VisitsListColumn(order: seq<UserId>, slices: map<UserId, seq<UserAnswer>>, q: int)
    requires InBounds(slices, q) && Visits(order, slices)
    ensures IsListing(order, Column(slices, q))
  {
  }

  /** What the listings of one turn are: of the answers and of the room in the
      order Go's maps give, and the reply of the leaderboard's sorted set. */
  ghost predicate Answered(live: State, boards: map<SessionId, Totals>, sid: SessionId, order: seq<UserId>, reply: seq<LB.UserScore>)
    requires live.WellFormed() && sid in live.tracker
  {
    var qid := live.Inc(sid).Current(sid);
    && Visits(order, live.answers[sid])
    && (qid > 0 && InBounds(live.answers[sid], qid - 1) ==>
          LB.ListsTotals(reply, AddPoints(Get(boards, sid, map[]), PointsOf(Column(live.answers[sid], qid - 1)))))
  }

  lemma ReadyToScore(s: State, boards: map<SessionId, Totals>, sid: SessionId, order: seq<UserId>, reply: seq<LB.UserScore>)
    requires s.WellFormed() && sid in s.tracker && Answered(s, boards, sid, order, reply)
    ensures s.Inc(sid).tracker.Keys == s.tracker.Keys && s.Inc(sid).answers == s.answers && sid in s.answers
    ensures s.Inc(sid).Len(sid) == s.Len(sid) && s.Inc(sid).Current(sid) != s.Len(sid)
    ensures var qid := s.Inc(sid).Current(sid);
            qid > 0 ==>
              && qid < |s.Inc(sid).tracker[sid].quizData.questions|
              && InBounds(s.answers[sid], qid - 1)
              && IsListing(order, Column(s.answers[sid], qid - 1))
              && LB.ListsTotals(reply, AddPoints(Get(boards, sid, map[]), PointsOf(Column(s.answers[sid], qid - 1))))
  {
    hide PointsOf, AddPoints, LB.ListsTotals, State.Inc;
    IncMoves(s, sid);
    if s.Inc(sid).Current(sid) > 0 {
      VisitsListColumn(order, s.answers[sid], s.Inc(sid).Current(sid) - 1);
    }
  }

  /** One turn of the loop. */
  method OnQuestionStart(t: QuizTracker, lb: LB.Service, sid: SessionId, room: map<UserId, Role>,
                         order: seq<UserId>, receivers: seq<UserId>, reply: seq<LB.UserScore>)
    returns (ended: bool, scored: bool, flags: map<UserId, bool>, popular: map<string, int>)
    requires t.View().WellFormed() && sid in t.tracker && Answered(t.View(), lb.boards, sid, order, reply)
    requires forall u :: u in receivers <==> u in room
    modifies t, t.cache, lb
    ensures t.View() == old(t.View()).Inc(sid) && t.answers == old(t.answers)
    ensures !ended
    ensures scored == (t.View().Current(sid) > 0)
    ensures !scored ==> lb.boards == old(lb.boards) && flags == map[]
    ensures scored ==>
              var qid := t.View().Current(sid);
              && sid in t.answers && InBounds(t.answers[sid], qid - 1)
              && sid in t.tracker && qid == t.tracker[sid].currQuestionIdx < |t.tracker[sid].quizData.questions|
              && var entries := Column(t.answers[sid], qid - 1);
                 if entries == map[] then lb.boards == old(lb.boards) && flags == map[]
                 else lb.boards == old(lb.boards)[sid := AddPoints(old(lb.Board(sid)), PointsOf(entries))]
                      && flags == FlagsFor(entries, room)
                      && LB.IsHistogram(popular, |t.tracker[sid].quizData.questions[qid].options|, entries)
  {
    hide Answered, PointsOf, AddPoints, FlagsFor, Column, InBounds, LB.ListsTotals, LB.IsHistogram, IsListing, Visits, State.Inc, State.WellFormed;
    flags, popular := map[], map[];
    ReadyToScore(t.View(), lb.boards, sid, order, reply);
    var _ := t.IncQuestionIdx(sid);
    var qid, question := t.GetCurrentQuestion(sid);
    ended := qid == t.tracker[sid].quizData.Len();
    scored := !ended && qid > 0;
    if scored {
      flags, popular := ScorePrevious(t, lb, sid, qid, question.value, room, order, receivers, reply);
    }
  }

  lemma InvIsWellFormed(s: Service)
    requires Inv(s)
    ensures s.live.WellFormed()
    ensures forall sid :: s.Consumers(sid) != [] ==> sid in s.live.tracker
  {
    forall sid
      ensures sid in s.live.tracker <==> sid in s.live.answers
      ensures sid in s.live.tracker ==> IndexInRange(s.live.tracker[sid]) && SlicesFit(s.live.answers[sid], s.live.Len(sid))
      ensures s.Consumers(sid) != [] ==> sid in s.live.tracker
    {
      assert PartOk(PartOf(s, sid));
      if sid in s.live.tracker {
        GameBounds(PartOf(s, sid).Play());
      }
    }
  }

  /** The loop against the events: from a state s that the tracker, the boards and
      the room stand in, a turn of an idle consumer leads where the three events of
      that consumer lead, and sends the flags they log. */
  method TakeTurn(ghost s: Service, ghost c: nat, t: QuizTracker, lb: LB.Service, sid: SessionId,
                  order: seq<UserId>, receivers: seq<UserId>, room: map<UserId, Role>, reply: seq<LB.UserScore>)
    returns (scored: bool, flags: map<UserId, bool>, popular: map<string, int>)
    requires Inv(s) && s.Stands(sid, c, Idle)
    requires t.View() == s.live && lb.boards == s.boards && room == Room(s, sid)
    requires s.live.WellFormed() && sid in s.live.tracker && Answered(s.live, s.boards, sid, order, reply)
    requires forall u :: u in receivers <==> u in room
    modifies t, t.cache, lb
    ensures t.View() == AfterTurn(s, sid, c).live && lb.boards == AfterTurn(s, sid, c).boards
    ensures AfterTurn(s, sid, c).TraceOf(sid).sent == s.TraceOf(sid).sent + if scored then [Sent(t.View().Current(sid) - 1, flags)] else []
    ensures scored <==> |AfterTurn(s, sid, c).TraceOf(sid).batches| == |s.TraceOf(sid).batches| + 1
  {
    hide Answered, Inv, AfterTurn, PointsOf, AddPoints, FlagsFor, Column, InBounds, LB.IsHistogram, State.Inc, State.WellFormed;
    var ended;
    ended, scored, flags, popular := OnQuestionStart(t, lb, sid, room, order, receivers, reply);
    if scored {
      ScoredTurn(s, sid, c);
    } else {
      UnscoredTurn(s, sid, c);
    }
  }
}
