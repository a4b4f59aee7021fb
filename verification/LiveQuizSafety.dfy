/** What every interleaving keeps: the index arithmetic, frozen answer slots,
    graded indices, the log of scored batches and the stored totals. */
module LiveQuizSafety {
  import opened Quizzes
  import opened Tracker
  import opened Scoring
  import opened LiveQuiz

  /** The question index after k question events of a quiz with len questions. */
  function IndexAfter(k: nat, len: nat): int {
    if k < len then k - 1 else len - 1
  }

  /** How many of the first k events ask for the leaderboard. */
  function ScoringsAfter(k: nat, len: nat): nat {
    if len < 2 || k == 0 then 0 else k - 1
  }

  ghost function Tally(batches: seq<Batch>): Totals {
    if batches == [] then map[]
    else AddPoints(Tally(batches[..|batches| - 1]), PointsOf(batches[|batches| - 1].entries))
  }

  // ---- the invariant of one tracked session, in every run ----

  datatype Game = Game(
    quiz: Quiz,
    idx: int,
    slices: Slices,
    trace: Trace,
    consumers: seq<Consumer>,
    board: Totals)

  /** The slots of a scored question hold what was scored, and hold nothing for
      participants who were not in the batch. */
  ghost predicate Frozen(slices: Slices, b: Batch) {
    && b.entries.Keys <= slices.Keys
    && InBounds(slices, b.question)
    && forall u :: u in slices ==> slices[u][b.question] == Get(b.entries, u, NO_ANSWER)
  }

  ghost predicate BatchesOk(slices: Slices, idx: int, batches: seq<Batch>) {
    forall b :: b in batches ==> 0 <= b.question < idx && Frozen(slices, b)
  }

  /** A recorded slot was graded against the index its goroutine had read. */
  ghost predicate SlotOk(quiz: Quiz, advances: nat, slot: int, a: UserAnswer, st: Stamp) {
    && a.answered
    && a.correct == (a.option == quiz.Key(st.graded))
    && st.readAt <= st.recordedAt <= advances
    && st.graded == IndexAfter(st.readAt, quiz.Len())
    && slot == IndexAfter(st.recordedAt, quiz.Len())
  }

  ghost predicate GradesOk(quiz: Quiz, slices: Slices, advances: nat, grades: map<(UserId, int), Stamp>) {
    && (forall u, q :: (u, q) in grades ==>
                         && u in slices && 0 <= q < |slices[u]|
                         && SlotOk(quiz, advances, q, slices[u][q], grades[(u, q)]))
    && (forall u, q :: u in slices && 0 <= q < |slices[u]| && (u, q) !in grades ==> slices[u][q] == NO_ANSWER)
  }

  /** A consumer inside a turn is at a question the index has reached. */
  ghost predicate ConsumersOk(consumers: seq<Consumer>, idx: int) {
    forall c :: InTurn(consumers, c) ==> 0 < consumers[c].phase.qid <= idx
  }

  ghost predicate GameOk(g: Game) {
    && g.idx == IndexAfter(g.trace.advances, g.quiz.Len())
    && SlicesFit(g.slices, g.quiz.Len())
    && BatchesOk(g.slices, g.idx, g.trace.batches)
    && GradesOk(g.quiz, g.slices, g.trace.advances, g.trace.grades)
    && ConsumersOk(g.consumers, g.idx)
    && g.board == Tally(g.trace.batches)
    && g.trace.gameEnds == 0
  }

  // ---- what never changes back ----

  ghost predicate SameBelow(a: seq<UserAnswer>, b: seq<UserAnswer>, n: int) {
    |a| == |b| && forall q :: 0 <= q < n && q < |a| ==> a[q] == b[q]
  }

  /** The index does not fall, slots below it and scored batches stay, and nobody
      leaves the answers map. */
  ghost predicate GameContinues(g: Game, h: Game) {
    && h.quiz == g.quiz
    && g.idx <= h.idx
    && g.trace.advances <= h.trace.advances
    && g.trace.batches <= h.trace.batches
    && g.trace.sent <= h.trace.sent
    && g.slices.Keys <= h.slices.Keys
    && forall u :: u in g.slices ==> SameBelow(g.slices[u], h.slices[u], g.idx)
  }

  lemma GameContinuesTransitive(g: Game, h: Game, k: Game)
    requires GameContinues(g, h) && GameContinues(h, k)
    ensures GameContinues(g, k)
  {
    forall u | u in g.slices ensures SameBelow(g.slices[u], k.slices[u], g.idx) {
      assert SameBelow(g.slices[u], h.slices[u], g.idx);
      assert SameBelow(h.slices[u], k.slices[u], h.idx);
    }
  }

  // ---- the same, step by step, on one game ----

  lemma GameBounds(g: Game)
    requires GameOk(g)
    ensures g.idx == IndexAfter(g.trace.advances, g.quiz.Len())
    ensures SlicesFit(g.slices, g.quiz.Len())
    ensures forall c :: InTurn(g.consumers, c) ==> 0 < g.consumers[c].phase.qid <= g.idx
  {
  }

  lemma GameStays(g: Game, consumers: seq<Consumer>)
    requires GameOk(g) && ConsumersOk(consumers, g.idx)
    ensures GameOk(g.(consumers := consumers)) && GameContinues(g, g.(consumers := consumers))
  {
    hide BatchesOk, GradesOk, Tally, ConsumersOk;
  }

  lemma FreshGame(quiz: Quiz, consumers: seq<Consumer>)
    requires forall c :: !InTurn(consumers, c)
    ensures GameOk(Game(quiz, -1, map[], NO_TRACE, consumers, map[]))
  {
  }

  lemma BlankSlotsKeepBatches(slices: Slices, idx: int, len: nat, batches: seq<Batch>, uid: UserId)
    requires BatchesOk(slices, idx, batches) && uid !in slices && idx <= len
    ensures BatchesOk(slices[uid := Blank(len)], idx, batches)
  {
    forall b | b in batches ensures 0 <= b.question < idx && Frozen(slices[uid := Blank(len)], b) {
      assert Frozen(slices, b);
    }
  }

  lemma GameJoins(g: Game, uid: UserId)
    requires GameOk(g) && uid !in g.slices
    ensures GameOk(g.(slices := g.slices[uid := Blank(g.quiz.Len())]))
    ensures GameContinues(g, g.(slices := g.slices[uid := Blank(g.quiz.Len())]))
  {
    hide BatchesOk, Tally, SlotOk, ConsumersOk;
    BlankSlotsKeepBatches(g.slices, g.idx, g.quiz.Len(), g.trace.batches, uid);
  }

  /** Writing the current slot leaves every scored question alone. */
  lemma CurrentSlotKeepsBatches(slices: Slices, idx: int, len: nat, batches: seq<Batch>,
                                uid: UserId, slice: seq<UserAnswer>, answer: UserAnswer)
    requires BatchesOk(slices, idx, batches) && SlicesFit(slices, len)
    requires slice == Get(slices, uid, Blank(len)) && 0 <= idx < len
    ensures BatchesOk(slices[uid := slice[idx := answer]], idx, batches)
  {
    var slices' := slices[uid := slice[idx := answer]];
    forall b | b in batches ensures 0 <= b.question < idx && Frozen(slices', b) {
      assert Frozen(slices, b);
    }
  }

  lemma CurrentSlotKeepsGrades(quiz: Quiz, slices: Slices, advances: nat, grades: map<(UserId, int), Stamp>,
                               uid: UserId, idx: int, slice: seq<UserAnswer>, answer: UserAnswer, stamp: Stamp)
    requires GradesOk(quiz, slices, advances, grades) && slice == Get(slices, uid, Blank(quiz.Len())) && 0 <= idx < |slice|
    requires SlotOk(quiz, advances, idx, answer, stamp)
    ensures GradesOk(quiz, slices[uid := slice[idx := answer]], advances, grades[(uid, idx) := stamp])
  {
    hide SlotOk;
  }

  lemma GameRecords(g: Game, uid: UserId, slice: seq<UserAnswer>, answer: UserAnswer, stamp: Stamp)
    requires GameOk(g) && 0 <= g.idx
    requires slice == Get(g.slices, uid, Blank(g.quiz.Len()))
    requires SlotOk(g.quiz, g.trace.advances, g.idx, answer, stamp)
    ensures GameOk(g.(slices := g.slices[uid := slice[g.idx := answer]],
                      trace := g.trace.(grades := g.trace.grades[(uid, g.idx) := stamp])))
    ensures GameContinues(g, g.(slices := g.slices[uid := slice[g.idx := answer]],
                      trace := g.trace.(grades := g.trace.grades[(uid, g.idx) := stamp])))
  {
    hide BatchesOk, Tally, SlotOk, GradesOk, ConsumersOk;
    CurrentSlotKeepsBatches(g.slices, g.idx, g.quiz.Len(), g.trace.batches, uid, slice, answer);
    CurrentSlotKeepsGrades(g.quiz, g.slices, g.trace.advances, g.trace.grades, uid, g.idx, slice, answer, stamp);
  }

  ghost function At(consumers: seq<Consumer>, c: nat, phase: Phase): seq<Consumer>
    requires c < |consumers|
  {
    consumers[c := consumers[c].(phase := phase)]
  }

  ghost function NextIndex(g: Game): int {
    if g.idx + 1 < g.quiz.Len() then g.idx + 1 else g.idx
  }

  ghost function AfterAdvance(g: Game, c: nat): Game
    requires c < |g.consumers|
  {
    var idx' := NextIndex(g);
    g.(idx := idx',
       trace := g.trace.(advances := g.trace.advances + 1),
       consumers := At(g.consumers, c, if idx' > 0 then Advanced(idx') else Idle))
  }

  /** The branch that ends the quiz is never taken. */
  lemma GameAdvances(g: Game, c: nat)
    requires GameOk(g) && c < |g.consumers|
    ensures NextIndex(g) != g.quiz.Len()
    ensures GameOk(AfterAdvance(g, c)) && GameContinues(g, AfterAdvance(g, c))
  {
    hide Frozen, Tally;
    var h := AfterAdvance(g, c);
    forall d | InTurn(h.consumers, d) ensures 0 < h.consumers[d].phase.qid <= h.idx {
      assert d != c ==> InTurn(g.consumers, d);
    }
  }

  lemma OneMoreBatch(slices: Slices, idx: int, batches: seq<Batch>, b: Batch)
    requires BatchesOk(slices, idx, batches) && 0 <= b.question < idx && Frozen(slices, b)
    ensures BatchesOk(slices, idx, batches + [b])
    ensures Tally(batches + [b]) == AddPoints(Tally(batches), PointsOf(b.entries))
  {
    hide Frozen;
    assert (batches + [b])[..|batches|] == batches;
  }

  ghost function AfterScore(g: Game, c: nat): Game
    requires c < |g.consumers| && g.consumers[c].phase.Advanced? && InBounds(g.slices, g.idx - 1)
  {
    var entries := Column(g.slices, g.idx - 1);
    var trace' := g.trace.(batches := g.trace.batches + [Batch(g.idx - 1, entries)]);
    if entries == map[]
    then g.(trace := trace'.(sent := g.trace.sent + [Sent(g.idx - 1, map[])]), consumers := At(g.consumers, c, Idle))
    else g.(trace := trace', board := AddPoints(g.board, PointsOf(entries)),
            consumers := At(g.consumers, c, Scored(g.consumers[c].phase.qid, entries)))
  }

  lemma GameScores(g: Game, c: nat)
    requires GameOk(g) && c < |g.consumers| && g.consumers[c].phase.Advanced?
    ensures g.idx > 0 && InBounds(g.slices, g.idx - 1)
    ensures GameOk(AfterScore(g, c)) && GameContinues(g, AfterScore(g, c))
  {
    hide BatchesOk, Tally, GradesOk, PointsOf;
    assert InTurn(g.consumers, c);
    var entries := Column(g.slices, g.idx - 1);
    var b := Batch(g.idx - 1, entries);
    assert Frozen(g.slices, b);
    OneMoreBatch(g.slices, g.idx, g.trace.batches, b);
    if entries == map[] {
      EmptyBatchAddsNothing(g.board);
    }
    StepKeepsConsumers(g.consumers, g.idx, c, AfterScore(g, c).consumers[c].phase);
  }

  lemma StepKeepsConsumers(consumers: seq<Consumer>, idx: int, c: nat, phase: Phase)
    requires ConsumersOk(consumers, idx) && InTurn(consumers, c)
    requires phase.Scored? ==> phase.qid == consumers[c].phase.qid
    requires !phase.Advanced?
    ensures ConsumersOk(At(consumers, c, phase), idx)
  {
    forall d | InTurn(At(consumers, c, phase), d) ensures 0 < At(consumers, c, phase)[d].phase.qid <= idx {
      assert InTurn(consumers, d);
    }
  }

  lemma EmptyBatchAddsNothing(board: Totals)
    ensures AddPoints(board, PointsOf(map[])) == board
  {
    assert PointsOf(map[]) == map[];
  }

  ghost function AfterAnnounce(g: Game, c: nat, sent: Sent): Game
    requires c < |g.consumers|
  {
    g.(trace := g.trace.(sent := g.trace.sent + [sent]), consumers := At(g.consumers, c, Idle))
  }

  lemma GameAnnounces(g: Game, c: nat, sent: Sent)
    requires GameOk(g) && c < |g.consumers| && g.consumers[c].phase.Scored?
    ensures InBounds(g.slices, g.consumers[c].phase.qid - 1)
    ensures GameOk(AfterAnnounce(g, c, sent)) && GameContinues(g, AfterAnnounce(g, c, sent))
  {
    hide BatchesOk, GradesOk, Tally;
    assert InTurn(g.consumers, c);
    StepKeepsConsumers(g.consumers, g.idx, c, Idle);
  }
}
