/** Which questions are scored how often: in every run the log of a session has
    as many batches as it should, and it has the right ones exactly if the index
    never moved on while a scoring was pending. */
module LiveQuizOrder {
  import opened Quizzes
  import opened Tracker
  import opened Scoring
  import opened LiveQuiz
  import opened LiveQuizSafety
  import opened LiveQuizRuns

  // ---- pending scorings ----

  function Pendings(consumers: seq<Consumer>): nat {
    if consumers == [] then 0
    else Pendings(consumers[..|consumers| - 1]) + if consumers[|consumers| - 1].phase.Advanced? then 1 else 0
  }

  lemma {:induction false} PendingsAt(consumers: seq<Consumer>, c: nat, x: Consumer)
    requires c < |consumers|
    ensures Pendings(consumers[c := x]) + (if consumers[c].phase.Advanced? then 1 else 0) ==
            Pendings(consumers) + if x.phase.Advanced? then 1 else 0
    decreases |consumers|
  {
    var n := |consumers| - 1;
    if c < n {
      PendingsAt(consumers[..n], c, x);
      assert consumers[c := x][..n] == consumers[..n][c := x];
    } else {
      assert consumers[c := x][..n] == consumers[..n];
    }
  }

  lemma {:induction false} NonePending(consumers: seq<Consumer>)
    ensures Pendings(consumers) == 0 <==> forall c :: !Pending(consumers, c)
    decreases |consumers|
  {
    if consumers != [] {
      var n := |consumers| - 1;
      NonePending(consumers[..n]);
      assert Pending(consumers, n) <==> consumers[n].phase.Advanced?;
      forall c ensures Pending(consumers, c) <==> Pending(consumers[..n], c) || (c == n && consumers[n].phase.Advanced?) {
      }
    }
  }

  // ---- counting batches ----

  function TimesScored(batches: seq<Batch>, question: int): nat {
    if batches == [] then 0
    else TimesScored(batches[..|batches| - 1], question) + if batches[|batches| - 1].question == question then 1 else 0
  }

  /** How many batches are for question or an earlier one. */
  function UpTo(batches: seq<Batch>, question: int): nat {
    if batches == [] then 0
    else UpTo(batches[..|batches| - 1], question) + if batches[|batches| - 1].question <= question then 1 else 0
  }

  lemma {:induction false} UpToSteps(batches: seq<Batch>, question: int)
    ensures UpTo(batches, question) == UpTo(batches, question - 1) + TimesScored(batches, question)
    decreases |batches|
  {
    if batches != [] {
      UpToSteps(batches[..|batches| - 1], question);
    }
  }

  lemma {:induction false} UpToBounds(batches: seq<Batch>, idx: int)
    requires forall b :: b in batches ==> 0 <= b.question < idx
    ensures UpTo(batches, -1) == 0 && UpTo(batches, idx - 1) == |batches|
    ensures forall question :: question < 0 || question >= idx ==> TimesScored(batches, question) == 0
    decreases |batches|
  {
    if batches != [] {
      var n := |batches| - 1;
      assert forall b :: b in batches[..n] ==> b in batches;
      assert batches[n] in batches;
      UpToBounds(batches[..n], idx);
    }
  }

  /** What is promised after k question events of a quiz with len questions. */
  function Expected(k: nat, len: nat, question: int): nat {
    if k <= len then (if 0 <= question <= k - 2 then 1 else 0)
    else if 0 <= question < len - 2 then 1
    else if question == len - 2 >= 0 then k - len + 1
    else 0
  }

  /** The i-th batch is for the question before the one of event i + 2. */
  ghost predicate Numbered(batches: seq<Batch>, advances: nat, len: nat) {
    forall i :: 0 <= i < |batches| ==> i + 2 <= advances && 2 <= len && batches[i].question == IndexAfter(i + 2, len) - 1
  }

  lemma {:induction false} CountScorings(batches: seq<Batch>, len: nat, question: int)
    requires 2 <= len
    requires forall i :: 0 <= i < |batches| ==> batches[i].question == IndexAfter(i + 2, len) - 1
    ensures TimesScored(batches, question) ==
              if 0 <= question < len - 2 then (if question < |batches| then 1 else 0)
              else if question == len - 2 then (if |batches| > len - 2 then |batches| - (len - 2) else 0)
              else 0
    decreases |batches|
  {
    if batches != [] {
      CountScorings(batches[..|batches| - 1], len, question);
    }
  }

  /** Each of the first questions once: then so many batches are for them. */
  lemma {:induction false} OnceEach(batches: seq<Batch>, j: int)
    requires -1 <= j && UpTo(batches, -1) == 0
    requires forall question :: 0 <= question <= j ==> TimesScored(batches, question) == 1
    ensures UpTo(batches, j) == j + 1
    decreases j + 1
  {
    if j >= 0 {
      OnceEach(batches, j - 1);
      UpToSteps(batches, j);
    }
  }

  // ---- the invariant of one tracked session ----

  /** Whether u's answer to a question is right, as the slots stand. */
  predicate Correct(slices: Slices, u: UserId, question: int) {
    u in slices && 0 <= question < |slices[u]| && slices[u][question].correct
  }

  ghost predicate SentOk(slices: Slices, idx: int, sent: seq<Sent>) {
    forall f :: f in sent ==> 0 <= f.question < idx && forall u :: u in f.flags ==> f.flags[u] == Correct(slices, u, f.question)
  }

  /** What holds in every run: no scoring is lost or made up, and flags sent are
      right for good. */
  ghost predicate LogOk(g: Game) {
    && |g.trace.batches| + Pendings(g.consumers) == ScoringsAfter(g.trace.advances, g.quiz.Len())
    && SentOk(g.slices, g.idx, g.trace.sent)
  }

  ghost predicate HasBatch(batches: seq<Batch>, question: int) {
    exists b :: b in batches && b.question == question
  }

  /** What holds as long as the index has never moved on over a pending scoring. */
  ghost predicate OrderOk(g: Game) {
    && Numbered(g.trace.batches, g.trace.advances, g.quiz.Len())
    && |g.trace.batches| >= g.idx - 1
    && (forall c :: Pending(g.consumers, c) ==> g.consumers[c].phase.qid == g.idx)
    && (forall c :: 0 <= c < |g.consumers| && g.consumers[c].phase.Scored? ==> HasBatch(g.trace.batches, g.consumers[c].phase.qid - 1))
    && (forall f :: f in g.trace.sent ==> HasBatch(g.trace.batches, f.question))
  }

  /** Some early question has been skipped, and that stays so. */
  ghost predicate Broken(g: Game) {
    exists j :: 0 <= j < g.idx - 1 && UpTo(g.trace.batches, j) <= j
  }

  /** A step of a session; apart says that it does not move the index on over a
      pending scoring. */
  ghost predicate Keeps(g: Game, h: Game, apart: bool) {
    LogOk(g) ==>
      && LogOk(h)
      && (apart && OrderOk(g) ==> OrderOk(h))
      && (Broken(g) || !apart ==> Broken(h))
  }

  lemma FreshLog(quiz: Quiz, consumers: seq<Consumer>)
    requires consumers == [Consumer(Idle, false)]
    ensures var g := LiveQuizSafety.Game.Game(quiz, -1, map[], NO_TRACE, consumers, map[]); LogOk(g) && OrderOk(g)
  {
    NonePending(consumers);
  }

  /** Consumers that come, are cancelled or stop do not touch the log. */
  lemma ConsumersKeepLog(g: Game, consumers: seq<Consumer>)
    requires Pendings(consumers) == Pendings(g.consumers)
    requires forall c :: InTurn(consumers, c) ==> InTurn(g.consumers, c) && consumers[c].phase == g.consumers[c].phase
    ensures Keeps(g, g.(consumers := consumers), true)
  {
    var h := g.(consumers := consumers);
    forall c | Pending(consumers, c) ensures Pending(g.consumers, c) && consumers[c].phase == g.consumers[c].phase {
      assert InTurn(consumers, c);
    }
    forall c | 0 <= c < |consumers| && consumers[c].phase.Scored?
      ensures c < |g.consumers| && g.consumers[c].phase == consumers[c].phase
    {
      assert InTurn(consumers, c);
    }
    hide Pendings, SentOk, Numbered, HasBatch;
  }

  lemma SlotsKeepLog(g: Game, h: Game)
    requires h == g.(slices := h.slices, trace := g.trace.(grades := h.trace.grades))
    requires forall u, q :: 0 <= q < g.idx ==> (Correct(h.slices, u, q) <==> Correct(g.slices, u, q))
    ensures Keeps(g, h, true)
  {
    hide Pendings, Numbered, HasBatch, Correct;
  }

  lemma JoinKeepsLog(g: Game, uid: UserId)
    requires uid !in g.slices
    ensures Keeps(g, g.(slices := g.slices[uid := Blank(g.quiz.Len())]), true)
  {
    SlotsKeepLog(g, g.(slices := g.slices[uid := Blank(g.quiz.Len())]));
    hide Keeps;
  }

  lemma RecordKeepsLog(g: Game, p: Worker)
    requires p.Graded? && 0 <= g.idx < g.quiz.Len() && SlicesFit(g.slices, g.quiz.Len())
    ensures Keeps(g, Recorded(g, p), true)
  {
    SlotsKeepLog(g, Recorded(g, p));
    hide Keeps;
  }

  // ---- a turn ----

  lemma AdvanceCounts(g: Game, c: nat)
    requires GameOk(g) && c < |g.consumers| && g.consumers[c].phase.Idle? && LogOk(g)
    ensures LogOk(AfterAdvance(g, c))
  {
    GameBounds(g);
    PendingsAt(g.consumers, c, AfterAdvance(g, c).consumers[c]);
    hide GameOk, Pendings, Correct;
  }

  lemma AdvanceKeepsOrder(g: Game, c: nat)
    requires GameOk(g) && c < |g.consumers| && g.consumers[c].phase.Idle? && LogOk(g) && OrderOk(g)
    requires g.idx + 1 < g.quiz.Len() ==> forall d :: !Pending(g.consumers, d)
    ensures OrderOk(AfterAdvance(g, c))
  {
    GameBounds(g);
    NonePending(g.consumers);
    hide GameOk, Pendings, SentOk, HasBatch;
    var h := AfterAdvance(g, c);
    forall d | Pending(h.consumers, d) ensures h.consumers[d].phase.qid == h.idx {
      assert d != c ==> Pending(g.consumers, d);
    }
  }

  lemma AdvanceBreaks(g: Game, c: nat, d: int)
    requires GameOk(g) && c < |g.consumers| && LogOk(g)
    requires g.idx + 1 < g.quiz.Len() && Pending(g.consumers, d)
    ensures Broken(AfterAdvance(g, c))
  {
    GameBounds(g);
    NonePending(g.consumers);
    assert InTurn(g.consumers, d);
    UpToBounds(g.trace.batches, g.idx);
    hide GameOk, Pendings, SentOk, UpTo;
    assert UpTo(AfterAdvance(g, c).trace.batches, g.idx - 1) <= g.idx - 1;
  }

  lemma AdvanceKeepsLog(g: Game, c: nat)
    requires GameOk(g) && c < |g.consumers| && g.consumers[c].phase.Idle?
    ensures Keeps(g, AfterAdvance(g, c), g.idx + 1 < g.quiz.Len() ==> forall d :: !Pending(g.consumers, d))
  {
    if LogOk(g) {
      AdvanceCounts(g, c);
      if g.idx + 1 < g.quiz.Len() && exists d :: Pending(g.consumers, d) {
        var d :| Pending(g.consumers, d);
        AdvanceBreaks(g, c, d);
      } else if OrderOk(g) {
        AdvanceKeepsOrder(g, c);
      }
    }
    hide GameOk, LogOk, OrderOk, UpTo;
  }

  lemma OneMore(batches: seq<Batch>, b: Batch)
    ensures forall question :: UpTo(batches + [b], question) == UpTo(batches, question) + if b.question <= question then 1 else 0
    ensures forall question :: HasBatch(batches, question) ==> HasBatch(batches + [b], question)
    ensures HasBatch(batches + [b], b.question)
  {
    assert (batches + [b])[..|batches|] == batches;
    assert b in batches + [b];
    forall question | HasBatch(batches, question) ensures HasBatch(batches + [b], question) {
      var a :| a in batches && a.question == question;
      assert a in batches + [b];
    }
  }

  lemma ScoreCounts(g: Game, c: nat)
    requires GameOk(g) && c < |g.consumers| && g.consumers[c].phase.Advanced? && InBounds(g.slices, g.idx - 1) && g.idx > 0
    requires LogOk(g)
    ensures LogOk(AfterScore(g, c))
  {
    PendingsAt(g.consumers, c, AfterScore(g, c).consumers[c]);
    hide GameOk, Pendings, Correct, PointsOf, AddPoints, InBounds, Column;
  }

  /** With everything below scored, the next batch is numbered right. */
  lemma NextNumbered(g: Game, c: nat)
    requires GameOk(g) && c < |g.consumers| && g.consumers[c].phase.Advanced? && g.idx > 0
    requires LogOk(g) && OrderOk(g)
    ensures |g.trace.batches| + 2 <= g.trace.advances && 2 <= g.quiz.Len()
    ensures g.idx == IndexAfter(|g.trace.batches| + 2, g.quiz.Len())
  {
    GameBounds(g);
    NonePending(g.consumers);
    assert Pending(g.consumers, c);
    hide GameOk, Pendings, SentOk, Numbered, HasBatch;
  }

  lemma NumberedGrows(batches: seq<Batch>, advances: nat, len: nat, b: Batch)
    requires Numbered(batches, advances, len)
    requires |batches| + 2 <= advances && 2 <= len && b.question == IndexAfter(|batches| + 2, len) - 1
    ensures Numbered(batches + [b], advances, len)
  {
  }

  lemma ScoreKeepsOrder(g: Game, c: nat)
    requires GameOk(g) && c < |g.consumers| && g.consumers[c].phase.Advanced? && InBounds(g.slices, g.idx - 1) && g.idx > 0
    requires LogOk(g) && OrderOk(g)
    ensures OrderOk(AfterScore(g, c))
  {
    hide GameOk, LogOk, PointsOf, AddPoints, InBounds, Column, HasBatch, Numbered, UpTo;
    NextNumbered(g, c);
    var entries := Column(g.slices, g.idx - 1);
    var b, h := Batch(g.idx - 1, entries), AfterScore(g, c);
    OneMore(g.trace.batches, b);
    NumberedGrows(g.trace.batches, g.trace.advances, g.quiz.Len(), b);
    assert Pending(g.consumers, c);
    assert h.trace.batches == g.trace.batches + [b];
    forall d | Pending(h.consumers, d) ensures h.consumers[d].phase.qid == h.idx {
      assert Pending(g.consumers, d);
    }
  }

  lemma ScoreKeepsLog(g: Game, c: nat)
    requires GameOk(g) && c < |g.consumers| && g.consumers[c].phase.Advanced? && InBounds(g.slices, g.idx - 1) && g.idx > 0
    ensures Keeps(g, AfterScore(g, c), true)
  {
    hide GameOk, PointsOf, AddPoints, InBounds, Column;
    if LogOk(g) {
      ScoreCounts(g, c);
      if OrderOk(g) {
        ScoreKeepsOrder(g, c);
      }
      OneMore(g.trace.batches, Batch(g.idx - 1, Column(g.slices, g.idx - 1)));
    }
    hide LogOk, OrderOk, UpTo;
  }

  lemma AnnounceKeepsLog(g: Game, c: nat, sent: Sent)
    requires GameOk(g) && c < |g.consumers| && g.consumers[c].phase.Scored?
    requires sent.question == g.consumers[c].phase.qid - 1
    requires forall u :: u in sent.flags ==> sent.flags[u] == Correct(g.slices, u, sent.question)
    ensures Keeps(g, AfterAnnounce(g, c, sent), true)
  {
    GameBounds(g);
    assert InTurn(g.consumers, c);
    var h := AfterAnnounce(g, c, sent);
    PendingsAt(g.consumers, c, h.consumers[c]);
    forall d | Pending(h.consumers, d) ensures Pending(g.consumers, d) && h.consumers[d] == g.consumers[d] {
    }
    hide GameOk, Pendings, Numbered, HasBatch, Correct;
  }

  // ---- every event, every run ----

  ghost predicate PartKeeps(p: Part, q: Part, apart: bool) {
    q.Tracked() ==> if p.Tracked() then Keeps(p.Play(), q.Play(), apart) else LogOk(q.Play()) && OrderOk(q.Play())
  }

  lemma SelfKeeps(p: Part)
    ensures PartKeeps(p, p, true)
  {
  }

  lemma StartKeepsLog(s: Service)
    requires Inv(s) && s.starting.Registered?
    ensures PartKeeps(PartOf(s, s.starting.sid), PartOf(ApplyStartTrack(s), s.starting.sid), true)
  {
    hide GameOk, Started, ApplyStartTrack, Keeps, LogOk, OrderOk, Elsewhere;
    var p := PartOf(s, s.starting.sid);
    assert PartOk(p);
    StartTrackTouches(s);
    StartedKeepsLog(p, s.starting.quiz);
    hide PartOf, PartOk;
  }

  lemma StartedKeepsLog(p: Part, quiz: Quiz)
    requires PartOk(p)
    ensures if p.Tracked() then Keeps(p.Play(), Started(p, quiz), true) else LogOk(Started(p, quiz)) && OrderOk(Started(p, quiz))
  {
    hide GameOk, Keeps, LogOk, OrderOk;
    if p.Tracked() {
      var consumers := p.consumers + [Consumer(Idle, false)];
      assert consumers[..|p.consumers|] == p.consumers;
      ConsumersKeepLog(p.Play(), consumers);
    } else {
      FreshLog(quiz, [] + [Consumer(Idle, false)]);
      assert p.consumers + [Consumer(Idle, false)] == [] + [Consumer(Idle, false)];
    }
  }

  lemma MovedConsumersKeepLog(s: Service, t: Service, sid: SessionId, c: nat, x: Consumer)
    requires PartOf(t, sid) == PartOf(s, sid).(consumers := t.Consumers(sid))
    requires c < |s.Consumers(sid)| && t.Consumers(sid) == s.Consumers(sid)[c := x]
    requires x.phase == s.Consumers(sid)[c].phase || (x.phase.Stopped? && s.Consumers(sid)[c].phase.Idle?)
    ensures PartKeeps(PartOf(s, sid), PartOf(t, sid), true)
  {
    var p := PartOf(s, sid);
    if p.Tracked() {
      PendingsAt(s.Consumers(sid), c, x);
      ConsumersKeepLog(p.Play(), t.Consumers(sid));
      assert PartOf(t, sid).Play() == p.Play().(consumers := t.Consumers(sid));
    }
    hide Keeps, LogOk, OrderOk;
  }

  lemma LifecycleKeepsLog(s: Service, e: Event, sid: SessionId)
    requires Inv(s) && (e.StartTrack? || e.End? || e.Stop?)
    ensures PartKeeps(PartOf(s, sid), PartOf(Apply(s, e).value, sid), true)
  {
    hide Inv, Keeps, LogOk, OrderOk, PartOf;
    SelfKeeps(PartOf(s, sid));
    match e
    case StartTrack =>
      if s.starting.Registered? {
        assert PartOk(PartOf(s, s.starting.sid)) by { StartingOk(s); }
        StartTrackTouches(s);
        if s.starting.sid == sid {
          StartKeepsLog(s);
        }
      }
    case End(o) =>
      if o in s.tags && s.tags[o] < |s.Consumers(o)| {
        EndTouches(s, o);
        if o == sid {
          MovedConsumersKeepLog(s, ApplyEnd(s, o), o, s.tags[o], s.Consumers(o)[s.tags[o]].(cancelled := true));
        }
      } else {
        SamePart(s, ApplyEnd(s, o), sid);
      }
    case Stop(o, c) =>
      if s.Stands(o, c, Idle) && s.Consumers(o)[c].cancelled {
        StopTouches(s, o, c);
        if o == sid {
          MovedConsumersKeepLog(s, ApplyStop(s, o, c), o, c, s.Consumers(o)[c].(phase := Stopped));
        }
      }
  }

  lemma StartingOk(s: Service)
    requires Inv(s) && s.starting.Registered?
    ensures PartOk(PartOf(s, s.starting.sid))
  {
  }

  lemma SamePart(s: Service, t: Service, sid: SessionId)
    requires t.live == s.live && t.traces == s.traces && t.consumers == s.consumers && t.boards == s.boards
    ensures PartOf(t, sid) == PartOf(s, sid)
  {
  }

  lemma AnsweringKeepsLog(s: Service, e: Event, sid: SessionId)
    requires Inv(s) && (e.JoinTrack? || e.Record?)
    ensures Apply(s, e).Done? ==> PartKeeps(PartOf(s, sid), PartOf(Apply(s, e).value, sid), true)
  {
    SelfKeeps(PartOf(s, sid));
    assert PartOk(PartOf(s, sid));
    if e.JoinTrack? {
      assert PartOk(PartOf(s, e.sid));
      if e.sid in s.live.tracker && e.uid !in s.live.answers[e.sid] {
        JoinTrackTouches(s, e.sid, e.uid);
        if e.sid == sid {
          JoinKeepsLog(PartOf(s, sid).Play(), e.uid);
        }
      }
    } else if e.worker in s.workers && s.workers[e.worker].Graded? {
      var o := s.workers[e.worker].sid;
      assert WorkerFits(s, e.worker);
      assert PartOk(PartOf(s, o));
      GameBounds(PartOf(s, o).Play());
      RecordTouches(s, e.worker);
      if o == sid && Apply(s, e).Done? {
        RecordKeepsLog(PartOf(s, sid).Play(), s.workers[e.worker]);
      }
    }
    hide Inv, GameOk, Keeps, LogOk, OrderOk, ApplyRecord, ApplyJoinTrack;
  }

  lemma AdvanceTurnKeepsLog(s: Service, sid: SessionId, c: nat)
    requires PartOf(s, sid).Tracked() && GameOk(PartOf(s, sid).Play()) && s.Stands(sid, c, Idle)
    ensures ApplyAdvance(s, sid, c).Done? && Elsewhere(s, ApplyAdvance(s, sid, c).value, sid)
    ensures PartKeeps(PartOf(s, sid), PartOf(ApplyAdvance(s, sid, c).value, sid), ScoresFirst(s, Event.Advance(sid, c), sid))
  {
    hide GameOk, Keeps, LogOk, OrderOk;
    var g := PartOf(s, sid).Play();
    GameAdvances(g, c);
    AdvanceTouches(s, sid, c);
    hide ApplyAdvance, AfterAdvance;
    assert s.live.CanInc(sid) <==> g.idx + 1 < g.quiz.Len();
    AdvanceKeepsLog(g, c);
  }

  lemma ScoreTurnKeepsLog(s: Service, sid: SessionId, c: nat)
    requires PartOf(s, sid).Tracked() && GameOk(PartOf(s, sid).Play())
    requires c < |s.Consumers(sid)| && s.Consumers(sid)[c].phase.Advanced?
    ensures ApplyScore(s, sid, c).Done? && Elsewhere(s, ApplyScore(s, sid, c).value, sid)
    ensures PartKeeps(PartOf(s, sid), PartOf(ApplyScore(s, sid, c).value, sid), true)
  {
    hide GameOk, Keeps, LogOk, OrderOk, InBounds, Column, AfterScore, ApplyScore, Elsewhere;
    var g := PartOf(s, sid).Play();
    GameScores(g, c);
    ScoreTouches(s, sid, c);
    ScoreKeepsLog(g, c);
  }

  lemma AnnounceTurnKeepsLog(s: Service, sid: SessionId, c: nat)
    requires PartOf(s, sid).Tracked() && GameOk(PartOf(s, sid).Play())
    requires c < |s.Consumers(sid)| && s.Consumers(sid)[c].phase.Scored?
    ensures ApplyAnnounce(s, sid, c).Done? && Elsewhere(s, ApplyAnnounce(s, sid, c).value, sid)
    ensures PartKeeps(PartOf(s, sid), PartOf(ApplyAnnounce(s, sid, c).value, sid), true)
  {
    hide GameOk, Keeps, LogOk, OrderOk, InBounds, Column, AfterAnnounce, ApplyAnnounce, Elsewhere, FlagsFor, Correct;
    var g, q := PartOf(s, sid).Play(), s.Consumers(sid)[c].phase.qid - 1;
    GameAnnounces(g, c, Sent(q, map[]));
    AnnounceTouches(s, sid, c);
    FlagsAreCorrect(g.slices, q, Get(s.rooms, sid, map[]));
    AnnounceKeepsLog(g, c, Sent(q, FlagsFor(Column(g.slices, q), Get(s.rooms, sid, map[]))));
  }

  /** The consumer stands where the event finds something to do. */
  predicate Enabled(s: Service, e: Event)
    requires e.Advance? || e.Score? || e.Announce?
  {
    && e.consumer < |s.Consumers(e.sid)|
    && var phase := s.Consumers(e.sid)[e.consumer].phase;
       (e.Advance? && phase.Idle?) || (e.Score? && phase.Advanced?) || (e.Announce? && phase.Scored?)
  }

  lemma DisabledSkips(s: Service, e: Event)
    requires (e.Advance? || e.Score? || e.Announce?) && !Enabled(s, e)
    ensures Apply(s, e) == Done(s)
  {
  }

  lemma EnabledIsTracked(s: Service, e: Event)
    requires Inv(s) && (e.Advance? || e.Score? || e.Announce?) && Enabled(s, e)
    ensures PartOf(s, e.sid).Tracked() && GameOk(PartOf(s, e.sid).Play())
  {
    assert PartOk(PartOf(s, e.sid));
    hide GameOk;
  }

  lemma EnabledKeepsLog(s: Service, e: Event, sid: SessionId)
    requires (e.Advance? || e.Score? || e.Announce?) && Enabled(s, e)
    requires PartOf(s, e.sid).Tracked() && GameOk(PartOf(s, e.sid).Play())
    ensures Apply(s, e).Done? && PartKeeps(PartOf(s, sid), PartOf(Apply(s, e).value, sid), ScoresFirst(s, e, sid))
  {
    hide GameOk, PartKeeps, PartOf, ApplyAdvance, ApplyScore, ApplyAnnounce;
    SelfKeeps(PartOf(s, sid));
    match e
    case Advance(o, c) => AdvanceTurnKeepsLog(s, o, c);
    case Score(o, c) => ScoreTurnKeepsLog(s, o, c);
    case Announce(o, c) => AnnounceTurnKeepsLog(s, o, c);
  }

  lemma TurnKeepsLog(s: Service, e: Event, sid: SessionId)
    requires Inv(s) && (e.Advance? || e.Score? || e.Announce?)
    ensures Apply(s, e).Done? && PartKeeps(PartOf(s, sid), PartOf(Apply(s, e).value, sid), ScoresFirst(s, e, sid))
  {
    if Enabled(s, e) {
      EnabledIsTracked(s, e);
      hide *;
      EnabledKeepsLog(s, e, sid);
    } else {
      DisabledSkips(s, e);
      SelfKeeps(PartOf(s, sid));
      hide Apply, PartKeeps, PartOf, Inv;
    }
  }

  lemma FlagsAreCorrect(slices: Slices, question: int, room: map<UserId, Role>)
    requires InBounds(slices, question)
    ensures forall u :: u in FlagsFor(Column(slices, question), room) ==>
                          FlagsFor(Column(slices, question), room)[u] == Correct(slices, u, question)
  {
  }

  /** Every event keeps the log; only one that moves the index on over a pending
      scoring breaks its order, and it always does. */
  lemma EventKeepsLog(s: Service, e: Event, sid: SessionId)
    requires Inv(s) && Apply(s, e).Done?
    ensures PartKeeps(PartOf(s, sid), PartOf(Apply(s, e).value, sid), ScoresFirst(s, e, sid))
  {
    hide Inv, PartKeeps, PartOf, ApplyAdvance, ApplyScore, ApplyAnnounce, ApplyRecord, ApplyStop, ApplyEnd, ApplyStartTrack, ApplyJoinTrack;
    match e
    case StartTrack => LifecycleKeepsLog(s, e, sid);
    case End(_) => LifecycleKeepsLog(s, e, sid);
    case Stop(_, _) => LifecycleKeepsLog(s, e, sid);
    case JoinTrack(_, _) => AnsweringKeepsLog(s, e, sid);
    case Record(_) => AnsweringKeepsLog(s, e, sid);
    case Advance(o, c) => TurnKeepsLog(s, e, sid);
    case Score(o, c) => TurnKeepsLog(s, e, sid);
    case Announce(o, c) => TurnKeepsLog(s, e, sid);
    case _ =>
      hide Apply;
      if e.Submit? || e.ReadIndex? || e.Grade? {
        WorkersKeepPart(s, e, sid);
      } else {
        RegistryKeepsPart(s, e, sid);
      }
      SelfKeeps(PartOf(s, sid));
  }

  /** Registrations, disconnects and the first steps of an answer. */
  lemma RegistryKeepsPart(s: Service, e: Event, sid: SessionId)
    requires e.StartRegister? || e.JoinRegister? || e.JoinConnect? || e.Leave?
    ensures Apply(s, e).Done? && PartOf(Apply(s, e).value, sid) == PartOf(s, sid)
  {
    hide PartOf, ApplyStartTrack, ApplyEnd, ApplyStop, ApplyJoinTrack, ApplyRecord, ApplyAdvance, ApplyScore, ApplyAnnounce;
    SamePart(s, Apply(s, e).value, sid);
  }

  lemma WorkersKeepPart(s: Service, e: Event, sid: SessionId)
    requires e.Submit? || e.ReadIndex? || e.Grade?
    ensures Apply(s, e).Done? && PartOf(Apply(s, e).value, sid) == PartOf(s, sid)
  {
    hide Quiz.Key, PartOf, ApplyStartTrack, ApplyEnd, ApplyStop, ApplyJoinTrack, ApplyRecord, ApplyAdvance, ApplyScore, ApplyAnnounce;
    SamePart(s, Apply(s, e).value, sid);
  }

  /** In every run: the log is kept, and its order is right if the index never
      moved on over a pending scoring, and wrong for good if it did. */
  lemma {:induction false} RunKeepsLog(events: seq<Event>, s: Service, sid: SessionId)
    requires Run(INITIAL, events) == Done(s)
    ensures PartOf(s, sid).Tracked() ==>
              var g := PartOf(s, sid).Play();
              LogOk(g) && if ScoresApart(INITIAL, events, sid) then OrderOk(g) else Broken(g)
    ensures !PartOf(s, sid).Tracked() ==> ScoresApart(INITIAL, events, sid)
    decreases |events|
  {
    hide Apply, LogOk, OrderOk, Broken;
    if events != [] {
      var init, e := events[..|events| - 1], events[|events| - 1];
      var before := Run(INITIAL, init).value;
      RunKeepsLog(init, before, sid);
      EveryRunIsSafe(init);
      EventKeepsLog(before, e, sid);
      EventKeeps(before, e);
      assert Continues(PartOf(before, sid), PartOf(s, sid));
      if !PartOf(before, sid).Tracked() {
        UntrackedRest(before, e, sid);
      }
    }
    hide Inv, Continues;
  }

  lemma UntrackedRest(s: Service, e: Event, sid: SessionId)
    requires Inv(s) && !PartOf(s, sid).Tracked()
    ensures ScoresFirst(s, e, sid)
  {
    assert PartOk(PartOf(s, sid));
  }

  // ---- what keeps the scorings apart ----

  /** A start takes hold only when every earlier consumer of its session has ended. */
  ghost predicate StartsAlone(s: Service, e: Event) {
    e.StartTrack? && s.starting.Registered? ==>
      forall c :: 0 <= c < |s.Consumers(s.starting.sid)| ==> s.Consumers(s.starting.sid)[c].phase.Stopped?
  }

  ghost predicate StartsApart(s: Service, events: seq<Event>)
    decreases |events|
  {
    events == [] ||
    (var init, last := events[..|events| - 1], events[|events| - 1];
     StartsApart(s, init) && (Run(s, init).Done? ==> StartsAlone(Run(s, init).value, last)))
  }

  predicate Running(consumers: seq<Consumer>, c: int) {
    0 <= c < |consumers| && !consumers[c].phase.Stopped?
  }

  ghost predicate OneRunning(s: Service, sid: SessionId) {
    forall c, d :: Running(s.Consumers(sid), c) && Running(s.Consumers(sid), d) ==> c == d
  }

  ghost predicate NoneRevived(s: Service, t: Service) {
    forall sid, c :: Running(t.Consumers(sid), c) ==> Running(s.Consumers(sid), c)
  }

  lemma AdvanceRevivesNone(s: Service, sid: SessionId, c: nat)
    ensures ApplyAdvance(s, sid, c).Done? ==> NoneRevived(s, ApplyAdvance(s, sid, c).value)
  {
    hide Tracker.State.Inc;
  }

  lemma ScoreRevivesNone(s: Service, sid: SessionId, c: nat)
    ensures ApplyScore(s, sid, c).Done? ==> NoneRevived(s, ApplyScore(s, sid, c).value)
  {
    hide PointsOf, AddPoints, InBounds, Column;
  }

  lemma AnnounceRevivesNone(s: Service, sid: SessionId, c: nat)
    ensures ApplyAnnounce(s, sid, c).Done? ==> NoneRevived(s, ApplyAnnounce(s, sid, c).value)
  {
    hide InBounds, Column;
  }

  /** No event but a start brings a consumer into being, and a stopped one stays so. */
  lemma NobodyRevives(s: Service, e: Event, sid: SessionId, c: int)
    requires Apply(s, e).Done? && Running(Apply(s, e).value.Consumers(sid), c)
    ensures Running(s.Consumers(sid), c) || (e.StartTrack? && s.starting.Registered? && sid == s.starting.sid && c == |s.Consumers(sid)|)
  {
    hide ApplyAdvance, ApplyScore, ApplyAnnounce, Tracker.State.NewSession, Tracker.State.RecordAnswer;
    match e
    case Advance(o, d) => AdvanceRevivesNone(s, o, d);
    case Score(o, d) => ScoreRevivesNone(s, o, d);
    case Announce(o, d) => AnnounceRevivesNone(s, o, d);
    case _ =>
  }

  /** A service that starts a session again only after its consumer has ended
      never moves on over a pending scoring. */
  lemma {:induction false} StartsKeepScoresApart(events: seq<Event>, sid: SessionId)
    requires StartsApart(INITIAL, events)
    ensures ScoresApart(INITIAL, events, sid)
    ensures Run(INITIAL, events).Done? ==> OneRunning(Run(INITIAL, events).value, sid)
    decreases |events|
  {
    hide Apply;
    if events != [] {
      var init, e := events[..|events| - 1], events[|events| - 1];
      StartsKeepScoresApart(init, sid);
      if Run(INITIAL, init).Done? {
        var s := Run(INITIAL, init).value;
        if e.Advance? && e.sid == sid && s.Stands(sid, e.consumer, Idle) {
          forall c ensures !Pending(s.Consumers(sid), c) {
            assert Running(s.Consumers(sid), e.consumer);
            assert Pending(s.Consumers(sid), c) ==> Running(s.Consumers(sid), c);
          }
        }
        if Apply(s, e).Done? {
          var t := Apply(s, e).value;
          forall c, d | Running(t.Consumers(sid), c) && Running(t.Consumers(sid), d) ensures c == d {
            NobodyRevives(s, e, sid, c);
            NobodyRevives(s, e, sid, d);
          }
        }
      }
    }
  }
}
