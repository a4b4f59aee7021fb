/** Which question.start consumers a session has, read off the events of a run, and
    when they are cancelled and stop. */
module LiveQuizConsumers {
  import opened Options
  import opened Quizzes
  import opened Tracker
  import opened Scoring
  import opened LiveQuiz
  import opened LiveQuizStarts

  /** The session whose start has registered it and not tracked it yet. */
  function Waiting(events: seq<Event>): Option<SessionId>
    decreases |events|
  {
    if events == [] then None
    else
      var init, last := events[..|events| - 1], events[|events| - 1];
      match last
      case StartRegister(sid, _) => if Waiting(init).None? && HolderOf(init, sid).Nobody? then Some(sid) else Waiting(init)
      case StartTrack => None
      case _ => Waiting(init)
  }

  /** How many starts of the session have been completed. */
  function Launches(events: seq<Event>, sid: SessionId): nat
    decreases |events|
  {
    if events == [] then 0
    else
      var init, last := events[..|events| - 1], events[|events| - 1];
      Launches(init, sid) + if last.StartTrack? && Waiting(init) == Some(sid) then 1 else 0
  }

  /** The session ended when the c-th consumer was its newest. */
  ghost predicate EndedUnder(events: seq<Event>, sid: SessionId, c: int) {
    exists j: nat :: EndsAt(events, j, sid, c)
  }

  predicate EndsAt(events: seq<Event>, j: nat, sid: SessionId, c: int) {
    j < |events| && events[j] == End(sid) && Launches(events[..j], sid) == c + 1
  }

  lemma OneMoreEnd(events: seq<Event>, sid: SessionId, c: int)
    requires events != []
    ensures var init, last := events[..|events| - 1], events[|events| - 1];
            EndedUnder(events, sid, c) <==> EndedUnder(init, sid, c) || (last == End(sid) && Launches(init, sid) == c + 1)
  {
    var n := |events| - 1;
    var init, last := events[..n], events[n];
    hide EndsAt, Launches;
    EndsAtLast(events, sid, c);
    if EndedUnder(events, sid, c) {
      var j: nat :| EndsAt(events, j, sid, c);
      EndsBefore(events, j, sid, c);
      if j < n {
        EndsAtInit(events, j, sid, c);
      }
    }
    if EndedUnder(init, sid, c) {
      var j: nat :| EndsAt(init, j, sid, c);
      EndsBefore(init, j, sid, c);
      EndsAtInit(events, j, sid, c);
    }
  }

  lemma EndsAtInit(events: seq<Event>, j: nat, sid: SessionId, c: int)
    requires events != [] && j < |events| - 1
    ensures EndsAt(events[..|events| - 1], j, sid, c) <==> EndsAt(events, j, sid, c)
  {
    hide Launches;
    assert events[..|events| - 1][..j] == events[..j];
  }

  lemma EndsAtLast(events: seq<Event>, sid: SessionId, c: int)
    requires events != []
    ensures var init, last := events[..|events| - 1], events[|events| - 1];
            EndsAt(events, |events| - 1, sid, c) <==> last == End(sid) && Launches(init, sid) == c + 1
  {
    hide Launches;
  }

  lemma EndsBefore(events: seq<Event>, j: nat, sid: SessionId, c: int)
    requires EndsAt(events, j, sid, c)
    ensures j < |events|
  {
  }

  lemma {:induction false} EndsCount(events: seq<Event>, sid: SessionId, c: int)
    requires EndedUnder(events, sid, c)
    ensures 0 <= c + 1 <= Launches(events, sid)
    decreases |events|
  {
    OneMoreEnd(events, sid, c);
    if EndedUnder(events[..|events| - 1], sid, c) {
      EndsCount(events[..|events| - 1], sid, c);
    }
  }

  /** One session's consumers, and the tag of the newest of them. */
  ghost predicate Explained(events: seq<Event>, consumers: seq<Consumer>, tag: Option<nat>, sid: SessionId) {
    && |consumers| == Launches(events, sid)
    && (tag.Some? ==> tag.value + 1 == |consumers|)
    && (tag.None? && consumers != [] ==> consumers[|consumers| - 1].cancelled)
    && (forall c :: 0 <= c < |consumers| ==> (consumers[c].cancelled <==> EndedUnder(events, sid, c)))
    && (forall c :: 0 <= c < |consumers| && consumers[c].phase.Stopped? ==> consumers[c].cancelled)
  }

  function TagOf(s: Service, sid: SessionId): Option<nat> {
    if sid in s.tags then Some(s.tags[sid]) else None
  }

  ghost predicate SameStarting(events: seq<Event>, s: Service) {
    if s.starting.Free? then Waiting(events).None? else Waiting(events) == Some(s.starting.sid)
  }

  // ---- what one event does to the consumers ----

  /** Nobody comes, goes or is cancelled; who stops has been cancelled. */
  ghost predicate OnlyPhases(before: seq<Consumer>, after: seq<Consumer>) {
    && |after| == |before|
    && forall c :: 0 <= c < |after| ==>
         && after[c].cancelled == before[c].cancelled
         && (after[c].phase.Stopped? ==> before[c].phase.Stopped? || before[c].cancelled)
  }

  ghost predicate SameButPhases(s: Service, t: Service, sid: SessionId) {
    t.starting == s.starting && t.tags == s.tags && OnlyPhases(s.Consumers(sid), t.Consumers(sid))
  }

  lemma RegistrySpares(s: Service, e: Event, sid: SessionId)
    requires e.JoinRegister? || e.JoinConnect? || e.Leave? || e.Submit? || e.JoinTrack?
    ensures SameButPhases(s, Apply(s, e).value, sid)
  {
    hide Tracker.State.AddParticipant, OnlyPhases;
    PhasesStay(s.Consumers(sid));
  }

  lemma WorkersSpare(s: Service, e: Event, sid: SessionId)
    requires e.ReadIndex? || e.Grade? || e.Record?
    ensures Apply(s, e).Done? ==> SameButPhases(s, Apply(s, e).value, sid)
  {
    hide Tracker.State.RecordAnswer, ApplyReadIndex, ApplyGrade, OnlyPhases;
    if !e.Record? {
      WorkerFollows(s, e.worker);
    }
    PhasesStay(s.Consumers(sid));
  }

  lemma PhasesStay(consumers: seq<Consumer>)
    ensures OnlyPhases(consumers, consumers)
  {
  }

  lemma PhaseSpares(s: Service, o: SessionId, c: nat, phase: Phase, sid: SessionId)
    requires c < |s.Consumers(o)| && (phase.Stopped? ==> s.Consumers(o)[c].cancelled)
    ensures SameButPhases(s, s.SetPhase(o, c, phase), sid)
  {
  }

  lemma AdvanceSpares(s: Service, o: SessionId, c: nat, sid: SessionId)
    ensures ApplyAdvance(s, o, c).Done? ==> SameButPhases(s, ApplyAdvance(s, o, c).value, sid)
  {
    hide Tracker.State.Inc, OnlyPhases;
    PhasesStay(s.Consumers(sid));
    if s.Stands(o, c, Idle) {
      var live := s.live.Inc(o);
      var trace := s.TraceOf(o);
      var t := s.(live := live, traces := s.traces[o := trace.(advances := trace.advances + 1)]);
      assert t.Consumers(o) == s.Consumers(o) && t.Consumers(sid) == s.Consumers(sid);
      PhaseSpares(t, o, c, if live.Current(o) > 0 then Advanced(live.Current(o)) else Idle, sid);
    }
  }

  lemma TurnsSpare(s: Service, e: Event, sid: SessionId)
    requires e.Advance? || e.Announce? || e.Stop?
    ensures Apply(s, e).Done? ==> SameButPhases(s, Apply(s, e).value, sid)
  {
    hide ApplyAdvance, ApplyStop, ApplyAnnounce, SameButPhases;
    match e
    case Advance(o, c) => AdvanceSpares(s, o, c, sid);
    case Stop(o, c) => StopSpares(s, o, c, sid);
    case Announce(o, c) => AnnounceSpares(s, o, c, sid);
  }

  lemma AnnounceSpares(s: Service, o: SessionId, c: nat, sid: SessionId)
    ensures ApplyAnnounce(s, o, c).Done? ==> SameButPhases(s, ApplyAnnounce(s, o, c).value, sid)
  {
    hide InBounds, Column, OnlyPhases;
    PhasesStay(s.Consumers(sid));
    if c < |s.Consumers(o)| && s.Consumers(o)[c].phase.Scored? && ApplyAnnounce(s, o, c).Done? {
      PhaseSpares(s.(traces := ApplyAnnounce(s, o, c).value.traces), o, c, Idle, sid);
    }
  }

  lemma StopSpares(s: Service, o: SessionId, c: nat, sid: SessionId)
    ensures SameButPhases(s, ApplyStop(s, o, c), sid)
  {
    PhasesStay(s.Consumers(sid));
    if s.Stands(o, c, Idle) && s.Consumers(o)[c].cancelled {
      hide SameButPhases;
      PhaseSpares(s, o, c, Stopped, sid);
    }
  }

  /** A scoring writes the log and a board, and moves its consumer's phase. */
  lemma ScoringMoves(s: Service, o: SessionId, c: nat)
    requires c < |s.Consumers(o)| && s.Consumers(o)[c].phase.Advanced?
    ensures ApplyScore(s, o, c).Done? ==>
              var u := ApplyScore(s, o, c).value;
              exists phase: Phase :: !phase.Stopped? && u == s.(traces := u.traces, boards := u.boards).SetPhase(o, c, phase)
  {
    hide InBounds, Column, AddPoints, PointsOf;
    if ApplyScore(s, o, c).Done? {
      var u := ApplyScore(s, o, c).value;
      var phase := u.Consumers(o)[c].phase;
      assert u == s.(traces := u.traces, boards := u.boards).SetPhase(o, c, phase);
    }
  }

  lemma ScoringSpares(s: Service, o: SessionId, c: nat, sid: SessionId)
    ensures ApplyScore(s, o, c).Done? ==> SameButPhases(s, ApplyScore(s, o, c).value, sid)
  {
    PhasesStay(s.Consumers(sid));
    if c < |s.Consumers(o)| && s.Consumers(o)[c].phase.Advanced? {
      ScoringMoves(s, o, c);
      hide ApplyScore, OnlyPhases;
      if ApplyScore(s, o, c).Done? {
        var u := ApplyScore(s, o, c).value;
        var phase: Phase :| !phase.Stopped? && u == s.(traces := u.traces, boards := u.boards).SetPhase(o, c, phase);
        PhaseSpares(s.(traces := u.traces, boards := u.boards), o, c, phase, sid);
      }
    }
  }

  lemma ScoreEventSpares(s: Service, e: Event, sid: SessionId)
    requires e.Score?
    ensures Apply(s, e).Done? ==> SameButPhases(s, Apply(s, e).value, sid)
  {
    hide ApplyScore, SameButPhases;
    ScoringSpares(s, e.sid, e.consumer, sid);
  }

  lemma OthersSpare(s: Service, e: Event, sid: SessionId)
    requires !(e.StartRegister? || e.StartTrack? || e.End?)
    ensures Apply(s, e).Done? ==> SameButPhases(s, Apply(s, e).value, sid)
  {
    hide Apply, SameButPhases;
    if e.ReadIndex? || e.Grade? || e.Record? {
      WorkersSpare(s, e, sid);
    } else if e.Score? {
      ScoreEventSpares(s, e, sid);
    } else if e.Advance? || e.Announce? || e.Stop? {
      TurnsSpare(s, e, sid);
    } else {
      RegistrySpares(s, e, sid);
    }
  }

  // ---- over runs ----

  lemma PhasesExplained(events: seq<Event>, before: seq<Consumer>, after: seq<Consumer>, tag: Option<nat>, sid: SessionId)
    requires events != [] && Explained(events[..|events| - 1], before, tag, sid) && OnlyPhases(before, after)
    requires !events[|events| - 1].StartTrack? && events[|events| - 1] != End(sid)
    ensures Explained(events, after, tag, sid)
  {
    hide EndedUnder, Waiting;
    forall c { OneMoreEnd(events, sid, c); }
  }

  lemma LaunchExplained(events: seq<Event>, before: seq<Consumer>, tag: Option<nat>, sid: SessionId)
    requires events != [] && Explained(events[..|events| - 1], before, tag, sid)
    requires events[|events| - 1].StartTrack?
    ensures Waiting(events[..|events| - 1]) == Some(sid) ==> Explained(events, before + [Consumer(Idle, false)], Some(|before|), sid)
    ensures Waiting(events[..|events| - 1]) != Some(sid) ==> Explained(events, before, tag, sid)
  {
    hide EndedUnder, Waiting;
    forall c { OneMoreEnd(events, sid, c); }
    if EndedUnder(events[..|events| - 1], sid, |before|) {
      EndsCount(events[..|events| - 1], sid, |before|);
    }
  }

  lemma EndExplained(events: seq<Event>, before: seq<Consumer>, tag: Option<nat>, sid: SessionId)
    requires events != [] && Explained(events[..|events| - 1], before, tag, sid)
    requires events[|events| - 1] == End(sid)
    ensures tag.Some? ==> Explained(events, Cancel(before, tag.value), None, sid)
    ensures tag.None? ==> Explained(events, before, None, sid)
  {
    hide EndedUnder, Waiting;
    forall c { OneMoreEnd(events, sid, c); }
  }

  lemma StartingFollows(events: seq<Event>, s: Service, e: Event, t: Service)
    requires Run(INITIAL, events) == Done(s) && Apply(s, e) == Done(t) && SameStarting(events, s)
    ensures SameStarting(events + [e], t)
  {
    assert (events + [e])[..|events|] == events;
    hide Run, HolderOf;
    if e.StartRegister? {
      TrackedWhenOpened(events, s, e.sid);
    } else if !e.StartTrack? && !e.End? {
      OthersSpare(s, e, "");
      hide Apply, OnlyPhases;
    }
  }

  lemma TagHeld(events: seq<Event>, consumers: seq<Consumer>, tag: Option<nat>, sid: SessionId)
    requires Explained(events, consumers, tag, sid)
    ensures tag.Some? ==> tag.value < |consumers|
  {
  }

  lemma EventExplains(events: seq<Event>, s: Service, e: Event, t: Service, sid: SessionId)
    requires Apply(s, e) == Done(t) && SameStarting(events, s)
    requires Explained(events, s.Consumers(sid), TagOf(s, sid), sid)
    ensures Explained(events + [e], t.Consumers(sid), TagOf(t, sid), sid)
  {
    hide Explained, OnlyPhases, Waiting, Apply;
    assert (events + [e])[..|events|] == events;
    if e.StartTrack? {
      StartTrackLaunches(s);
      LaunchExplained(events + [e], s.Consumers(sid), TagOf(s, sid), sid);
    } else if e == End(sid) {
      TagHeld(events, s.Consumers(sid), TagOf(s, sid), sid);
      EndCancels(s, sid);
      EndExplained(events + [e], s.Consumers(sid), TagOf(s, sid), sid);
    } else {
      if e.StartRegister? || e.End? {
        OpenAndEndSpare(s, e, sid);
      } else {
        OthersSpare(s, e, sid);
      }
      PhasesExplained(events + [e], s.Consumers(sid), t.Consumers(sid), TagOf(t, sid), sid);
    }
  }

  lemma StartTrackLaunches(s: Service)
    ensures Apply(s, StartTrack).Done?
    ensures s.starting.Free? ==> Apply(s, StartTrack).value == s
    ensures s.starting.Registered? ==>
              var t, sid := Apply(s, StartTrack).value, s.starting.sid;
              && t.Consumers(sid) == s.Consumers(sid) + [Consumer(Idle, false)] && TagOf(t, sid) == Some(|s.Consumers(sid)|)
              && forall o :: o != sid ==> t.Consumers(o) == s.Consumers(o) && TagOf(t, o) == TagOf(s, o)
  {
    hide Tracker.State.NewSession;
  }

  lemma EndCancels(s: Service, sid: SessionId)
    requires TagOf(s, sid).Some? ==> TagOf(s, sid).value < |s.Consumers(sid)|
    ensures var t := Apply(s, End(sid)).value;
            && TagOf(t, sid) == None
            && t.Consumers(sid) == if TagOf(s, sid).Some? then Cancel(s.Consumers(sid), TagOf(s, sid).value) else s.Consumers(sid)
  {
  }

  /** A start that registers, and another session's end. */
  lemma OpenAndEndSpare(s: Service, e: Event, sid: SessionId)
    requires e.StartRegister? || (e.End? && e.sid != sid)
    ensures var t := Apply(s, e).value; OnlyPhases(s.Consumers(sid), t.Consumers(sid)) && TagOf(t, sid) == TagOf(s, sid)
  {
    hide OnlyPhases;
    PhasesStay(s.Consumers(sid));
  }

  lemma {:induction false} RunExplains(events: seq<Event>, s: Service, sid: SessionId)
    requires Run(INITIAL, events) == Done(s)
    ensures SameStarting(events, s) && Explained(events, s.Consumers(sid), TagOf(s, sid), sid)
    decreases |events|
  {
    hide Apply, Explained, Waiting;
    if events == [] {
      NothingYet(sid);
    } else {
      var init, e := events[..|events| - 1], events[|events| - 1];
      var before := Run(INITIAL, init).value;
      RunExplains(init, before, sid);
      assert init + [e] == events;
      StartingFollows(init, before, e, s);
      EventExplains(init, before, e, s, sid);
    }
  }

  lemma NothingYet(sid: SessionId)
    ensures SameStarting([], INITIAL) && Explained([], INITIAL.Consumers(sid), TagOf(INITIAL, sid), sid)
  {
  }

  /** In every run a session has one consumer for each completed start, whatever
      joins, answers and turns fell between. A consumer is cancelled exactly if the
      session ended while it was the newest one: a start that finds the old consumer
      uncancelled leaves it running for good. Only cancelled consumers have stopped. */
  lemma ConsumersOfARun(events: seq<Event>, s: Service, sid: SessionId, c: nat)
    requires Run(INITIAL, events) == Done(s)
    ensures |s.Consumers(sid)| == Launches(events, sid)
    ensures c < |s.Consumers(sid)| ==>
              && (s.Consumers(sid)[c].cancelled <==> exists j: nat :: EndsAt(events, j, sid, c))
              && (s.Consumers(sid)[c].phase.Stopped? ==> exists j: nat :: EndsAt(events, j, sid, c))
  {
    hide Run, EndsAt;
    RunExplains(events, s, sid);
  }

  /** A consumer stops at a Stop event exactly if it is between two turns and the
      session has ended while it was the newest one; a Stop changes nothing else. */
  lemma StopsWhenEnded(events: seq<Event>, s: Service, sid: SessionId, c: nat)
    requires Run(INITIAL, events) == Done(s) && c < |s.Consumers(sid)|
    ensures var r := Run(INITIAL, events + [Stop(sid, c)]);
            && r.Done?
            && (r.value.Stands(sid, c, Stopped) <==>
                  s.Stands(sid, c, Stopped) || (s.Stands(sid, c, Idle) && exists j: nat :: EndsAt(events, j, sid, c)))
            && (!r.value.Stands(sid, c, Stopped) ==> r.value == s)
            && r.value.(consumers := s.consumers) == s
            && (forall o :: o != sid ==> r.value.Consumers(o) == s.Consumers(o))
            && |r.value.Consumers(sid)| == |s.Consumers(sid)|
            && forall d :: 0 <= d < |s.Consumers(sid)| && d != c ==> r.value.Consumers(sid)[d] == s.Consumers(sid)[d]
  {
    hide EndsAt, ApplyStop;
    assert (events + [Stop(sid, c)])[..|events|] == events;
    ConsumersOfARun(events, s, sid, c);
    assert Run(INITIAL, events + [Stop(sid, c)]) == Done(ApplyStop(s, sid, c));
    hide Run;
    StopMoves(s, sid, c);
  }

  lemma StopMoves(s: Service, sid: SessionId, c: nat)
    requires c < |s.Consumers(sid)|
    ensures var t := ApplyStop(s, sid, c);
            && (t.Stands(sid, c, Stopped) <==> s.Stands(sid, c, Stopped) || (s.Stands(sid, c, Idle) && s.Consumers(sid)[c].cancelled))
            && (!t.Stands(sid, c, Stopped) ==> t == s)
            && t.(consumers := s.consumers) == s
            && (forall o :: o != sid ==> t.Consumers(o) == s.Consumers(o))
            && |t.Consumers(sid)| == |s.Consumers(sid)|
            && forall d :: 0 <= d < |s.Consumers(sid)| && d != c ==> t.Consumers(sid)[d] == s.Consumers(sid)[d]
  {
  }
}
