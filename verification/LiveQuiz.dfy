/** The live-quiz engine as a state machine. Every locked section of the
    real-time service is one event, so a list of events is one interleaving of
    the broker consumers, the websocket joins and the answer goroutines. */
module LiveQuiz {
  import opened Quizzes
  import opened Tracker
  import opened Scoring

  /** Where a question.start consumer stands: inside a turn, between two turns or
      at its end. */
  datatype Phase = Idle | Advanced(qid: int) | Scored(qid: int, entries: Entries) | Stopped

  /** A consumer goroutine. A cancelled one may finish its turn, and even take up
      deliveries that are already buffered, before it stops. */
  datatype Consumer = Consumer(phase: Phase, cancelled: bool)

  /** The consumer has moved the index and not asked for the board yet. */
  predicate Pending(consumers: seq<Consumer>, c: int) {
    0 <= c < |consumers| && consumers[c].phase.Advanced?
  }

  predicate InTurn(consumers: seq<Consumer>, c: int) {
    0 <= c < |consumers| && (consumers[c].phase.Advanced? || consumers[c].phase.Scored?)
  }

  /** Where the session.start consumer stands inside one event. */
  datatype Starting = Free | Registered(sid: SessionId, quiz: Quiz)

  /** One processAnswer goroutine. readAt remembers how many question events had
      happened when it read the index; the program does not keep it. */
  datatype Worker =
    | Submitted(sid: SessionId, uid: UserId, option: int, timestamp: int)
    | Looked(sid: SessionId, uid: UserId, option: int, timestamp: int, qid: int, readAt: nat)
    | Graded(sid: SessionId, uid: UserId, answer: UserAnswer, qid: int, readAt: nat)
    | Finished

  /** One call to the leaderboard service. */
  datatype Batch = Batch(question: int, entries: Entries)

  /** The flags sent to the connected participants about one question. */
  datatype Sent = Sent(question: int, flags: map<UserId, bool>)

  datatype Stamp = Stamp(graded: int, readAt: nat, recordedAt: nat)

  /** What has happened to a session, kept beside the program's own state. */
  datatype Trace = Trace(
    advances: nat,
    batches: seq<Batch>,
    sent: seq<Sent>,
    grades: map<(UserId, int), Stamp>,
    gameEnds: nat)

  const NO_TRACE := Trace(0, [], [], map[], 0)

  datatype Service = Service(
    live: State,
    rooms: map<SessionId, map<UserId, Role>>,
    starting: Starting,
    consumers: map<SessionId, seq<Consumer>>,
    tags: map<SessionId, nat>,
    workers: map<nat, Worker>,
    boards: map<SessionId, Totals>,
    traces: map<SessionId, Trace>)
  {
    function TraceOf(sid: SessionId): Trace {
      Get(traces, sid, NO_TRACE)
    }

    function Slices(sid: SessionId): map<UserId, seq<UserAnswer>> {
      Get(live.answers, sid, map[])
    }

    /** The consumers of a session, the oldest first. */
    function Consumers(sid: SessionId): seq<Consumer> {
      Get(consumers, sid, [])
    }

    predicate Stands(sid: SessionId, c: nat, phase: Phase) {
      c < |Consumers(sid)| && Consumers(sid)[c].phase == phase
    }

    function SetPhase(sid: SessionId, c: nat, phase: Phase): Service
      requires c < |Consumers(sid)|
    {
      this.(consumers := consumers[sid := Consumers(sid)[c := Consumers(sid)[c].(phase := phase)]])
    }

    function Board(sid: SessionId): Totals {
      Get(boards, sid, map[])
    }
  }

  const INITIAL := Service(EMPTY, map[], Free, map[], map[], map[], map[], map[])

  datatype Event =
    | StartRegister(sid: SessionId, quiz: Quiz)
    | StartTrack
    | End(sid: SessionId)
    | JoinRegister(sid: SessionId)
    | JoinConnect(sid: SessionId, uid: UserId, role: Role)
    | JoinTrack(sid: SessionId, uid: UserId)
    | Leave(sid: SessionId, uid: UserId)
    | Submit(worker: nat, sid: SessionId, uid: UserId, option: int, timestamp: int)
    | ReadIndex(worker: nat)
    | Grade(worker: nat)
    | Record(worker: nat)
    | Advance(sid: SessionId, consumer: nat)
    | Score(sid: SessionId, consumer: nat)
    | Announce(sid: SessionId, consumer: nat)
    | Stop(sid: SessionId, consumer: nat)

  // ---- the events; one that is not enabled changes nothing ----

  /** A session that is already registered is not started again. */
  function ApplyStartRegister(s: Service, sid: SessionId, quiz: Quiz): Service {
    if !s.starting.Free? || sid in s.rooms then s
    else s.(rooms := s.rooms[sid := map[]], starting := Registered(sid, quiz))
  }

  function ApplyStartTrack(s: Service): Service {
    match s.starting
    case Free => s
    case Registered(sid, quiz) =>
      s.(live := s.live.NewSession(sid, quiz),
         starting := Free,
         consumers := s.consumers[sid := s.Consumers(sid) + [Consumer(Idle, false)]],
         tags := s.tags[sid := |s.Consumers(sid)|])
  }

  /** The consumer that holds the session's tag is cancelled, wherever it stands;
      the tracker is not told. */
  function ApplyEnd(s: Service, sid: SessionId): Service {
    var t := s.(rooms := s.rooms - {sid}, tags := s.tags - {sid});
    if sid in s.tags && s.tags[sid] < |s.Consumers(sid)|
    then t.(consumers := s.consumers[sid := Cancel(s.Consumers(sid), s.tags[sid])])
    else t
  }

  function Cancel(consumers: seq<Consumer>, c: nat): seq<Consumer>
    requires c < |consumers|
  {
    consumers[c := consumers[c].(cancelled := true)]
  }

  /** A cancelled consumer with nothing left to do ends. */
  function ApplyStop(s: Service, sid: SessionId, c: nat): Service {
    if s.Stands(sid, c, Idle) && s.Consumers(sid)[c].cancelled then s.SetPhase(sid, c, Stopped) else s
  }

  function ApplyJoinRegister(s: Service, sid: SessionId): Service {
    if sid in s.rooms then s else s.(rooms := s.rooms[sid := map[]])
  }

  function ApplyJoinConnect(s: Service, sid: SessionId, uid: UserId, role: Role): Service {
    if sid !in s.rooms then s else s.(rooms := s.rooms[sid := s.rooms[sid][uid := role]])
  }

  /** A panic here is caught by the HTTP server and leaves the maps alone. */
  function ApplyJoinTrack(s: Service, sid: SessionId, uid: UserId): Service {
    match s.live.AddParticipant(sid, uid)
    case Done(live) => s.(live := live)
    case Panic => s
  }

  function ApplyLeave(s: Service, sid: SessionId, uid: UserId): Service {
    if sid !in s.rooms then s else s.(rooms := s.rooms[sid := s.rooms[sid] - {uid}])
  }

  function ApplySubmit(s: Service, w: nat, sid: SessionId, uid: UserId, option: int, timestamp: int): Service {
    if w in s.workers then s else s.(workers := s.workers[w := Submitted(sid, uid, option, timestamp)])
  }

  function ApplyReadIndex(s: Service, w: nat): Service {
    if w !in s.workers || !s.workers[w].Submitted? then s
    else
      var p := s.workers[w];
      s.(workers := s.workers[w := Looked(p.sid, p.uid, p.option, p.timestamp, s.live.Current(p.sid), s.TraceOf(p.sid).advances)])
  }

  function ApplyGrade(s: Service, w: nat): Service {
    if w !in s.workers || !s.workers[w].Looked? then s
    else
      var p := s.workers[w];
      if p.sid !in s.live.tracker then s.(workers := s.workers[w := Finished])
      else
        var answer := UserAnswer(true, p.option, p.option == s.live.Quiz(p.sid).Key(p.qid), p.timestamp);
        s.(workers := s.workers[w := Graded(p.sid, p.uid, answer, p.qid, p.readAt)])
  }

  /** A panic in this goroutine takes the service down. */
  function ApplyRecord(s: Service, w: nat): Outcome<Service> {
    if w !in s.workers || !s.workers[w].Graded? then Done(s)
    else
      var p := s.workers[w];
      match s.live.RecordAnswer(p.sid, p.uid, p.answer)
      case Panic => Panic
      case Done(live) =>
        var trace := s.TraceOf(p.sid);
        var stamp := Stamp(p.qid, p.readAt, trace.advances);
        Done(s.(live := live, workers := s.workers[w := Finished],
                traces := s.traces[p.sid := trace.(grades := trace.grades[(p.uid, s.live.Current(p.sid)) := stamp])]))
  }

  function ApplyAdvance(s: Service, sid: SessionId, c: nat): Outcome<Service> {
    if !s.Stands(sid, c, Idle) then Done(s)
    else if sid !in s.live.tracker then Panic // the question payload is a nil pointer
    else
      var live := s.live.Inc(sid);
      var qid := live.Current(sid);
      var trace := s.TraceOf(sid);
      var trace' := trace.(advances := trace.advances + 1);
      if qid == live.Len(sid)
      then Done(s.(live := live, traces := s.traces[sid := trace'.(gameEnds := trace.gameEnds + 1)]))
      else Done(s.(live := live, traces := s.traces[sid := trace']).SetPhase(sid, c, if qid > 0 then Advanced(qid) else Idle))
  }

  predicate InBounds(slices: Slices, q: int) {
    forall u :: u in slices ==> 0 <= q < |slices[u]|
  }

  function Column(slices: Slices, q: int): Entries
    requires InBounds(slices, q)
  {
    map u | u in slices :: slices[u][q]
  }

  /** The board is asked for the question before the current one. An empty batch
      panics inside the leaderboard service, which answers with an error and
      stores nothing. */
  ghost function ApplyScore(s: Service, sid: SessionId, c: nat): Outcome<Service> {
    if c >= |s.Consumers(sid)| || !s.Consumers(sid)[c].phase.Advanced? then Done(s)
    else if sid !in s.live.tracker then Panic
    else
      var idx := s.live.tracker[sid].currQuestionIdx;
      var q := if idx > 0 then idx - 1 else idx;
      var slices := s.Slices(sid);
      if !InBounds(slices, q) then Panic
      else
        var entries := Column(slices, q);
        var trace := s.TraceOf(sid);
        var trace' := trace.(batches := trace.batches + [Batch(q, entries)]);
        if entries == map[]
        then Done(s.(traces := s.traces[sid := trace'.(sent := trace.sent + [Sent(q, map[])])]).SetPhase(sid, c, Idle))
        else Done(s.(traces := s.traces[sid := trace'],
                     boards := s.boards[sid := AddPoints(s.Board(sid), PointsOf(entries))])
                  .SetPhase(sid, c, Scored(s.Consumers(sid)[c].phase.qid, entries)))
  }

  /** Every connected participant is told whether the previous answer was right. */
  ghost function ApplyAnnounce(s: Service, sid: SessionId, c: nat): Outcome<Service> {
    if c >= |s.Consumers(sid)| || !s.Consumers(sid)[c].phase.Scored? then Done(s)
    else
      var q := s.Consumers(sid)[c].phase.qid - 1;
      var slices := s.Slices(sid);
      if !InBounds(slices, q) then Panic
      else
        var column := Column(slices, q);
        var room := Get(s.rooms, sid, map[]);
        var trace := s.TraceOf(sid);
        var flags := map u | u in room && room[u].Participant? :: Get(column, u, NO_ANSWER).correct;
        Done(s.(traces := s.traces[sid := trace.(sent := trace.sent + [Sent(q, flags)])]).SetPhase(sid, c, Idle))
  }

  ghost function Apply(s: Service, e: Event): Outcome<Service> {
    match e
    case StartRegister(sid, quiz) => Done(ApplyStartRegister(s, sid, quiz))
    case StartTrack => Done(ApplyStartTrack(s))
    case End(sid) => Done(ApplyEnd(s, sid))
    case JoinRegister(sid) => Done(ApplyJoinRegister(s, sid))
    case JoinConnect(sid, uid, role) => Done(ApplyJoinConnect(s, sid, uid, role))
    case JoinTrack(sid, uid) => Done(ApplyJoinTrack(s, sid, uid))
    case Leave(sid, uid) => Done(ApplyLeave(s, sid, uid))
    case Submit(w, sid, uid, option, timestamp) => Done(ApplySubmit(s, w, sid, uid, option, timestamp))
    case ReadIndex(w) => Done(ApplyReadIndex(s, w))
    case Grade(w) => Done(ApplyGrade(s, w))
    case Record(w) => ApplyRecord(s, w)
    case Advance(sid, c) => ApplyAdvance(s, sid, c)
    case Score(sid, c) => ApplyScore(s, sid, c)
    case Announce(sid, c) => ApplyAnnounce(s, sid, c)
    case Stop(sid, c) => Done(ApplyStop(s, sid, c))
  }

  /** The state after a list of events; a crash is final. */
  ghost function Run(s: Service, events: seq<Event>): Outcome<Service>
    decreases |events|
  {
    if events == [] then Done(s)
    else
      match Run(s, events[..|events| - 1])
      case Panic => Panic
      case Done(t) => Apply(t, events[|events| - 1])
  }

  /** The index of a session moves on only when no scoring is pending. */
  ghost predicate ScoresFirst(s: Service, e: Event, sid: SessionId) {
    e.Advance? && e.sid == sid && s.Stands(sid, e.consumer, Idle) && s.live.CanInc(sid) ==>
      forall c :: !Pending(s.Consumers(sid), c)
  }

  ghost predicate ScoresApart(s: Service, events: seq<Event>, sid: SessionId)
    decreases |events|
  {
    events == [] ||
    (var init, last := events[..|events| - 1], events[|events| - 1];
     ScoresApart(s, init, sid) && (Run(s, init).Done? ==> ScoresFirst(Run(s, init).value, last, sid)))
  }
}
