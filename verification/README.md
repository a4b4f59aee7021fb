# Vanguard: a verified model of the quiz services

Vanguard runs live quizzes. A real-time service (Go) keeps the question index and
everybody's answers for each session, a leaderboard service (Go) turns answers into
points, a session service (Go) keeps the roster of who is connected, and two Python
services keep quizzes and accounts. This project models those parts and proves what
they guarantee, and, where they do not guarantee what one would expect, exactly when
they do. `dafny verify dfyconfig.toml` checks everything.

## What is modelled

**The live-quiz engine** (`Quizzes`, `Tracker`, `LiveQuiz`, `LiveQuizSafety`,
`LiveQuizRuns`, `LiveQuizOrder`, `LiveQuizTheorems`, `LiveQuizStarts`, `LiveQuizCache`,
`LiveQuizRooms`, `LiveQuizBroadcasts`, `LiveQuizConsumers`, `LiveQuizWitnesses`,
`QuestionConsumer`). `Tracker.QuizTracker` is the tracker object with
its two maps and its cache; each of its methods is proved against a function on
`Tracker.State`. `LiveQuiz.Apply` builds a state machine from those functions in which
every locked section of the service is one event: the two halves of a session start,
session end, the three parts of a websocket join, a disconnect, the three steps of an
answer goroutine, the three steps of a question consumer (advance, score, send
statistics) and its stop. A list of events is one interleaving, and `LiveQuiz.Run` is
defined for every list, so a statement about all lists is a statement about all runs. An
event that is not enabled changes nothing. A session end fires wherever a consumer
stands: it takes the room and the consumer's tag away and cancels the consumer, which may
finish its turn, and take up deliveries that are already buffered, before it stops. A
session that is started again meanwhile has two consumers.

Beside the program's state the model keeps a `Trace`: how many question events a session
has seen, the batches it scored, the flags it sent and about which question, and, for
every recorded answer, which question it was graded against. `advances` counts the question events a consumer took
up. The question consumer's loop body is also written as a method;
`QuestionConsumer.TakeTurn` states that it leads where the three events lead.

What follows for a session of `len` questions after `k` question events, in every run:

- the index is `min(k, len) - 1`, and the end-of-game branch is never taken;
- a scored batch holds the answers to its question as they finally stand, and each stored
  total is the sum of the points of the batches;
- once no scoring is pending there are as many batches as there should be (`k-1`, for a
  quiz of at least two questions), and the last question is never scored;
- a flag sent to a participant about a question says whether the answer as it finally
  stands is right, and agrees with every batch the question was scored in;
- an answer that overlaps an advance is stored under the new question with the flag of
  the old one; the two agree exactly when the index did not move in between;
- among the steps modelled here, the one that takes the service down is an answer
  recorded before the first question (or in a session without questions), and it always
  does;
- an answer is right if its option is the first one that question marks correct (option 0
  if nothing is marked);
- a user is in a session's room exactly if the last word on the user is a connection to
  the session while it was registered; those who are there as participants, and nobody
  else, are sent flags;
- a session has one question consumer for each completed start, and one is cancelled
  exactly if the session ended while it was the newest;
- a broadcast that leaves the admins out returns and reaches exactly the others, in every
  order the room may be visited in, exactly if the room has at most one admin; with more
  admins some order panics. What else Go's runtime aborts on is listed under "Left out";
- a participant scores exactly if the answer is correct and no participant in the batch
  answered more than 19.98 s earlier, where one who is silent counts as having answered at
  Go's zero time: then nobody gets points for that question whose answer is later than
  that by 19.98 s;
- a start event leaves the tracker alone exactly if no start has ever found the session
  unregistered and a websocket join registered it first since its last end; participants'
  joins panic exactly then, until the session ends and is started again;
- ending a tracked session and starting it again resumes the old quiz at the old index;
- a restart reads the tracker back exactly when no session id holds a colon. In every run
  after a restart a session takes participants exactly if it was first tracked after the
  restart; for a restored one every join and every recorded answer panics, every batch is
  empty and the board stays as it was.

Exactly-once scoring holds exactly if the index of the session never moved on while a
consumer still owed a scoring (`LiveQuiz.ScoresApart`, a guard on the state in which a
question event is taken up). In such runs, once no scoring is pending:

- while `k <= len`, questions `0..k-2` have been scored once each, in order, and each
  total is the sum of the points of the final answers to them;
- every event after the `len`-th scores question `len-2` again.

In every other run some question is scored a wrong number of times, and that stays so. A
service that starts a session again only after its consumer has stopped meets the
condition (`StartsKeepScoresApart`). `OverlapScoresTwice` is a run that does not: the
session ends inside a turn and is started again, and the next question begins before the
first consumer has asked for the board. The second question is scored twice and the first
one never, so that a participant who answered one of them rightly has twice the points
earned, or none.

**The cache** (`CacheKeys`, `RedisCache`, `AnswerScan`). Keys are real strings, built,
globbed and split as the Go code does; a SCAN is any list of replies that returns each
matching key at least once. The user whose answers a key is read back as is cut out of the
key; `NamesItsUser` says when it is the right one. Two different session ids can have a user each with the same
answers key exactly if one id followed by `:user:` is a prefix of the other followed by
it; ids without colons never collide, and as long as no two tracked ids collide the cache
mirrors the memory in every run.

**Scoring** (`Decimal`, `Scoring`, `LeaderBoard`). The decay is computed with exact reals
and proved equal to an integer form. Sorting is the in-place insertion sort that
`sort.Slice` uses on short slices; only what it documents (a descending permutation) is
promised. The histogram's keys are 1-based, as the code prints them; the real-time
service's guide shows 0-based keys. The keys offered are those of the question that has
just started, while the answers counted are those of the one before: the histogram is the
right one exactly if every option that only one of the two questions offers was chosen by
somebody.

**Receivers without the admin** (`Connections`). The loop cuts a slice down while ranging
over the same array. It is right for at most one admin; the exact condition for any list
is proved. `LiveQuizBroadcasts` carries it over to rooms and runs.

**The roster** (`Roster`, `RosterRuns`, `RosterContents`). `Roster.Registry` is the registry object; in
`RosterRuns` the goroutines that send the roster out read it in one section, list the
connections in a later one and write to them one by one, and a handler whose connection
ends unregisters its user. For every interleaving: a registered connection knows the
session exactly if the roster of its last writer is the session's, which it is if the
session has not changed since that roster was read; a writer that is the last for all
connections and read the roster after the last change leaves everybody informed; and the
end of a connection closes another, live one exactly if its user is registered with that
other one. `RosterContents` reads the registry's maps, and which connections the service
has closed, off the list of sections.

**Quiz listing and tags** (`QuizListing`, `QuizStore`) and
**accounts** (`Accounts`). `mine=false` without a `user_id` compares the owner with NULL
and lists nothing; every other accepted request lists exactly what its parameters ask for.
Lower-casing and the normalisation of tags are parameters: statements hold for every one.

## Model

| member | source | states |
|---|---|---|
| LiveQuizTheorems.ExactlyOnceScoring | backend-go/real_time/rabbit/question.go:83-132 | in every run, with k question events, len questions and no scoring pending: for k <= len questions 0..k-2 are scored exactly once and no other, and beyond that each event scores len-2 again, if and only if the index never moved on while a scoring was pending; in every run the number of scorings is right, and the last question has none |
| LiveQuizTheorems.TotalsComeFromFinalAnswers | backend-go/LeaderBoardService/Storage/AddPoits.go:8-17 | end to end, if the index never moved on over a pending scoring, after k <= len events every stored total is the sum of the points of the final answers to questions 0..k-2 |
| LiveQuizTheorems.TotalsAreSums | backend-go/LeaderBoardService/Storage/AddPoits.go:8-17 | in every run a stored total is the sum of the user's points over all batches and lies in 0..1000 per batch |
| LiveQuizTheorems.BatchesAreFinalAnswers | backend-go/real_time/ws/quiz_tracker.go:165-187 | in every run a scored batch holds the answers to its question as they stand now; a participant who was not in it has no answer to that question; batch i is question i when the index never moved on over a pending scoring and k <= len |
| LiveQuizTheorems.WhoScoresInARun | backend-go/LeaderBoardService/LeaderBoard/ComputeLeaderBoard.go:9-31 | in every run a participant of a scored batch has points if and only if the answer is correct and nobody in the batch answered more than 19.98 s earlier, silence counting as an answer at time 0; so an answer later than 19.98 s scores only if everybody in the batch has answered |
| LiveQuizTheorems.GradingUnderInterleaving | backend-go/real_time/ws/message.go:116-136 | for every interleaving a recorded slot was graded against question g of the quiz for some g with -1 <= g <= slot: it is flagged right if and only if its option is the first one marked correct there (option 0 when g is -1 or nothing is marked); g is the slot exactly when the index did not move between reading and recording |
| LiveQuizTheorems.UninterruptedAnswer | backend-go/real_time/ws/message.go:116-136 | the three steps of an answer, run without interference, grade against the options of the current question and record there |
| LiveQuizTheorems.EarlyGradesAreDropped | backend-go/real_time/ws/message.go:116-136 | an answer graded while its session is not tracked is dropped for good, whatever happens later; one whose session is tracked is graded |
| LiveQuizTheorems.StatisticsMatchScores | backend-go/real_time/rabbit/question.go:111-120 | in every run a flag sent about a question is right for the answer as it finally stands and agrees with every batch of that question; there is such a batch if the index never moved on over a pending scoring |
| LiveQuizTheorems.FrozenSlots | backend-go/real_time/ws/quiz_tracker.go:73-114 | the index never falls, and no later event changes an answer behind it or a scored batch |
| LiveQuizTheorems.IndexFollowsEvents | backend-go/real_time/rabbit/question.go:87-95 | the index is min(k, len) - 1, all slices have len slots, the end-of-game branch was never taken |
| LiveQuizTheorems.CrashesOnlyTooEarly | backend-go/real_time/ws/quiz_tracker.go:103-114 | in every reachable state the next event crashes the service if and only if it records an answer while the index is -1 |
| LiveQuizWitnesses.EarlyAnswerCrashes | backend-go/real_time/ws/quiz_tracker.go:111-112 | a run from the empty service, a start, a join and an answer, that does crash, for any quiz and answer |
| LiveQuizWitnesses.SilentRunScoresNothing | backend-go/LeaderBoardService/Utils/minTimestamp.go:8-18 | a run from the empty service: two join, one answers rightly, the other not at all, and both have 0 points |
| LiveQuizWitnesses.OverlapScoresTwice | backend-go/real_time/rabbit/session.go:145-164 | a run from the empty service with a participant, an end inside a turn and a restart: the second question is scored twice and the first one never; who has earned 1000 points has 2000 or none |
| LiveQuizWitnesses.JoinFirstVoidsStart | backend-go/real_time/ws/handler.go:65-85 | a run from the empty service: a join, then the start, after which joins panic |
| LiveQuizStarts.RunFollows | backend-go/real_time/rabbit/session.go:98-114 | in every run registry and tracked sessions follow a small machine that sees only starts, joins and ends |
| LiveQuizStarts.TrackedWhenOpened | backend-go/real_time/rabbit/session.go:107-112 | in every run a session is registered if and only if a start or a join has registered it since its last end, tracked (or about to be) if and only if some start found it unregistered, and it keeps the quiz of the first such start |
| LiveQuizStarts.StartTakesHold | backend-go/real_time/rabbit/session.go:107-112 | in every reached state a start makes the session tracked if and only if it was tracked or not registered, that is, unless a join came first since the last end and no start ever took hold; a new session is at index -1; a participant's join panics if and only if the session is not tracked |
| LiveQuizStarts.IgnoredWhenJoinedFirst | backend-go/real_time/ws/handler.go:65-85 | a reached session is in the state that voids starts if and only if a join came first and no start took hold before |
| LiveQuizStarts.LateStartIsIgnored | backend-go/real_time/ws/handler.go:65-85 | such a session is not tracked in any later run without a session end, joins to it panic, and the first start after the end takes hold |
| LiveQuizStarts.RestartResumes | backend-go/real_time/rabbit/session.go:145-164 | end then start leaves quiz, index, answers, goroutines and boards as they were, whatever quiz the new event carries, and adds a consumer to those that still run |
| LiveQuizStarts.RestoredSessionsPanic | backend-go/real_time/ws/quiz_tracker.go:209-216 | in every run after a restart a session takes participants if and only if it was first tracked after the restart; restored sessions stay tracked without answers, and recording for them panics |
| LiveQuizStarts.RestoredSessionsScoreNothing | backend-go/real_time/ws/quiz_tracker.go:165-199 | in every run after a restart all batches of a restored session are empty and its board is the one it had |
| LiveQuizRuns.EventKeeps | backend-go/real_time/rabbit/session.go:98-114 | every event keeps the invariant of every session and only moves sessions forward; the only crash is a too early record |
| LiveQuizRuns.EveryRunIsSafe | backend-go/real_time/rabbit/question.go:77-133 | every state any interleaving reaches satisfies the invariant |
| LiveQuizOrder.EventKeepsLog | backend-go/real_time/rabbit/question.go:83-132 | every event keeps batches and pending scorings in number; only one that moves the index on over a pending scoring puts the order of the log wrong, and it always does, for good |
| LiveQuizOrder.RunKeepsLog | backend-go/real_time/rabbit/question.go:83-132 | so in every run the log of a session is in order if the index never moved on over a pending scoring, and has skipped a question if it did |
| LiveQuizOrder.StartsKeepScoresApart | backend-go/real_time/rabbit/question.go:139-152 | if sessions are started again only after their consumers have stopped, the index never moves on over a pending scoring |
| LiveQuizSafety.GameRecords | backend-go/real_time/ws/quiz_tracker.go:103-114 | recording into the current slot keeps all scored questions frozen and all graded indices right |
| LiveQuizSafety.GameAdvances | backend-go/real_time/ws/quiz_tracker.go:73-86 | an advance keeps the invariant and never reaches the length of the quiz |
| LiveQuizSafety.GameScores | backend-go/real_time/ws/quiz_tracker.go:165-199 | scoring reads in bounds, logs the previous question with all its answers and adds its points to the board; an empty batch stores nothing |
| LiveQuizSafety.GameAnnounces | backend-go/real_time/rabbit/question.go:111-120 | sending statistics reads in bounds and keeps the invariant |
| LiveQuizOrder.AnnounceKeepsLog | backend-go/real_time/rabbit/question.go:111-120 | flags sent are logged with their question and stay right |
| LiveQuizCache.CacheMirrorsMemory | backend-go/real_time/ws/quiz_tracker.go:73-162 | after every run in which no two tracked ids collide the cache holds exactly the quiz states, each slice is the zero-filled completion of its hash, and nobody else has a hash |
| LiveQuizCache.RestartAfterAnyRun | backend-go/real_time/ws/quiz_tracker.go:209-216 | after every run a restart restores the tracker if and only if no tracked id holds a colon |
| LiveQuizCache.RestartBringsBack | backend-go/real_time/ws/quiz_tracker.go:209-216 | after every run a restart brings back exactly the first colon-separated pieces of the tracked ids: with quiz and index if that is the whole id of a tracked session, otherwise with the zero quiz; no answers come back and the cache is left alone |
| Tracker.RestoreRebuildsTracker | backend-go/real_time/cache/redis/redis.go:92-122 | the restored map equals the tracker if and only if no session id holds a colon |
| Tracker.NewSessionSyncs | backend-go/real_time/ws/quiz_tracker.go:137-149 | starting a session keeps memory and cache in agreement |
| Tracker.IncSyncs | backend-go/real_time/ws/quiz_tracker.go:73-86 | so does advancing, through the cache's read-modify-write |
| Tracker.AddParticipantSyncs | backend-go/real_time/ws/quiz_tracker.go:119-126 | so does a join, which writes nothing to the cache |
| Tracker.RecordAnswerSyncs | backend-go/real_time/ws/quiz_tracker.go:103-114 | so does an answer, which writes one hash field |
| Tracker.DeleteSessionSyncs | backend-go/real_time/ws/quiz_tracker.go:152-162 | so does deleting a session whose id is free of glob characters, when no two session ids collide |
| Tracker.CollidingAnswersOverwrite | backend-go/real_time/cache/redis/redis.go:146 | with colliding ids the answer of one session's user overwrites the other's in the cache, and memory and cache disagree |
| Tracker.QuizTracker.constructor | backend-go/real_time/ws/quiz_tracker.go:26-43 | a new service holds the tracker its cache gives back and no answers |
| Tracker.QuizTracker.GetCurrentQuestion | backend-go/real_time/ws/quiz_tracker.go:46-56 | the index with the question of the quiz at that index, the zero question out of range, or -1 and a nil pointer |
| Tracker.QuizTracker.IncQuestionIdx | backend-go/real_time/ws/quiz_tracker.go:73-86 | moves both copies of the index on by one unless it is at the last question or the session unknown; nothing else changes |
| Tracker.QuizTracker.GetCorrectOption | backend-go/real_time/ws/quiz_tracker.go:89-100 | the first option marked correct of the question with the given index in a tracked session, option 0 if nothing is marked or there is no such question |
| Tracker.QuizTracker.RecordAnswer | backend-go/real_time/ws/quiz_tracker.go:103-114 | writes one slot, the current one of that user, and the same field of the hash; panics, leaving index and cache alone, exactly for an unknown session or an index outside the slice |
| Tracker.QuizTracker.AddParticipant | backend-go/real_time/ws/quiz_tracker.go:119-126 | adds a blank slice with a slot for each question, once; panics exactly for an unknown session |
| Tracker.QuizTracker.NewSession | backend-go/real_time/ws/quiz_tracker.go:137-149 | adds an unknown session at index -1, in memory and cache |
| Tracker.QuizTracker.DeleteSession | backend-go/real_time/ws/quiz_tracker.go:152-162 | removes a tracked session, and no other, from both maps and the cache |
| Tracker.QuizTracker.ProcessAnswer | backend-go/real_time/ws/message.go:116-136 | read, grade against the options of the current question and record, in one piece; an unknown session records nothing |
| QuestionConsumer.OnQuestionStart | backend-go/real_time/rabbit/question.go:83-132 | one turn of the loop: advance, score the previous question for everybody in the answers map, send flags and a histogram with the options of the question that is current now; never the end of the game |
| QuestionConsumer.TakeTurn | backend-go/real_time/rabbit/question.go:83-132 | from any state that meets the invariant the loop body leaves tracker, boards and flags where the events advance, score and announce of one consumer leave them |
| QuestionConsumer.ScorePrevious | backend-go/real_time/ws/quiz_tracker.go:165-199 | adds the previous question's points, tells each connected participant the scored flag, and counts that question's answers under the current question's options |
| QuestionConsumer.CollectAnswers | backend-go/real_time/ws/quiz_tracker.go:175-187 | one printed, 1-based answer for each participant, in any order |
| QuestionConsumer.SendQuestionStat | backend-go/real_time/ws/responses.go:50-65 | every connected participant and no admin gets a flag, false for users without an answer |
| QuestionConsumer.ScoredTurn | backend-go/real_time/rabbit/question.go:99-121 | the three events of a turn with a positive index change index, boards and flags as the loop body does |
| QuestionConsumer.UnscoredTurn | backend-go/real_time/rabbit/question.go:87-99 | a turn that stays at or below the first question changes the index only |
| QuestionConsumer.InvIsWellFormed | backend-go/real_time/rabbit/session.go:107-112 | in every reachable state the tracker is well formed and a session with a consumer is tracked, which is what a turn of the loop needs |
| QuestionConsumer.TurnCompletes | backend-go/real_time/rabbit/question.go:83-132 | from every reachable state a turn completes without a crash |
| Quizzes.GetCorrectOption | backend-go/shared/quiz.go:19-26 | the first correct option, or 0 and the zero option when none is marked |
| Quizzes.KeyIsRight | backend-go/shared/quiz.go:19-37 | an option grades a question if and only if it is the first one the question at that index marks correct, or 0 when nothing is marked or the index is out of range |
| CacheKeys.AnswersPatternSelects | backend-go/real_time/cache/redis/redis.go:68 | among keys of ids that do not collide with it, the answers pattern of an id without glob characters selects exactly that session's hashes |
| CacheKeys.QuizPatternSelects | backend-go/real_time/cache/redis/redis.go:95 | the restore pattern selects exactly the quiz-state keys |
| CacheKeys.SplitQuizKey | backend-go/real_time/cache/redis/redis.go:105-109 | splitting a quiz-state key yields its session id when the id holds no colon |
| CacheKeys.CollidingIdsShareKeys | backend-go/real_time/cache/redis/redis.go:146 | two different session ids have users with a common answers key if and only if one id followed by the user part's start is a prefix of the other followed by it |
| CacheKeys.AnswersKeyInjective | backend-go/real_time/cache/redis/redis.go:146 | for ids that do not collide an answers key determines session and user |
| CacheKeys.ColonFreeIdsDoNotCollide | backend-go/real_time/cache/redis/redis.go:146 | ids without colons never collide |
| CacheKeys.AnswersKeyCollides | backend-go/real_time/cache/redis/redis.go:146 | with a colon in a session id two users share a hash |
| RedisCache.ScanReturnsMatches | backend-go/real_time/cache/redis/redis.go:72-82 | whatever the batching, order and repetition, a complete scan yields exactly the matching keys |
| RedisCache.ScansAre | backend-go/real_time/cache/redis/redis.go:72-82 | replies are a scan if and only if together they hold exactly the matching keys, in whatever batches, order and repetition |
| RedisCache.DropIsExact | backend-go/real_time/cache/redis/redis.go:63-89 | deleting a session removes its quiz state and hashes and no key of another session |
| RedisCache.Client.SetQuestionIndex | backend-go/real_time/cache/redis/redis.go:125-133 | changes the index of a stored quiz and fails without one |
| RedisCache.Client.DeleteSession | backend-go/real_time/cache/redis/redis.go:63-89 | for every scan, removes the quiz state and all selected keys |
| RedisCache.Client.GetAllSessions | backend-go/real_time/cache/redis/redis.go:92-122 | for every scan, the same map |
| AnswerScan.GetAllAnswers | backend-go/real_time/cache/redis/redis.go:164-206 | appends the answers of every returned key to its user's list |
| AnswerScan.FlattenJoins | backend-go/real_time/cache/redis/redis.go:164-206 | the keys of a scan are those of its replies, one reply after the other |
| AnswerScan.NamesItsUser | backend-go/real_time/cache/redis/redis.go:182-186 | the user id cut out of an answers key is the key's own user if and only if neither id holds a colon, or the session id has two pieces and the user is called "user", or it has more and the user is called like its third piece |
| AnswerScan.MisnamedUserGetsNothing | backend-go/real_time/cache/redis/redis.go:182-196 | otherwise the user's answers are read back as another user's |
| AnswerScan.ColonFreeKeysName | backend-go/real_time/cache/redis/redis.go:182-186 | among keys of ids without colons only a user's own key is read back as the user's |
| AnswerScan.RepeatedKeysRepeatAnswers | backend-go/real_time/cache/redis/redis.go:177-196 | a user whose own key is the only one read back as the user's gets the stored answers back as often as the scan returned it, one after another |
| AnswerScan.AnswersReadBackOnce | backend-go/real_time/cache/redis/redis.go:177-196 | what is read back is the stored reply if and only if the scan did not repeat the key, or there were no answers |
| Scoring.DecayedIsPoints | backend-go/LeaderBoardService/LeaderBoard/ComputeLeaderBoard.go:17-31 | the clamped decay is the number of whole 20 ms ticks left until 20 s |
| Scoring.PointsBounds | backend-go/LeaderBoardService/LeaderBoard/ComputeLeaderBoard.go:17-31 | points lie in 0..1000, are 1000 exactly at the earliest time and 0 exactly beyond 19.98 s |
| Scoring.PointsAreMilliseconds | backend-go/LeaderBoardService/LeaderBoard/ComputeLeaderBoard.go:17-31 | 1000 points less one for every 20 ms begun after the earliest time, and none after 20 s |
| Scoring.PointsFall | backend-go/LeaderBoardService/LeaderBoard/ComputeLeaderBoard.go:21-25 | a later correct answer never gets more points |
| Scoring.PointsIgnoreShift | backend-go/LeaderBoardService/LeaderBoard/ComputeLeaderBoard.go:11-17 | shifting all timestamps changes no points |
| Scoring.PointsIgnoreOrder | backend-go/LeaderBoardService/LeaderBoard/ComputeLeaderBoard.go:15-37 | reordering a batch changes no answer's points |
| Scoring.GetEarliestTimestamp | backend-go/LeaderBoardService/Utils/minTimestamp.go:8-18 | the least timestamp of the batch; an empty batch panics |
| Scoring.CurrentPoints | backend-go/LeaderBoardService/LeaderBoard/ComputeLeaderBoard.go:15-37 | the points of every answer, measured from the earliest timestamp |
| Scoring.WhoScores | backend-go/LeaderBoardService/LeaderBoard/ComputeLeaderBoard.go:11-31 | a participant scores if and only if the answer is correct and within 19.98 s of every entry of the batch, answered or not |
| Scoring.OneMissingAnswerZeroesTheBatch | backend-go/LeaderBoardService/Utils/minTimestamp.go:8-18 | an unanswered entry takes everybody else's points |
| Scoring.AnyListingAddsPoints | backend-go/LeaderBoardService/Storage/AddPoits.go:8-17 | in whatever order a batch is sent, each participant's total grows by the participant's points |
| Scoring.SumGrowsByBatch | backend-go/LeaderBoardService/Storage/AddPoits.go:12-14 | the sum of all totals grows by exactly the batch's points |
| Decimal.ItoaInjective | backend-go/real_time/ws/quiz_tracker.go:183 | different options print to different histogram keys |
| Decimal.ItoaReadsBack | backend-go/real_time/ws/quiz_tracker.go:183 | an option prints as its decimal digits, without leading zeros, after a minus sign if it is negative: read back they are the number |
| LeaderBoard.SortUserScoresByScoreDesc | backend-go/LeaderBoardService/Utils/SortUsers.go:8-18 | a descending permutation; the argument is not changed |
| LeaderBoard.PopularAns | backend-go/LeaderBoardService/LeaderBoard/PopularAnsvers.go:8-25 | the keys are the offered and the chosen options, each with the count of its answers |
| LeaderBoard.HistogramConserves | backend-go/LeaderBoardService/LeaderBoard/PopularAnsvers.go:17-23 | the counts add up to the number of answered entries |
| LeaderBoard.HistogramOfEntries | backend-go/LeaderBoardService/LeaderBoard/PopularAnsvers.go:8-25 | the count under a printed option is the number of participants who chose it |
| LeaderBoard.HistogramFitsQuestion | backend-go/real_time/ws/quiz_tracker.go:191-193 | the histogram made with the current question's number of options is that of the previous question if and only if every option that only one of them offers was chosen |
| LeaderBoard.HistogramShowsForeignOption | backend-go/real_time/ws/quiz_tracker.go:191-193 | after a question of two options a question of three makes a third bar appear |
| LeaderBoard.Service.AddScoresBatch | backend-go/LeaderBoardService/Storage/AddPoits.go:8-17 | one increment for each update; no update leaves no key |
| LeaderBoard.Service.LoadLeaderboard | backend-go/LeaderBoardService/Storage/LoadScore.go:9-27 | lists every stored total once |
| LeaderBoard.ListsTotalsOnce | backend-go/LeaderBoardService/Storage/LoadScore.go:9-27 | a listing of the totals has one row for each user with the stored total and no other row |
| LeaderBoard.Service.ComputeLeaderBoard | backend-go/LeaderBoardService/LeaderBoard/ComputeLeaderBoard.go:8-52 | stores the batch's points and returns, in descending order, one row for each stored total; an empty batch fails and stores nothing |
| Connections.RemoveAdmins | backend-go/real_time/ws/connections.go:98-110 | the in-place loop panics exactly when the last of several admins is last in the list, and otherwise keeps the swept list |
| Connections.SweptMisses | backend-go/real_time/ws/connections.go:102-107 | the sweep is the list without admins if and only if no two admins are adjacent |
| Connections.RemovalIsRight | backend-go/real_time/ws/connections.go:98-110 | the receivers are exactly the non-admins, in order, if and only if there is at most one admin, or none adjacent and none last |
| LiveQuizBroadcasts.BroadcastsServe | backend-go/real_time/ws/connections.go:82-110 | a broadcast returns and reaches every non-admin of the room once, in every order of visiting the map, if and only if the room has at most one admin; some order panics if and only if it has more |
| LiveQuizBroadcasts.OneAdminIsServed | backend-go/real_time/ws/handler.go:65-81 | in every run in which at most one user joins a session as an admin, each broadcast returns and reaches a user, once, if and only if the user is connected to the session as a participant at that moment |
| LiveQuizBroadcasts.TwoAdminsPanic | backend-go/real_time/ws/handler.go:65-81 | a run with two admins after which a broadcast can panic |
| LiveQuizRooms.RoomsAreConnections | backend-go/real_time/ws/connections.go:27-80 | in every run a user is in a room in a role if and only if the user connected in that role while the session was registered, and has neither left nor connected again, nor has the session ended, since |
| LiveQuizRooms.AnnouncementsReachParticipants | backend-go/real_time/rabbit/question.go:111-120 | an announcement made in any run logs a flag for a user if and only if the user is connected as a participant at that moment; the flag says whether the answer to the question before the consumer's is right |
| LiveQuizConsumers.ConsumersOfARun | backend-go/real_time/rabbit/question.go:139-152 | in every run a session has one consumer for each completed start; a consumer is cancelled if and only if the session ended while it was the newest one; only cancelled ones have stopped |
| LiveQuizConsumers.StopsWhenEnded | backend-go/real_time/rabbit/question.go:139-152 | in every run a consumer stops if and only if it is between two turns and the session has ended while it was the newest; nothing else changes |
| RosterRuns.AlwaysAligned | backend-go/SessionService/Handlers/ws_list_handler.go:115-175 | after every locked section of every interleaving both maps name the same sessions and users, and a registered connection is open, read by its handler and registered for its own user |
| RosterContents.RegistryOfARun | backend-go/SessionService/Handlers/ws_list_handler.go:115-175 | after every interleaving a session is registered if and only if it was opened last; a user is in its roster, under which name and with which connection, if and only if that connection was accepted while it was open and the user has not been taken out, nor the session closed, since; the service has closed exactly the connections whose users were taken out |
| Roster.SequentialRunsInform | backend-go/SessionService/Handlers/ws_list_handler.go:266-316 | in every sequential run each live connection has last been sent the current roster |
| Roster.RosterOfVisits | backend-go/SessionService/Handlers/ws_list_handler.go:115-175 | in every sequential run the roster is everybody who arrived since the session was last closed and has not departed, under the name given last |
| Roster.SecondLeaveChangesNothing | backend-go/SessionService/Handlers/ws_list_handler.go:151-175 | unregistering a user twice changes no map and closes nothing the second time |
| RosterRuns.LastWriteDecides | backend-go/SessionService/Handlers/ws_list_handler.go:266-280 | in every interleaving a registered connection knows the session if and only if the roster of its last writer is the session's, and it does if the session has not changed since that roster was read |
| RosterRuns.LastBroadcastInforms | backend-go/SessionService/Handlers/ws_list_handler.go:303-316 | in every interleaving a writer that read the roster after the last change, and that alone writes from then on, leaves every connection informed when it is done |
| RosterRuns.EndEvicts | backend-go/SessionService/Handlers/ws_list_handler.go:281-289 | in every interleaving the end of a connection takes away another one, open and being read, if and only if its user is registered with a different connection; that one is closed |
| RosterRuns.ReconnectedUserIsEvicted | backend-go/SessionService/Handlers/ws_list_handler.go:155-161 | a run in which a user reconnects and the end of the first connection closes the second |
| RosterRuns.LateWriterLeavesStale | backend-go/SessionService/Handlers/ws_list_handler.go:266-280 | a run in which both joiners' goroutines have finished and neither connection knows the second user |
| Roster.Registry.RegisterConnection | backend-go/SessionService/Handlers/ws_list_handler.go:133-148 | adds user and name to an existing session and fails otherwise |
| Roster.Registry.Join | backend-go/SessionService/Handlers/ws_list_handler.go:236-280 | registers and sends everybody in the session the new roster |
| Roster.Registry.UnregisterConnection | backend-go/SessionService/Handlers/ws_list_handler.go:151-175 | closes the registered connection, removes the user from both maps and sends the rest the new roster |
| Roster.Registry.SendRoster | backend-go/SessionService/Handlers/ws_list_handler.go:303-316 | every listed connection receives the message and no other |
| QuizListing.TagClauseMeansAllTags | backend-python/shared/shared/repositories/quiz_repo.py:66-74 | on keyed tables the join, group-by and having-count select a quiz if and only if it has every requested tag |
| QuizListing.GroupCount | backend-python/shared/shared/repositories/quiz_repo.py:66-74 | a group has as many rows as the quiz has requested tags |
| QuizListing.DuplicateLinkDefeatsClause | backend-python/shared/shared/db/models.py:96-108 | without the primary key on the link table the clause is wrong |
| QuizListing.ListingIsWhatWasAsked | backend-python/quiz_service/quiz_app/services/quiz_service.py:160-203 | an accepted request selects exactly the readable quizzes its parameters ask for, except that mine=false without user_id selects none |
| QuizListing.RefusedIsUnsatisfiable | backend-python/quiz_service/quiz_app/services/quiz_service.py:160-203 | a request is refused if and only if nothing could match it, or it is anonymous and names a user |
| QuizListing.DefaultListsAccessible | backend-python/quiz_service/quiz_app/services/quiz_service.py:62-64 | without parameters the listing is exactly what get_quiz_by_id allows; own quizzes are the disjoint union of public and private ones |
| QuizListing.ListingIsSoundAndComplete | backend-python/shared/shared/repositories/quiz_repo.py:18-81 | access, parameters and tags together, in both directions: on keyed tables a quiz is listed once if it is stored, readable, asked for and tagged as requested, and not at all otherwise |
| QuizListing.ListedIdsDiffer | backend-python/shared/shared/repositories/quiz_repo.py:30-81 | no id is listed twice |
| QuizStore.GetOrCreateBulk | backend-python/shared/shared/repositories/tag_repo.py:20-37 | one tag for each name in order, names and ids stay unique; fails if and only if a new name is listed twice |
| QuizStore.ExistingTags | backend-python/shared/shared/repositories/tag_repo.py:25-27 | the stored tags among the names, by name |
| QuizStore.RetagNames | backend-python/quiz_service/quiz_app/services/quiz_service.py:90-93 | after retagging, a quiz has exactly the given tag names |
| QuizStore.RetagSparesOthers | backend-python/quiz_service/quiz_app/services/quiz_service.py:90-93 | no other quiz's tags change |
| QuizStore.TaggedQuizIsFound | backend-python/quiz_service/quiz_app/services/quiz_service.py:140-141 | for any normaliser, a quiz tagged from raw tags is matched by a filter made of raw tags if and only if each of them that is not empty normalises to the same name as one that was given |
| QuizStore.Normalize | backend-python/quiz_service/quiz_app/services/quiz_service.py:35 | refused if and only if some raw tag that is not empty cannot be normalised; otherwise a name is in the result if and only if some raw tag that is not empty normalises to it |
| QuizStore.Store.CreateQuiz | backend-python/quiz_service/quiz_app/services/quiz_service.py:23-48 | from raw tags: refused, and nothing changed, if and only if one that is not empty cannot be normalised; otherwise the quiz's tag names are exactly what the others normalise to, and a filter matches if and only if it is a subset of them; keys stay valid, other quizzes keep their tags and no other tags are made |
| QuizStore.Store.UpdateQuiz | backend-python/quiz_service/quiz_app/services/quiz_service.py:70-100 | refusals, also of a tag after the fields have changed, change nothing; given fields replace the old ones, the tag names become exactly what the given raw tags normalise to, and are matched the same way |
| Accounts.AccountsStayUnique | backend-python/auth_service/auth_app/services/auth_service.py:74-95 | for any lower-casing, in every run stored e-mails and usernames are lower-cased and pairwise distinct, up to case if lower-casing is idempotent |
| Accounts.GaugeCountsTokens | backend-python/auth_service/auth_app/services/auth_service.py:115-117 | in every run the active-session gauge is the number of token rows |
| Accounts.OneLiveTokenPerLogin | backend-python/auth_service/auth_app/services/auth_service.py:137-145 | in every run two live tokens never descend from the same login |
| Accounts.ConsumedTokensStayDead | backend-python/auth_service/auth_app/services/auth_service.py:124-137 | a token used up by refresh, logout or logout-all is refused in every later run |
| Accounts.RefreshRotates | backend-python/auth_service/auth_app/services/auth_service.py:124-153 | in every reached world a refresh is granted if and only if its token is live and not expired; it replaces the token by one that was never used, with the same user and login and the new expiry, and leaves the gauge alone; a refused one changes nothing |
| Accounts.LoginIssues | backend-python/auth_service/auth_app/services/auth_service.py:97-122 | in every reached world a login is granted if and only if the password is right and somebody has the lowered e-mail; it then adds one token, never used before, of that user with the given expiry, and raises the gauge; a refused one changes nothing |
| Accounts.TokensBelongToTheirLogins | backend-python/auth_service/auth_app/services/auth_service.py:108-145 | in every run a live token's user is the user who made the login it descends from |
| Accounts.RegisteredAccountsLogIn | backend-python/auth_service/auth_app/services/auth_service.py:74-95 | in every reached world a registration is refused if and only if somebody has the lowered e-mail or username; otherwise it adds one account with what was given, and a login with an e-mail of that lower-casing gets a token of it |
| Accounts.UpdateMeReplaces | backend-python/auth_service/auth_app/services/auth_service.py:165-204 | in every reached world a change is refused if and only if the user is unknown or somebody else has the e-mail or the username; otherwise exactly the given fields are replaced and nobody else's account changes |
| Accounts.LogoutsRevoke | backend-python/auth_service/auth_app/services/auth_service.py:206-224 | a logout removes its token and no other; a logout-all exactly the tokens of its user; no account changes |
| Accounts.RunKeeps | backend-python/auth_service/auth_app/services/auth_service.py:97-224 | from any consistent state the gauge moves with the number of token rows |
| Accounts.AuthService.Register | backend-python/auth_service/auth_app/services/auth_service.py:74-95 | adds a lower-cased account, or changes nothing when e-mail or username is taken |
| Accounts.AuthService.Login | backend-python/auth_service/auth_app/services/auth_service.py:97-122 | issued if and only if the password is right and somebody has the lowered e-mail; adds a token of that user and raises the gauge |
| Accounts.AuthService.Refresh | backend-python/auth_service/auth_app/services/auth_service.py:124-153 | rotates a live token and refuses missing and expired ones |
| Accounts.AuthService.Logout | backend-python/auth_service/auth_app/services/auth_service.py:206-215 | removes a live token and lowers the gauge; an unknown one changes nothing |
| Accounts.AuthService.LogoutAll | backend-python/auth_service/auth_app/services/auth_service.py:217-224 | removes the user's tokens and lowers the gauge by their number |
| Accounts.AuthService.UpdateMe | backend-python/auth_service/auth_app/services/auth_service.py:165-204 | field-by-field change in one transaction; a failure on the username after the e-mail changed leaves the database as it was |

## Left out

- LiveQuizTheorems.CrashesOnlyTooEarly: speaks of the steps modelled here. The broadcasts of a session end and of a question are not among them: `LiveQuizBroadcasts.BroadcastsServe` says when they panic. Go also aborts the process on a map read and written at once (the index is advanced, the answers are read and the consumer tags are kept without the lock), and a websocket write that meets the unlocked welcome message (backend-go/real_time/ws/handler.go:87) or the unlocked close message (backend-go/SessionService/Handlers/ws_list_handler.go:158) can panic.
- LiveQuiz.ApplyEnd: cancelling the consumer and removing the room are one event; other sections that fall between the two have the effect they have before or after both.
- LiveQuiz.ApplyAdvance: incrementing the index and reading it back are one event, though the increment takes no lock.
- LiveQuiz.Apply: the registry's events may come from anyone at any time; the order the connect handler runs its three steps in is not enforced, which only adds runs.
- RosterRuns.Step: a handler reads the connection it has just registered; the code looks it up again, and panics if the user was removed in between.
- Message payloads other than the scored flags and the histogram: question texts, acknowledgements, welcome messages, the admin's board.
- Write errors on websockets and the unregistration they cause.
- Network failures, key expiry, failed commits, and a leaderboard service that answers with an error for any reason but an empty batch.
- Scoring.DecayedIsPoints: uses exact reals; Go computes with doubles, whose truncation can differ by one point.
- Scoring.CurrentPoints: the same.
- JSON: marshalling is taken to be lossless, and a hash field's question number is kept as a number.
- CacheKeys.Glob: classes and escapes in patterns are not interpreted; statements about a session's pattern require its id to be free of glob characters.
- AnswerScan.GetAllAnswers: the question number of an answer is lost in the code as well; the order of one hash's answers is whatever Redis gives.
- SetCurrQuestionIdx, which nothing calls.
- LeaderBoard.SortUserScoresByScoreDesc: pattern-defeating quicksort for long slices is not modelled; the promise is the same.
- The normaliser itself (strip, lower-case and the tag pattern) and lower-casing of accounts are parameters.
- Full-text search, ranking, paging and the order of a page.
- Deleting quizzes, reading a profile, cascades from deleted users.
- JWT, bcrypt and uuid4: the password check is a parameter, ids are drawn from counters so that they are fresh.
- Accounts: transactions run one after another; the unique constraints that would decide between overlapping ones are not modelled.
- The session service's HTTP handlers, session codes, RabbitMQ and Redis clients, the image and user services, the frontend.
