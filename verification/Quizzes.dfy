/** Quizzes as the services exchange them, the answers participants give, and
    the way a Go operation can end. */
module Quizzes {

  type SessionId = string
  type UserId = string

  datatype Role = Admin | Participant

  /** A Go operation either completes or panics. */
  datatype Outcome<+T> = Done(value: T) | Panic

  datatype Choice = Choice(text: string, isCorrect: bool)

  datatype Question = Question(kind: string, text: string, imageUrl: string, options: seq<Choice>)

  /** The zero values a Go lookup yields when nothing is found. */
  const NO_CHOICE := Choice("", false)
  const NO_QUESTION := Question("", "", "", [])

  datatype Quiz = Quiz(questions: seq<Question>) {
    function Len(): nat {
      |questions|
    }

    function GetQuestion(idx: int): Question {
      if idx < 0 || idx >= |questions| then NO_QUESTION else questions[idx]
    }

    /** The option that grades question idx: the first one marked correct, or
        option 0 when no option is marked or idx is out of range. */
    function Key(idx: int): int {
      GetCorrectOption(GetQuestion(idx)).0
    }
  }

  function FirstCorrect(options: seq<Choice>, i: nat): (r: nat)
    requires i <= |options|
    ensures i <= r <= |options|
    ensures forall j :: i <= j < r ==> !options[j].isCorrect
    ensures r < |options| ==> options[r].isCorrect
    decreases |options| - i
  {
    if i == |options| || options[i].isCorrect then i else FirstCorrect(options, i + 1)
  }

  function GetCorrectOption(q: Question): (r: (int, Choice))
    ensures 0 <= r.0 && (r.0 < |q.options| || r.0 == 0)
    ensures (exists j :: 0 <= j < |q.options| && q.options[j].isCorrect) ==>
              r.0 < |q.options| && r.1 == q.options[r.0] && r.1.isCorrect
    ensures forall j :: 0 <= j < r.0 ==> !q.options[j].isCorrect
    ensures (forall j :: 0 <= j < |q.options| ==> !q.options[j].isCorrect) ==> r == (0, NO_CHOICE)
  {
    var i := FirstCorrect(q.options, 0);
    if i < |q.options| then (i, q.options[i]) else (0, NO_CHOICE)
  }

  predicate HasMark(options: seq<Choice>) {
    exists j :: 0 <= j < |options| && options[j].isCorrect
  }

  /** What makes an answer to question g right, read off the quiz itself: it is the
      first option marked correct. Where nothing is marked, and where there is no
      question g, option 0 is. */
  predicate IsRight(quiz: Quiz, g: int, option: int) {
    if 0 <= g < |quiz.questions| && HasMark(quiz.questions[g].options) then
      var options := quiz.questions[g].options;
      && 0 <= option < |options| && options[option].isCorrect
      && forall j :: 0 <= j < option ==> !options[j].isCorrect
    else option == 0
  }

  lemma KeyIsRight(quiz: Quiz, g: int, option: int)
    ensures option == quiz.Key(g) <==> IsRight(quiz, g, option)
  {
    if 0 <= g < |quiz.questions| && HasMark(quiz.questions[g].options) {
      var options := quiz.questions[g].options;
      var j :| 0 <= j < |options| && options[j].isCorrect;
    }
  }

  /** A quiz in progress: the index is -1 until the first question starts. */
  datatype OngoingQuiz = OngoingQuiz(currQuestionIdx: int, quizData: Quiz)

  /** What Go reads for a session that the tracker does not hold. */
  const NO_QUIZ := OngoingQuiz(0, Quiz([]))

  /** Timestamps count nanoseconds from Go's zero time. */
  datatype UserAnswer = UserAnswer(answered: bool, option: int, correct: bool, timestamp: int)

  const NO_ANSWER := UserAnswer(false, 0, false, 0)

  function Blank(n: nat): (r: seq<UserAnswer>)
    ensures |r| == n
    ensures forall i :: 0 <= i < n ==> r[i] == NO_ANSWER
  {
    seq(n, _ => NO_ANSWER)
  }

  function Get<K, V>(m: map<K, V>, k: K, default: V): V {
    if k in m then m[k] else default
  }
}
