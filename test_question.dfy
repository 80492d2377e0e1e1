/** One answered question of a test and its getters (`TestQuestion.ts`). */
module TestQuestion {
  import opened Wrappers
  import opened JsMath

  datatype TestQuestion = TestQuestion(
    testResultId: string,
    wordId: string,
    isCorrect: bool,
    userAnswer: Option<string>,
    correctAnswer: string,
    responseTimeMs: Option<int>)

  datatype TimeLevel = Fast | Normal | Slow | VerySlow

  /** Slower levels rank higher. */
  function Rank(l: TimeLevel): nat {
    match l
    case Fast => 0
    case Normal => 1
    case Slow => 2
    case VerySlow => 3
  }

  /** `isIncorrect`: exactly one of correct and incorrect holds. */
  function IsIncorrect(q: TestQuestion): (b: bool)
    ensures b != q.isCorrect
  {
    !q.isCorrect
  }

  /** `responseTimeLevel`: no level without a (non-zero) time; up to 2 s
      fast, up to 5 s normal, up to 10 s slow, beyond that very slow. */
  function ResponseTimeLevel(q: TestQuestion): (r: Option<TimeLevel>)
    ensures r.None? <==> Truthy(q.responseTimeMs).None?
    ensures r == Some(Fast) <==> Truthy(q.responseTimeMs).Some? && q.responseTimeMs.value <= 2000
    ensures r == Some(Normal) <==> Truthy(q.responseTimeMs).Some? && 2000 < q.responseTimeMs.value <= 5000
    ensures r == Some(Slow) <==> Truthy(q.responseTimeMs).Some? && 5000 < q.responseTimeMs.value <= 10000
    ensures r == Some(VerySlow) <==> Truthy(q.responseTimeMs).Some? && 10000 < q.responseTimeMs.value
  {
    match Truthy(q.responseTimeMs)
    case None => None
    case Some(t) =>
      if t <= 2000 then Some(Fast)
      else if t <= 5000 then Some(Normal)
      else if t <= 10000 then Some(Slow)
      else Some(VerySlow)
  }

  /** A slower answer never gets a faster level. */
  lemma ResponseTimeLevelMonotone(q1: TestQuestion, q2: TestQuestion)
    requires ResponseTimeLevel(q1).Some? && ResponseTimeLevel(q2).Some?
    requires q1.responseTimeMs.value <= q2.responseTimeMs.value
    ensures Rank(ResponseTimeLevel(q1).value) <= Rank(ResponseTimeLevel(q2).value)
  {
  }

  /** `hasUserAnswer`: an answer is recorded and is not the empty string. */
  function HasUserAnswer(q: TestQuestion): (b: bool)
    ensures b <==> q.userAnswer.Some? && |q.userAnswer.value| > 0
  {
    match q.userAnswer
    case None => false
    case Some(a) => a != ""
  }

  /** `isAnswerMatch`: strict equality of the recorded answer and the
      correct one; no recorded answer never matches. */
  function IsAnswerMatch(q: TestQuestion): (b: bool)
    ensures b <==> q.userAnswer.Some? && q.userAnswer.value == q.correctAnswer
    ensures b && q.correctAnswer != "" ==> HasUserAnswer(q)
  {
    q.userAnswer == Some(q.correctAnswer)
  }
}
