/** The result of one test and its getters (`TestResult.ts`). Rates and
    durations are JavaScript numbers, so they are `real` here. */
module TestResult {
  import opened Wrappers

  datatype TestResult = TestResult(
    grade: int,
    unit: int,
    testType: string,
    correctAnswers: int,
    totalQuestions: int,
    accuracyRate: real,
    durationSeconds: Option<real>,
    testDate: int)

  datatype ScoreLevel = Excellent | Good | Fair | Poor

  /** `Math.round`: the nearest integer, halves rounded up. */
  function Round(x: real): (n: int)
    ensures n as real - 0.5 <= x < n as real + 0.5
  {
    (x + 0.5).Floor
  }

  /** `durationMinutes`: none for a missing or zero duration, else the
      duration in whole minutes, rounded to nearest. */
  function DurationMinutes(r: TestResult): (m: Option<int>)
    ensures m.None? <==> r.durationSeconds.None? || r.durationSeconds.value == 0.0
    ensures m.Some? ==> m.value as real * 60.0 - 30.0 <= r.durationSeconds.value < m.value as real * 60.0 + 30.0
  {
    match r.durationSeconds
    case None => None
    case Some(s) => if s == 0.0 then None else Some(Round(s / 60.0))
  }

  predicate IsListeningTest(r: TestResult) {
    r.testType == "listening"
  }

  predicate IsReadingTest(r: TestResult) {
    r.testType == "reading"
  }

  /** A test is never both a listening and a reading test. */
  lemma NotBothTestTypes(r: TestResult)
    ensures !(IsListeningTest(r) && IsReadingTest(r))
  {
    assert "listening"[0] != "reading"[0];
  }

  /** `scoreLevel`: excellent from 90, good from 70, fair from 50, else
      poor. */
  function ScoreLevelOf(r: TestResult): (l: ScoreLevel)
    ensures l == Excellent <==> r.accuracyRate >= 90.0
    ensures l == Good <==> 70.0 <= r.accuracyRate < 90.0
    ensures l == Fair <==> 50.0 <= r.accuracyRate < 70.0
    ensures l == Poor <==> r.accuracyRate < 50.0
  {
    if r.accuracyRate >= 90.0 then Excellent
    else if r.accuracyRate >= 70.0 then Good
    else if r.accuracyRate >= 50.0 then Fair
    else Poor
  }

  function LevelRank(l: ScoreLevel): nat {
    match l
    case Poor => 0
    case Fair => 1
    case Good => 2
    case Excellent => 3
  }

  /** A higher rate never gets a lower level. */
  lemma ScoreLevelMonotone(r1: TestResult, r2: TestResult)
    requires r1.accuracyRate <= r2.accuracyRate
    ensures LevelRank(ScoreLevelOf(r1)) <= LevelRank(ScoreLevelOf(r2))
  {
  }

  /** `incorrectAnswers`: the questions not answered correctly, so the
      correct and incorrect counts add up to the total. */
  function IncorrectAnswers(r: TestResult): (n: int)
    ensures r.correctAnswers + n == r.totalQuestions
  {
    r.totalQuestions - r.correctAnswers
  }
}
