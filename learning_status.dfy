/** The learning status of one word and its getters
    (`LearningStatus.ts`). */
module LearningStatus {
  import opened Wrappers
  import opened JsMath

  datatype LearningStatus = LearningStatus(
    wordId: string,
    isLearned: bool,
    isMarkedForReview: bool,
    learnedDate: Option<int>,
    markedDate: Option<int>,
    learningSessionCount: int)

  /** `learnedDateObj`: the learned date, or none when it is missing or
      zero. */
  function LearnedDateObj(s: LearningStatus): (d: Option<int>)
    ensures d.None? <==> s.learnedDate.None? || s.learnedDate == Some(0)
    ensures d.Some? ==> d == s.learnedDate
  {
    Truthy(s.learnedDate)
  }

  /** `markedDateObj`: the marked date, or none when it is missing or
      zero. */
  function MarkedDateObj(s: LearningStatus): (d: Option<int>)
    ensures d.None? <==> s.markedDate.None? || s.markedDate == Some(0)
    ensures d.Some? ==> d == s.markedDate
  {
    Truthy(s.markedDate)
  }

  /** `isLearnedAndMarked`. */
  function IsLearnedAndMarked(s: LearningStatus): (b: bool)
    ensures b ==> s.isLearned
    ensures b ==> s.isMarkedForReview
    ensures s.isLearned && s.isMarkedForReview ==> b
  {
    s.isLearned && s.isMarkedForReview
  }

  /** `isFrequentlyStudied`: three sessions or more. */
  function IsFrequentlyStudied(s: LearningStatus): (b: bool)
    ensures b <==> s.learningSessionCount >= 3
  {
    s.learningSessionCount >= 3
  }

  /** One more session never makes a frequently studied word infrequent. */
  lemma FrequentStaysFrequent(s: LearningStatus)
    requires IsFrequentlyStudied(s)
    ensures IsFrequentlyStudied(s.(learningSessionCount := s.learningSessionCount + 1))
  {
  }
}
