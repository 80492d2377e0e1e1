/** The spaced-repetition record of one word (`SrsManagement.ts`) and
    its getters. Times are milliseconds since the epoch; the ease factor
    is kept in tenths: 25 stands for 2.5. */
module SrsManagement {
  import opened Wrappers
  import opened JsMath

  /** Mastery levels from this one on count as mastered. */
  const MasteredLevel: int := 9

  datatype SrsRecord = SrsRecord(
    wordId: string,
    masteryLevel: int,
    easeTenths: int,
    nextReviewDate: Option<int>,
    intervalDays: int,
    mistakeCount: int,
    lastReviewed: Option<int>)

  /** `nextReviewDateTimestamp`: the stored date, or null when it is
      falsy. */
  function NextReviewDateTimestamp(rec: SrsRecord): (r: Option<int>)
    ensures r.None? <==> rec.nextReviewDate.None? || rec.nextReviewDate == Some(0)
    ensures r.Some? ==> r == rec.nextReviewDate
  {
    Truthy(rec.nextReviewDate)
  }

  /** `lastReviewedTimestamp`: the stored time, or null when it is falsy. */
  function LastReviewedTimestamp(rec: SrsRecord): (r: Option<int>)
    ensures r.None? <==> rec.lastReviewed.None? || rec.lastReviewed == Some(0)
    ensures r.Some? ==> r == rec.lastReviewed
  {
    Truthy(rec.lastReviewed)
  }

  /** `isDueToday`: a review date is set and is not after `now`. */
  function IsDueToday(rec: SrsRecord, now: int): (due: bool)
    ensures rec.nextReviewDate.None? || rec.nextReviewDate == Some(0) ==> !due
    ensures due <==> rec.nextReviewDate.Some? && rec.nextReviewDate.value != 0 && rec.nextReviewDate.value <= now
  {
    if Truthy(rec.nextReviewDate).None? then false
    else rec.nextReviewDate.value <= now
  }

  predicate IsLearning(rec: SrsRecord) {
    rec.masteryLevel < MasteredLevel
  }

  /** `isMastered`: the complement of `isLearning`, so exactly one of
      them holds for every record. */
  function IsMastered(rec: SrsRecord): (b: bool)
    ensures b <==> !IsLearning(rec)
  {
    rec.masteryLevel >= MasteredLevel
  }

  /** A record is due from the moment its review date passes, and stays
      due. */
  lemma DueStaysDue(rec: SrsRecord, now: int, later: int)
    requires now <= later && IsDueToday(rec, now)
    ensures IsDueToday(rec, later)
  {
  }
}
