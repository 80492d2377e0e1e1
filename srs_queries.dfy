/** The spaced-repetition queries (`srsQueries.ts`): looking a record up
    by word, registering a word, the update after a mistake, and the
    number of days until a review.

    The SRS table is an object whose record list the queries change in
    place. Time is a parameter: `now` in milliseconds since the epoch; a
    calendar day is the number of whole days since the epoch, so local
    midnight is a multiple of `DayMs`. A storage failure is the
    parameter `fails`. */
module SrsQueries {
  import opened Wrappers
  import opened SrsManagement
  import opened JsMath

  const DayMs: nat := 1000 * 60 * 60 * 24

  /** The initial ease factor 2.5 and its floor 1.3, in tenths. */
  const InitialEase: int := 25
  const MinEase: int := 13
  /** The ease factor lost on a mistake: 0.2. */
  const EasePenalty: int := 2

  // ---------------------------------------------------------------------
  // Calendar days.

  /** The calendar day of a time. */
  function DayOf(t: int): int {
    t / DayMs
  }

  /** `setHours(0, 0, 0, 0)`: midnight at the start of `t`'s day. */
  function StartOfDay(t: int): (m: int)
    ensures m <= t < m + DayMs
    ensures m % DayMs == 0
    ensures DayOf(m) == DayOf(t)
  {
    DayOf(t) * DayMs
  }

  /** `setDate(getDate() + 1); setHours(0, 0, 0, 0)`: the next midnight. */
  function TomorrowMidnight(now: int): (m: int)
    ensures now < m <= now + DayMs
    ensures m % DayMs == 0
    ensures DayOf(m) == DayOf(now) + 1
  {
    StartOfDay(now) + DayMs
  }

  /** `calculateDaysToReview(nextReviewDate)` on day `now`: the number of
      calendar days from today to the review day, and 0 for a review day
      that has passed. */
  function DaysToReview(nextReviewDate: int, now: int): (days: nat)
    ensures days == if DayOf(nextReviewDate) > DayOf(now) then DayOf(nextReviewDate) - DayOf(now) else 0
  {
    var today := StartOfDay(now);
    var reviewDate := StartOfDay(nextReviewDate);
    var diffTime := reviewDate - today;
    var diffDays := CeilDiv(diffTime, DayMs);
    assert diffTime == (DayOf(nextReviewDate) - DayOf(now)) * DayMs;
    assert diffDays == DayOf(nextReviewDate) - DayOf(now) by {
      CeilOfMultiple(DayOf(nextReviewDate) - DayOf(now), DayMs);
    }
    if diffDays > 0 then diffDays else 0
  }

  /** A review time that is not after `now` is due at once: 0 days. */
  lemma PastReviewIsZero(nextReviewDate: int, now: int)
    requires nextReviewDate <= now
    ensures DaysToReview(nextReviewDate, now) == 0
  {
    DayOfMonotone(nextReviewDate, now);
  }

  lemma DayOfMonotone(a: int, b: int)
    requires a <= b
    ensures DayOf(a) <= DayOf(b)
  {
    if DayOf(a) > DayOf(b) {
      MulMono(DayOf(b) + 1, DayOf(a), DayMs);
    }
  }

  /** Only the calendar day counts: two times on the same day give the
      same number of days, whatever the hour. */
  lemma SameDaySameCount(t1: int, t2: int, now: int)
    requires DayOf(t1) == DayOf(t2)
    ensures DaysToReview(t1, now) == DaysToReview(t2, now)
  {
  }

  /** Any time `n` days after today's midnight, at any hour of that day,
      is `n` days away. */
  lemma DaysAheadCount(now: int, n: nat, hourMs: nat)
    requires hourMs < DayMs
    ensures DaysToReview(StartOfDay(now) + n * DayMs + hourMs, now) == n
  {
    var t := StartOfDay(now) + n * DayMs + hourMs;
    assert t == (DayOf(now) + n) * DayMs + hourMs;
    DayOfOffset(DayOf(now) + n, hourMs);
  }

  lemma DayOfOffset(d: int, hourMs: nat)
    requires hourMs < DayMs
    ensures DayOf(d * DayMs + hourMs) == d
  {
    var t := d * DayMs + hourMs;
    var q := DayOf(t);
    assert q * DayMs <= t < q * DayMs + DayMs;
    if q < d {
      MulMono(q + 1, d, DayMs);
    } else if q > d {
      MulMono(d + 1, q, DayMs);
    }
  }

  /** `DaysToReview` agrees with `isDueToday`: a due record is 0 days away. */
  lemma DueIsZeroDays(rec: SrsRecord, now: int)
    requires IsDueToday(rec, now)
    ensures DaysToReview(rec.nextReviewDate.value, now) == 0
  {
    PastReviewIsZero(rec.nextReviewDate.value, now);
  }

  // ---------------------------------------------------------------------
  // Records.

  /** The bounds every stored record keeps. */
  predicate WellFormed(rec: SrsRecord) {
    rec.masteryLevel >= 0 && rec.easeTenths >= MinEase && rec.intervalDays >= 1 && rec.mistakeCount >= 0
  }

  /** The record `createSrsManagement(wordId, fromMistake)` stores: a
      learning record for the word, due at the next midnight, with one
      mistake when it comes from a wrong answer. */
  function NewRecord(wordId: string, fromMistake: bool, now: int): (rec: SrsRecord)
    ensures rec.wordId == wordId && WellFormed(rec) && IsLearning(rec)
    ensures rec.masteryLevel == 0 && rec.easeTenths == InitialEase && rec.intervalDays == 1
    ensures rec.mistakeCount == 1 <==> fromMistake
    ensures rec.mistakeCount == 0 <==> !fromMistake
    ensures rec.lastReviewed.None?
    ensures rec.nextReviewDate == Some(TomorrowMidnight(now))
    ensures rec.nextReviewDate.Some? && !IsDueToday(rec, now)
    ensures DaysToReview(rec.nextReviewDate.value, now) == 1
  {
    SrsRecord(
      wordId := wordId,
      masteryLevel := 0,
      easeTenths := InitialEase,
      nextReviewDate := Some(TomorrowMidnight(now)),
      intervalDays := 1,
      mistakeCount := if fromMistake then 1 else 0,
      lastReviewed := None)
  }

  /** The fields `updateSrsForMistake` writes: one mastery level lost
      (not below 0), 0.2 off the ease factor (not below 1.3), interval
      back to one day, review at the next midnight, one more mistake,
      reviewed now. The word is kept. */
  function MistakeUpdate(rec: SrsRecord, now: int): (r: SrsRecord)
    ensures r.wordId == rec.wordId
    ensures r.masteryLevel == if rec.masteryLevel >= 1 then rec.masteryLevel - 1 else 0
    ensures r.easeTenths == if rec.easeTenths - EasePenalty >= MinEase then rec.easeTenths - EasePenalty else MinEase
    ensures r.intervalDays == 1 && r.mistakeCount == rec.mistakeCount + 1
    ensures r.lastReviewed == Some(now)
    ensures r.nextReviewDate == Some(TomorrowMidnight(now))
    ensures r.nextReviewDate.Some? && !IsDueToday(r, now) && DaysToReview(r.nextReviewDate.value, now) == 1
    ensures WellFormed(rec) ==> WellFormed(r)
    ensures WellFormed(rec) ==> r.masteryLevel <= rec.masteryLevel && r.easeTenths <= rec.easeTenths
  {
    rec.(
      masteryLevel := Max(0, rec.masteryLevel - 1),
      easeTenths := Max(MinEase, rec.easeTenths - EasePenalty),
      intervalDays := 1,
      nextReviewDate := Some(TomorrowMidnight(now)),
      mistakeCount := rec.mistakeCount + 1,
      lastReviewed := Some(now))
  }

  /** `n` mistakes in a row, at the same moment. */
  function Mistakes(rec: SrsRecord, n: nat, now: int): SrsRecord {
    if n == 0 then rec else MistakeUpdate(Mistakes(rec, n - 1, now), now)
  }

  /** After `n` mistakes a record has lost `n` levels and `n` times 0.2 of
      its ease, each clamped at its floor, and counts `n` more mistakes. */
  lemma {:induction false} MistakesClamp(rec: SrsRecord, n: nat, now: int)
    requires WellFormed(rec)
    ensures var r := Mistakes(rec, n, now);
            WellFormed(r) &&
            r.masteryLevel == Max(0, rec.masteryLevel - n) &&
            r.easeTenths == Max(MinEase, rec.easeTenths - EasePenalty * n) &&
            r.mistakeCount == rec.mistakeCount + n
  {
    if n > 0 {
      MistakesClamp(rec, n - 1, now);
    }
  }

  /** The first record for `wordId` at or after `k`, as `Array.find`. */
  function FirstForWord(records: seq<SrsRecord>, wordId: string, k: nat): (r: Option<nat>)
    requires k <= |records|
    ensures r.Some? ==> k <= r.value < |records| && records[r.value].wordId == wordId
    ensures r.Some? ==> forall j :: k <= j < r.value ==> records[j].wordId != wordId
    ensures r.None? ==> forall j :: k <= j < |records| ==> records[j].wordId != wordId
    decreases |records| - k
  {
    if k == |records| then None
    else if records[k].wordId == wordId then Some(k)
    else FirstForWord(records, wordId, k + 1)
  }

  // ---------------------------------------------------------------------
  // The table.

  class SrsTable {
    var records: seq<SrsRecord>

    ghost predicate Valid()
      reads this
    {
      forall i :: 0 <= i < |records| ==> WellFormed(records[i])
    }

    constructor ()
      ensures records == [] && Valid()
    {
      records := [];
    }

    /** `getSrsManagementByWordId`: the position of the first record for
        the word; none when there is none or the fetch fails. */
    function GetByWordId(wordId: string, fails: bool): (r: Option<nat>)
      reads this
      ensures fails ==> r.None?
      ensures !fails && r.Some? ==> r.value < |records| && records[r.value].wordId == wordId
      ensures !fails && r.Some? ==> forall j :: 0 <= j < r.value ==> records[j].wordId != wordId
      ensures !fails && r.None? ==> forall j :: 0 <= j < |records| ==> records[j].wordId != wordId
    {
      if fails then None else FirstForWord(records, wordId, 0)
    }

    /** `createSrsManagement`: appends the new record and returns it; a
        failed write leaves the table as it was and returns none. */
    method Create(wordId: string, fromMistake: bool, now: int, fails: bool) returns (r: Option<SrsRecord>)
      requires Valid()
      modifies this
      ensures Valid()
      ensures fails ==> r.None? && records == old(records)
      ensures !fails ==> r == Some(NewRecord(wordId, fromMistake, now)) && records == old(records) + [r.value]
    {
      if fails {
        return None;
      }
      var rec := NewRecord(wordId, fromMistake, now);
      records := records + [rec];
      return Some(rec);
    }

    /** `updateSrsForMistake` on the record at position `i`: that record
        is overwritten with its mistake update, every other is kept; a
        failed write changes nothing and returns none. */
    method UpdateForMistake(i: nat, now: int, fails: bool) returns (r: Option<SrsRecord>)
      requires Valid() && i < |records|
      modifies this
      ensures Valid()
      ensures fails ==> r.None? && records == old(records)
      ensures !fails ==> r == Some(MistakeUpdate(old(records)[i], now)) && records == old(records)[i := r.value]
    {
      if fails {
        return None;
      }
      var rec := records[i];
      rec := rec.(masteryLevel := Max(0, rec.masteryLevel - 1));
      rec := rec.(easeTenths := Max(MinEase, rec.easeTenths - EasePenalty));
      rec := rec.(intervalDays := 1);
      rec := rec.(nextReviewDate := Some(TomorrowMidnight(now)));
      rec := rec.(mistakeCount := rec.mistakeCount + 1);
      rec := rec.(lastReviewed := Some(now));
      records := records[i := rec];
      return Some(rec);
    }
  }
}
