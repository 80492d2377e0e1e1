/** The daily learning-progress table (`learningProgressQueries.ts`):
    one snapshot of the mastered counts per date and grade. Dates are
    `yyyy-MM-dd` strings. */
module LearningProgressQueries {
  import opened Wrappers
  import opened Sorting
  import opened WordModel
  import opened WordQueries
  import opened WordMasteryQueries

  datatype LearningProgress = LearningProgress(
    date: string,
    grade: int,
    listeningMasteredCount: int,
    readingMasteredCount: int,
    totalWordsCount: int)

  /** Which steps of the upsert fail. A failing count query yields 0 and a
      failing lookup yields "not found", as each catches its own error;
      a failing write makes the whole upsert return null. */
  datatype Faults = Faults(listening: bool, reading: bool, total: bool, lookup: bool, write: bool)

  predicate IsKey(p: LearningProgress, date: string, grade: int) {
    p.date == date && p.grade == grade
  }

  /** Position of the first record for the date and grade, or -1. */
  function KeyIndex(rs: seq<LearningProgress>, date: string, grade: int): (k: int)
    ensures k == -1 || (0 <= k < |rs| && IsKey(rs[k], date, grade))
    ensures k == -1 <==> forall i :: 0 <= i < |rs| ==> !IsKey(rs[i], date, grade)
    ensures k != -1 ==> forall i :: 0 <= i < k ==> !IsKey(rs[i], date, grade)
  {
    FirstIndex(rs, (p: LearningProgress) => IsKey(p, date, grade))
  }

  /** At most one record per (date, grade). */
  predicate UniqueKeys(rs: seq<LearningProgress>) {
    forall i, j :: 0 <= i < j < |rs| ==> !IsKey(rs[j], rs[i].date, rs[i].grade)
  }

  /** The table after storing `p`: the record with its key is replaced
      when there is one, else `p` is added. */
  function Upserted(rs: seq<LearningProgress>, p: LearningProgress): seq<LearningProgress> {
    var k := KeyIndex(rs, p.date, p.grade);
    if k == -1 then rs + [p] else rs[k := p]
  }

  /** Storing keeps one record per key; the stored record is found by its
      key afterwards. */
  lemma UpsertedKeepsUnique(rs: seq<LearningProgress>, p: LearningProgress)
    requires UniqueKeys(rs)
    ensures UniqueKeys(Upserted(rs, p))
    ensures KeyIndex(Upserted(rs, p), p.date, p.grade) != -1
    ensures Upserted(rs, p)[KeyIndex(Upserted(rs, p), p.date, p.grade)] == p
  {
    var k := KeyIndex(rs, p.date, p.grade);
    var r := Upserted(rs, p);
    if k == -1 {
      assert r[|rs|] == p;
      assert forall i :: 0 <= i < |rs| ==> r[i] == rs[i];
    } else {
      assert IsKey(r[k], p.date, p.grade);
      assert forall i :: 0 <= i < k ==> r[i] == rs[i];
      forall i, j | 0 <= i < j < |r|
        ensures !IsKey(r[j], r[i].date, r[i].grade)
      {
        if i == k {
          assert !IsKey(rs[j], rs[k].date, rs[k].grade);
        } else if j == k {
          assert !IsKey(rs[k], rs[i].date, rs[i].grade);
        }
      }
    }
  }

  /** Storing a record twice under the same key keeps only the second. */
  lemma UpsertedTwice(rs: seq<LearningProgress>, p: LearningProgress, q: LearningProgress)
    requires p.date == q.date && p.grade == q.grade
    ensures Upserted(Upserted(rs, p), q) == Upserted(rs, q)
  {
    var k := KeyIndex(rs, p.date, p.grade);
    var r := Upserted(rs, p);
    if k == -1 {
      assert r[|rs|] == p;
      assert forall i :: 0 <= i < |rs| ==> r[i] == rs[i];
      assert KeyIndex(r, q.date, q.grade) == |rs|;
      assert r[|rs| := q] == rs + [q];
    } else {
      assert IsKey(r[k], p.date, p.grade);
      assert forall i :: 0 <= i < k ==> r[i] == rs[i];
      assert KeyIndex(r, q.date, q.grade) == k;
    }
  }

  /** `date || format(Date.now(), 'yyyy-MM-dd')`: a missing or empty date
      means today. */
  function TargetDate(date: Option<string>, today: string): (d: string)
    ensures date.Some? && date.value != "" ==> d == date.value
    ensures date.None? || date == Some("") ==> d == today
  {
    match date
    case Some(s) => if s != "" then s else today
    case None => today
  }

  /** Newest date first. */
  predicate DateDesc(a: LearningProgress, b: LearningProgress) {
    LexLe(b.date, a.date)
  }

  lemma DateDescTotal()
    ensures Total(DateDesc)
  {
    forall a: LearningProgress, b: LearningProgress
      ensures DateDesc(a, b) || DateDesc(b, a)
    {
      LexLeTotalAt(a.date, b.date);
    }
  }

  /** The records of the grade whose date lies between the two bounds. */
  predicate InWindow(p: LearningProgress, grade: int, startDateStr: string, endDateStr: string) {
    p.grade == grade && LexLe(startDateStr, p.date) && LexLe(p.date, endDateStr)
  }

  /** The window of `getRecentLearningProgress`: from `days - 1` days
      before `now` up to `now`, both rendered as dates by `format`. */
  predicate Recent(p: LearningProgress, grade: int, days: int, now: int, format: int -> string) {
    var endDate := now;
    var startDate := endDate - (days - 1) * 24 * 60 * 60 * 1000;
    InWindow(p, grade, format(startDate), format(endDate))
  }

  class ProgressTable {
    var records: seq<LearningProgress>

    constructor()
      ensures records == []
    {
      records := [];
    }

    /** `getLearningProgressByDate`: the first record for the date and
        grade; none when there is none or the query fails. */
    function GetLearningProgressByDate(date: string, grade: int, fails: bool): (r: Option<LearningProgress>)
      reads this
      ensures fails ==> r.None?
      ensures !fails && r.Some? ==> 0 <= KeyIndex(records, date, grade) && r.value == records[KeyIndex(records, date, grade)]
      ensures !fails && r.None? <==> !fails && forall i :: 0 <= i < |records| ==> !IsKey(records[i], date, grade)
      ensures r.Some? ==> IsKey(r.value, date, grade)
    {
      if fails then None
      else
        var k := KeyIndex(records, date, grade);
        if k == -1 then None else Some(records[k])
    }

    /** `getRecentLearningProgress`: the grade's records dated from `days
        - 1` days before `now` up to `now` (dates rendered by `format`),
        newest first; none when the query fails. */
    function GetRecentLearningProgress(grade: int, days: int, now: int, format: int -> string, fails: bool): (r: seq<LearningProgress>)
      reads this
      ensures fails ==> r == []
      ensures forall p :: p in r <==> !fails && p in records && Recent(p, grade, days, now, format)
      ensures SortedBy(r, DateDesc)
      ensures !fails ==> multiset(r) == multiset(Filter(records, (p: LearningProgress) => Recent(p, grade, days, now, format)))
    {
      if fails then []
      else
        var f := Filter(records, (p: LearningProgress) => Recent(p, grade, days, now, format));
        DateDescTotal();
        SortByMembers(f, DateDesc);
        SortBy(f, DateDesc)
    }

    /** `updateOrCreateLearningProgress`: takes a snapshot of the grade's
        current mastered and total counts for the target date, replacing
        the date's record when the lookup finds one and adding a record
        otherwise; a failed write changes nothing and returns null. */
    method UpdateOrCreateLearningProgress(grade: int, date: Option<string>, today: string,
                                          mastery: MasteryTable, words: seq<Word>, faults: Faults)
      returns (r: Option<LearningProgress>)
      modifies this
      ensures faults.write ==> r.None? && records == old(records)
      ensures !faults.write ==> r == Some(LearningProgress(TargetDate(date, today), grade,
        if faults.listening then 0 else MasteredCountOf(mastery.records, words, Listening, grade),
        if faults.reading then 0 else MasteredCountOf(mastery.records, words, Reading, grade),
        if faults.total then 0 else WordCountByGrade(words, grade)))
      ensures !faults.write && !faults.lookup ==> records == Upserted(old(records), r.value)
      ensures !faults.write && faults.lookup ==> records == old(records) + [r.value]
    {
      var targetDate := TargetDate(date, today);
      var listeningMasteredCount := mastery.MasteredCount(Listening, grade, words, faults.listening);
      var readingMasteredCount := mastery.MasteredCount(Reading, grade, words, faults.reading);
      var totalWordsCount := if faults.total then 0 else WordCountByGrade(words, grade);
      var existingProgress := GetLearningProgressByDate(targetDate, grade, faults.lookup);
      if faults.write {
        return None;
      }
      var progress := LearningProgress(targetDate, grade, listeningMasteredCount, readingMasteredCount, totalWordsCount);
      if existingProgress.Some? {
        var k := KeyIndex(records, targetDate, grade);
        records := records[k := progress];
      } else {
        records := records + [progress];
      }
      return Some(progress);
    }
  }
}
