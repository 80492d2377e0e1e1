/** The word-mastery table (`wordMasteryQueries.ts`): one record per word
    and test type passed. */
module WordMasteryQueries {
  import opened Wrappers
  import opened Sorting
  import opened WordModel
  import opened WordQueries

  const Listening: string := "listening"
  const Reading: string := "reading"

  datatype WordMastery = WordMastery(wordId: string, testType: string, masteredDate: int)

  predicate HasKey(rs: seq<WordMastery>, wordId: string, testType: string) {
    exists i :: 0 <= i < |rs| && rs[i].wordId == wordId && rs[i].testType == testType
  }

  /** At most one record per (word, test type). */
  predicate UniqueKeys(rs: seq<WordMastery>) {
    forall i, j :: 0 <= i < j < |rs| ==> !(rs[i].wordId == rs[j].wordId && rs[i].testType == rs[j].testType)
  }

  /** The table after `createWordMastery(wordId, testType)` at time `now`
      succeeds: unchanged when the pair is already recorded, else with one
      record for it added. */
  function WithMastery(rs: seq<WordMastery>, wordId: string, testType: string, now: int): seq<WordMastery> {
    if HasKey(rs, wordId, testType) then rs else rs + [WordMastery(wordId, testType, now)]
  }

  /** After the insert the pair is recorded, and nothing else is added. */
  lemma WithMasteryRecords(rs: seq<WordMastery>, wordId: string, testType: string, now: int)
    ensures HasKey(WithMastery(rs, wordId, testType, now), wordId, testType)
    ensures forall m :: m in WithMastery(rs, wordId, testType, now) ==> m in rs || m == WordMastery(wordId, testType, now)
    ensures |WithMastery(rs, wordId, testType, now)| <= |rs| + 1
  {
    var r := WithMastery(rs, wordId, testType, now);
    if !HasKey(rs, wordId, testType) {
      assert r[|rs|] == WordMastery(wordId, testType, now);
    }
  }

  /** Inserting keeps at most one record per pair. */
  lemma WithMasteryKeepsUnique(rs: seq<WordMastery>, wordId: string, testType: string, now: int)
    requires UniqueKeys(rs)
    ensures UniqueKeys(WithMastery(rs, wordId, testType, now))
  {
  }

  /** A second insert of the same pair changes nothing, whatever its
      time. */
  lemma WithMasteryIdempotent(rs: seq<WordMastery>, wordId: string, testType: string, now: int, later: int)
    ensures WithMastery(WithMastery(rs, wordId, testType, now), wordId, testType, later) == WithMastery(rs, wordId, testType, now)
  {
    WithMasteryRecords(rs, wordId, testType, now);
  }

  /** The `fetchCount` of the pair's records is positive exactly when the
      pair is recorded. */
  lemma KeyCountPositive(rs: seq<WordMastery>, wordId: string, testType: string)
    ensures |Filter(rs, (m: WordMastery) => m.wordId == wordId && m.testType == testType)| > 0 <==> HasKey(rs, wordId, testType)
  {
    var f := Filter(rs, (m: WordMastery) => m.wordId == wordId && m.testType == testType);
    if HasKey(rs, wordId, testType) {
      var i :| 0 <= i < |rs| && rs[i].wordId == wordId && rs[i].testType == testType;
      assert rs[i] in f;
    }
    if |f| > 0 {
      assert f[0] in rs;
    }
  }

  predicate OfTypeP(testType: string, m: WordMastery) {
    m.testType == testType
  }

  /** The records of one test type, in storage order. */
  function OfType(rs: seq<WordMastery>, testType: string): seq<WordMastery> {
    Filter(rs, (m: WordMastery) => OfTypeP(testType, m))
  }

  /** The loop of the count queries over `ms`: it counts the records
      whose word has the grade, and fails (none) as soon as a record's
      word cannot be found. */
  function GradeCount(ms: seq<WordMastery>, words: seq<Word>, grade: int): (r: Option<nat>)
    ensures r.Some? ==> r.value <= |ms|
  {
    if ms == [] then Some(0)
    else
      match FindById(words, ms[0].wordId)
      case None => None
      case Some(w) =>
        match GradeCount(ms[1..], words, grade)
        case None => None
        case Some(n) => Some(n + (if w.grade == grade then 1 else 0))
  }

  /** `c` added to a count that may have failed. */
  function Plus(c: nat, r: Option<nat>): Option<nat> {
    match r
    case None => None
    case Some(n) => Some(c + n)
  }

  lemma PlusPlus(c: nat, d: nat, r: Option<nat>)
    ensures Plus(c, Plus(d, r)) == Plus(c + d, r)
  {
  }

  /** One step of the count loop, from position `k`. */
  lemma GradeCountStep(ms: seq<WordMastery>, words: seq<Word>, grade: int, k: nat)
    requires k < |ms|
    ensures FindById(words, ms[k].wordId).None? ==> GradeCount(ms[k..], words, grade).None?
    ensures FindById(words, ms[k].wordId).Some? ==>
      GradeCount(ms[k..], words, grade) ==
      Plus(if FindById(words, ms[k].wordId).value.grade == grade then 1 else 0, GradeCount(ms[k + 1..], words, grade))
  {
    assert ms[k..][0] == ms[k] && ms[k..][1..] == ms[k + 1..];
  }

  /** What the count queries return: the count, or 0 when a lookup
      failed. */
  function MasteredCountOf(rs: seq<WordMastery>, words: seq<Word>, testType: string, grade: int): (n: nat)
    ensures n <= |OfType(rs, testType)|
  {
    GradeCount(OfType(rs, testType), words, grade).GetOr(0)
  }

  /** Every record's word can be found. */
  predicate AllFound(ms: seq<WordMastery>, words: seq<Word>) {
    forall i :: 0 <= i < |ms| ==> FindById(words, ms[i].wordId).Some?
  }

  lemma {:induction false} GradeCountFound(ms: seq<WordMastery>, words: seq<Word>, grade: int)
    ensures GradeCount(ms, words, grade).Some? <==> AllFound(ms, words)
  {
    if ms != [] {
      GradeCountFound(ms[1..], words, grade);
      assert AllFound(ms, words) <==> FindById(words, ms[0].wordId).Some? && AllFound(ms[1..], words) by {
        if FindById(words, ms[0].wordId).Some? && AllFound(ms[1..], words) {
          forall i | 0 <= i < |ms|
            ensures FindById(words, ms[i].wordId).Some?
          {
            if i > 0 { assert ms[i] == ms[1..][i - 1]; }
          }
        }
        if AllFound(ms, words) {
          forall i | 0 <= i < |ms| - 1
            ensures FindById(words, ms[1..][i].wordId).Some?
          {
            assert ms[1..][i] == ms[i + 1];
          }
        }
      }
    }
  }

  /** Counting one more record adds one exactly when its word has the
      grade. */
  lemma {:induction false} GradeCountSnoc(ms: seq<WordMastery>, m: WordMastery, words: seq<Word>, grade: int)
    requires GradeCount(ms, words, grade).Some? && FindById(words, m.wordId).Some?
    ensures GradeCount(ms + [m], words, grade) ==
      Some(GradeCount(ms, words, grade).value + (if FindById(words, m.wordId).value.grade == grade then 1 else 0))
  {
    if ms == [] {
      assert [] + [m] == [m];
      assert [m][1..] == [];
    } else {
      assert (ms + [m])[1..] == ms[1..] + [m];
      GradeCountSnoc(ms[1..], m, words, grade);
    }
  }

  /** Recording a new pass for a word of the grade raises that grade's
      count for the test type by exactly one, provided every recorded
      word can be found. */
  lemma MasteredCountAfterCreate(rs: seq<WordMastery>, words: seq<Word>, wordId: string, testType: string, now: int, w: Word)
    requires AllFound(OfType(rs, testType), words)
    requires !HasKey(rs, wordId, testType)
    requires FindById(words, wordId) == Some(w)
    ensures MasteredCountOf(WithMastery(rs, wordId, testType, now), words, testType, w.grade) == MasteredCountOf(rs, words, testType, w.grade) + 1
  {
    var m := WordMastery(wordId, testType, now);
    FilterAppend(rs, [m], (x: WordMastery) => OfTypeP(testType, x));
    assert OfType([m], testType) == [m];
    GradeCountFound(OfType(rs, testType), words, w.grade);
    GradeCountSnoc(OfType(rs, testType), m, words, w.grade);
  }

  class MasteryTable {
    var records: seq<WordMastery>

    constructor()
      ensures records == []
    {
      records := [];
    }

    /** `createWordMastery`: an insert that does nothing for a pair
        already recorded and rethrows a storage failure. */
    method CreateWordMastery(wordId: string, testType: string, now: int, fails: bool) returns (r: Result<Option<WordMastery>>)
      modifies this
      ensures fails ==> r.Err? && records == old(records)
      ensures !fails ==> records == WithMastery(old(records), wordId, testType, now)
      ensures !fails && HasKey(old(records), wordId, testType) ==> r == Ok(None)
      ensures !fails && !HasKey(old(records), wordId, testType) ==> r == Ok(Some(WordMastery(wordId, testType, now)))
    {
      if fails {
        return Err("Failed to create word mastery");
      }
      var existing := |Filter(records, (m: WordMastery) => m.wordId == wordId && m.testType == testType)|;
      KeyCountPositive(records, wordId, testType);
      if existing > 0 {
        return Ok(None);
      }
      var wordMastery := WordMastery(wordId, testType, now);
      records := records + [wordMastery];
      return Ok(Some(wordMastery));
    }

    /** `isWordMastered`: whether the pair is recorded; false when the
        query fails. */
    function IsWordMastered(wordId: string, testType: string, fails: bool): (b: bool)
      reads this
      ensures b <==> !fails && HasKey(records, wordId, testType)
    {
      if fails then false
      else
        KeyCountPositive(records, wordId, testType);
        |Filter(records, (m: WordMastery) => m.wordId == wordId && m.testType == testType)| > 0
    }

    /** The shared body of the count queries: the records of the test
        type whose word has the grade; 0 when the query fails or a word
        lookup fails. */
    method MasteredCount(testType: string, grade: int, words: seq<Word>, fails: bool) returns (count: nat)
      ensures count == if fails then 0 else MasteredCountOf(records, words, testType, grade)
    {
      if fails {
        return 0;
      }
      var masteredWords := OfType(records, testType);
      count := 0;
      var k := 0;
      while k < |masteredWords|
        invariant 0 <= k <= |masteredWords|
        invariant GradeCount(masteredWords, words, grade) == Plus(count, GradeCount(masteredWords[k..], words, grade))
      {
        var mastery := masteredWords[k];
        GradeCountStep(masteredWords, words, grade, k);
        var word := FindById(words, mastery.wordId);
        if word.None? {
          return 0;
        }
        ghost var d := if word.value.grade == grade then 1 else 0;
        PlusPlus(count, d, GradeCount(masteredWords[k + 1..], words, grade));
        if word.value.grade == grade {
          count := count + 1;
        }
        k := k + 1;
      }
    }

    /** `getListeningMasteredCount`. */
    method GetListeningMasteredCount(grade: int, words: seq<Word>, fails: bool) returns (count: nat)
      ensures count == if fails then 0 else MasteredCountOf(records, words, Listening, grade)
    {
      count := MasteredCount(Listening, grade, words, fails);
    }

    /** `getReadingMasteredCount`. */
    method GetReadingMasteredCount(grade: int, words: seq<Word>, fails: bool) returns (count: nat)
      ensures count == if fails then 0 else MasteredCountOf(records, words, Reading, grade)
    {
      count := MasteredCount(Reading, grade, words, fails);
    }
  }
}
