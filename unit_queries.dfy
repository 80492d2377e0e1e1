/** Queries on the units and words tables (`unitQueries.ts`). Tables are
    sequences in storage order. */
module UnitQueries {
  import opened Wrappers
  import opened Sorting
  import opened WordModel
  import opened UnitModel

  predicate UnitNumberLe(a: Unit, b: Unit) {
    a.unitNumber <= b.unitNumber
  }

  predicate UnitOrderLe(a: Word, b: Word) {
    a.unitOrder <= b.unitOrder
  }

  /** `getUnitsByGrade`: exactly the units of the grade, each as often as
      stored, ascending by unit number. */
  function UnitsByGrade(units: seq<Unit>, grade: int): (r: seq<Unit>)
    ensures multiset(r) == multiset(Filter(units, (u: Unit) => u.grade == grade))
    ensures forall u :: u in r <==> u in units && u.grade == grade
    ensures SortedBy(r, UnitNumberLe)
  {
    var f := Filter(units, (u: Unit) => u.grade == grade);
    SortByMembers(f, UnitNumberLe);
    assert Total(UnitNumberLe);
    SortBy(f, UnitNumberLe)
  }

  /** `getUnit`: the first stored unit with that grade and number. */
  function GetUnit(units: seq<Unit>, grade: int, unitNumber: int): (r: Option<Unit>)
    ensures r.Some? ==> r.value in units && r.value.grade == grade && r.value.unitNumber == unitNumber
    ensures r.None? <==> forall u :: u in units ==> !(u.grade == grade && u.unitNumber == unitNumber)
    ensures r.Some? ==> exists i :: (0 <= i < |units| && units[i] == r.value &&
      forall j :: 0 <= j < i ==> !(units[j].grade == grade && units[j].unitNumber == unitNumber))
  {
    var k := FirstIndex(units, (u: Unit) => u.grade == grade && u.unitNumber == unitNumber);
    if k == -1 then None else Some(units[k])
  }

  /** `getWordsByUnitId`: the unit's words, ascending by their order in
      the unit. */
  function WordsByUnitId(words: seq<Word>, unitId: string): (r: seq<Word>)
    ensures multiset(r) == multiset(Filter(words, (w: Word) => w.unitId == unitId))
    ensures forall w :: w in r <==> w in words && w.unitId == unitId
    ensures SortedBy(r, UnitOrderLe)
  {
    var f := Filter(words, (w: Word) => w.unitId == unitId);
    SortByMembers(f, UnitOrderLe);
    assert Total(UnitOrderLe);
    SortBy(f, UnitOrderLe)
  }

  /** `getWordsByUnit`: no words for a unit that does not exist, else the
      words of the first matching unit. */
  function WordsByUnit(units: seq<Unit>, words: seq<Word>, grade: int, unitNumber: int): (r: seq<Word>)
    ensures GetUnit(units, grade, unitNumber).None? ==> r == []
    ensures GetUnit(units, grade, unitNumber).Some? ==> r == WordsByUnitId(words, GetUnit(units, grade, unitNumber).value.id)
  {
    match GetUnit(units, grade, unitNumber)
    case None => []
    case Some(unit) => WordsByUnitId(words, unit.id)
  }

  /** `getUnitCountByGrade`. */
  function UnitCountByGrade(units: seq<Unit>, grade: int): (n: nat)
    ensures n == |Filter(units, (u: Unit) => u.grade == grade)|
  {
    Count(units, (u: Unit) => u.grade == grade)
  }

  /** The count agrees with the list: as many units as `getUnitsByGrade`
      returns. */
  lemma UnitCountMatchesList(units: seq<Unit>, grade: int)
    ensures UnitCountByGrade(units, grade) == |UnitsByGrade(units, grade)|
  {
    var f := Filter(units, (u: Unit) => u.grade == grade);
    assert |multiset(UnitsByGrade(units, grade))| == |multiset(f)|;
  }

  /** The words of a unit, as listed, are its children and as many as its
      `wordCount`. */
  lemma WordsByUnitIdAreChildren(unit: Unit, words: seq<Word>)
    ensures multiset(WordsByUnitId(words, unit.id)) == multiset(Children(unit, words))
    ensures |WordsByUnitId(words, unit.id)| == WordCount(unit, words)
  {
    assert |multiset(WordsByUnitId(words, unit.id))| == |multiset(Children(unit, words))|;
  }
}
