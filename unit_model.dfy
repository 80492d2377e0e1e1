/** A unit of ten words (`Unit.ts`) and the word-number range it is
    shown as. The same range, "(u-1)*10+1" to "u*10", is shown by the
    learning screen, the word tooltip and the unit-range grouping. */
module UnitModel {
  import opened Text
  import opened Sorting
  import opened WordModel

  datatype Unit = Unit(id: string, grade: int, unitNumber: int)

  /** The number of the first word of unit `u`. */
  function RangeStart(u: int): int {
    (u - 1) * 10 + 1
  }

  /** The number of the last word of unit `u`. */
  function RangeEnd(u: int): int {
    u * 10
  }

  /** Every unit spans exactly ten word numbers, and the next unit
      starts right after it ends. */
  lemma RangesTile(u: int)
    ensures RangeEnd(u) - RangeStart(u) + 1 == UnitSize
    ensures RangeStart(u + 1) == RangeEnd(u) + 1
  {
  }

  /** Two word numbers joined by a dash, as `${start}-${end}`. */
  function RangeLabel(start: int, end: int): string {
    IntToString(start) + "-" + IntToString(end)
  }

  /** `displayName` of a unit. */
  function DisplayName(unit: Unit): string {
    RangeLabel(RangeStart(unit.unitNumber), RangeEnd(unit.unitNumber))
  }

  /** A word-number label names the units it spans: for units numbered
      from 1, equal labels mean equal first and last unit. */
  lemma RangeLabelInjective(a1: int, b1: int, a2: int, b2: int)
    requires a1 >= 1 && b1 >= 1 && a2 >= 1 && b2 >= 1
    requires RangeLabel(RangeStart(a1), RangeEnd(b1)) == RangeLabel(RangeStart(a2), RangeEnd(b2))
    ensures a1 == a2 && b1 == b2
  {
    var s1, e1 := RangeStart(a1), RangeEnd(b1);
    var s2, e2 := RangeStart(a2), RangeEnd(b2);
    assert NatToString(s1) + ['-'] + NatToString(e1) == NatToString(s2) + ['-'] + NatToString(e2) by {
      assert RangeLabel(s1, e1) == NatToString(s1) + "-" + NatToString(e1);
      assert RangeLabel(s2, e2) == NatToString(s2) + "-" + NatToString(e2);
    }
    JoinedNumbersInjective(s1, e1, s2, e2, '-');
  }

  /** The label names the unit: units numbered from 1 with the same label
      have the same number. */
  lemma DisplayNameInjective(a: Unit, b: Unit)
    requires a.unitNumber >= 1 && b.unitNumber >= 1
    requires DisplayName(a) == DisplayName(b)
    ensures a.unitNumber == b.unitNumber
  {
    RangeLabelInjective(a.unitNumber, a.unitNumber, b.unitNumber, b.unitNumber);
  }

  /** The labels of the first three units. */
  lemma FirstDisplayNames()
    ensures DisplayName(Unit("u1", 1, 1)) == "1-10"
    ensures DisplayName(Unit("u2", 1, 2)) == "11-20"
    ensures DisplayName(Unit("u3", 1, 3)) == "21-30"
  {
    assert NatToString(10) == "10" by { assert NatToString(1) == "1"; }
    assert NatToString(11) == "11" by { assert NatToString(1) == "1"; }
    assert NatToString(20) == "20" by { assert NatToString(2) == "2"; }
    assert NatToString(21) == "21" by { assert NatToString(2) == "2"; }
    assert NatToString(30) == "30" by { assert NatToString(3) == "3"; }
  }

  /** The words whose unit is `unit`, in table order: the unit's
      children. */
  function Children(unit: Unit, words: seq<Word>): (r: seq<Word>)
    ensures |r| <= |words|
    ensures forall w :: w in r <==> w in words && w.unitId == unit.id
  {
    Filter(words, (w: Word) => w.unitId == unit.id)
  }

  /** `wordCount`: the number of the unit's children. */
  function WordCount(unit: Unit, words: seq<Word>): (n: nat)
    ensures n <= |words|
  {
    |Children(unit, words)|
  }
}
