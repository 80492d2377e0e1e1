/** Grouping units into ranges for display (`generateUnitRanges` in
    `useUnits.ts`). The grouping itself is specified on slices
    (`Groups`); turning one group into a range record is `RangeOf`. */
module UnitRanges {
  import opened Text
  import opened JsMath
  import opened UnitModel

  /** One range. Its `id` and `label` are determined by its first and last
      unit, so they are derived here rather than stored. */
  datatype UnitRange = UnitRange(
    startUnit: Unit,
    endUnit: Unit,
    units: seq<Unit>,
    startUnitNumber: int,
    endUnitNumber: int)
  {
    /** `unit-range-<first>-<last>`, by unit number. */
    function Id(): (id: string)
      ensures StartsWith(id, "unit-range-")
    {
      "unit-range-" + IntToString(startUnitNumber) + "-" + IntToString(endUnitNumber)
    }

    /** The word numbers the range spans, as `<first>-<last>`. */
    function LabelText(): string {
      RangeLabel(RangeStart(startUnitNumber), RangeEnd(endUnitNumber))
    }
  }

  /** The units from position `i` cut into consecutive groups of `g`, the
      last one possibly shorter. */
  function Groups(units: seq<Unit>, g: nat, i: nat): seq<seq<Unit>>
    requires g > 0
    decreases |units| - i
  {
    if i >= |units| then []
    else [units[i..if i + g <= |units| then i + g else |units|]] + Groups(units, g, i + g)
  }

  /** Groups placed one after the other. */
  function Concat(gs: seq<seq<Unit>>): seq<Unit> {
    if gs == [] then [] else gs[0] + Concat(gs[1..])
  }

  /** Every group is non-empty, and every group but the last holds
      exactly `g` units. */
  lemma {:induction false} GroupsShape(units: seq<Unit>, g: nat, i: nat)
    requires g > 0
    ensures forall k :: 0 <= k < |Groups(units, g, i)| ==> 0 < |Groups(units, g, i)[k]| <= g
    ensures forall k :: 0 <= k < |Groups(units, g, i)| - 1 ==> |Groups(units, g, i)[k]| == g
    decreases |units| - i
  {
    if i < |units| {
      GroupsShape(units, g, i + g);
    }
  }

  /** There are ceil(n / g) groups for the `n` units from `i` on: the
      least `q` with `n <= q * g`. */
  lemma {:induction false} GroupsCount(units: seq<Unit>, g: nat, i: nat)
    requires g > 0 && i <= |units|
    ensures (|Groups(units, g, i)| - 1) * g < |units| - i <= |Groups(units, g, i)| * g
    decreases |units| - i
  {
    if i < |units| {
      var rest := Groups(units, g, i + g);
      assert |Groups(units, g, i)| == |rest| + 1;
      if i + g < |units| {
        GroupsCount(units, g, i + g);
        var q := |rest|;
        assert (q + 1) * g == q * g + g && (q - 1) * g == q * g - g;
      }
    }
  }

  /** The groups placed one after the other give back the units, in
      order. */
  lemma {:induction false} GroupsConcat(units: seq<Unit>, g: nat, i: nat)
    requires g > 0 && i <= |units|
    ensures Concat(Groups(units, g, i)) == units[i..]
    decreases |units| - i
  {
    if i < |units| {
      var j := if i + g <= |units| then i + g else |units|;
      if i + g < |units| {
        GroupsConcat(units, g, i + g);
      }
      assert Groups(units, g, i)[1..] == Groups(units, g, i + g);
      assert units[i..] == units[i..j] + units[j..];
    }
  }

  /** Group `k` is the one starting at unit `i + k * g`. */
  lemma {:induction false} GroupsNth(units: seq<Unit>, g: nat, i: nat, k: nat)
    requires g > 0 && k < |Groups(units, g, i)|
    ensures i + k * g < |units| && i + k * g + |Groups(units, g, i)[k]| <= |units|
    ensures Groups(units, g, i)[k] == units[i + k * g..i + k * g + |Groups(units, g, i)[k]|]
    decreases k
  {
    if k > 0 {
      GroupsNth(units, g, i + g, k - 1);
      assert i + g + (k - 1) * g == i + k * g;
    }
  }

  /** A range's label tells its first and last unit apart from every other
      range's, for units numbered from 1. */
  lemma LabelNamesRange(r1: UnitRange, r2: UnitRange)
    requires r1.startUnitNumber >= 1 && r1.endUnitNumber >= 1
    requires r2.startUnitNumber >= 1 && r2.endUnitNumber >= 1
    requires r1.LabelText() == r2.LabelText()
    ensures r1.startUnitNumber == r2.startUnitNumber && r1.endUnitNumber == r2.endUnitNumber
  {
    RangeLabelInjective(r1.startUnitNumber, r1.endUnitNumber, r2.startUnitNumber, r2.endUnitNumber);
  }

  /** The range record of one non-empty group: it starts at the group's
      first unit and ends at its last. */
  function RangeOf(group: seq<Unit>): (r: UnitRange)
    requires |group| > 0
    ensures r.units == group
    ensures r.startUnit == group[0] && r.endUnit == group[|group| - 1]
    ensures r.startUnitNumber == group[0].unitNumber && r.endUnitNumber == group[|group| - 1].unitNumber
  {
    var startUnit := group[0];
    var endUnit := group[|group| - 1];
    UnitRange(
      startUnit := startUnit,
      endUnit := endUnit,
      units := group,
      startUnitNumber := startUnit.unitNumber,
      endUnitNumber := endUnit.unitNumber)
  }

  predicate AllNonEmpty(gs: seq<seq<Unit>>) {
    forall k :: 0 <= k < |gs| ==> |gs[k]| > 0
  }

  /** One range per group, in order. */
  function RangesOf(gs: seq<seq<Unit>>): (rs: seq<UnitRange>)
    requires AllNonEmpty(gs)
    ensures |rs| == |gs|
    ensures forall k :: 0 <= k < |gs| ==> rs[k].units == gs[k]
  {
    if gs == [] then [] else [RangeOf(gs[0])] + RangesOf(gs[1..])
  }

  /** The units of all ranges, one range after the other. */
  function Flatten(ranges: seq<UnitRange>): seq<Unit> {
    if ranges == [] then [] else ranges[0].units + Flatten(ranges[1..])
  }

  lemma {:induction false} FlattenRangesOf(gs: seq<seq<Unit>>)
    requires AllNonEmpty(gs)
    ensures Flatten(RangesOf(gs)) == Concat(gs)
  {
    if gs != [] {
      FlattenRangesOf(gs[1..]);
      assert RangesOf(gs)[1..] == RangesOf(gs[1..]);
    }
  }

  /** The first group from `i` is the slice `units.slice(i, i + g)`, and
      the rest are the groups from `i + g`. */
  lemma GroupsStep(units: seq<Unit>, g: nat, i: nat)
    requires g > 0 && i < |units|
    ensures var gs := Groups(units, g, i);
      gs != [] && gs[0] == units[i..Min(i + g, |units|)] && gs[1..] == Groups(units, g, i + g)
  {
  }

  lemma RangesOfStep(gs: seq<seq<Unit>>)
    requires gs != [] && AllNonEmpty(gs)
    ensures AllNonEmpty(gs[1..])
    ensures RangesOf(gs) == [RangeOf(gs[0])] + RangesOf(gs[1..])
  {
  }

  lemma AppendAssoc<T>(a: seq<T>, b: seq<T>, c: seq<T>)
    ensures (a + b) + c == a + (b + c)
  {
  }

  /** The ranges `generateUnitRanges(units, g)` produces. */
  function UnitRangesOf(units: seq<Unit>, g: nat): seq<UnitRange>
    requires g > 0
  {
    GroupsShape(units, g, 0);
    RangesOf(Groups(units, g, 0))
  }

  /** `generateUnitRanges(units, groupSize)`: ceil(n / groupSize) ranges;
      range `k` holds the up to `groupSize` units from unit
      `k * groupSize` on, every range but the last exactly `groupSize`;
      together they hold every unit once and in order. */
  method GenerateUnitRanges(units: seq<Unit>, groupSize: nat) returns (ranges: seq<UnitRange>)
    requires groupSize > 0
    ensures ranges == UnitRangesOf(units, groupSize)
    ensures |ranges| == CeilDiv(|units|, groupSize)
    ensures forall k :: 0 <= k < |ranges| ==> 0 < |ranges[k].units| <= groupSize
    ensures forall k :: 0 <= k < |ranges| - 1 ==> |ranges[k].units| == groupSize
    ensures Flatten(ranges) == units
  {
    ranges := [];
    var i := 0;
    GroupsShape(units, groupSize, 0);
    while i < |units|
      invariant AllNonEmpty(Groups(units, groupSize, i))
      invariant ranges + RangesOf(Groups(units, groupSize, i)) == RangesOf(Groups(units, groupSize, 0))
      decreases |units| - i
    {
      var slice := units[i..Min(i + groupSize, |units|)];
      var range := RangeOf(slice);
      GroupsStep(units, groupSize, i);
      RangesOfStep(Groups(units, groupSize, i));
      AppendAssoc(ranges, [range], RangesOf(Groups(units, groupSize, i + groupSize)));
      ranges := ranges + [range];
      i := i + groupSize;
    }
    assert Groups(units, groupSize, i) == [] && ranges + [] == ranges;
    GroupsCount(units, groupSize, 0);
    CeilDivUnique(|units|, groupSize, |ranges|);
    GroupsConcat(units, groupSize, 0);
    FlattenRangesOf(Groups(units, groupSize, 0));
  }
}
