/** The word tooltip (`WordTooltip.tsx`): nothing for a missing word,
    otherwise the word, its translation and the range of the unit it
    belongs to. */
module WordTooltip {
  import opened Wrappers
  import opened JsMath
  import opened WordModel
  import opened UnitModel

  /** The unit of word number `unitOrder`: `Math.ceil(unitOrder / 10)`;
      its range always contains the word's number. */
  function TooltipUnit(unitOrder: int): (u: int)
    ensures RangeStart(u) <= unitOrder <= RangeEnd(u)
    ensures RangeEnd(u) - RangeStart(u) + 1 == UnitSize
  {
    CeilDiv(unitOrder, UnitSize)
  }

  /** `getUnitRange(unitOrder)`. */
  function TooltipRange(unitOrder: int): string {
    var u := TooltipUnit(unitOrder);
    RangeLabel(RangeStart(u), RangeEnd(u))
  }

  datatype TooltipContent = TooltipContent(korean: string, japanese: string, grade: int, unitRange: string)

  /** What the tooltip shows: nothing without a word. */
  function Tooltip(word: Option<Word>): (r: Option<TooltipContent>)
    ensures r.None? <==> word.None?
    ensures r.Some? ==> r.value.korean == word.value.korean && r.value.japanese == word.value.japanese
    ensures r.Some? ==> r.value.unitRange == TooltipRange(word.value.unitOrder)
  {
    match word
    case None => None
    case Some(w) => Some(TooltipContent(w.korean, w.japanese, w.grade, TooltipRange(w.unitOrder)))
  }
}
