/** One review of a word and the getters that describe it
    (`ReviewHistory.ts`). */
module ReviewHistory {
  import opened Wrappers
  import opened Text

  datatype ReviewHistory = ReviewHistory(
    wordId: string,
    feedback: string,
    previousMasteryLevel: Option<int>,
    newMasteryLevel: int,
    reviewDate: int)

  datatype Performance = Improved | Maintained | Declined

  predicate WasRemembered(h: ReviewHistory) {
    h.feedback == "remembered"
  }

  predicate WasForgotten(h: ReviewHistory) {
    h.feedback == "forgotten"
  }

  /** A review is never both remembered and forgotten (it may be
      neither, for any other feedback string). */
  lemma NeverBothFeedbacks(h: ReviewHistory)
    ensures !(WasRemembered(h) && WasForgotten(h))
  {
    assert "remembered"[0] != "forgotten"[0];
  }

  /** `masteryLevelChange`: the step from the previous level to the new
      one; a first review, with no previous level, counts from 0. */
  function MasteryLevelChange(h: ReviewHistory): (d: int)
    ensures h.previousMasteryLevel.Some? ==> h.previousMasteryLevel.value + d == h.newMasteryLevel
    ensures h.previousMasteryLevel.None? ==> d == h.newMasteryLevel
  {
    match h.previousMasteryLevel
    case None => h.newMasteryLevel
    case Some(p) => h.newMasteryLevel - p
  }

  predicate DidLevelUp(h: ReviewHistory) {
    MasteryLevelChange(h) > 0
  }

  predicate DidLevelDown(h: ReviewHistory) {
    MasteryLevelChange(h) < 0
  }

  predicate DidLevelStay(h: ReviewHistory) {
    MasteryLevelChange(h) == 0
  }

  /** Exactly one of level up, level down and level stay holds. */
  lemma ExactlyOneLevelMove(h: ReviewHistory)
    ensures DidLevelUp(h) || DidLevelDown(h) || DidLevelStay(h)
    ensures !(DidLevelUp(h) && DidLevelDown(h))
    ensures !(DidLevelUp(h) && DidLevelStay(h))
    ensures !(DidLevelDown(h) && DidLevelStay(h))
  {
  }

  /** `reviewPerformance`. */
  function ReviewPerformance(h: ReviewHistory): (p: Performance)
    ensures p == Improved <==> DidLevelUp(h)
    ensures p == Declined <==> DidLevelDown(h)
    ensures p == Maintained <==> DidLevelStay(h)
  {
    if DidLevelUp(h) then Improved
    else if DidLevelDown(h) then Declined
    else Maintained
  }

  function FeedbackText(h: ReviewHistory): string {
    if WasRemembered(h) then "覚えた" else "覚えてない"
  }

  /** The level part of the summary: `+k`, `-k` (a negative number prints
      its own sign) or the no-change text. */
  function ChangeText(d: int): (r: string)
    ensures d > 0 ==> r == "+" + NatToString(d)
    ensures d < 0 ==> r == "-" + NatToString(-d)
    ensures d == 0 ==> r == "変化なし"
  {
    if d > 0 then "+" + IntToString(d)
    else if d < 0 then IntToString(d)
    else "変化なし"
  }

  /** `reviewSummary`. */
  function ReviewSummary(h: ReviewHistory): string {
    FeedbackText(h) + " (レベル" + ChangeText(MasteryLevelChange(h)) + ")"
  }

  /** The three change texts are told apart by their first character, and
      the number after it is read back. */
  lemma ChangeTextInjective(d1: int, d2: int)
    requires ChangeText(d1) == ChangeText(d2)
    ensures d1 == d2
  {
    var t1, t2 := ChangeText(d1), ChangeText(d2);
    assert t1[0] == t2[0];
    if d1 > 0 {
      assert d2 > 0;
      assert NatToString(d1) == t1[1..] == t2[1..] == NatToString(d2);
      NatToStringInjective(d1, d2);
    } else if d1 < 0 {
      assert d2 < 0;
      assert NatToString(-d1) == t1[1..] == t2[1..] == NatToString(-d2);
      NatToStringInjective(-d1, -d2);
    }
  }

  /** The summary names the review's outcome: two reviews with the same
      summary agree on whether the word was remembered and on the level
      change. */
  lemma ReviewSummaryInjective(h1: ReviewHistory, h2: ReviewHistory)
    requires ReviewSummary(h1) == ReviewSummary(h2)
    ensures WasRemembered(h1) <==> WasRemembered(h2)
    ensures MasteryLevelChange(h1) == MasteryLevelChange(h2)
  {
    var s := ReviewSummary(h1);
    var f1, f2 := FeedbackText(h1), FeedbackText(h2);
    var c1, c2 := ChangeText(MasteryLevelChange(h1)), ChangeText(MasteryLevelChange(h2));
    assert s[2] == f1[2] && s[2] == f2[2];
    assert WasRemembered(h1) <==> WasRemembered(h2);
    assert f1 == f2;
    var n := |f1| + |" (レベル"|;
    assert s == (f1 + " (レベル") + c1 + ")";
    assert s == (f2 + " (レベル") + c2 + ")";
    assert c1 == s[n..|s| - 1] == c2;
    ChangeTextInjective(MasteryLevelChange(h1), MasteryLevelChange(h2));
  }

  /** The summary starts with the remembered or not-remembered text. */
  lemma ReviewSummaryStarts(h: ReviewHistory)
    ensures WasRemembered(h) ==> StartsWith(ReviewSummary(h), "覚えた")
    ensures !WasRemembered(h) ==> StartsWith(ReviewSummary(h), "覚えてない")
  {
    var s := ReviewSummary(h);
    assert s[..|FeedbackText(h)|] == FeedbackText(h);
  }
}
