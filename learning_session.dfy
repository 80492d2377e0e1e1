/** The learning screen (`LearningScreen.tsx`): shows the words of one
    unit one at a time, with meaning and example hidden until asked for,
    and keeps a set of word ids the learner marked for review. The marks
    stay on the screen; nothing is written to the database. */
module LearningSession {
  import opened Wrappers
  import opened Text
  import opened WordModel
  import opened UnitModel
  import opened UnitQueries

  const LoadErrorMessage: string := "単語データの読み込みに失敗しました"

  /** `getUnitRange`: the unit's word numbers, "(u-1)*10+1" to "u*10". */
  function UnitRange(unitNumber: int): (r: string)
    ensures unitNumber >= 1 ==> r == NatToString((unitNumber - 1) * 10 + 1) + "-" + NatToString(unitNumber * 10)
    ensures r == DisplayName(Unit("", 0, unitNumber))
  {
    RangeLabel(RangeStart(unitNumber), RangeEnd(unitNumber))
  }

  /** Different units from 1 on show different ranges. */
  lemma UnitRangeInjective(u1: int, u2: int)
    requires u1 >= 1 && u2 >= 1 && UnitRange(u1) == UnitRange(u2)
    ensures u1 == u2
  {
    RangeLabelInjective(u1, u1, u2, u2);
  }

  /** The completion alert of the unit. */
  function CompletionMessage(level: int, unitNumber: int): (m: string)
    ensures StartsWith(m, IntToString(level) + "級 ユニット" + UnitRange(unitNumber))
    ensures EndsWith(m, " の学習が完了しました。")
  {
    var head := IntToString(level) + "級 ユニット" + UnitRange(unitNumber);
    var m := head + " の学習が完了しました。";
    assert m[..|head|] == head;
    m
  }

  /** `x` marked when it was not, unmarked when it was. */
  function Toggle(marked: set<string>, x: string): (r: set<string>)
    ensures x in r <==> x !in marked
    ensures forall y :: y != x ==> (y in r <==> y in marked)
  {
    if x in marked then marked - {x} else marked + {x}
  }

  /** Marking the same word twice restores the marks. */
  lemma ToggleTwice(marked: set<string>, x: string)
    ensures Toggle(Toggle(marked, x), x) == marked
  {
    var once := Toggle(marked, x);
    var twice := Toggle(once, x);
    forall y
      ensures y in twice <==> y in marked
    {
      if y == x {
        assert x in twice <==> x !in once;
      } else {
        assert y in twice <==> y in once;
      }
    }
  }

  /** Marks of different words commute. */
  lemma ToggleCommutes(marked: set<string>, x: string, y: string)
    ensures Toggle(Toggle(marked, x), y) == Toggle(Toggle(marked, y), x)
  {
    var a := Toggle(Toggle(marked, x), y);
    var b := Toggle(Toggle(marked, y), x);
    forall z
      ensures z in a <==> z in b
    {
      if z == x && z == y {
      } else if z == x {
        assert z in Toggle(marked, y) <==> z in marked;
      } else if z == y {
        assert z in Toggle(marked, x) <==> z in marked;
      } else {
        assert z in Toggle(marked, x) <==> z in marked;
        assert z in Toggle(marked, y) <==> z in marked;
      }
    }
  }

  class Learning {
    const level: int
    const unitNumber: int
    var words: seq<Word>
    var currentIndex: nat
    var showMeaning: bool
    var showExample: bool
    var loading: bool
    var error: Option<string>
    var markedForReview: set<string>

    /** The index points at a word whenever there is one. */
    ghost predicate Valid()
      reads this
    {
      if words == [] then currentIndex == 0 else currentIndex < |words|
    }

    constructor(level: int, unitNumber: int)
      ensures this.level == level && this.unitNumber == unitNumber
      ensures words == [] && currentIndex == 0 && loading && error.None? && markedForReview == {}
      ensures !showMeaning && !showExample && Valid()
    {
      this.level := level;
      this.unitNumber := unitNumber;
      words := [];
      currentIndex := 0;
      showMeaning := false;
      showExample := false;
      loading := true;
      error := None;
      markedForReview := {};
    }

    /** `loadWords`: the unit's words in unit order; no words (an unknown
        unit or an empty one) or a failing query put the screen in its
        error state. Loading ends in every case. */
    method LoadWords(units: seq<Unit>, allWords: seq<Word>, fails: bool)
      modifies this
      ensures !loading
      ensures var unitWords := WordsByUnit(units, allWords, level, unitNumber);
        && (fails || unitWords == [] ==> error == Some(LoadErrorMessage) && words == old(words))
        && (!fails && unitWords != [] ==> error.None? && words == unitWords)
      ensures currentIndex == old(currentIndex) && markedForReview == old(markedForReview)
      ensures showMeaning == old(showMeaning) && showExample == old(showExample)
      ensures currentIndex == 0 ==> Valid()
    {
      var fetched := if fails then None else Some(WordsByUnit(units, allWords, level, unitNumber));
      ShowFetched(fetched);
    }

    /** The state updates of `loadWords` around the awaited query, whose
        answer is `fetched` (None when it threw). */
    method ShowFetched(fetched: Option<seq<Word>>)
      modifies this
      ensures !loading
      ensures fetched.None? || fetched.value == [] ==> error == Some(LoadErrorMessage) && words == old(words)
      ensures fetched.Some? && fetched.value != [] ==> error.None? && words == fetched.value
      ensures currentIndex == old(currentIndex) && markedForReview == old(markedForReview)
      ensures showMeaning == old(showMeaning) && showExample == old(showExample)
      ensures currentIndex == 0 ==> Valid()
    {
      loading := true;
      if fetched.None? {
        error := Some(LoadErrorMessage);
      } else {
        var wordsData := fetched.value;
        if |wordsData| == 0 {
          error := Some(LoadErrorMessage);
        } else {
          words := wordsData;
          error := None;
        }
      }
      loading := false;
    }

    /** `handleNext`: before the last word, moves on with meaning and
        example hidden again; at the last word, returns the completion
        alert and keeps the index. */
    method HandleNext() returns (completion: Option<string>)
      requires Valid()
      modifies this
      ensures Valid()
      ensures words == old(words) && markedForReview == old(markedForReview)
      ensures old(currentIndex) + 1 < |words| ==>
        currentIndex == old(currentIndex) + 1 && !showMeaning && !showExample && completion.None?
      ensures old(currentIndex) + 1 >= |words| ==>
        && currentIndex == old(currentIndex) && showMeaning == old(showMeaning) && showExample == old(showExample)
        && completion == Some(CompletionMessage(level, unitNumber))
    {
      if currentIndex + 1 < |words| {
        currentIndex := currentIndex + 1;
        showMeaning := false;
        showExample := false;
        return None;
      }
      return Some(CompletionMessage(level, unitNumber));
    }

    /** `handlePrevious`: nothing at the first word; otherwise back one
        word with meaning and example hidden. */
    method HandlePrevious()
      requires Valid()
      modifies this
      ensures Valid()
      ensures words == old(words) && markedForReview == old(markedForReview)
      ensures old(currentIndex) == 0 ==>
        currentIndex == 0 && showMeaning == old(showMeaning) && showExample == old(showExample)
      ensures old(currentIndex) > 0 ==> currentIndex == old(currentIndex) - 1 && !showMeaning && !showExample
    {
      if currentIndex > 0 {
        currentIndex := currentIndex - 1;
        showMeaning := false;
        showExample := false;
      }
    }

    /** `handleMarkForReview`: toggles the current word's id and no
        other; nothing without a current word. */
    method HandleMarkForReview()
      modifies this
      ensures words == old(words) && currentIndex == old(currentIndex)
      ensures showMeaning == old(showMeaning) && showExample == old(showExample)
      ensures currentIndex < |words| ==> markedForReview == Toggle(old(markedForReview), words[currentIndex].id)
      ensures currentIndex >= |words| ==> markedForReview == old(markedForReview)
    {
      if currentIndex < |words| {
        var currentWord := words[currentIndex];
        var newMarked := markedForReview;
        if currentWord.id in newMarked {
          newMarked := newMarked - {currentWord.id};
        } else {
          newMarked := newMarked + {currentWord.id};
        }
        markedForReview := newMarked;
      }
    }

    method ToggleMeaning()
      modifies this
      ensures showMeaning == !old(showMeaning)
      ensures words == old(words) && currentIndex == old(currentIndex)
      ensures showExample == old(showExample) && markedForReview == old(markedForReview)
    {
      showMeaning := !showMeaning;
    }

    method ToggleExample()
      modifies this
      ensures showExample == !old(showExample)
      ensures words == old(words) && currentIndex == old(currentIndex)
      ensures showMeaning == old(showMeaning) && markedForReview == old(markedForReview)
    {
      showExample := !showExample;
    }

    /** The label of the next button: '完了' exactly at the last word. */
    function NextButtonLabel(): (caption: string)
      reads this
      ensures caption == "完了" <==> currentIndex + 1 == |words|
      ensures caption == "次へ" <==> currentIndex + 1 != |words|
    {
      if currentIndex == |words| - 1 then "完了" else "次へ"
    }

    /** The label of the review button: '復習済み' exactly when the
        current word is marked. */
    function MarkButtonLabel(): (caption: string)
      requires currentIndex < |words|
      reads this
      ensures caption == "復習済み" <==> words[currentIndex].id in markedForReview
      ensures caption == "復習に追加" <==> words[currentIndex].id !in markedForReview
    {
      if words[currentIndex].id in markedForReview then "復習済み" else "復習に追加"
    }
  }
}
