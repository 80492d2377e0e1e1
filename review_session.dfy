/** The review screen (`ReviewScreen.tsx`): walks through the words due
    for review, one at a time, and sends the learner's "remembered" or
    "forgotten" verdict to the SRS update of the word's record. The two
    SRS updates and the query that lists the due words are not part of
    this model: the due list is a parameter, and the update's outcome is
    a parameter of the feedback handler. */
module ReviewSession {
  import opened Wrappers
  import opened WordModel
  import opened SrsManagement

  /** A due word with its SRS record. */
  datatype ReviewItem = ReviewItem(word: Word, srs: SrsRecord)

  /** How the awaited SRS update ended: with the stored record, with
      null, or with an exception. */
  datatype UpdateOutcome = Updated(rec: SrsRecord) | NullResult | Threw

  /** The SRS update a feedback dispatches: `updateSrsForRemembered` when
      `remembered`, `updateSrsForForgotten` otherwise, on `srs`. */
  datatype SrsCall = SrsCall(remembered: bool, srs: SrsRecord)

  datatype LoadOutcome = Loaded | NothingToReview | LoadFailed

  /** What a feedback ends with: ignored by the guard, an error alert,
      the next word, or the completion alert. */
  datatype FeedbackEnd = Ignored | UpdateFailed | MovedOn | Finished

  const NoReviewsMessage: string := "本日の復習対象がありません。"
  const LoadErrorMessage: string := "復習データの読み込みに失敗しました"

  class Review {
    var reviewWords: seq<ReviewItem>
    var currentIndex: nat
    var showMeaning: bool
    var showExample: bool
    var loading: bool
    var error: Option<string>
    var isProcessing: bool

    /** The index points at a word whenever there is one. */
    ghost predicate Valid()
      reads this
    {
      if reviewWords == [] then currentIndex == 0 else currentIndex < |reviewWords|
    }

    constructor()
      ensures reviewWords == [] && currentIndex == 0 && loading && error.None?
      ensures !showMeaning && !showExample && !isProcessing
      ensures Valid()
    {
      reviewWords := [];
      currentIndex := 0;
      showMeaning := false;
      showExample := false;
      loading := true;
      error := None;
      isProcessing := false;
    }

    /** `remainingCount`: the words left, the current one included. */
    function RemainingCount(): (n: int)
      reads this
      ensures Valid() && reviewWords != [] ==> 1 <= n <= |reviewWords|
      ensures Valid() && reviewWords == [] ==> n == 0
      ensures n + currentIndex == |reviewWords|
    {
      |reviewWords| - currentIndex
    }

    /** `loadReviewWords`: an empty due list ends the session with the
        "nothing to review" alert and loads no words; a failing query
        sets the error text; otherwise the words are loaded. Loading
        ends in every case. */
    method LoadReviewWords(due: seq<ReviewItem>, fails: bool) returns (outcome: LoadOutcome)
      modifies this
      ensures !loading
      ensures fails ==> outcome == LoadFailed && error == Some(LoadErrorMessage) && reviewWords == old(reviewWords)
      ensures !fails && due == [] ==> outcome == NothingToReview && reviewWords == old(reviewWords) && error == old(error)
      ensures !fails && due != [] ==> outcome == Loaded && reviewWords == due && error.None?
      ensures currentIndex == old(currentIndex) && isProcessing == old(isProcessing)
      ensures showMeaning == old(showMeaning) && showExample == old(showExample)
      ensures old(currentIndex) == 0 && old(Valid()) ==> Valid()
    {
      loading := true;
      if fails {
        error := Some(LoadErrorMessage);
        loading := false;
        return LoadFailed;
      }
      if |due| == 0 {
        loading := false;
        return NothingToReview;
      }
      reviewWords := due;
      error := None;
      loading := false;
      return Loaded;
    }

    method ToggleMeaning()
      modifies this
      ensures showMeaning == !old(showMeaning)
      ensures reviewWords == old(reviewWords) && currentIndex == old(currentIndex) && showExample == old(showExample)
    {
      showMeaning := !showMeaning;
    }

    method ToggleExample()
      modifies this
      ensures showExample == !old(showExample)
      ensures reviewWords == old(reviewWords) && currentIndex == old(currentIndex) && showMeaning == old(showMeaning)
    {
      showExample := !showExample;
    }

    /** `moveToNext`: before the last word, moves on with meaning and
        example hidden again; at the last word, reports completion and
        keeps the index. */
    method MoveToNext() returns (finished: bool)
      requires Valid()
      modifies this
      ensures Valid()
      ensures reviewWords == old(reviewWords) && isProcessing == old(isProcessing)
      ensures finished <==> old(currentIndex) + 1 >= |reviewWords|
      ensures !finished ==> currentIndex == old(currentIndex) + 1 && !showMeaning && !showExample
      ensures !finished ==> RemainingCount() == old(RemainingCount()) - 1
      ensures finished ==> currentIndex == old(currentIndex) && showMeaning == old(showMeaning) && showExample == old(showExample)
    {
      if currentIndex + 1 < |reviewWords| {
        currentIndex := currentIndex + 1;
        showMeaning := false;
        showExample := false;
        return false;
      }
      return true;
    }

    /** `handleFeedback`: ignored when there is no current word or a
        feedback is in progress; otherwise dispatches the update chosen
        by `remembered` on the current word's record and moves on only
        when the update returns a record. Processing is over when the
        handler returns, however the update ended. */
    method HandleFeedback(remembered: bool, outcome: UpdateOutcome) returns (call: Option<SrsCall>, end: FeedbackEnd)
      requires Valid()
      modifies this
      ensures Valid()
      ensures reviewWords == old(reviewWords)
      ensures old(currentIndex) >= |reviewWords| || old(isProcessing) ==>
        && call.None? && end == Ignored
        && currentIndex == old(currentIndex) && isProcessing == old(isProcessing)
      ensures old(currentIndex) < |reviewWords| && !old(isProcessing) ==>
        && call == Some(SrsCall(remembered, reviewWords[old(currentIndex)].srs))
        && !isProcessing
        && (outcome.Updated? <==> end == MovedOn || end == Finished)
        && (end == MovedOn ==> currentIndex == old(currentIndex) + 1 && !showMeaning && !showExample)
        && (end == MovedOn <==> outcome.Updated? && old(currentIndex) + 1 < |reviewWords|)
        && (end != MovedOn ==> currentIndex == old(currentIndex))
    {
      if currentIndex >= |reviewWords| || isProcessing {
        return None, Ignored;
      }
      isProcessing := true;
      call := Some(SrsCall(remembered, reviewWords[currentIndex].srs));
      if !outcome.Updated? {
        isProcessing := false;
        return call, UpdateFailed;
      }
      var finished := MoveToNext();
      isProcessing := false;
      end := if finished then Finished else MovedOn;
    }
  }
}
