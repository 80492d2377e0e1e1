/** The listening and reading quizzes (`ListeningTestScreen.tsx` and
    `ReadingTestScreen.tsx`). The two screens have the same handlers; they
    differ in the mastery test type they record and in the learning
    progress snapshot that only the listening quiz takes on completion.
    The screen's state hooks are the fields of `Quiz`; the clock is the
    `now` parameter of each handler. */
module QuizSession {
  import opened Wrappers
  import opened JsMath
  import opened Text
  import opened Sorting
  import opened WordModel
  import opened UnitModel
  import opened WordQueries
  import opened WordMasteryQueries
  import opened SrsManagement
  import opened SrsQueries
  import opened LearningProgressQueries

  datatype QuizKind = ListeningQuiz | ReadingQuiz

  /** The test type under which the quiz records mastered words. */
  function TestTypeOf(kind: QuizKind): (t: string)
    ensures t == Listening <==> kind.ListeningQuiz?
    ensures t == Reading <==> kind.ReadingQuiz?
  {
    if kind.ListeningQuiz? then Listening else Reading
  }

  datatype Question = Question(word: Word, options: seq<string>, correctAnswer: string)

  /** One answered question: the word, whether the answer was right, and
      how long it took. */
  datatype Answer = Answer(wordId: string, correct: bool, timeMs: int)

  predicate IsRight(a: Answer) {
    a.correct
  }

  predicate IsWrong(a: Answer) {
    !a.correct
  }

  function JapaneseOf(ws: seq<Word>): (r: seq<string>)
    ensures |r| == |ws| && forall i :: 0 <= i < |ws| ==> r[i] == ws[i].japanese
  {
    seq(|ws|, i requires 0 <= i < |ws| => ws[i].japanese)
  }

  /** The question for `word` with `wrongOptions` as distractors: the
      word's Japanese is the answer and comes with one option per
      distractor. The random order of the options is not modelled. */
  function MakeQuestion(word: Word, wrongOptions: seq<Word>): (q: Question)
    ensures q.word == word && q.correctAnswer == word.japanese
    ensures q.correctAnswer in q.options
    ensures |q.options| == |wrongOptions| + 1
    ensures forall o :: o in q.options ==> o == word.japanese || exists w :: w in wrongOptions && w.japanese == o
  {
    var rest := JapaneseOf(wrongOptions);
    var options := [word.japanese] + rest;
    assert forall o :: o in rest ==> exists w :: w in wrongOptions && w.japanese == o by {
      forall o | o in rest
        ensures exists w :: w in wrongOptions && w.japanese == o
      {
        var i :| 0 <= i < |rest| && rest[i] == o;
        assert wrongOptions[i] in wrongOptions;
      }
    }
    Question(word, options, word.japanese)
  }

  /** What `generateQuestions` builds for a word of grade `level`: the
      word's Japanese is the answer and is among the options; there are
      three distractors, or all of them when the grade has fewer other
      words; each distractor is the Japanese of another word of the
      grade. */
  predicate WellBuilt(q: Question, allWords: seq<Word>, level: int) {
    && q.correctAnswer == q.word.japanese
    && q.correctAnswer in q.options
    && |q.options| == 1 + Min(3, |RandomCandidates(allWords, level, q.word.id)|)
    && forall o :: o in q.options ==> o == q.correctAnswer || exists w :: w in allWords && IsCandidate(w, level, q.word.id) && w.japanese == o
  }

  /** A question built from `getRandomWordsByGrade(level, word.id, 3)`
      is well built. */
  lemma DrawnQuestionWellBuilt(word: Word, allWords: seq<Word>, level: int, shuffled: seq<Word>)
    requires multiset(shuffled) == multiset(RandomCandidates(allWords, level, word.id))
    ensures WellBuilt(MakeQuestion(word, RandomWordsByGrade(allWords, level, word.id, 3, shuffled)), allWords, level)
  {
    var wrong := RandomWordsByGrade(allWords, level, word.id, 3, shuffled);
    assert |shuffled| == |RandomCandidates(allWords, level, word.id)| by {
      assert |multiset(shuffled)| == |multiset(RandomCandidates(allWords, level, word.id))|;
    }
    var q := MakeQuestion(word, wrong);
    forall o | o in q.options && o != q.correctAnswer
      ensures exists w :: w in allWords && IsCandidate(w, level, word.id) && w.japanese == o
    {
      var w :| w in wrong && w.japanese == o;
      assert w in allWords && IsCandidate(w, level, word.id);
    }
  }

  /** The body of the `generateQuestions` loop for one word: three
      distractors drawn from the grade, then the question. */
  method BuildQuestion(word: Word, allWords: seq<Word>, level: int, shuffled: seq<Word>) returns (q: Question)
    requires multiset(shuffled) == multiset(RandomCandidates(allWords, level, word.id))
    ensures q.word == word && WellBuilt(q, allWords, level)
  {
    var wrongOptions := RandomWordsByGrade(allWords, level, word.id, 3, shuffled);
    DrawnQuestionWellBuilt(word, allWords, level, shuffled);
    q := MakeQuestion(word, wrongOptions);
  }

  /** The loop of `generateQuestions`: one question per word, in order. */
  method BuildQuestions(words: seq<Word>, allWords: seq<Word>, level: int, shuffles: seq<seq<Word>>)
    returns (testQuestions: seq<Question>)
    requires ShufflesFor(shuffles, words, allWords, level)
    ensures |testQuestions| == |words|
    ensures forall k :: 0 <= k < |words| ==> testQuestions[k].word == words[k] && WellBuilt(testQuestions[k], allWords, level)
  {
    testQuestions := [];
    var k := 0;
    while k < |words|
      invariant 0 <= k <= |words|
      invariant |testQuestions| == k
      invariant forall j :: 0 <= j < k ==> testQuestions[j].word == words[j] && WellBuilt(testQuestions[j], allWords, level)
    {
      var question := BuildQuestion(words[k], allWords, level, shuffles[k]);
      ghost var prev := testQuestions;
      testQuestions := testQuestions + [question];
      forall j | 0 <= j < k + 1
        ensures testQuestions[j].word == words[j] && WellBuilt(testQuestions[j], allWords, level)
      {
        if j < k {
          assert testQuestions[j] == prev[j];
        }
      }
      k := k + 1;
    }
  }

  /** `shuffles[k]` is the random order in which `getRandomWordsByGrade`
      returns the distractor candidates of the k-th word. */
  predicate ShufflesFor(shuffles: seq<seq<Word>>, ws: seq<Word>, allWords: seq<Word>, level: int) {
    && |shuffles| == |ws|
    && forall k :: 0 <= k < |ws| ==> multiset(shuffles[k]) == multiset(RandomCandidates(allWords, level, ws[k].id))
  }

  /** JavaScript truthiness of the `string | null` selection: an empty
      string counts as no selection. */
  predicate Selected(a: Option<string>) {
    a.Some? && a.value != ""
  }

  /** `Math.round(correct / total * 100)`, half up. */
  function Accuracy(correct: nat, total: nat): (a: int)
    requires total > 0
    ensures 2 * a * total - total <= 200 * correct < 2 * a * total + total
    ensures correct <= total ==> 0 <= a <= 100
    ensures correct == total ==> a == 100
    ensures correct == 0 ==> a == 0
  {
    var a := RoundDiv(100 * correct, total);
    AccuracyBounds(correct, total, a);
    a
  }

  lemma AccuracyBounds(correct: nat, total: nat, a: int)
    requires total > 0
    requires 2 * a * total - total <= 200 * correct < 2 * a * total + total
    ensures correct <= total ==> 0 <= a <= 100
    ensures correct == total ==> a == 100
    ensures correct == 0 ==> a == 0
  {
    assert (2 * a - 1) * total == 2 * a * total - total;
    assert (2 * a + 1) * total == 2 * a * total + total;
    MulCancel(0, 2 * a + 1, total);
    if correct <= total {
      MulCancel(2 * a - 1, 200, total);
    }
    if correct == total {
      MulCancel(200, 2 * a + 1, total);
    }
    if correct == 0 {
      MulCancel(2 * a - 1, 0, total);
    }
  }

  const ReviewNotice: string := "\n\n間違えた単語は復習リストに追加されました。"

  /** The head of the completion alert: accuracy and the correct count. */
  function ScoreLine(correct: nat, total: nat): (s: string)
    requires total > 0
    ensures StartsWith(s, "正答率: " + IntToString(Accuracy(correct, total)) + "%")
    ensures |s| > 0 && s[|s| - 1] == ')'
  {
    var head := "正答率: " + IntToString(Accuracy(correct, total)) + "%";
    var s := head + " (" + NatToString(correct) + "/" + NatToString(total) + "問正解)";
    assert s[..|head|] == head;
    s
  }

  /** The completion alert: the score, followed by the review-list
      notice exactly when some answer was wrong. */
  function CompletionMessage(correct: nat, total: nat, incorrect: nat): (m: string)
    requires total > 0
    ensures StartsWith(m, ScoreLine(correct, total))
    ensures EndsWith(m, ReviewNotice) <==> incorrect > 0
  {
    var head := ScoreLine(correct, total);
    var m := head + (if incorrect > 0 then ReviewNotice else "");
    assert m[..|head|] == head;
    if incorrect > 0 then
      assert m[|m| - |ReviewNotice|..] == ReviewNotice;
      m
    else
      assert ReviewNotice[|ReviewNotice| - 1] == '。';
      m
  }

  /** The mastery table after `createWordMastery` for each answer in
      order. */
  function WithMasteries(rs: seq<WordMastery>, answers: seq<Answer>, testType: string, now: int): seq<WordMastery> {
    if answers == [] then rs
    else WithMastery(WithMasteries(rs, answers[..|answers| - 1], testType, now), answers[|answers| - 1].wordId, testType, now)
  }

  /** After the completion writes every listed word is recorded under the
      test type, every earlier record is kept in place, and no more than
      one record per answer is added. */
  lemma {:induction false} WithMasteriesRecords(rs: seq<WordMastery>, answers: seq<Answer>, testType: string, now: int)
    ensures var r := WithMasteries(rs, answers, testType, now);
            && |rs| <= |r| <= |rs| + |answers|
            && r[..|rs|] == rs
            && forall a :: a in answers ==> HasKey(r, a.wordId, testType)
  {
    if answers != [] {
      var init := answers[..|answers| - 1];
      var last := answers[|answers| - 1];
      var before := WithMasteries(rs, init, testType, now);
      WithMasteriesRecords(rs, init, testType, now);
      WithMasteryRecords(before, last.wordId, testType, now);
      var r := WithMastery(before, last.wordId, testType, now);
      assert r[..|before|] == before;
      assert r[..|rs|] == before[..|rs|];
      forall a | a in answers
        ensures HasKey(r, a.wordId, testType)
      {
        if a != last {
          assert a in init;
          var i :| 0 <= i < |before| && before[i].wordId == a.wordId && before[i].testType == testType;
          assert r[i] == before[i];
        }
      }
    }
  }

  /** The position of the question for `wordId`, as `questions.find`. */
  function QuestionFor(questions: seq<Question>, wordId: string): (k: int)
    ensures k == -1 || (0 <= k < |questions| && questions[k].word.id == wordId)
    ensures k == -1 <==> forall q :: q in questions ==> q.word.id != wordId
  {
    FirstIndex(questions, (q: Question) => q.word.id == wordId)
  }

  /** The SRS table after one wrong answer for `wordId`: the word's first
      record gets the mistake update, or a record from a mistake is added
      when the word has none. */
  function MistakeRecorded(records: seq<SrsRecord>, wordId: string, now: int): seq<SrsRecord> {
    match FirstForWord(records, wordId, 0)
    case None => records + [NewRecord(wordId, true, now)]
    case Some(i) => records[i := MistakeUpdate(records[i], now)]
  }

  /** The SRS table after the wrong answers in order; an answer whose word
      has no question is skipped. */
  function MistakesRecorded(records: seq<SrsRecord>, wrong: seq<Answer>, questions: seq<Question>, now: int): seq<SrsRecord> {
    if wrong == [] then records
    else
      var before := MistakesRecorded(records, wrong[..|wrong| - 1], questions, now);
      var a := wrong[|wrong| - 1];
      if QuestionFor(questions, a.wordId) == -1 then before else MistakeRecorded(before, a.wordId, now)
  }

  /** One wrong answer keeps every record's word, adds at most one
      record, and leaves a record for the word. */
  lemma MistakeRecordedKeeps(records: seq<SrsRecord>, wordId: string, now: int)
    ensures var r := MistakeRecorded(records, wordId, now);
            && |records| <= |r| <= |records| + 1
            && (forall j :: 0 <= j < |records| ==> r[j].wordId == records[j].wordId)
            && (exists j :: 0 <= j < |r| && r[j].wordId == wordId)
            && (|r| == |records| + 1 <==> forall j :: 0 <= j < |records| ==> records[j].wordId != wordId)
  {
    var r := MistakeRecorded(records, wordId, now);
    match FirstForWord(records, wordId, 0)
    case None =>
      assert r[|records|].wordId == wordId;
    case Some(i) =>
      assert r[i].wordId == wordId;
  }

  /** After the completion writes, each wrong word that has a question
      has an SRS record, no record changes word, and at most one record
      is added per wrong answer; a word that already had a record gets no
      second one. */
  lemma {:induction false} MistakesRecordedKeeps(records: seq<SrsRecord>, wrong: seq<Answer>, questions: seq<Question>, now: int)
    ensures var r := MistakesRecorded(records, wrong, questions, now);
            && |records| <= |r| <= |records| + |wrong|
            && (forall j :: 0 <= j < |records| ==> r[j].wordId == records[j].wordId)
            && (forall a :: a in wrong && QuestionFor(questions, a.wordId) != -1 ==> exists j :: 0 <= j < |r| && r[j].wordId == a.wordId)
  {
    if wrong != [] {
      var init := wrong[..|wrong| - 1];
      var last := wrong[|wrong| - 1];
      var before := MistakesRecorded(records, init, questions, now);
      MistakesRecordedKeeps(records, init, questions, now);
      var r := MistakesRecorded(records, wrong, questions, now);
      if QuestionFor(questions, last.wordId) != -1 {
        MistakeRecordedKeeps(before, last.wordId, now);
        forall a | a in wrong && QuestionFor(questions, a.wordId) != -1
          ensures exists j :: 0 <= j < |r| && r[j].wordId == a.wordId
        {
          if a != last {
            assert a in init;
            var j :| 0 <= j < |before| && before[j].wordId == a.wordId;
            assert r[j].wordId == a.wordId;
          }
        }
      } else {
        forall a | a in wrong && QuestionFor(questions, a.wordId) != -1
          ensures exists j :: 0 <= j < |r| && r[j].wordId == a.wordId
        {
          assert a in init;
        }
      }
    }
  }

  /** The listening progress snapshot of `grade` taken for `today`. */
  function Snapshot(grade: int, today: string, mastery: seq<WordMastery>, words: seq<Word>): (p: LearningProgress)
    ensures p.date == today && p.grade == grade
    ensures p.listeningMasteredCount == MasteredCountOf(mastery, words, Listening, grade)
    ensures p.readingMasteredCount == MasteredCountOf(mastery, words, Reading, grade)
    ensures p.totalWordsCount == WordCountByGrade(words, grade)
  {
    LearningProgress(today, grade, MasteredCountOf(mastery, words, Listening, grade),
      MasteredCountOf(mastery, words, Reading, grade), WordCountByGrade(words, grade))
  }

  /** The three styles of an option, as `getOptionStyle` and
      `getOptionTextStyle` choose them. */
  datatype Tone = Neutral | Right | Wrong | Muted

  /** Before a selection every option is neutral; afterwards the correct
      option is green, a wrongly selected one red and the rest grey. */
  function OptionTone(option: string, selectedAnswer: Option<string>, correctAnswer: string): (t: Tone)
    ensures t == Neutral <==> !Selected(selectedAnswer)
    ensures Selected(selectedAnswer) ==> (t == Right <==> option == correctAnswer)
    ensures Selected(selectedAnswer) ==> (t == Wrong <==> option == selectedAnswer.value && option != correctAnswer)
    ensures Selected(selectedAnswer) ==> (t == Muted <==> option != selectedAnswer.value && option != correctAnswer)
  {
    if !Selected(selectedAnswer) then Neutral
    else
      var isCorrect := option == correctAnswer;
      var isSelected := option == selectedAnswer.value;
      if isSelected && isCorrect then Right
      else if isSelected && !isCorrect then Wrong
      else if isCorrect then Right
      else Muted
  }

  function BoxStyle(t: Tone): string {
    match t
    case Neutral => "border-2 border-gray-300 bg-white"
    case Right => "border-2 border-green-500 bg-green-50"
    case Wrong => "border-2 border-red-500 bg-red-50"
    case Muted => "border-2 border-gray-300 bg-gray-50"
  }

  function TextStyle(t: Tone): string {
    match t
    case Neutral => "text-gray-800"
    case Right => "text-green-700 font-semibold"
    case Wrong => "text-red-700 font-semibold"
    case Muted => "text-gray-600"
  }

  /** `getOptionStyle`. */
  function OptionStyle(option: string, selectedAnswer: Option<string>, correctAnswer: string): (s: string)
    ensures s == BoxStyle(OptionTone(option, selectedAnswer, correctAnswer))
  {
    BoxStyle(OptionTone(option, selectedAnswer, correctAnswer))
  }

  /** `getOptionTextStyle`. */
  function OptionTextStyle(option: string, selectedAnswer: Option<string>, correctAnswer: string): (s: string)
    ensures s == TextStyle(OptionTone(option, selectedAnswer, correctAnswer))
  {
    TextStyle(OptionTone(option, selectedAnswer, correctAnswer))
  }

  /** The four tones have four different box styles and four different
      text styles, so the style shown tells the tone. */
  lemma StylesTellTone(t1: Tone, t2: Tone)
    requires BoxStyle(t1) == BoxStyle(t2) || TextStyle(t1) == TextStyle(t2)
    ensures t1 == t2
  {
    if t1 != t2 {
      StyleCharsDiffer(t1, t2);
    }
  }

  lemma StyleCharsDiffer(t1: Tone, t2: Tone)
    requires t1 != t2
    ensures BoxStyle(t1) != BoxStyle(t2) && TextStyle(t1) != TextStyle(t2)
  {
    var b1, b2 := BoxStyle(t1), BoxStyle(t2);
    var x1, x2 := TextStyle(t1), TextStyle(t2);
    if |b1| == |b2| {
      assert b1[16] != b2[16];
    }
    if |x1| == |x2| {
      assert x1[10] != x2[10];
    }
  }

  /** The first loop of `handleTestComplete`: `createWordMastery` for
      each right answer, in order. */
  method RecordMasteries(mastery: MasteryTable, correctResults: seq<Answer>, testType: string, now: int)
    modifies mastery
    ensures mastery.records == WithMasteries(old(mastery.records), correctResults, testType, now)
  {
    var k := 0;
    while k < |correctResults|
      invariant 0 <= k <= |correctResults|
      invariant mastery.records == WithMasteries(old(mastery.records), correctResults[..k], testType, now)
    {
      var created := mastery.CreateWordMastery(correctResults[k].wordId, testType, now, false);
      assert correctResults[..k + 1][..k] == correctResults[..k];
      k := k + 1;
    }
    assert correctResults[..k] == correctResults;
  }

  /** The second loop of `handleTestComplete`: each wrong answer whose
      word has a question gets a new SRS record from a mistake, or the
      mistake update of the word's record. */
  method QueueMistakes(srs: SrsTable, incorrectResults: seq<Answer>, questions: seq<Question>, now: int)
    requires srs.Valid()
    modifies srs
    ensures srs.Valid()
    ensures srs.records == MistakesRecorded(old(srs.records), incorrectResults, questions, now)
  {
    var k := 0;
    while k < |incorrectResults|
      invariant 0 <= k <= |incorrectResults|
      invariant srs.Valid()
      invariant srs.records == MistakesRecorded(old(srs.records), incorrectResults[..k], questions, now)
    {
      var result := incorrectResults[k];
      assert incorrectResults[..k + 1][..k] == incorrectResults[..k];
      var qi := QuestionFor(questions, result.wordId);
      if qi != -1 {
        var question := questions[qi];
        var existingSrs := srs.GetByWordId(question.word.id, false);
        if existingSrs.None? {
          var created := srs.Create(question.word.id, true, now, false);
        } else {
          var updated := srs.UpdateForMistake(existingSrs.value, now, false);
        }
      }
      k := k + 1;
    }
    assert incorrectResults[..k] == incorrectResults;
  }

  class Quiz {
    const kind: QuizKind
    const level: int
    var questions: seq<Question>
    var currentQuestionIndex: nat
    var selectedAnswer: Option<string>
    var results: seq<Answer>
    var questionStartTime: int
    var showNextButton: bool

    constructor(kind: QuizKind, level: int, now: int)
      ensures this.kind == kind && this.level == level
      ensures questions == [] && currentQuestionIndex == 0 && selectedAnswer.None? && results == []
      ensures questionStartTime == now && !showNextButton
    {
      this.kind := kind;
      this.level := level;
      questions := [];
      currentQuestionIndex := 0;
      selectedAnswer := None;
      results := [];
      questionStartTime := now;
      showNextButton := false;
    }

    /** `generateQuestions`: one question per word of the unit, in the
        order the query returns them. Without a unit nothing happens;
        an empty unit or a failing query raises the error alert and
        leaves the quiz without questions. */
    method GenerateQuestions(currentUnit: Option<Unit>, allWords: seq<Word>, shuffles: seq<seq<Word>>, now: int, fails: bool)
      returns (alert: bool)
      requires currentUnit.Some? ==> ShufflesFor(shuffles, Children(currentUnit.value, allWords), allWords, level)
      modifies this
      ensures currentUnit.None? ==> !alert
      ensures currentUnit.Some? ==> (alert <==> fails || Children(currentUnit.value, allWords) == [])
      ensures alert || currentUnit.None? ==> questions == old(questions) && questionStartTime == old(questionStartTime)
      ensures !alert && currentUnit.Some? ==>
        && |questions| == |Children(currentUnit.value, allWords)| && questionStartTime == now
        && forall k :: 0 <= k < |questions| ==>
             questions[k].word == Children(currentUnit.value, allWords)[k] && WellBuilt(questions[k], allWords, level)
      ensures !alert && currentUnit.Some? ==> forall k :: 0 <= k < |questions| ==> |questions[k].options| <= 4
      ensures currentQuestionIndex == old(currentQuestionIndex) && selectedAnswer == old(selectedAnswer)
      ensures results == old(results) && showNextButton == old(showNextButton)
    {
      if currentUnit.None? {
        return false;
      }
      if fails {
        return true;
      }
      var words := Children(currentUnit.value, allWords);
      if |words| == 0 {
        return true;
      }
      var testQuestions := BuildQuestions(words, allWords, level, shuffles);
      questions := testQuestions;
      questionStartTime := now;
      return false;
    }

    /** `handleAnswerSelect`: ignored once an answer is selected for the
        current question; otherwise the answer is selected, the next
        button shown, and one result for the current word appended. */
    method HandleAnswerSelect(answer: string, now: int)
      requires !Selected(selectedAnswer) ==> currentQuestionIndex < |questions|
      modifies this
      ensures questions == old(questions) && currentQuestionIndex == old(currentQuestionIndex)
      ensures questionStartTime == old(questionStartTime)
      ensures Selected(old(selectedAnswer)) ==> selectedAnswer == old(selectedAnswer) && showNextButton == old(showNextButton) && results == old(results)
      ensures !Selected(old(selectedAnswer)) ==>
        && selectedAnswer == Some(answer) && showNextButton
        && results == old(results) + [Answer(questions[currentQuestionIndex].word.id,
                                             answer == questions[currentQuestionIndex].correctAnswer,
                                             now - questionStartTime)]
      ensures answer != "" ==> Selected(selectedAnswer)
    {
      if Selected(selectedAnswer) {
        return;
      }
      selectedAnswer := Some(answer);
      showNextButton := true;
      var currentQuestion := questions[currentQuestionIndex];
      var isCorrect := answer == currentQuestion.correctAnswer;
      var timeMs := now - questionStartTime;
      results := results + [Answer(currentQuestion.word.id, isCorrect, timeMs)];
    }

    /** `handleTestComplete`: records a mastery for every right answer,
        queues every wrong word for review, takes the progress snapshot
        (listening only), and returns the alert text. The writes are
        modelled as succeeding. */
    method HandleTestComplete(now: int, today: string, allWords: seq<Word>,
                              mastery: MasteryTable, srs: SrsTable, progress: ProgressTable)
      returns (message: string)
      requires srs.Valid() && |questions| > 0
      modifies mastery, srs, progress
      ensures srs.Valid()
      ensures message == CompletionMessage(|Filter(results, IsRight)|, |questions|, |Filter(results, IsWrong)|)
      ensures mastery.records == WithMasteries(old(mastery.records), Filter(results, IsRight), TestTypeOf(kind), now)
      ensures srs.records == MistakesRecorded(old(srs.records), Filter(results, IsWrong), questions, now)
      ensures kind.ListeningQuiz? ==> progress.records == Upserted(old(progress.records), Snapshot(level, today, mastery.records, allWords))
      ensures kind.ReadingQuiz? ==> progress.records == old(progress.records)
      ensures (forall a :: a in results ==> a.correct) ==> srs.records == old(srs.records)
    {
      var correctResults := Filter(results, IsRight);
      RecordMasteries(mastery, correctResults, TestTypeOf(kind), now);
      var incorrectResults := Filter(results, IsWrong);
      QueueMistakes(srs, incorrectResults, questions, now);
      if incorrectResults != [] {
        assert incorrectResults[0] in incorrectResults;
      }

      if kind.ListeningQuiz? {
        var snapshot := progress.UpdateOrCreateLearningProgress(level, None, today, mastery, allWords,
          Faults(false, false, false, false, false));
      }
      message := CompletionMessage(|correctResults|, |questions|, |incorrectResults|);
    }

    /** `handleNextQuestion`: before the last question, moves to the next
        one with the selection cleared, the next button hidden and the
        timer restarted; on the last question, completes the quiz. */
    method HandleNextQuestion(now: int, today: string, allWords: seq<Word>,
                              mastery: MasteryTable, srs: SrsTable, progress: ProgressTable)
      returns (message: Option<string>)
      requires srs.Valid() && |questions| > 0
      modifies this, mastery, srs, progress
      ensures srs.Valid()
      ensures questions == old(questions) && results == old(results)
      ensures old(currentQuestionIndex) + 1 < |questions| ==>
        && currentQuestionIndex == old(currentQuestionIndex) + 1
        && selectedAnswer.None? && !showNextButton && questionStartTime == now
        && message.None?
        && mastery.records == old(mastery.records) && srs.records == old(srs.records)
        && progress.records == old(progress.records)
      ensures old(currentQuestionIndex) + 1 >= |questions| ==>
        && currentQuestionIndex == old(currentQuestionIndex) && selectedAnswer == old(selectedAnswer)
        && showNextButton == old(showNextButton) && questionStartTime == old(questionStartTime)
        && message == Some(CompletionMessage(|Filter(results, IsRight)|, |questions|, |Filter(results, IsWrong)|))
        && mastery.records == WithMasteries(old(mastery.records), Filter(results, IsRight), TestTypeOf(kind), now)
        && srs.records == MistakesRecorded(old(srs.records), Filter(results, IsWrong), questions, now)
        && (kind.ListeningQuiz? ==> progress.records == Upserted(old(progress.records), Snapshot(level, today, mastery.records, allWords)))
        && (kind.ReadingQuiz? ==> progress.records == old(progress.records))
    {
      if currentQuestionIndex + 1 < |questions| {
        currentQuestionIndex := currentQuestionIndex + 1;
        selectedAnswer := None;
        showNextButton := false;
        questionStartTime := now;
        return None;
      }
      var text := HandleTestComplete(now, today, allWords, mastery, srs, progress);
      return Some(text);
    }
  }
}
