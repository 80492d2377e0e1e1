/** Locating a dictionary word inside a Korean example sentence, allowing
    for verb and adjective conjugation (src/utils/koreanTextUtils.ts).
    The search is specified by the function `FindWord`; the method
    `FindWordInExample` performs it step by step, with the loops of the
    app, and is proved to compute `FindWord`. */
module KoreanText {
  import opened Wrappers
  import opened Text

  /** An example sentence cut into the part before the match, the match,
      and the part after it. */
  datatype Highlight = Highlight(before: string, highlighted: string, after: string)

  /** A candidate 하다 form: where it first occurs and the text searched. */
  datatype Hit = Hit(index: nat, text: string)

  /** A special stem with the endings that may follow it. */
  datatype SpecialForm = SpecialForm(stem: string, endings: seq<string>)

  /** The conjugation endings, in the order they are tried (longer
      endings before their prefixes). */
  const ConjugationPatterns: seq<string> := [
    "았어요", "었어요", "였어요", "았습니다", "었습니다", "였습니다",
    "았어", "었어", "였어", "았", "었", "였",
    "아요", "어요", "여요", "해요", "습니다", "ㅂ니다",
    "아", "어", "여", "해",
    "을 거예요", "ㄹ 거예요", "을 거야", "ㄹ 거야", "을", "ㄹ",
    "고 있", "고 계",
    "는", "ㄴ", "은", "던",
    "고", "서", "니까", "면", "지만", "게", "기"
  ]

  /** The ㅎ-irregular forms tried for a 하다 verb, after its base stem. */
  const HadaForms: seq<string> := [
    "합니다", "합니까", "했어요", "했어", "했습니다",
    "하고", "하는", "한", "할", "해요", "해"
  ]

  /** The forms of 가다 that do not contain its stem followed by an ending. */
  const GaForms: seq<SpecialForm> := [
    SpecialForm("갔", ["어요", "어", "습니다"]),
    SpecialForm("가", ["요"])
  ]

  /** What may follow a bare stem for it to count as a whole word. The
      follower is a single character, so the two-character entries can
      never be equal to it. */
  const EndBoundaryTokens: seq<string> := [
    " ", "\n", ".", ",", "!", "?", "을", "를", "이", "가", "은", "는",
    "에", "에서", "으로", "로", "과", "와", "의", "도"
  ]

  /** The first characters of the conjugation endings. */
  predicate IsConjugationInitial(c: char) {
    c == '았' || c == '었' || c == '였' || c == '아' || c == '어' || c == '여' || c == '해' ||
    c == '습' || c == 'ㅂ' || c == '을' || c == 'ㄹ' || c == '고' || c == '는' || c == 'ㄴ' ||
    c == '은' || c == '던' || c == '서' || c == '니' || c == '면' || c == '지' || c == '게' ||
    c == '기'
  }

  /** The one-character entries of the boundary list. */
  predicate IsBoundaryChar(c: char) {
    c == ' ' || c == '\n' || c == '.' || c == ',' || c == '!' || c == '?' || c == '을' ||
    c == '를' || c == '이' || c == '가' || c == '은' || c == '는' || c == '에' || c == '로' ||
    c == '과' || c == '와' || c == '의' || c == '도'
  }

  /** The verb ending removed to obtain a stem. */
  const VerbEnding: string := "다"

  /** Cuts `ex` around the `n` characters starting at `i`. */
  function Cut(ex: string, i: nat, n: nat): (h: Highlight)
    requires i + n <= |ex|
    ensures h.before + h.highlighted + h.after == ex
    ensures |h.before| == i && |h.highlighted| == n
  {
    Highlight(ex[..i], ex[i..i + n], ex[i + n..])
  }

  /** The word without one trailing 다; other words are their own stem. */
  function ExtractStem(word: string): (stem: string)
    ensures EndsWith(word, VerbEnding) ==> stem + VerbEnding == word
    ensures !EndsWith(word, VerbEnding) ==> stem == word
  {
    if EndsWith(word, VerbEnding) then word[..|word| - |VerbEnding|] else word
  }

  /** Dictionary entries for grammar patterns start with a dash. */
  predicate IsGrammarPattern(word: string) {
    StartsWith(word, "－") || StartsWith(word, "-")
  }

  /** The index of the first of `pats[k..]` that `s` starts with. */
  function FirstPrefixFrom(s: string, pats: seq<string>, k: nat): (r: Option<nat>)
    requires k <= |pats|
    ensures r.Some? ==> k <= r.value < |pats| && StartsWith(s, pats[r.value])
    ensures r.Some? ==> forall j :: k <= j < r.value ==> !StartsWith(s, pats[j])
    ensures r.None? ==> forall j :: k <= j < |pats| ==> !StartsWith(s, pats[j])
    decreases |pats| - k
  {
    if k == |pats| then None
    else if StartsWith(s, pats[k]) then Some(k)
    else FirstPrefixFrom(s, pats, k + 1)
  }

  function FirstPrefix(s: string, pats: seq<string>): Option<nat> {
    FirstPrefixFrom(s, pats, 0)
  }

  /** The `n` characters at `i` followed by the first of `endings` that
      comes next, if any. */
  function EndingMatch(ex: string, i: nat, n: nat, endings: seq<string>): (r: Option<Highlight>)
    requires i + n <= |ex|
    ensures r.Some? ==> r.value.before + r.value.highlighted + r.value.after == ex
    ensures r.Some? ==> |r.value.before| == i
    ensures r.Some? ==> exists k :: (0 <= k < |endings| && r.value.highlighted == ex[i..i + n] + endings[k] &&
                                     StartsWith(ex[i + n..], endings[k]) &&
                                     forall j :: 0 <= j < k ==> !StartsWith(ex[i + n..], endings[j]))
    ensures r.None? <==> forall j :: 0 <= j < |endings| ==> !StartsWith(ex[i + n..], endings[j])
  {
    match FirstPrefix(ex[i + n..], endings)
    case Some(k) => Some(Cut(ex, i, n + |endings[k]|))
    case None => None
  }

  /** The earliest occurrence of `base + HadaForms[j]` over `j < k`; on a
      tie the form listed first is kept. */
  function EarliestUpTo(ex: string, base: string, k: nat): (r: Option<Hit>)
    requires k <= |HadaForms|
    ensures r.Some? ==> OccursAt(ex, r.value.text, r.value.index)
    ensures r.Some? ==> exists j :: 0 <= j < k && r.value.text == base + HadaForms[j]
    ensures r.Some? ==> forall j :: 0 <= j < k ==>
              IndexOf(ex, base + HadaForms[j]) == -1 || r.value.index <= IndexOf(ex, base + HadaForms[j])
    ensures r.None? ==> forall j :: 0 <= j < k ==> IndexOf(ex, base + HadaForms[j]) == -1
  {
    if k == 0 then None
    else
      var searchStr := base + HadaForms[k - 1];
      KeepEarlier(EarliestUpTo(ex, base, k - 1), IndexOf(ex, searchStr), searchStr)
  }

  /** The hit kept after trying one more form found at `index`: the new
      one when it occurs strictly earlier than the kept one. */
  function KeepEarlier(kept: Option<Hit>, index: int, text: string): (r: Option<Hit>)
    requires index >= -1
    ensures r != kept ==> r.Some? && r.value.index == index && r.value.text == text
    ensures r.Some? && kept.Some? ==> r.value.index <= kept.value.index
    ensures index != -1 ==> r.Some? && r.value.index <= index
  {
    if index != -1 && (kept.None? || index < kept.value.index) then Some(Hit(index, text))
    else kept
  }

  /** The adjective form where 하 + 여 has contracted to 해. */
  function AdjMatch(stem: string, ex: string): (r: Option<Highlight>)
    ensures r.Some? ==> r.value.before + r.value.highlighted + r.value.after == ex
  {
    if EndsWith(stem, "하") then
      var adjStem := stem[..|stem| - 1];
      var adjIndex := IndexOf(ex, adjStem + "해");
      if adjIndex != -1 then Some(Cut(ex, adjIndex, |adjStem| + 1)) else None
    else None
  }

  /** The character after a bare stem, compared as a one-character
      string, is one of `tokens`, or nothing follows. */
  predicate IsEndBoundaryIn(afterStem: string, tokens: seq<string>) {
    var afterChar := if |afterStem| > 0 then afterStem[0] else ' ';
    [afterChar] in tokens || |afterStem| == 0
  }

  /** The character after a bare stem ends the word. */
  predicate IsEndBoundary(afterStem: string) {
    IsEndBoundaryIn(afterStem, EndBoundaryTokens)
  }

  /** The stem is preceded by the sentence start, a space or a newline. */
  predicate IsWordStart(ex: string, i: nat)
    requires i <= |ex|
  {
    i == 0 || ex[i - 1] == ' ' || ex[i - 1] == '\n'
  }

  /** The verdict on one occurrence of `stem` at `i`: the stem with the
      first conjugation ending that follows it, the bare stem when a word
      boundary follows, or nothing. */
  function StemMatchAt(stem: string, ex: string, i: nat, endings: seq<string>, tokens: seq<string>): (r: Option<Highlight>)
    requires OccursAt(ex, stem, i)
    ensures r.Some? ==> r.value.before + r.value.highlighted + r.value.after == ex
    ensures r.Some? ==> |r.value.before| == i && IsWordStart(ex, i) && StartsWith(r.value.highlighted, stem)
  {
    if !IsWordStart(ex, i) then None
    else
      var conjugated := EndingMatch(ex, i, |stem|, endings);
      if conjugated.Some? then conjugated
      else if IsEndBoundaryIn(ex[i + |stem|..], tokens) then Some(Cut(ex, i, |stem|))
      else None
  }

  /** Scans the occurrences of `stem` at or after `from`, left to right,
      and returns the verdict on the first one that gives a match. */
  function ScanFrom(stem: string, ex: string, from: nat, endings: seq<string>, tokens: seq<string>): (r: Option<Highlight>)
    requires |stem| > 0
    ensures r.Some? ==> r.value.before + r.value.highlighted + r.value.after == ex
    ensures r.Some? ==> from <= |r.value.before| && IsWordStart(ex, |r.value.before|) && StartsWith(r.value.highlighted, stem)
    decreases |ex| - from, 1
  {
    if from >= |ex| then None
    else
      var stemIndex := IndexOfFrom(ex, stem, from);
      if stemIndex == -1 then None
      else ScanAt(stem, ex, stemIndex, endings, tokens)
  }

  /** The verdict on the occurrence of `stem` at `i` or, when it gives
      none, the scan from the character after it. */
  function ScanAt(stem: string, ex: string, i: nat, endings: seq<string>, tokens: seq<string>): (r: Option<Highlight>)
    requires |stem| > 0 && OccursAt(ex, stem, i)
    ensures r.Some? ==> r.value.before + r.value.highlighted + r.value.after == ex
    ensures r.Some? ==> i <= |r.value.before| && IsWordStart(ex, |r.value.before|) && StartsWith(r.value.highlighted, stem)
    decreases |ex| - i, 0
  {
    match StemMatchAt(stem, ex, i, endings, tokens)
    case Some(h) => Some(h)
    case None => ScanFrom(stem, ex, i + 1, endings, tokens)
  }

  /** The first listed special form whose stem's first occurrence is
      followed by one of its endings. Later occurrences are not examined. */
  function FormsMatchFrom(ex: string, forms: seq<SpecialForm>, k: nat): (r: Option<Highlight>)
    requires k <= |forms|
    ensures r.Some? ==> r.value.before + r.value.highlighted + r.value.after == ex
    decreases |forms| - k
  {
    if k == |forms| then None
    else
      var form := forms[k];
      var specialIndex := IndexOf(ex, form.stem);
      if specialIndex == -1 then FormsMatchFrom(ex, forms, k + 1)
      else
        var special := EndingMatch(ex, specialIndex, |form.stem|, form.endings);
        if special.Some? then special else FormsMatchFrom(ex, forms, k + 1)
  }

  /** The ㄷ-irregular: a stem ending in 듣 also appears with 들 followed
      by a conjugation ending (first occurrence only). */
  function DeutMatch(stem: string, ex: string): (r: Option<Highlight>)
    ensures r.Some? ==> r.value.before + r.value.highlighted + r.value.after == ex
  {
    if EndsWith(stem, "듣") then
      var irregularStem := stem[..|stem| - 1] + "들";
      var irregularIndex := IndexOf(ex, irregularStem);
      if irregularIndex == -1 then None
      else EndingMatch(ex, irregularIndex, |irregularStem|, ConjugationPatterns)
    else None
  }

  predicate IsHadaVerb(word: string) {
    word == "하다" || EndsWith(word, "하다")
  }

  /** The stem of a 하다 verb without its 하. */
  function HadaBase(word: string): string
    requires IsHadaVerb(word)
  {
    if word == "하다" then "" else word[..|word| - 2]
  }

  /** The stem-based search, tried when the word has a 다 to strip and
      does not occur verbatim: the earliest 하다 form first, then the
      other stem forms. */
  function StemMatch(word: string, ex: string, stem0: string): (r: Option<Highlight>)
    requires |stem0| > 0 && stem0 + VerbEnding == word
    ensures r.Some? ==> r.value.before + r.value.highlighted + r.value.after == ex
  {
    var earliest := if IsHadaVerb(word) then EarliestUpTo(ex, HadaBase(word), |HadaForms|) else None;
    if earliest.Some? then Some(Cut(ex, earliest.value.index, |earliest.value.text|))
    else
      var stem := if IsHadaVerb(word) then HadaBase(word) + "하" else stem0;
      StemFormsMatch(word, stem, ex)
  }

  /** The contracted adjective form, then the word-boundary scan, then
      the special forms of 가다, then the ㄷ-irregular form. */
  function StemFormsMatch(word: string, stem: string, ex: string): (r: Option<Highlight>)
    requires |stem| > 0
    ensures r.Some? ==> r.value.before + r.value.highlighted + r.value.after == ex
  {
    var adj := AdjMatch(stem, ex);
    if adj.Some? then adj
    else
      var scan := ScanFrom(stem, ex, 0, ConjugationPatterns, EndBoundaryTokens);
      if scan.Some? then scan
      else
        var ga := if word == "가다" then FormsMatchFrom(ex, GaForms, 0) else None;
        if ga.Some? then ga else DeutMatch(stem, ex)
  }

  /** `findWordInExample`: where `word`, or a conjugated form of it, is
      found in `example`. */
  function FindWord(word: string, example: string): (r: Option<Highlight>)
    ensures r.Some? ==> r.value.before + r.value.highlighted + r.value.after == example
    ensures word == "" || example == "" || IsGrammarPattern(word) ==> r.None?
    ensures word != "" && example != "" && !IsGrammarPattern(word) && IndexOf(example, word) != -1 ==>
              r.Some? && r.value.highlighted == word && r.value.before == example[..IndexOf(example, word)]
  {
    if word == "" || example == "" then None
    else if IsGrammarPattern(word) then None
    else
      var exactIndex := IndexOf(example, word);
      if exactIndex != -1 then Some(Cut(example, exactIndex, |word|))
      else
        var stem := ExtractStem(word);
        if stem != word && |stem| > 0 then StemMatch(word, example, stem) else None
  }

  /** `wordAppearsInExample`: some form of the word was found. */
  function WordAppearsInExample(word: string, example: string): (b: bool)
    ensures b ==> word != "" && example != "" && !IsGrammarPattern(word)
    ensures word != "" && !IsGrammarPattern(word) && IndexOf(example, word) != -1 ==> b
  {
    FindWord(word, example).Some?
  }

  // ---------------------------------------------------------------------
  // Properties of the search.

  /** The follower of a bare stem is compared as one character, so only
      the one-character tokens can ever match. */
  lemma EndBoundaryIsOneChar(afterStem: string)
    ensures IsEndBoundary(afterStem) <==>
              |afterStem| == 0 || IsBoundaryChar(afterStem[0])
  {
  }

  /** For a 하다 verb that does not occur verbatim, the 하다 form that
      occurs earliest in the sentence is highlighted, whatever its place
      in the list of forms. */
  lemma HadaEarliestWins(word: string, example: string, j: nat)
    requires word != "" && example != "" && !IsGrammarPattern(word)
    requires IndexOf(example, word) == -1 && IsHadaVerb(word)
    requires j < |HadaForms| && IndexOf(example, HadaBase(word) + HadaForms[j]) != -1
    ensures FindWord(word, example).Some?
    ensures var h := FindWord(word, example).value;
      (exists f :: 0 <= f < |HadaForms| && h.highlighted == HadaBase(word) + HadaForms[f]) &&
      OccursAt(example, h.highlighted, |h.before|) &&
      forall g :: 0 <= g < |HadaForms| ==>
        IndexOf(example, HadaBase(word) + HadaForms[g]) == -1 ||
        |h.before| <= IndexOf(example, HadaBase(word) + HadaForms[g])
  {
    var stem := ExtractStem(word);
    assert EndsWith(word, VerbEnding);
    assert stem != word && |stem| > 0;
  }

  // ---------------------------------------------------------------------
  // The search as the app performs it.

  /** The table loop: the index of the first pattern `s` starts with. */
  method MatchPrefix(s: string, pats: seq<string>) returns (r: Option<nat>)
    ensures r == FirstPrefix(s, pats)
  {
    for k := 0 to |pats|
      invariant FirstPrefixFrom(s, pats, 0) == FirstPrefixFrom(s, pats, k)
    {
      if StartsWith(s, pats[k]) {
        return Some(k);
      }
    }
    return None;
  }

  /** A stem found at `i` followed by one of `endings`, tried in order. */
  method MatchEnding(ex: string, i: nat, n: nat, endings: seq<string>) returns (r: Option<Highlight>)
    requires i + n <= |ex|
    ensures r == EndingMatch(ex, i, n, endings)
  {
    var after := ex[i + n..];
    var k := MatchPrefix(after, endings);
    if k.Some? {
      return Some(Cut(ex, i, n + |endings[k.value]|));
    }
    return None;
  }

  /** The loop over the 하다 forms keeping the earliest occurrence. */
  method EarliestHadaForm(ex: string, baseStem: string) returns (earliest: Option<Hit>)
    ensures earliest == EarliestUpTo(ex, baseStem, |HadaForms|)
  {
    earliest := None;
    for k := 0 to |HadaForms|
      invariant earliest == EarliestUpTo(ex, baseStem, k)
    {
      var searchStr := baseStem + HadaForms[k];
      var index := IndexOf(ex, searchStr);
      earliest := KeepEarlier(earliest, index, searchStr);
    }
  }

  /** The nested loop over special forms and their endings. */
  method MatchSpecialForms(ex: string, forms: seq<SpecialForm>) returns (r: Option<Highlight>)
    ensures r == FormsMatchFrom(ex, forms, 0)
  {
    for k := 0 to |forms|
      invariant FormsMatchFrom(ex, forms, 0) == FormsMatchFrom(ex, forms, k)
    {
      var form := forms[k];
      var specialIndex := IndexOf(ex, form.stem);
      if specialIndex != -1 {
        r := MatchEnding(ex, specialIndex, |form.stem|, form.endings);
        if r.Some? {
          return;
        }
      }
    }
    return None;
  }

  /** What follows an occurrence of `stem` that starts a word: the first
      conjugation ending in table order, else the bare stem when a word
      boundary follows. */
  method MatchAfterStem(stem: string, example: string, stemIndex: nat, endings: seq<string>, tokens: seq<string>)
    returns (r: Option<Highlight>)
    requires OccursAt(example, stem, stemIndex) && IsWordStart(example, stemIndex)
    ensures r == StemMatchAt(stem, example, stemIndex, endings, tokens)
  {
    r := MatchEnding(example, stemIndex, |stem|, endings);
    if r.Some? {
      return;
    }
    var afterStem := example[stemIndex + |stem|..];
    if IsEndBoundaryIn(afterStem, tokens) {
      return Some(Cut(example, stemIndex, |stem|));
    }
    return None;
  }

  /** One pass of the scan loop's body from `searchIndex`: the next
      occurrence of the stem (-1 when none is left) and the verdict on it. */
  method ScanStep(stem: string, example: string, searchIndex: nat, endings: seq<string>, tokens: seq<string>)
    returns (stemIndex: int, r: Option<Highlight>)
    requires |stem| > 0 && searchIndex <= |example|
    ensures stemIndex == IndexOfFrom(example, stem, searchIndex)
    ensures stemIndex == -1 ==> r.None?
    ensures stemIndex != -1 ==> r == StemMatchAt(stem, example, stemIndex, endings, tokens)
  {
    stemIndex := IndexOfFrom(example, stem, searchIndex);
    if stemIndex == -1 {
      return stemIndex, None;
    }
    var isWordBoundary := IsWordStart(example, stemIndex);
    if !isWordBoundary {
      return stemIndex, None;
    }
    r := MatchAfterStem(stem, example, stemIndex, endings, tokens);
  }

  /** The word-boundary scan: tries each occurrence of `stem` in turn,
      with the given ending table and boundary list. */
  method ScanStem(stem: string, example: string, endings: seq<string>, tokens: seq<string>)
    returns (r: Option<Highlight>)
    requires |stem| > 0
    ensures r == ScanFrom(stem, example, 0, endings, tokens)
  {
    var searchIndex := 0;
    while searchIndex < |example|
      invariant 0 <= searchIndex <= |example|
      invariant ScanFrom(stem, example, 0, endings, tokens) == ScanFrom(stem, example, searchIndex, endings, tokens)
      decreases |example| - searchIndex
    {
      var stemIndex;
      stemIndex, r := ScanStep(stem, example, searchIndex, endings, tokens);
      if stemIndex == -1 {
        break;
      }
      if r.Some? {
        return;
      }
      searchIndex := stemIndex + 1;
    }
    return None;
  }

  /** The search after the 하다 forms, for the (possibly reassigned) stem. */
  method MatchStemForms(word: string, stem: string, example: string) returns (r: Option<Highlight>)
    requires |stem| > 0
    ensures r == StemFormsMatch(word, stem, example)
  {
    if EndsWith(stem, "하") {
      var adjStem := stem[..|stem| - 1];
      var adjIndex := IndexOf(example, adjStem + "해");
      if adjIndex != -1 {
        return Some(Cut(example, adjIndex, |adjStem| + 1));
      }
    }
    r := ScanStem(stem, example, ConjugationPatterns, EndBoundaryTokens);
    if r.Some? {
      return;
    }
    if word == "가다" {
      r := MatchSpecialForms(example, GaForms);
      if r.Some? {
        return;
      }
    }
    r := MatchIrregular(stem, example);
  }

  /** The ㄷ-irregular form of a stem ending in 듣. */
  method MatchIrregular(stem: string, example: string) returns (r: Option<Highlight>)
    ensures r == DeutMatch(stem, example)
  {
    if EndsWith(stem, "듣") {
      var irregularStem := stem[..|stem| - 1] + "들";
      var irregularIndex := IndexOf(example, irregularStem);
      if irregularIndex != -1 {
        r := MatchEnding(example, irregularIndex, |irregularStem|, ConjugationPatterns);
        return;
      }
    }
    return None;
  }

  /** `findWordInExample`, step by step. */
  method FindWordInExample(word: string, example: string) returns (r: Option<Highlight>)
    ensures r == FindWord(word, example)
  {
    if word == "" || example == "" {
      return None;
    }
    if IsGrammarPattern(word) {
      return None;
    }
    var exactIndex := IndexOf(example, word);
    if exactIndex != -1 {
      return Some(Cut(example, exactIndex, |word|));
    }
    var stem := ExtractStem(word);
    if !(stem != word && |stem| > 0) {
      return None;
    }
    if word == "하다" || EndsWith(word, "하다") {
      var baseStem := if word == "하다" then "" else word[..|word| - 2];
      var earliest := EarliestHadaForm(example, baseStem);
      if earliest.Some? {
        return Some(Cut(example, earliest.value.index, |earliest.value.text|));
      }
      stem := baseStem + "하";
    }
    r := MatchStemForms(word, stem, example);
  }

  // ---------------------------------------------------------------------
  // Sentences from the app's examples.

  lemma ExactNounFound()
    ensures FindWord("사과", "저는 사과를 좋아해요") ==
              Some(Highlight("저는 ", "사과", "를 좋아해요"))
  {
    var ex := "저는 사과를 좋아해요";
    assert ex[3..5] == "사과";
    forall j | 0 <= j < 3 ensures !OccursAt(ex, "사과", j) {
      assert ex[j] != '사';
    }
    IndexOfIs(ex, "사과", 3);
    assert !IsGrammarPattern("사과");
    assert ex[..3] == "저는 " && ex[5..] == "를 좋아해요";
  }

  /** The first characters of the conjugation endings; the only ending
      starting with 지 is 지만. */
  lemma ConjugationInitialsCover()
    ensures forall j :: 0 <= j < |ConjugationPatterns| ==>
              |ConjugationPatterns[j]| >= 1 &&
              IsConjugationInitial(ConjugationPatterns[j][0]) &&
              (ConjugationPatterns[j][0] == '지' ==> ConjugationPatterns[j] == "지만")
  {
  }

  /** No conjugation ending follows a character that starts none of them,
      nor 지 without 만. */
  lemma NoConjugationFollows(s: string)
    requires |s| >= 2
    requires !IsConjugationInitial(s[0]) || (s[0] == '지' && s[1] != '만')
    ensures FirstPrefix(s, ConjugationPatterns) == None
  {
    ConjugationInitialsCover();
    forall j | 0 <= j < |ConjugationPatterns| ensures !StartsWith(s, ConjugationPatterns[j]) {
      var p := ConjugationPatterns[j];
      if |p| <= |s| {
        assert s[..|p|][0] == s[0];
        if p == "지만" {
          assert s[..|p|][1] == s[1];
        }
      }
    }
  }

  /** The scan moves past an occurrence that gives no match. */
  lemma ScanSkips(stem: string, ex: string, from: nat, i: nat, endings: seq<string>, tokens: seq<string>)
    requires |stem| > 0 && from < |ex|
    requires IndexOfFrom(ex, stem, from) == i
    requires StemMatchAt(stem, ex, i, endings, tokens) == None
    ensures ScanFrom(stem, ex, from, endings, tokens) == ScanFrom(stem, ex, i + 1, endings, tokens)
  {
  }

  /** A one-character stem starting a word, followed by no ending and
      no boundary, gives no match at `i`. */
  lemma OneCharStemPassedOver(ex: string, i: nat, c: char, endings: seq<string>, tokens: seq<string>)
    requires i + 1 < |ex| && ex[i] == c && IsWordStart(ex, i)
    requires FirstPrefix(ex[i + 1..], endings) == None
    requires !IsEndBoundaryIn(ex[i + 1..], tokens)
    ensures StemMatchAt([c], ex, i, endings, tokens) == None
  {
    assert ex[i..i + 1] == [c];
  }

  /** No 가 occurs from `from` on in ...지고 왔어요. */
  lemma {:induction false} GabangScanEnd(ex: string, from: nat)
    requires 5 <= from <= |ex| == 11
    requires ex[5] == '지' && ex[6] == '고' && ex[7] == ' ' && ex[8] == '왔' && ex[9] == '어' && ex[10] == '요'
    ensures IndexOfFrom(ex, "가", from) == -1
    decreases |ex| - from
  {
    if from == |ex| {
      IndexOfFromEnd(ex, "가");
    } else {
      IndexOfFromSkip(ex, "가", from);
      GabangScanEnd(ex, from + 1);
    }
  }

  /** The scan for 가 over the characters of 가방을 가지고 왔어요, for any
      endings and tokens that neither 방... nor 지고... match: 가 at 0 and
      가 at 4 are passed over, and no 가 follows. */
  lemma GabangScan(ex: string, endings: seq<string>, tokens: seq<string>)
    requires |ex| == 11
    requires ex[0] == '가' && ex[1] == '방' && ex[2] == '을' && ex[3] == ' ' && ex[4] == '가'
    requires ex[5] == '지' && ex[6] == '고' && ex[7] == ' ' && ex[8] == '왔' && ex[9] == '어' && ex[10] == '요'
    requires FirstPrefix(ex[1..], endings) == None && !IsEndBoundaryIn(ex[1..], tokens)
    requires FirstPrefix(ex[5..], endings) == None && !IsEndBoundaryIn(ex[5..], tokens)
    ensures ScanFrom("가", ex, 0, endings, tokens) == None
  {
    var stem := "가";
    assert OccursAt(ex, stem, 0) by {
      assert ex[0..1] == stem;
    }
    OneCharStemPassedOver(ex, 0, '가', endings, tokens);
    ScanSkips(stem, ex, 0, 0, endings, tokens);
    assert OccursAt(ex, stem, 4) by {
      assert ex[4..5] == stem;
    }
    IndexOfFromSkip(ex, stem, 1);
    IndexOfFromSkip(ex, stem, 2);
    IndexOfFromSkip(ex, stem, 3);
    OneCharStemPassedOver(ex, 4, '가', endings, tokens);
    ScanSkips(stem, ex, 1, 4, endings, tokens);
    GabangScanEnd(ex, 5);
  }

  /** Neither special form of 가다 is found: 갔 is absent and the first
      가 is followed by 방. */
  lemma GabangSpecialForms(ex: string)
    requires |ex| == 11
    requires ex[0] == '가' && ex[1] == '방' && ex[2] == '을' && ex[3] == ' ' && ex[4] == '가'
    requires ex[5] == '지' && ex[6] == '고' && ex[7] == ' ' && ex[8] == '왔' && ex[9] == '어' && ex[10] == '요'
    ensures FormsMatchFrom(ex, GaForms, 0) == None
  {
    var k := 0;
    while k < |ex|
      invariant 0 <= k <= |ex|
      invariant IndexOf(ex, "갔") == IndexOfFrom(ex, "갔", k)
    {
      IndexOfFromSkip(ex, "갔", k);
      k := k + 1;
    }
    IndexOfFromEnd(ex, "갔");
    assert OccursAt(ex, "가", 0) by {
      assert ex[0..1] == "가";
    }
    assert !StartsWith(ex[1..], "요");
  }

  /** None of the stem forms of 가다 is found in 가방을 가지고 왔어요. */
  lemma GabangStemForms(ex: string)
    requires |ex| == 11
    requires ex[0] == '가' && ex[1] == '방' && ex[2] == '을' && ex[3] == ' ' && ex[4] == '가'
    requires ex[5] == '지' && ex[6] == '고' && ex[7] == ' ' && ex[8] == '왔' && ex[9] == '어' && ex[10] == '요'
    ensures StemFormsMatch("가다", "가", ex) == None
  {
    GabangWordScan(ex);
    GabangSpecialForms(ex);
  }

  /** The word-boundary scan for 가 finds nothing in 가방을 가지고 왔어요. */
  lemma GabangWordScan(ex: string)
    requires |ex| == 11
    requires ex[0] == '가' && ex[1] == '방' && ex[2] == '을' && ex[3] == ' ' && ex[4] == '가'
    requires ex[5] == '지' && ex[6] == '고' && ex[7] == ' ' && ex[8] == '왔' && ex[9] == '어' && ex[10] == '요'
    ensures ScanFrom("가", ex, 0, ConjugationPatterns, EndBoundaryTokens) == None
  {
    NeitherEndingNorBoundary(ex[1..], '방', '을');
    NeitherEndingNorBoundary(ex[5..], '지', '고');
    GabangScan(ex, ConjugationPatterns, EndBoundaryTokens);
  }

  /** Text starting 방을 or 지고 continues no bare stem and no conjugated one. */
  lemma NeitherEndingNorBoundary(s: string, c0: char, c1: char)
    requires |s| >= 2 && s[0] == c0 && s[1] == c1
    requires (c0 == '방' && c1 == '을') || (c0 == '지' && c1 == '고')
    ensures FirstPrefix(s, ConjugationPatterns) == None
    ensures !IsEndBoundary(s)
  {
    NoConjugationFollows(s);
    EndBoundaryIsOneChar(s);
  }

  /** The stem 가 of 가다 occurs twice, each time inside another word
      (가방, 가지고), so nothing is highlighted. */
  lemma PartialStemNotMatched(ex: string)
    requires ex == "가방을 가지고 왔어요"
    ensures FindWord("가다", ex) == None
  {
    assert |ex| == 11;
    assert ex[0] == '가' && ex[1] == '방' && ex[2] == '을' && ex[3] == ' ' && ex[4] == '가';
    assert ex[5] == '지' && ex[6] == '고' && ex[7] == ' ' && ex[8] == '왔' && ex[9] == '어' && ex[10] == '요';
    forall j ensures !OccursAt(ex, "가다", j) {
      if 0 <= j && j + 2 <= |ex| {
        assert ex[j..j + 2][1] == ex[j + 1];
      }
    }
    assert ExtractStem("가다") == "가";
    assert !IsHadaVerb("가다");
    assert !IsGrammarPattern("가다");
    GabangStemForms(ex);
  }
}
