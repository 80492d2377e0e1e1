/** Guessing dictionary forms of an inflected Korean word, and splitting
    a sentence into words (`koreanLemmatizer.ts`).

    `GuessLemmas` collects candidates in a set that keeps insertion
    order, as a JavaScript `Set` does; the set is a sequence without
    repetitions. */
module KoreanLemmatizer {
  import opened Wrappers
  import opened Text

  /** Particles, tried in this order; only the first that ends the word
      is removed. */
  const Particles: seq<string> := [
    "이", "가", "을", "를", "은", "는", "의",
    "에", "에서", "으로", "로", "에게", "한테", "께",
    "과", "와", "도", "만", "부터", "까지", "마다"
  ]

  /** Verb and adjective endings; every one that ends the stem yields
      candidates. */
  const Endings: seq<string> := [
    "아요", "어요", "여요", "해요",
    "았어요", "었어요", "였어요", "했어요",
    "을 거예요", "ㄹ 거예요",
    "습니다", "ㅂ니다",
    "았습니다", "었습니다", "였습니다",
    "아", "어", "여", "해",
    "았어", "었어", "였어", "했어",
    "고", "서", "니까", "면", "지만",
    "네요", "군요", "는데", "ㄴ데"
  ]

  // ---------------------------------------------------------------------
  // Insertion-ordered sets of strings.

  predicate NoDuplicates(c: seq<string>) {
    forall i, j :: 0 <= i < j < |c| ==> c[i] != c[j]
  }

  /** `Set.prototype.add`: appends `x` unless it is already present. */
  function Add(c: seq<string>, x: string): (r: seq<string>)
    ensures x in r
    ensures forall y :: y in r <==> y in c || y == x
    ensures |c| <= |r| && r[..|c|] == c
    ensures NoDuplicates(c) ==> NoDuplicates(r)
  {
    if x in c then c else c + [x]
  }

  // ---------------------------------------------------------------------
  // The pieces the candidates are built from.

  /** The characters the punctuation pattern `[.,!?~]` matches. */
  predicate IsPunctuation(c: char) {
    c == '.' || c == ',' || c == '!' || c == '?' || c == '~'
  }

  predicate HasPunctuation(w: string) {
    exists k :: 0 <= k < |w| && IsPunctuation(w[k])
  }

  /** `word.replace(/[.,!?~]/g, '')`: the word without punctuation,
      other characters kept in order. The word is left as it is exactly
      when it holds no punctuation. */
  function RemovePunctuation(w: string): (r: string)
    ensures |r| <= |w|
    ensures !HasPunctuation(r)
    ensures r == w <==> !HasPunctuation(w)
  {
    if w == [] then []
    else
      var rest := RemovePunctuation(w[1..]);
      assert HasPunctuation(w[1..]) ==> HasPunctuation(w) by {
        if HasPunctuation(w[1..]) {
          var k :| 0 <= k < |w[1..]| && IsPunctuation(w[1..][k]);
          assert IsPunctuation(w[k + 1]);
        }
      }
      assert !HasPunctuation(w[1..]) && !IsPunctuation(w[0]) ==> !HasPunctuation(w) by {
        if !HasPunctuation(w[1..]) && !IsPunctuation(w[0]) {
          forall k | 0 < k < |w| ensures !IsPunctuation(w[k]) {
            assert w[k] == w[1..][k - 1];
          }
        }
      }
      if IsPunctuation(w[0]) then rest
      else
        assert !HasPunctuation([w[0]] + rest) by {
          forall k | 0 < k < |[w[0]] + rest| ensures !IsPunctuation(([w[0]] + rest)[k]) {
            assert ([w[0]] + rest)[k] == rest[k - 1];
          }
        }
        [w[0]] + rest
  }

  /** The index of the first of `pats[k..]` that ends `s`. */
  function FirstSuffixFrom(s: string, pats: seq<string>, k: nat): (r: Option<nat>)
    requires k <= |pats|
    ensures r.Some? ==> k <= r.value < |pats| && EndsWith(s, pats[r.value])
    ensures r.Some? ==> forall j :: k <= j < r.value ==> !EndsWith(s, pats[j])
    ensures r.None? ==> forall j :: k <= j < |pats| ==> !EndsWith(s, pats[j])
    decreases |pats| - k
  {
    if k == |pats| then None
    else if EndsWith(s, pats[k]) then Some(k)
    else FirstSuffixFrom(s, pats, k + 1)
  }

  /** `s.slice(0, -p.length)` for a suffix `p` of `s`. */
  function DropSuffix(s: string, p: string): (r: string)
    requires EndsWith(s, p)
    ensures r + p == s
  {
    s[..|s| - |p|]
  }

  /** The cleaned word with the first particle in list order that ends
      it removed; the cleaned word itself when none does. */
  function ParticleStem(clean: string, particles: seq<string>): (stem: string)
    ensures FirstSuffixFrom(clean, particles, 0).None? ==> stem == clean
    ensures FirstSuffixFrom(clean, particles, 0).Some? ==>
              stem + particles[FirstSuffixFrom(clean, particles, 0).value] == clean
  {
    match FirstSuffixFrom(clean, particles, 0)
    case Some(k) => DropSuffix(clean, particles[k])
    case None => clean
  }

  /** `x` is one of the two dictionary forms built from `stem` minus the
      ending `e`, when `e` ends `stem` and leaves something. */
  predicate EndingForm(stem: string, e: string, x: string) {
    EndsWith(stem, e) && |e| < |stem| &&
    (x == DropSuffix(stem, e) + "다" || x == DropSuffix(stem, e) + "하다")
  }

  /** The forms added after the ending loop. */
  predicate SpecialForm(stem: string, x: string) {
    (EndsWith(stem, "ㅂ니다") && x == DropSuffix(stem, "ㅂ니다") + "다") ||
    ((stem == "해요" || stem == "해") && x == "하다") ||
    (|stem| > 0 && !EndsWith(stem, "다") && x == stem + "다")
  }

  /** Every string `guessLemmas(word)` may return, with the given tables. */
  predicate IsCandidateWith(word: string, particles: seq<string>, endings: seq<string>, x: string) {
    var clean := RemovePunctuation(word);
    var stem := ParticleStem(clean, particles);
    x == word || x == clean || x == stem ||
    (exists j :: 0 <= j < |endings| && EndingForm(stem, endings[j], x)) ||
    SpecialForm(stem, x)
  }

  predicate IsCandidate(word: string, x: string) {
    IsCandidateWith(word, Particles, Endings, x)
  }

  // ---------------------------------------------------------------------
  // guessLemmas.

  /** The particle loop: the first particle that ends `clean` is cut off
      and the stem added; the loop stops there. */
  method StripParticle(clean: string, particles: seq<string>, candidates: seq<string>)
    returns (stem: string, next: seq<string>)
    ensures stem == ParticleStem(clean, particles)
    ensures next == if FirstSuffixFrom(clean, particles, 0).Some? then Add(candidates, stem) else candidates
  {
    stem := clean;
    next := candidates;
    for k := 0 to |particles|
      invariant FirstSuffixFrom(clean, particles, 0) == FirstSuffixFrom(clean, particles, k)
      invariant stem == clean && next == candidates
    {
      var particle := particles[k];
      if EndsWith(clean, particle) {
        stem := DropSuffix(clean, particle);
        next := Add(next, stem);
        return;
      }
    }
  }

  /** The ending loop: every ending of `stem` leaving a non-empty verb
      stem adds that stem with 다 and with 하다. */
  method AddEndingForms(stem: string, endings: seq<string>, candidates: seq<string>)
    returns (next: seq<string>)
    requires NoDuplicates(candidates)
    ensures NoDuplicates(next)
    ensures |candidates| <= |next| && next[..|candidates|] == candidates
    ensures forall x :: x in next <==> x in candidates || exists j :: 0 <= j < |endings| && EndingForm(stem, endings[j], x)
  {
    next := candidates;
    for k := 0 to |endings|
      invariant NoDuplicates(next)
      invariant |candidates| <= |next| && next[..|candidates|] == candidates
      invariant forall x :: x in next <==> x in candidates || exists j :: 0 <= j < k && EndingForm(stem, endings[j], x)
    {
      var ending := endings[k];
      if EndsWith(stem, ending) {
        var verbStem := DropSuffix(stem, ending);
        if |verbStem| > 0 {
          next := Add(next, verbStem + "다");
          next := Add(next, verbStem + "하다");
        }
      }
    }
  }

  /** The forms added after the ending loop, in the source's order. */
  method AddSpecialForms(stem: string, candidates: seq<string>) returns (next: seq<string>)
    requires NoDuplicates(candidates)
    ensures NoDuplicates(next)
    ensures |candidates| <= |next| && next[..|candidates|] == candidates
    ensures forall x :: x in next <==> x in candidates || SpecialForm(stem, x)
  {
    next := candidates;
    if EndsWith(stem, "ㅂ니다") {
      var verbStem := DropSuffix(stem, "ㅂ니다");
      next := Add(next, verbStem + "다");
    }
    if stem == "해요" || stem == "해" {
      next := Add(next, "하다");
    }
    if |stem| > 0 && !EndsWith(stem, "다") {
      next := Add(next, stem + "다");
    }
  }

  /** `guessLemmas` over given particle and ending tables. */
  method GuessLemmasWith(word: string, particles: seq<string>, endings: seq<string>) returns (r: seq<string>)
    ensures |r| > 0 && r[0] == word
    ensures RemovePunctuation(word) != word ==> |r| > 1 && r[1] == RemovePunctuation(word)
    ensures NoDuplicates(r)
    ensures forall x :: x in r <==> IsCandidateWith(word, particles, endings, x)
  {
    var candidates := [word];
    var cleanWord := RemovePunctuation(word);
    if cleanWord != word {
      candidates := Add(candidates, cleanWord);
    }
    assert forall x :: x in candidates <==> x == word || x == cleanWord;
    var stem;
    stem, candidates := StripParticle(cleanWord, particles, candidates);
    assert forall x :: x in candidates <==> x == word || x == cleanWord || x == stem;
    var prefix := candidates;
    candidates := AddEndingForms(stem, endings, candidates);
    var afterEndings := candidates;
    candidates := AddSpecialForms(stem, candidates);
    assert candidates[..|prefix|] == prefix by {
      assert candidates[..|afterEndings|][..|prefix|] == afterEndings[..|prefix|];
    }
    assert candidates[0] == prefix[0];
    if cleanWord != word {
      assert candidates[1] == prefix[1];
    }
    r := candidates;
  }

  /** `guessLemmas(word)`: the word first, its cleaned form next when
      punctuation was removed, no repetitions, and exactly the
      candidates `IsCandidate` describes. */
  method GuessLemmas(word: string) returns (r: seq<string>)
    ensures |r| > 0 && r[0] == word
    ensures RemovePunctuation(word) != word ==> |r| > 1 && r[1] == RemovePunctuation(word)
    ensures NoDuplicates(r)
    ensures forall x :: x in r <==> IsCandidate(word, x)
  {
    r := GuessLemmasWith(word, Particles, Endings);
  }

  // ---------------------------------------------------------------------
  // Properties of the candidates.

  /** At most one particle is stripped: the first in list order that
      ends the cleaned word. */
  lemma ParticleStemIsFirst(clean: string, k: nat)
    requires k < |Particles| && EndsWith(clean, Particles[k])
    requires forall j :: 0 <= j < k ==> !EndsWith(clean, Particles[j])
    ensures ParticleStem(clean, Particles) + Particles[k] == clean
  {
  }

  /** Each ending that ends the stem and leaves a non-empty remainder
      yields both the 다 and the 하다 form. */
  lemma EndingYieldsBothForms(word: string, j: nat)
    requires j < |Endings|
    requires EndsWith(ParticleStem(RemovePunctuation(word), Particles), Endings[j])
    requires |Endings[j]| < |ParticleStem(RemovePunctuation(word), Particles)|
    ensures var v := DropSuffix(ParticleStem(RemovePunctuation(word), Particles), Endings[j]);
            IsCandidate(word, v + "다") && IsCandidate(word, v + "하다")
  {
    var stem := ParticleStem(RemovePunctuation(word), Particles);
    var v := DropSuffix(stem, Endings[j]);
    assert EndingForm(stem, Endings[j], v + "다");
    assert EndingForm(stem, Endings[j], v + "하다");
  }

  // ---------------------------------------------------------------------
  // segmentKoreanText.

  /** The characters `\s` matches in a JavaScript regular expression. */
  predicate IsWhitespace(c: char) {
    c == ' ' || c == '\t' || c == '\n' || c == '\r' || c == '\U{000B}' || c == '\U{000C}' ||
    c == '\U{00A0}' || c == '\U{1680}' || ('\U{2000}' <= c <= '\U{200A}') ||
    c == '\U{2028}' || c == '\U{2029}' || c == '\U{202F}' || c == '\U{205F}' ||
    c == '\U{3000}' || c == '\U{FEFF}'
  }

  predicate HasWhitespace(s: string) {
    exists k :: 0 <= k < |s| && IsWhitespace(s[k])
  }

  /** The length of the run of non-whitespace characters `s` starts with. */
  function WordRun(s: string): (n: nat)
    ensures n <= |s|
    ensures forall k :: 0 <= k < n ==> !IsWhitespace(s[k])
    ensures n < |s| ==> IsWhitespace(s[n])
  {
    if s == [] || IsWhitespace(s[0]) then 0
    else
      var n := WordRun(s[1..]);
      assert forall k :: 0 < k < n + 1 ==> s[k] == s[1..][k - 1];
      n + 1
  }

  /** `text.split(/\s+/).filter(segment => segment.length > 0)`: the
      maximal runs of non-whitespace characters, in text order. */
  function Segments(text: string): (r: seq<string>)
    ensures forall i :: 0 <= i < |r| ==> |r[i]| > 0 && !HasWhitespace(r[i])
    decreases |text|
  {
    if text == [] then []
    else if IsWhitespace(text[0]) then Segments(text[1..])
    else
      var n := WordRun(text);
      assert !HasWhitespace(text[..n]) by {
        forall k | 0 <= k < n ensures !IsWhitespace(text[..n][k]) {
          assert text[..n][k] == text[k];
        }
      }
      [text[..n]] + Segments(text[n..])
  }

  function Concat(ss: seq<string>): string {
    if ss == [] then [] else ss[0] + Concat(ss[1..])
  }

  /** The text with its whitespace removed. */
  function NonWhitespace(s: string): (r: string) {
    if s == [] then []
    else if IsWhitespace(s[0]) then NonWhitespace(s[1..])
    else [s[0]] + NonWhitespace(s[1..])
  }

  lemma {:induction false} NonWhitespaceOfRun(s: string, n: nat)
    requires n <= |s|
    requires forall k :: 0 <= k < n ==> !IsWhitespace(s[k])
    ensures NonWhitespace(s) == s[..n] + NonWhitespace(s[n..])
  {
    if n > 0 {
      NonWhitespaceOfRun(s[1..], n - 1);
      assert s[1..][..n - 1] == s[1..n];
      assert s[1..][n - 1..] == s[n..];
      assert s[..n] == [s[0]] + s[1..n];
    }
  }

  /** Nothing is lost or reordered: the segments spell out the text's
      non-whitespace characters in order. */
  lemma {:induction false} SegmentsSpellText(text: string)
    ensures Concat(Segments(text)) == NonWhitespace(text)
    decreases |text|
  {
    if text != [] {
      if IsWhitespace(text[0]) {
        SegmentsSpellText(text[1..]);
      } else {
        var n := WordRun(text);
        SegmentsSpellText(text[n..]);
        NonWhitespaceOfRun(text, n);
      }
    }
  }

  /** Words joined by single spaces. */
  function JoinSpaced(ws: seq<string>): string {
    if ws == [] then [] else if |ws| == 1 then ws[0] else ws[0] + " " + JoinSpaced(ws[1..])
  }

  lemma {:induction false} WordRunOfJoined(w: string, rest: string)
    requires !HasWhitespace(w)
    requires rest == [] || IsWhitespace(rest[0])
    ensures WordRun(w + rest) == |w|
    decreases |w|
  {
    if w != [] {
      assert !IsWhitespace(w[0]);
      assert (w + rest)[1..] == w[1..] + rest;
      assert !HasWhitespace(w[1..]) by {
        forall k | 0 <= k < |w[1..]| ensures !IsWhitespace(w[1..][k]) {
          assert w[1..][k] == w[k + 1];
        }
      }
      WordRunOfJoined(w[1..], rest);
    } else {
      assert w + rest == rest;
    }
  }

  /** Segmenting words joined by spaces gives the words back. */
  lemma {:induction false} SegmentsOfJoined(ws: seq<string>)
    requires forall i :: 0 <= i < |ws| ==> |ws[i]| > 0 && !HasWhitespace(ws[i])
    ensures Segments(JoinSpaced(ws)) == ws
  {
    if |ws| == 1 {
      WordRunOfJoined(ws[0], []);
      assert ws[0] + [] == ws[0];
      assert ws[0][|ws[0]|..] == [];
    } else if |ws| > 1 {
      var t := JoinSpaced(ws);
      var rest := " " + JoinSpaced(ws[1..]);
      assert t == ws[0] + rest;
      WordRunOfJoined(ws[0], rest);
      assert t[..|ws[0]|] == ws[0];
      assert t[|ws[0]|..] == rest;
      assert rest[1..] == JoinSpaced(ws[1..]);
      SegmentsOfJoined(ws[1..]);
      assert [ws[0]] + ws[1..] == ws;
    }
  }
}
