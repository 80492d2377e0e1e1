/** The development seed data (`seedDatabase.ts`): three hand-written
    units and five words for grades 1 and 2, fifty generated units of
    grade 3 with ten generated words each, three SRS records, generated
    mastery records and thirty days of progress snapshots, and the
    `seedDatabase` routine that clears the tables and inserts all of it. */
module SeedData {
  import opened Wrappers
  import opened JsMath
  import opened Text
  import opened WordModel
  import opened UnitModel
  import opened SrsManagement
  import opened SrsQueries
  import opened WordMasteryQueries
  import opened LearningProgressQueries

  /** A seeded row: the record and the id it is stored under. */
  datatype Seeded<T> = Seeded(id: string, rec: T)

  // ---------------------------------------------------------------------
  // Units.

  const Grade3Units: nat := 50

  function Grade3UnitId(u: nat): string {
    "unit_3_" + NatToString(u)
  }

  /** The `k`-th generated unit, counting from 0: unit number `k + 1`. */
  function Grade3Unit(k: nat): Unit {
    Unit(Grade3UnitId(k + 1), 3, k + 1)
  }

  lemma PrefixCancel(p: string, a: string, b: string)
    requires p + a == p + b
    ensures a == b
  {
    assert a == (p + a)[|p|..];
    assert b == (p + b)[|p|..];
  }

  /** Different unit numbers give different ids. */
  lemma Grade3UnitIdsDistinct(u: nat, v: nat)
    requires u != v
    ensures Grade3UnitId(u) != Grade3UnitId(v)
  {
    if Grade3UnitId(u) == Grade3UnitId(v) {
      PrefixCancel("unit_3_", NatToString(u), NatToString(v));
      NatToStringInjective(u, v);
    }
  }

  /** `generateGrade3Units`: units 1 to 50 of grade 3, in order. */
  method GenerateGrade3Units() returns (units: seq<Unit>)
    ensures |units| == Grade3Units
    ensures forall k :: 0 <= k < |units| ==> units[k] == Grade3Unit(k)
  {
    units := [];
    var i := 1;
    while i <= 50
      invariant 1 <= i <= 51 && |units| == i - 1
      invariant forall k :: 0 <= k < |units| ==> units[k] == Grade3Unit(k)
    {
      units := units + [Unit(Grade3UnitId(i), 3, i)];
      i := i + 1;
    }
  }

  const TestUnits: seq<Unit> := [
    Unit("unit_1_1", 1, 1),
    Unit("unit_1_2", 1, 2),
    Unit("unit_2_1", 2, 1)]

  // ---------------------------------------------------------------------
  // Words.

  const KoreanWords: seq<string> := [
    "컴퓨터", "인터넷", "휴대폰", "카메라", "텔레비전", "라디오", "음악", "영화", "책", "신문", "학교", "대학교",
    "도서관", "병원", "은행", "우체국", "공항", "역", "버스", "지하철", "자동차", "자전거", "비행기", "기차",
    "배", "호텔", "식당", "카페", "상점", "마트", "공원", "운동장", "수영장", "영화관", "극장", "박물관",
    "미술관", "교회", "절", "시장", "집", "방", "거실", "부엌", "화장실", "침실", "베란다", "정원", "문",
    "창문", "의자", "책상", "침대", "소파", "냉장고", "세탁기", "청소기", "시계", "거울", "전화", "가족",
    "부모", "아버지", "어머니", "형", "누나", "동생", "할아버지", "할머니", "친구", "선생님", "학생", "의사",
    "간호사", "요리사", "운전사", "경찰", "소방관", "농부", "회사원", "음식", "밥", "빵", "라면", "김치",
    "불고기", "비빔밥", "냉면", "치킨", "피자", "물", "차", "커피", "우유", "주스", "맥주", "소주", "와인",
    "콜라", "사이다", "과일", "사과", "배", "바나나", "딸기", "포도", "수박", "참외", "복숭아", "감", "야채",
    "배추", "무", "당근", "양파", "마늘", "고추", "오이", "토마토", "감자", "옷", "바지", "치마", "셔츠",
    "티셔츠", "코트", "재킷", "모자", "신발", "양말", "색깔", "빨간색", "파란색", "노란색", "초록색", "검은색",
    "흰색", "갈색", "회색", "분홍색", "날씨", "비", "눈", "바람", "구름", "햇빛", "더위", "추위", "봄",
    "여름", "가을", "겨울", "월요일", "화요일", "수요일", "목요일", "금요일", "토요일", "일요일", "오늘", "어제",
    "내일", "아침", "점심", "저녁", "밤", "시간", "분", "초", "년", "월", "일", "생일", "휴일", "명절",
    "크리스마스", "새해", "여행", "휴가", "데이트", "운동", "축구", "야구", "농구", "배구", "테니스", "탁구",
    "수영", "스키", "골프", "취미", "독서", "영화감상", "음악감상", "요리", "그림", "사진", "게임", "쇼핑",
    "산책", "건강", "병", "감기", "두통", "치과", "약", "주사", "수술", "다이어트", "운동", "감정", "기쁨",
    "슬픔", "화", "놀람", "두려움", "사랑", "미움", "걱정", "스트레스", "교육", "공부", "시험", "숙제", "발표",
    "토론", "연구", "실험", "과제", "졸업", "직업", "사업", "회사", "사무실", "회의", "계약", "돈", "월급",
    "은행", "투자", "기술", "과학", "발명", "발견", "연구", "개발", "혁신", "디지털", "로봇", "인공지능",
    "문화", "예술", "전통", "역사", "언어", "번역", "소통", "대화", "토론", "의견"]

  function Grade3WordId(u: nat, o: nat): string {
    "word_grade3_" + (NatToString(u) + "_" + NatToString(o))
  }

  /** The id of the `k`-th generated word. */
  function Grade3WordIdAt(k: nat): string {
    Grade3WordId(k / 10 + 1, k % 10 + 1)
  }

  /** The generated word at order `o` of unit `u`. The seed sets no
      `grade_word_number`, which the table stores as 0. */
  function SeedWord(u: nat, o: nat, korean: string): Word {
    Word(Grade3WordId(u, o), korean, "日本語_" + korean,
      Some(korean + "을/를 사용한 예문입니다."), Some(korean + "を使った例文です。"),
      3, 0, Grade3UnitId(u), o)
  }

  /** The `k`-th generated word, counting from 0: order `k % 10 + 1` of
      unit `k / 10 + 1`, on the Korean word list `kw` read round and
      round. */
  function Grade3Word(k: nat, kw: seq<string>): (w: Word)
    requires |kw| > 0
    ensures w.id == Grade3WordIdAt(k)
  {
    SeedWord(k / 10 + 1, k % 10 + 1, kw[k % |kw|])
  }

  function Grade3Words(kw: seq<string>): seq<Word>
    requires |kw| > 0
  {
    seq(Grade3Units * UnitSize, k requires 0 <= k => Grade3Word(k, kw))
  }

  /** Quotient and remainder are determined by `n == q * m + r` with
      `0 <= r < m`. */
  lemma DivModOf(n: nat, m: nat, q: nat, r: nat)
    requires 0 <= r < m && n == q * m + r
    ensures n / m == q && n % m == r
  {
    var q', r' := n / m, n % m;
    assert (q' - q) * m == r - r' by {
      assert n == q' * m + r';
    }
    if q' > q {
      MulMono(1, q' - q, m);
    } else if q' < q {
      MulMono(1, q - q', m);
    }
  }

  /** The word the loops build at unit `unitNum`, order `wordOrder`,
      after `rounds` full passes over the word list and `wordIndex`
      words of the current one, is the `n`-th generated word. */
  lemma SeedWordAt(n: nat, kw: seq<string>, unitNum: nat, wordOrder: nat, rounds: nat, wordIndex: nat)
    requires 1 <= unitNum && 1 <= wordOrder <= 10 && n == (unitNum - 1) * 10 + wordOrder - 1
    requires wordIndex < |kw| && n == rounds * |kw| + wordIndex
    ensures SeedWord(unitNum, wordOrder, kw[wordIndex % |kw|]) == Grade3Word(n, kw)
  {
    DivModOf(n, 10, unitNum - 1, wordOrder - 1);
    DivModOf(n, |kw|, rounds, wordIndex);
    DivModOf(wordIndex, |kw|, 0, wordIndex);
  }

  /** `generateGrade3Words`: ten words for each of the fifty units, in
      unit and order sequence, on the Korean word list `koreanWords`
      (`KoreanWords` in the seed), which starts over when it runs out. */
  method GenerateGrade3Words(koreanWords: seq<string>) returns (words: seq<Word>)
    requires |koreanWords| > 0
    ensures words == Grade3Words(koreanWords)
  {
    words := [];
    var wordIndex := 0;
    ghost var rounds := 0;
    var unitNum := 1;
    while unitNum <= 50
      invariant 1 <= unitNum <= 51 && |words| == (unitNum - 1) * 10
      invariant 0 <= wordIndex <= |koreanWords| && |words| == rounds * |koreanWords| + wordIndex
      invariant forall j :: 0 <= j < |words| ==> words[j] == Grade3Word(j, koreanWords)
    {
      var wordOrder := 1;
      while wordOrder <= 10
        invariant 1 <= wordOrder <= 11 && |words| == (unitNum - 1) * 10 + wordOrder - 1
        invariant 0 <= wordIndex <= |koreanWords| && |words| == rounds * |koreanWords| + wordIndex
        invariant forall j :: 0 <= j < |words| ==> words[j] == Grade3Word(j, koreanWords)
      {
        if wordIndex >= |koreanWords| {
          assert (rounds + 1) * |koreanWords| == rounds * |koreanWords| + |koreanWords|;
          wordIndex := 0;
          rounds := rounds + 1;
        }
        var korean := koreanWords[wordIndex % |koreanWords|];
        var word := SeedWord(unitNum, wordOrder, korean);
        SeedWordAt(|words|, koreanWords, unitNum, wordOrder, rounds, wordIndex);
        ghost var prev := words;
        words := words + [word];
        forall j | 0 <= j < |words|
          ensures words[j] == Grade3Word(j, koreanWords)
        {
          if j < |prev| {
            assert words[j] == prev[j];
          }
        }
        wordIndex := wordIndex + 1;
        wordOrder := wordOrder + 1;
      }
      unitNum := unitNum + 1;
    }
  }

  /** Every generated word belongs to a generated unit, at an order from
      1 to 10, and its Korean cycles through the word list. */
  lemma Grade3WordPlacement(k: nat, kw: seq<string>)
    requires k < Grade3Units * UnitSize && |kw| > 0
    ensures k / 10 < Grade3Units
    ensures Grade3Word(k, kw).unitId == Grade3Unit(k / 10).id
    ensures 1 <= Grade3Word(k, kw).unitOrder <= UnitSize
    ensures Grade3Word(k, kw).korean == kw[k % |kw|]
  {
  }

  /** The generated words have pairwise different ids. */
  lemma Grade3WordIdsDistinct(j: nat, k: nat)
    requires j != k
    ensures Grade3WordIdAt(j) != Grade3WordIdAt(k)
  {
    var uj, oj := j / 10 + 1, j % 10 + 1;
    var uk, ok := k / 10 + 1, k % 10 + 1;
    var tj, tk := NatToString(uj) + "_" + NatToString(oj), NatToString(uk) + "_" + NatToString(ok);
    if Grade3WordIdAt(j) == Grade3WordIdAt(k) {
      assert "word_grade3_" + tj == "word_grade3_" + tk;
      PrefixCancel("word_grade3_", tj, tk);
      JoinedNumbersInjective(uj, oj, uk, ok, '_');
    }
  }

  const TestWords: seq<Word> := [
    Word("word_1", "안녕하세요", "こんにちは", Some("안녕하세요. 반갑습니다."),
      Some("こんにちは。お会いできて嬉しいです。"), 1, 0, "unit_1_1", 1),
    Word("word_2", "감사합니다", "ありがとうございます", Some("정말 감사합니다."),
      Some("本当にありがとうございます。"), 1, 0, "unit_1_1", 2),
    Word("word_3", "죄송합니다", "すみません", Some("늦어서 죄송합니다."),
      Some("遅れてすみません。"), 1, 0, "unit_1_1", 3),
    Word("word_4", "학생", "学生", Some("저는 대학생입니다."),
      Some("私は大学生です。"), 2, 0, "unit_2_1", 1),
    Word("word_5", "선생님", "先生", Some("우리 선생님은 친절하십니다."),
      Some("私たちの先生は親切です。"), 2, 0, "unit_2_1", 2)]

  /** All seeded units and all seeded words. */
  function SeedUnits(): seq<Unit> {
    TestUnits + seq(Grade3Units, k requires 0 <= k => Grade3Unit(k))
  }

  /** The seeded words, the generated ones on the Korean word list `kw`
      (`KoreanWords` in the seed). */
  function SeedWords(kw: seq<string>): seq<Word>
    requires |kw| > 0
  {
    TestWords + Grade3Words(kw)
  }

  /** The `testUnits` array: the hand-written units, then the generated
      ones. */
  method TestUnitsWithGrade3() returns (units: seq<Unit>)
    ensures units == SeedUnits()
  {
    var grade3Units := GenerateGrade3Units();
    assert grade3Units == seq(Grade3Units, k requires 0 <= k => Grade3Unit(k));
    units := TestUnits + grade3Units;
  }

  /** The `testWords` array: the hand-written words, then the generated
      ones. */
  method TestWordsWithGrade3() returns (words: seq<Word>)
    ensures words == SeedWords(KoreanWords)
  {
    var grade3Words := GenerateGrade3Words(KoreanWords);
    words := TestWords + grade3Words;
  }

  /** Every seeded word points at a seeded unit. */
  lemma SeedWordsHaveUnits(kw: seq<string>)
    requires |kw| > 0
    ensures forall w :: w in SeedWords(kw) ==> exists u :: u in SeedUnits() && u.id == w.unitId
  {
    var units := SeedUnits();
    forall w | w in SeedWords(kw)
      ensures exists u :: u in units && u.id == w.unitId
    {
      if w in TestWords {
        assert units[0].id == "unit_1_1" && units[2].id == "unit_2_1";
      } else {
        var k :| 0 <= k < |Grade3Words(kw)| && Grade3Words(kw)[k] == w;
        Grade3WordPlacement(k, kw);
        assert units[3 + k / 10] == Grade3Unit(k / 10);
      }
    }
  }

  // ---------------------------------------------------------------------
  // SRS records, written when the module loads (`loadedAt`).

  function TestSrs(loadedAt: int): seq<Seeded<SrsRecord>> {
    [Seeded("srs_1", SrsRecord("word_1", 0, InitialEase, Some(loadedAt), 1, 0, None)),
     Seeded("srs_2", SrsRecord("word_2", 1, InitialEase, Some(loadedAt + 2 * DayMs), 3, 0, Some(loadedAt - DayMs))),
     Seeded("srs_3", SrsRecord("word_3", 3, InitialEase, Some(loadedAt + 5 * DayMs), 6, 1, Some(loadedAt - DayMs)))]
  }

  // ---------------------------------------------------------------------
  // Learning data.

  /** `Math.floor(500 * 0.7)` and `Math.floor(500 * 0.75)`. */
  const ListeningMastered: nat := 350
  const ReadingMastered: nat := 375

  function MasteryId(n: nat): string {
    "mastery_" + NatToString(n)
  }

  function ProgressId(n: nat): string {
    "progress_" + NatToString(n)
  }

  /** `Math.floor(350 * (1 - day / 30))` for days 0 to 29, as double
      arithmetic computes it. */
  const ListeningCounts: seq<nat> := [
    350, 338, 326, 315, 303, 291, 280, 268, 256, 244, 233, 221, 210, 198, 186,
    175, 163, 151, 140, 128, 116, 105, 93, 81, 69, 58, 46, 34, 23, 11]

  /** `Math.floor(375 * (1 - day / 30))` for days 0 to 29, likewise. */
  const ReadingCounts: seq<nat> := [
    375, 362, 350, 337, 325, 312, 300, 287, 275, 262, 250, 237, 225, 212, 200,
    187, 175, 162, 150, 137, 125, 112, 100, 87, 74, 62, 49, 37, 24, 12]

  /** The listening snapshots fall from the full count on day 0 as the
      days go back, and each is the exact `floor(350 * (30 - day) / 30)`
      or, where double rounding falls just short of a whole number, one
      less. */
  lemma ListeningSnapshotCounts()
    ensures |ListeningCounts| == 30 && ListeningCounts[0] == ListeningMastered
    ensures forall d :: 0 < d < 30 ==> ListeningCounts[d] < ListeningCounts[d - 1]
    ensures forall d :: 0 <= d < 30 ==>
      var exact := ListeningMastered * (30 - d) / 30;
      exact - 1 <= ListeningCounts[d] <= exact
  {
  }

  /** The same for the reading snapshots and 375. */
  lemma ReadingSnapshotCounts()
    ensures |ReadingCounts| == 30 && ReadingCounts[0] == ReadingMastered
    ensures forall d :: 0 < d < 30 ==> ReadingCounts[d] < ReadingCounts[d - 1]
    ensures forall d :: 0 <= d < 30 ==>
      var exact := ReadingMastered * (30 - d) / 30;
      exact - 1 <= ReadingCounts[d] <= exact
  {
  }

  /** One mastery row as the seed writes it: the n-th row, counting
      from 0, is `mastery_{n+1}`, mastered `randomDay(n)` days before
      `now`. */
  function MasteryRow(n: nat, now: int, randomDay: nat -> nat, wordId: string, testType: string): Seeded<WordMastery> {
    Seeded(MasteryId(n + 1), WordMastery(wordId, testType, now - randomDay(n) * DayMs))
  }

  /** The mastery rows: listening for the first 350 generated words,
      then reading for the first 375. */
  predicate MasteryRowsOk(rows: seq<Seeded<WordMastery>>, now: int, randomDay: nat -> nat) {
    && |rows| == ListeningMastered + ReadingMastered
    && (forall n :: 0 <= n < ListeningMastered ==>
          rows[n] == MasteryRow(n, now, randomDay, Grade3WordIdAt(n), Listening))
    && (forall n :: ListeningMastered <= n < |rows| ==>
          rows[n] == MasteryRow(n, now, randomDay, Grade3WordIdAt(n - ListeningMastered), Reading))
  }

  /** One progress row as the seed writes it: the snapshot of `day`
      days before `now`, stored as `progress_{day+1}`. */
  function ProgressRow(day: nat, now: int, format: int -> string, listening: nat, reading: nat): Seeded<LearningProgress> {
    Seeded(ProgressId(day + 1), LearningProgress(format(now - day * DayMs), 3, listening, reading, 500))
  }

  /** The progress rows: one per day back from today, `progress_1` for
      today, with the grade's snapshot counts of that day. */
  predicate ProgressRowsOk(rows: seq<Seeded<LearningProgress>>, now: int, format: int -> string) {
    && |rows| == 30
    && forall d :: 0 <= d < 30 ==> rows[d] == ProgressRow(d, now, format, ListeningCounts[d], ReadingCounts[d])
  }

  /** The mastery loop of `generateLearningData`; `randomDay(n)` stands
      for the random number of days, below 30, before `now` at which the
      n-th row counts as mastered. */
  method GenerateMasteryRows(now: int, randomDay: nat -> nat, grade3Words: seq<Word>)
    returns (rows: seq<Seeded<WordMastery>>)
    requires |grade3Words| == Grade3Units * UnitSize
    requires forall k :: 0 <= k < |grade3Words| ==> grade3Words[k].id == Grade3WordIdAt(k)
    ensures MasteryRowsOk(rows, now, randomDay)
  {
    rows := [];
    var masteryId := 1;
    var i := 0;
    while i < ListeningMastered
      invariant 0 <= i <= ListeningMastered && |rows| == i && masteryId == i + 1
      invariant forall n :: 0 <= n < |rows| ==> rows[n] == MasteryRow(n, now, randomDay, Grade3WordIdAt(n), Listening)
    {
      ghost var prev := rows;
      rows := rows + [MasteryRow(masteryId - 1, now, randomDay, grade3Words[i].id, Listening)];
      forall n | 0 <= n < |rows|
        ensures rows[n] == MasteryRow(n, now, randomDay, Grade3WordIdAt(n), Listening)
      {
        if n < |prev| {
          assert rows[n] == prev[n];
        }
      }
      masteryId := masteryId + 1;
      i := i + 1;
    }
    i := 0;
    while i < ReadingMastered
      invariant 0 <= i <= ReadingMastered && |rows| == ListeningMastered + i && masteryId == |rows| + 1
      invariant forall n :: 0 <= n < ListeningMastered ==> rows[n] == MasteryRow(n, now, randomDay, Grade3WordIdAt(n), Listening)
      invariant forall n :: ListeningMastered <= n < |rows| ==>
        rows[n] == MasteryRow(n, now, randomDay, Grade3WordIdAt(n - ListeningMastered), Reading)
    {
      ghost var prev := rows;
      rows := rows + [MasteryRow(masteryId - 1, now, randomDay, grade3Words[i].id, Reading)];
      forall n | 0 <= n < ListeningMastered
        ensures rows[n] == MasteryRow(n, now, randomDay, Grade3WordIdAt(n), Listening)
      {
        assert rows[n] == prev[n];
      }
      forall n | ListeningMastered <= n < |rows|
        ensures rows[n] == MasteryRow(n, now, randomDay, Grade3WordIdAt(n - ListeningMastered), Reading)
      {
        if n < |prev| {
          assert rows[n] == prev[n];
        }
      }
      masteryId := masteryId + 1;
      i := i + 1;
    }
  }

  /** The progress loop of `generateLearningData`. */
  method GenerateProgressRows(now: int, format: int -> string) returns (rows: seq<Seeded<LearningProgress>>)
    ensures ProgressRowsOk(rows, now, format)
  {
    rows := [];
    var day := 0;
    while day < 30
      invariant 0 <= day <= 30 && |rows| == day
      invariant forall d :: 0 <= d < day ==> rows[d] == ProgressRow(d, now, format, ListeningCounts[d], ReadingCounts[d])
    {
      ghost var prev := rows;
      rows := rows + [ProgressRow(day, now, format, ListeningCounts[day], ReadingCounts[day])];
      forall d | 0 <= d < |rows|
        ensures rows[d] == ProgressRow(d, now, format, ListeningCounts[d], ReadingCounts[d])
      {
        if d < |prev| {
          assert rows[d] == prev[d];
        }
      }
      day := day + 1;
    }
  }

  /** `generateLearningData`: the mastery rows and the progress rows,
      over a fresh run of the word generator. */
  method GenerateLearningData(now: int, randomDay: nat -> nat, format: int -> string)
    returns (mastery: seq<Seeded<WordMastery>>, progress: seq<Seeded<LearningProgress>>)
    ensures MasteryRowsOk(mastery, now, randomDay) && ProgressRowsOk(progress, now, format)
  {
    var grade3Words := GenerateGrade3Words(KoreanWords);
    mastery := GenerateMasteryRows(now, randomDay, grade3Words);
    progress := GenerateProgressRows(now, format);
  }

  /** Different numbers give different row ids. */
  lemma RowIdsDistinct(m: nat, n: nat)
    requires m != n
    ensures MasteryId(m) != MasteryId(n) && ProgressId(m) != ProgressId(n)
  {
    if MasteryId(m) == MasteryId(n) {
      PrefixCancel("mastery_", NatToString(m), NatToString(n));
      NatToStringInjective(m, n);
    }
    if ProgressId(m) == ProgressId(n) {
      PrefixCancel("progress_", NatToString(m), NatToString(n));
      NatToStringInjective(m, n);
    }
  }

  /** The listening rows name the first generated words in order, and
      the reading rows start over from the first. */
  lemma MasteryRowWords(rows: seq<Seeded<WordMastery>>, now: int, randomDay: nat -> nat)
    requires MasteryRowsOk(rows, now, randomDay)
    ensures forall n :: 0 <= n < ListeningMastered ==> rows[n].rec.wordId == Grade3WordIdAt(n)
    ensures forall n :: ListeningMastered <= n < |rows| ==> rows[n].rec.wordId == Grade3WordIdAt(n - ListeningMastered)
  {
    forall n | 0 <= n < ListeningMastered
      ensures rows[n].rec.wordId == Grade3WordIdAt(n)
    {
      assert rows[n] == MasteryRow(n, now, randomDay, Grade3WordIdAt(n), Listening);
    }
    forall n | ListeningMastered <= n < |rows|
      ensures rows[n].rec.wordId == Grade3WordIdAt(n - ListeningMastered)
    {
      assert rows[n] == MasteryRow(n, now, randomDay, Grade3WordIdAt(n - ListeningMastered), Reading);
    }
  }

  /** The `k`-th generated word follows the hand-written words in the
      seeded list. */
  lemma Grade3IdSeeded(k: nat, kw: seq<string>)
    requires k < Grade3Units * UnitSize && |kw| > 0
    ensures |TestWords| + k < |SeedWords(kw)| && SeedWords(kw)[|TestWords| + k].id == Grade3WordIdAt(k)
  {
    assert SeedWords(kw)[|TestWords| + k] == Grade3Word(k, kw);
  }

  /** Some seeded word has the id `id`. */
  ghost predicate NamesSeededWord(id: string, kw: seq<string>)
    requires |kw| > 0
  {
    exists w :: w in SeedWords(kw) && w.id == id
  }

  /** Rows naming the first generated words, as the mastery rows do,
      name seeded words. */
  lemma Grade3RowsSeeded(rows: seq<Seeded<WordMastery>>, kw: seq<string>)
    requires |rows| == ListeningMastered + ReadingMastered && |kw| > 0
    requires forall n :: 0 <= n < ListeningMastered ==> rows[n].rec.wordId == Grade3WordIdAt(n)
    requires forall n :: ListeningMastered <= n < |rows| ==> rows[n].rec.wordId == Grade3WordIdAt(n - ListeningMastered)
    ensures forall n :: 0 <= n < |rows| ==> NamesSeededWord(rows[n].rec.wordId, kw)
  {
    var seeded := SeedWords(kw);
    forall n | 0 <= n < |rows|
      ensures NamesSeededWord(rows[n].rec.wordId, kw)
    {
      var k := if n < ListeningMastered then n else n - ListeningMastered;
      Grade3IdSeeded(k, kw);
      var w := seeded[|TestWords| + k];
      assert w in seeded && w.id == rows[n].rec.wordId;
    }
  }

  /** Every mastery row names a seeded word, whatever the Korean word
      list. */
  lemma MasteryRowsNameSeededWords(rows: seq<Seeded<WordMastery>>, now: int, randomDay: nat -> nat, kw: seq<string>)
    requires MasteryRowsOk(rows, now, randomDay) && |kw| > 0
    ensures forall n :: 0 <= n < |rows| ==> NamesSeededWord(rows[n].rec.wordId, kw)
  {
    MasteryRowWords(rows, now, randomDay);
    Grade3RowsSeeded(rows, kw);
  }

  /** The n-th mastery row was mastered `randomDay(n)` days before
      `now`, whichever word and test type it names. */
  lemma MasteryRowDates(rows: seq<Seeded<WordMastery>>, now: int, randomDay: nat -> nat)
    requires MasteryRowsOk(rows, now, randomDay)
    ensures forall n :: 0 <= n < |rows| ==> rows[n].rec.masteredDate == now - randomDay(n) * DayMs
  {
    forall n | 0 <= n < |rows|
      ensures rows[n].rec.masteredDate == now - randomDay(n) * DayMs
    {
      if n < ListeningMastered {
        assert rows[n] == MasteryRow(n, now, randomDay, Grade3WordIdAt(n), Listening);
      } else {
        assert rows[n] == MasteryRow(n, now, randomDay, Grade3WordIdAt(n - ListeningMastered), Reading);
      }
    }
  }

  /** Dates a random day count below 30 before `now` lie within the
      last 29 days. */
  lemma RandomDatesRecent(rows: seq<Seeded<WordMastery>>, now: int, randomDay: nat -> nat)
    requires forall n :: 0 <= n < |rows| ==> rows[n].rec.masteredDate == now - randomDay(n) * DayMs
    requires forall n :: randomDay(n) < 30
    ensures forall n :: 0 <= n < |rows| ==> now - 29 * DayMs <= rows[n].rec.masteredDate <= now
  {
    forall n | 0 <= n < |rows|
      ensures now - 29 * DayMs <= rows[n].rec.masteredDate <= now
    {
      MulMono(randomDay(n), 29, DayMs);
    }
  }

  /** No mastery row was mastered more than 29 days before `now` or
      after it. */
  lemma MasteryDatesRecent(rows: seq<Seeded<WordMastery>>, now: int, randomDay: nat -> nat)
    requires MasteryRowsOk(rows, now, randomDay)
    requires forall n :: randomDay(n) < 30
    ensures forall n :: 0 <= n < |rows| ==> now - 29 * DayMs <= rows[n].rec.masteredDate <= now
  {
    MasteryRowDates(rows, now, randomDay);
    RandomDatesRecent(rows, now, randomDay);
  }

  // ---------------------------------------------------------------------
  // The seeding routine.

  /** The five tables the seed writes. */
  class SeedStore {
    var units: seq<Unit>
    var words: seq<Word>
    var srs: seq<Seeded<SrsRecord>>
    var mastery: seq<Seeded<WordMastery>>
    var progress: seq<Seeded<LearningProgress>>

    constructor()
      ensures units == [] && words == [] && srs == [] && mastery == [] && progress == []
    {
      units, words, srs, mastery, progress := [], [], [], [], [];
    }
  }

  datatype SeedResult = SeedResult(success: bool, message: string)

  const ErrorPrefix: string := "❌ シードデータ挿入エラー: "

  /** The success message, listing how many rows of each kind went in. */
  function SuccessMessage(units: nat, words: nat, srs: nat, mastery: nat, progress: nat): (m: string)
    ensures StartsWith(m, "✅")
  {
    var rest := " シードデータ挿入完了！\n    - ユニット: " + NatToString(units) + "件\n    - 単語: " + NatToString(words)
      + "件\n    - SRS: " + NatToString(srs) + "件\n    - 習得記録: " + NatToString(mastery)
      + "件\n    - 進捗記録: " + NatToString(progress) + "件";
    assert ("✅" + rest)[..1] == "✅";
    "✅" + rest
  }

  /** `seedDatabase`: empties the tables in one write, then inserts the
      seed in a second. An error in either is caught and reported in the
      result, not thrown: a failed clear leaves the tables as they were,
      a failed insert leaves them empty. `errorText` is the caught
      error's text. */
  method SeedDatabase(db: SeedStore, now: int, loadedAt: int, randomDay: nat -> nat, format: int -> string,
                      clearFails: bool, insertFails: bool, errorText: string)
    returns (r: SeedResult)
    modifies db
    ensures r.success <==> !clearFails && !insertFails
    ensures !r.success ==> r.message == ErrorPrefix + errorText && !StartsWith(r.message, "✅")
    ensures clearFails ==>
      db.units == old(db.units) && db.words == old(db.words) && db.srs == old(db.srs)
      && db.mastery == old(db.mastery) && db.progress == old(db.progress)
    ensures !clearFails && insertFails ==>
      db.units == [] && db.words == [] && db.srs == [] && db.mastery == [] && db.progress == []
    ensures r.success ==>
      && db.units == SeedUnits() && db.words == SeedWords(KoreanWords) && db.srs == TestSrs(loadedAt)
      && MasteryRowsOk(db.mastery, now, randomDay) && ProgressRowsOk(db.progress, now, format)
      && r.message == SuccessMessage(53, 505, 3, 725, 30)
  {
    assert (ErrorPrefix + errorText)[0] == '❌';
    if clearFails {
      return SeedResult(false, ErrorPrefix + errorText);
    }
    db.units, db.words, db.srs, db.mastery, db.progress := [], [], [], [], [];
    var masteryRows, progressRows := GenerateLearningData(now, randomDay, format);
    if insertFails {
      return SeedResult(false, ErrorPrefix + errorText);
    }
    db.units := TestUnitsWithGrade3();
    db.words := TestWordsWithGrade3();
    db.srs := TestSrs(loadedAt);
    db.mastery := masteryRows;
    db.progress := progressRows;
    var message := SuccessMessage(|db.units|, |db.words|, |db.srs|, |db.mastery|, |db.progress|);
    return SeedResult(true, message);
  }
}
