/** The figures of the results screen (`resultsQueries.ts`): per-grade
    mastery percentages, the daily history, the pie charts and the
    stacked chart. Percentages carry one decimal, so they are kept in
    tenths of a percent. */
module ResultsQueries {
  import opened Wrappers
  import opened Text
  import opened JsMath
  import opened Sorting
  import opened WordModel
  import opened WordQueries
  import opened WordMasteryQueries
  import opened LearningProgressQueries

  /** `Number(((m / t) * 100).toFixed(1))` when there are words, else 0,
      in tenths of a percent: the nearest tenth, halves rounded up. */
  function PercentTenths(m: int, t: int): (p: int)
    ensures t <= 0 ==> p == 0
    ensures t > 0 ==> 2 * p * t - t <= 2000 * m < 2 * p * t + t
  {
    if t > 0 then RoundDiv(1000 * m, t) else 0
  }

  /** A share of the words is between 0 and 100 percent. */
  lemma PercentTenthsBounds(m: int, t: int)
    requires 0 <= m <= t
    ensures 0 <= PercentTenths(m, t) <= 1000
  {
    if t > 0 {
      var p := PercentTenths(m, t);
      assert (2 * p - 1) * t == 2 * p * t - t;
      assert (2 * p + 1) * t == 2 * p * t + t;
      MulCancel(0, 2 * p + 1, t);
      MulCancel(2 * p - 1, 2000, t);
    }
  }

  datatype Stats = Stats(masteredCount: int, totalCount: int, percentTenths: int)

  datatype GradeResults = GradeResults(grade: int, listening: Stats, reading: Stats, totalWordsCount: int)

  /** The result returned when the computation fails. */
  function ZeroResults(grade: int): GradeResults {
    GradeResults(grade, Stats(0, 0, 0), Stats(0, 0, 0), 0)
  }

  /** `getGradeResults`: the mastered counts of both test types against
      the grade's word count; each count query yields 0 when it fails,
      and a failure of the whole computation yields all zeros. */
  function GetGradeResults(grade: int, mastery: seq<WordMastery>, words: seq<Word>,
                           listeningFails: bool, readingFails: bool, totalFails: bool, fails: bool): (r: GradeResults)
    ensures fails ==> r == ZeroResults(grade)
    ensures r.grade == grade
    ensures r.listening.totalCount == r.totalWordsCount && r.reading.totalCount == r.totalWordsCount
    ensures r.totalWordsCount == 0 ==> r.listening.percentTenths == 0 && r.reading.percentTenths == 0
    ensures !fails ==> r.listening.masteredCount == (if listeningFails then 0 else MasteredCountOf(mastery, words, Listening, grade))
    ensures !fails ==> r.reading.masteredCount == (if readingFails then 0 else MasteredCountOf(mastery, words, Reading, grade))
    ensures !fails ==> r.totalWordsCount == (if totalFails then 0 else WordCountByGrade(words, grade))
    ensures r.listening.percentTenths == PercentTenths(r.listening.masteredCount, r.totalWordsCount)
    ensures r.reading.percentTenths == PercentTenths(r.reading.masteredCount, r.totalWordsCount)
  {
    if fails then ZeroResults(grade)
    else
      var listeningMasteredCount := if listeningFails then 0 else MasteredCountOf(mastery, words, Listening, grade);
      var readingMasteredCount := if readingFails then 0 else MasteredCountOf(mastery, words, Reading, grade);
      var totalWordsCount := if totalFails then 0 else WordCountByGrade(words, grade);
      GradeResults(grade,
        Stats(listeningMasteredCount, totalWordsCount, PercentTenths(listeningMasteredCount, totalWordsCount)),
        Stats(readingMasteredCount, totalWordsCount, PercentTenths(readingMasteredCount, totalWordsCount)),
        totalWordsCount)
  }

  datatype DailyProgressData = DailyProgressData(date: string, listeningTenths: int, readingTenths: int, totalWordsCount: int)

  /** One entry of the daily history from one progress snapshot. */
  function ToDaily(p: LearningProgress): (d: DailyProgressData)
    ensures d.date == p.date && d.totalWordsCount == p.totalWordsCount
    ensures d.listeningTenths == PercentTenths(p.listeningMasteredCount, p.totalWordsCount)
    ensures d.readingTenths == PercentTenths(p.readingMasteredCount, p.totalWordsCount)
  {
    DailyProgressData(p.date,
      PercentTenths(p.listeningMasteredCount, p.totalWordsCount),
      PercentTenths(p.readingMasteredCount, p.totalWordsCount),
      p.totalWordsCount)
  }

  function MapDaily(ps: seq<LearningProgress>): (r: seq<DailyProgressData>)
    ensures |r| == |ps|
    ensures forall i :: 0 <= i < |ps| ==> r[i] == ToDaily(ps[i])
  {
    if ps == [] then [] else [ToDaily(ps[0])] + MapDaily(ps[1..])
  }

  predicate DateAsc(a: DailyProgressData, b: DailyProgressData) {
    LexLe(a.date, b.date)
  }

  lemma DateAscTotal()
    ensures Total(DateAsc)
  {
    forall a: DailyProgressData, b: DailyProgressData
      ensures DateAsc(a, b) || DateAsc(b, a)
    {
      LexLeTotalAt(a.date, b.date);
    }
  }

  /** `getDailyProgressData`: one entry per progress snapshot of the last
      30 days, oldest date first. */
  function GetDailyProgressData(table: ProgressTable, grade: int, now: int, format: int -> string, fails: bool): (r: seq<DailyProgressData>)
    reads table
    ensures multiset(r) == multiset(MapDaily(table.GetRecentLearningProgress(grade, 30, now, format, fails)))
    ensures |r| == |table.GetRecentLearningProgress(grade, 30, now, format, fails)|
    ensures SortedBy(r, DateAsc)
  {
    var progressRecords := table.GetRecentLearningProgress(grade, 30, now, format, fails);
    DateAscTotal();
    SortBy(MapDaily(progressRecords), DateAsc)
  }

  /** `${n}` for a number with at most one decimal, given in tenths. */
  function DecimalText(tenths: nat): (s: string)
    ensures StartsWith(s, NatToString(tenths / 10))
  {
    var whole := NatToString(tenths / 10);
    var s := if tenths % 10 == 0 then whole else whole + "." + [DigitChar(tenths % 10)];
    assert s[..|whole|] == whole;
    s
  }

  /** A number is read back from its text. */
  lemma DecimalTextInjective(p: nat, q: nat)
    requires DecimalText(p) == DecimalText(q)
    ensures p == q
  {
    var wp, wq := NatToString(p / 10), NatToString(q / 10);
    var s := DecimalText(p);
    var tp: string := if p % 10 == 0 then [] else "." + [DigitChar(p % 10)];
    var tq: string := if q % 10 == 0 then [] else "." + [DigitChar(q % 10)];
    assert s == wp + tp && s == wq + tq;
    DigitRunOfDecimal(wp, tp);
    DigitRunOfDecimal(wq, tq);
    assert wp == s[..|wp|] == wq;
    NatToStringInjective(p / 10, q / 10);
    assert tp == s[|wp|..] == tq;
    if p % 10 != 0 {
      assert tp[1] == DigitChar(p % 10) && tq[1] == DigitChar(q % 10);
    }
  }

  /** The digits of the whole part end where the text ends or at the
      decimal point. */
  lemma DigitRunOfDecimal(w: string, t: string)
    requires AllDigits(w)
    requires t == [] || t[0] == '.'
    ensures DigitRunLength(w + t) == |w|
  {
    if t == [] {
      assert w + t == w;
      DigitRunAll(w);
    } else {
      assert w + t == w + [t[0]] + t[1..];
      DigitRunOfJoined(w, t[0], t[1..]);
    }
  }

  lemma {:induction false} DigitRunAll(w: string)
    requires AllDigits(w)
    ensures DigitRunLength(w) == |w|
  {
    if w != [] {
      DigitRunAll(w[1..]);
    }
  }

  datatype PieSlice = PieSlice(name: string, populationTenths: int, color: string, legendFontColor: string, legendFontSize: int)

  datatype PieChartData = PieChartData(data: seq<PieSlice>, centerText: string)

  const ListeningColor: string := "#10B981"
  const ReadingColor: string := "#3B82F6"
  const RestColor: string := "#E5E7EB"
  const LegendColor: string := "#4B5563"

  /** A two-slice pie: the mastered share and the rest, which together
      make 100 percent, with the mastered percentage in the centre. */
  function PieChart(percentTenths: nat, color: string): (c: PieChartData)
    ensures |c.data| == 2
    ensures c.data[0].populationTenths == percentTenths
    ensures c.data[0].populationTenths + c.data[1].populationTenths == 1000
    ensures c.data[0].color == color
    ensures c.centerText == DecimalText(percentTenths) + "%"
  {
    PieChartData(
      [PieSlice("習得済み", percentTenths, color, LegendColor, 14),
       PieSlice("未習得", 1000 - percentTenths, RestColor, LegendColor, 14)],
      DecimalText(percentTenths) + "%")
  }

  /** `generateListeningPieChartData`. */
  function ListeningPieChartData(r: GradeResults): (c: PieChartData)
    requires r.listening.percentTenths >= 0
    ensures |c.data| == 2
    ensures c.data[0].populationTenths == r.listening.percentTenths && c.data[0].color == ListeningColor
    ensures c.data[0].populationTenths + c.data[1].populationTenths == 1000
    ensures c.centerText == DecimalText(r.listening.percentTenths) + "%"
  {
    PieChart(r.listening.percentTenths, ListeningColor)
  }

  /** `generateReadingPieChartData`. */
  function ReadingPieChartData(r: GradeResults): (c: PieChartData)
    requires r.reading.percentTenths >= 0
    ensures |c.data| == 2
    ensures c.data[0].populationTenths == r.reading.percentTenths && c.data[0].color == ReadingColor
    ensures c.data[0].populationTenths + c.data[1].populationTenths == 1000
    ensures c.centerText == DecimalText(r.reading.percentTenths) + "%"
  {
    PieChart(r.reading.percentTenths, ReadingColor)
  }

  /** Two charts with the same centre text show the same percentage. */
  lemma PieCenterNamesPercentage(p: nat, q: nat, color: string)
    requires PieChart(p, color).centerText == PieChart(q, color).centerText
    ensures p == q
  {
    var a, b := DecimalText(p), DecimalText(q);
    assert a == (a + "%")[..|a + "%"| - 1] == (b + "%")[..|b + "%"| - 1] == b;
    DecimalTextInjective(p, q);
  }

  /** Destructuring `[, month, day]`: a missing piece is `undefined`. */
  function Piece(parts: seq<string>, k: nat): string {
    if k < |parts| then parts[k] else "undefined"
  }

  /** `${month}/${day}` from a `YYYY-MM-DD` date. */
  function MonthDay(date: string): string {
    var parts := Split(date, '-');
    Piece(parts, 1) + "/" + Piece(parts, 2)
  }

  /** For a date of three dash-free pieces, the label is month/day. */
  lemma MonthDayOfDate(y: string, m: string, d: string)
    requires '-' !in y && '-' !in m && '-' !in d
    ensures MonthDay(y + "-" + m + "-" + d) == m + "/" + d
  {
    SplitWhole(d, '-');
    SplitPiece(m, '-', d);
    assert y + "-" + m + "-" + d == y + ['-'] + (m + ['-'] + d);
    SplitPiece(y, '-', m + ['-'] + d);
  }

  /** Every seventh label is shown when there are more than 30 entries,
      every label otherwise. */
  function LabelInterval(n: nat): (k: nat)
    ensures k == 1 || k == 7
    ensures k == 7 <==> n > 30
  {
    if n > 30 then 7 else 1
  }

  datatype StackedChartData = StackedChartData(labels: seq<string>, listeningData: seq<int>, readingData: seq<int>)

  /** `generateStackedChartData`: one label and one value per entry, in
      entry order; the label is blank off the interval and month/day on
      it. */
  function GenerateStackedChartData(dailyData: seq<DailyProgressData>): (c: StackedChartData)
    ensures |c.labels| == |dailyData| && |c.listeningData| == |dailyData| && |c.readingData| == |dailyData|
    ensures forall i :: 0 <= i < |dailyData| ==> c.listeningData[i] == dailyData[i].listeningTenths && c.readingData[i] == dailyData[i].readingTenths
    ensures forall i :: 0 <= i < |dailyData| && i % LabelInterval(|dailyData|) != 0 ==> c.labels[i] == ""
    ensures forall i :: 0 <= i < |dailyData| && i % LabelInterval(|dailyData|) == 0 ==> c.labels[i] == MonthDay(dailyData[i].date)
  {
    var labelInterval := LabelInterval(|dailyData|);
    StackedChartData(
      seq(|dailyData|, i requires 0 <= i < |dailyData| => if i % labelInterval != 0 then "" else MonthDay(dailyData[i].date)),
      seq(|dailyData|, i requires 0 <= i < |dailyData| => dailyData[i].listeningTenths),
      seq(|dailyData|, i requires 0 <= i < |dailyData| => dailyData[i].readingTenths))
  }

  /** A shown label is never blank. */
  lemma ShownLabelNotBlank(date: string)
    ensures MonthDay(date) != ""
  {
    assert |MonthDay(date)| > 0;
  }
}
