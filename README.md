# TOPIK vocabulary app: a verified model of its core

This project models the logic beneath the screens and the database of a
React Native app for learning TOPIK (Test of Proficiency in Korean)
vocabulary, plus the script that generates its audio. It covers:

- **Korean text matching** (`KoreanText`). It finds a dictionary word in an
  example sentence, allowing for verb and adjective conjugation, and cuts
  the sentence into before, highlighted and after.
- **Lemma guessing** (`KoreanLemmatizer`). It guesses the dictionary forms
  of an inflected word and splits a sentence into words.
- **Spaced repetition** (`SrsManagement`, `SrsQueries`). It covers the
  record getters, registering a word, the update after a mistake, and
  the days until a review.
- **The tables**:
  - word mastery (`WordMasteryQueries`): an insert keyed by word and test
    type, which adds nothing the second time;
  - daily learning progress (`LearningProgressQueries`): an upsert keyed by
    date and grade;
  - units and words (`UnitQueries`, `WordQueries`);
  - the results figures (`ResultsQueries`).

  The tables are in-memory sequences; those the app changes are fields
  of a class.
- **Derived fields** of words, units, test results, test questions,
  review history and learning status. This includes the grouping of
  units into display ranges (`UnitRanges`) and the word tooltip.
- **The session state machines** of three kinds of screen:
  - the listening and reading quizzes (`QuizSession`), including the
    writes on completion;
  - the review screen (`ReviewSession`);
  - the learning screen (`LearningSession`).
- **The seed data generator** (`SeedData`) and the audio generation loop
  (`AudioGenerator`).

Time is a parameter in milliseconds since the epoch. A calendar day is a
whole number of days since the epoch. Ease factors are integers in tenths,
so 25 stands for 2.5. Percentages with one decimal are integers in tenths
of a percent. Every storage failure the code catches is a boolean
parameter, and every random choice is a parameter the caller supplies.

Each imperative handler or loop is a `method` whose `ensures` ties the
new state to a specification function. The properties the app promises
are proved about those functions. The main ones are:

- the round trip of the sentence cut;
- no duplicates among the guessed lemmas;
- uniqueness of the mastery and progress keys;
- the grouping of units reproducing the input;
- the well-formedness of quiz questions;
- the completion writes;
- the uniqueness of the seeded ids.

The audio script `scripts/audio-generator/main.py` requests audio for
every non-empty word and example of the processed entries, and counts the
processed entries.

## Model

| member | source | states |
|---|---|---|
| KoreanText.Cut | src/utils/koreanTextUtils.ts:100-104 | the three parts put back together give the sentence; the first part has length `i` and the highlighted part length `n` |
| KoreanText.ExtractStem | src/utils/koreanTextUtils.ts:62-69 | a word ending in 다 loses exactly that 다; any other word is its own stem |
| KoreanText.FirstPrefixFrom | src/utils/koreanTextUtils.ts:191-204 | the index of the first listed pattern the text starts with: no earlier pattern matches, and None means no pattern matches |
| KoreanText.MatchPrefix | src/utils/koreanTextUtils.ts:191-204 | the pattern loop returns the index FirstPrefixFrom specifies |
| KoreanText.EndingMatch | src/utils/koreanTextUtils.ts:187-204 | a match cuts the sentence at the stem and highlights the stem plus the first listed ending, in table order, that follows it; there is no match exactly when no ending follows the stem |
| KoreanText.MatchEnding | src/utils/koreanTextUtils.ts:187-204 | the ending loop returns what EndingMatch specifies |
| KoreanText.EarliestUpTo | src/utils/koreanTextUtils.ts:129-140 | the chosen 하다 form occurs where reported, is one of the tried forms, and no tried form occurs earlier; None means none occurs |
| KoreanText.KeepEarlier | src/utils/koreanTextUtils.ts:134-139 | one more form replaces the kept hit only with its own index and text; the kept index never grows, and a form that occurs leaves a hit no later than it |
| KoreanText.EarliestHadaForm | src/utils/koreanTextUtils.ts:129-140 | the loop keeping the earliest index returns what EarliestUpTo specifies over all eleven forms |
| KoreanText.AdjMatch | src/utils/koreanTextUtils.ts:156-168 | a contracted 해 match cuts the sentence into parts that rebuild it |
| KoreanText.StemMatchAt | src/utils/koreanTextUtils.ts:176-243 | a verdict on one occurrence rebuilds the sentence, starts at that occurrence, which begins a word, and highlights text starting with the stem |
| KoreanText.MatchAfterStem | src/utils/koreanTextUtils.ts:187-240 | the body of the scan for one occurrence returns what StemMatchAt specifies |
| KoreanText.ScanFrom | src/utils/koreanTextUtils.ts:170-243 | a match of the boundary scan lies at or after the starting index, at the start of a word, and highlights text starting with the stem |
| KoreanText.ScanAt | src/utils/koreanTextUtils.ts:176-242 | the verdict on one occurrence, else the scan from the next character: a match lies at or after the occurrence, at the start of a word, and highlights text starting with the stem |
| KoreanText.ScanStep | src/utils/koreanTextUtils.ts:172-185 | one pass finds the next occurrence with indexOf from the search index and judges it as StemMatchAt does |
| KoreanText.ScanStem | src/utils/koreanTextUtils.ts:170-243 | the while loop returns what ScanFrom specifies from index 0 |
| KoreanText.ScanSkips | src/utils/koreanTextUtils.ts:182-185 | an occurrence that gives no verdict is passed over: the scan continues from the character after it |
| KoreanText.FormsMatchFrom | src/utils/koreanTextUtils.ts:247-272 | a 가다 special-form match rebuilds the sentence |
| KoreanText.MatchSpecialForms | src/utils/koreanTextUtils.ts:253-271 | the nested loop over forms and endings returns what FormsMatchFrom specifies |
| KoreanText.DeutMatch | src/utils/koreanTextUtils.ts:274-295 | a ㄷ-irregular match rebuilds the sentence |
| KoreanText.MatchIrregular | src/utils/koreanTextUtils.ts:276-295 | the irregular-stem loop returns what DeutMatch specifies |
| KoreanText.StemMatch | src/utils/koreanTextUtils.ts:107-308 | a stem-based match rebuilds the sentence |
| KoreanText.StemFormsMatch | src/utils/koreanTextUtils.ts:156-307 | a match after the 하다 forms rebuilds the sentence |
| KoreanText.MatchStemForms | src/utils/koreanTextUtils.ts:156-307 | the statements after the 하다 forms return what StemFormsMatch specifies |
| KoreanText.FindWord | src/utils/koreanTextUtils.ts:83-312 | a result always rebuilds the example; an empty word, an empty example or a grammar pattern give null; a word that occurs verbatim is highlighted at its first occurrence |
| KoreanText.FindWordInExample | src/utils/koreanTextUtils.ts:83-312 | the step-by-step function returns what FindWord specifies |
| KoreanText.WordAppearsInExample | src/utils/koreanTextUtils.ts:315-317 | true only for a non-empty word that is no grammar pattern and a non-empty example, and always when the word occurs verbatim |
| KoreanText.EndBoundaryIsOneChar | src/utils/koreanTextUtils.ts:208-230 | the follower of a bare stem ends the word exactly when the rest is empty or its first character is one of the one-character entries; 에서 and 으로 never match one character |
| KoreanText.HadaEarliestWins | src/utils/koreanTextUtils.ts:110-150 | for a 하다 verb absent verbatim whose form occurs, the result highlights a 하다 form at its occurrence and no other form occurs earlier |
| KoreanText.ExactNounFound | src/utils/__tests__/koreanTextUtils.test.ts:6-13 | 사과 in 저는 사과를 좋아해요 is highlighted between 저는 and 를 좋아해요 |
| KoreanText.ConjugationInitialsCover | src/utils/koreanTextUtils.ts:6-59 | every conjugation ending starts with one of the listed initials, and 지 starts only 지만 |
| KoreanText.NoConjugationFollows | src/utils/koreanTextUtils.ts:191-204 | text starting with a character that begins no ending (or 지 not followed by 만) matches no conjugation ending |
| KoreanText.OneCharStemPassedOver | src/utils/koreanTextUtils.ts:206-242 | a one-character stem followed by neither an ending nor a boundary gives no verdict |
| KoreanText.GabangScanEnd | src/utils/__tests__/koreanTextUtils.test.ts:168-172 | no 가 occurs in the tail ...지고 왔어요 |
| KoreanText.GabangScan | src/utils/__tests__/koreanTextUtils.test.ts:168-172 | the boundary scan for 가 in 가방을 가지고 왔어요 finds nothing, whatever the endings and boundary tokens |
| KoreanText.GabangWordScan | src/utils/__tests__/koreanTextUtils.test.ts:168-172 | with the source's endings and boundary tokens the scan for 가 finds nothing |
| KoreanText.GabangSpecialForms | src/utils/koreanTextUtils.ts:247-272 | neither special form of 가다 matches in 가방을 가지고 왔어요 |
| KoreanText.GabangStemForms | src/utils/koreanTextUtils.ts:156-272 | none of the stem forms of 가다 match in that sentence |
| KoreanText.NeitherEndingNorBoundary | src/utils/koreanTextUtils.ts:191-230 | text starting 방을 or 지고 follows no bare stem and no conjugated one |
| KoreanText.PartialStemNotMatched | src/utils/__tests__/koreanTextUtils.test.ts:168-172 | 가다 is not found in 가방을 가지고 왔어요: the 가 of 가방 and of 가지고 is part of another word |
| KoreanLemmatizer.Add | src/utils/koreanLemmatizer.ts:52-55 | `Set.add` on the insertion-ordered candidates: the value is present afterwards, nothing else is added, earlier entries keep their order, and no entry appears twice |
| KoreanLemmatizer.RemovePunctuation | src/utils/koreanLemmatizer.ts:58 | the result holds none of . , ! ? ~, is no longer than the word, and equals it exactly when the word holds none |
| KoreanLemmatizer.FirstSuffixFrom | src/utils/koreanLemmatizer.ts:65-71 | the index of the first listed suffix the text ends with; no earlier one does, and None means none does |
| KoreanLemmatizer.DropSuffix | src/utils/koreanLemmatizer.ts:67 | the text minus the suffix, followed by the suffix, is the text |
| KoreanLemmatizer.ParticleStem | src/utils/koreanLemmatizer.ts:64-71 | the cleaned word without the first particle it ends with, or the cleaned word itself when it ends with none |
| KoreanLemmatizer.ParticleStemIsFirst | src/utils/koreanLemmatizer.ts:65-71 | only one particle is removed, the first in list order that matches, even when a longer one also matches |
| KoreanLemmatizer.StripParticle | src/utils/koreanLemmatizer.ts:64-71 | the particle loop yields ParticleStem and adds it as a candidate only when a particle matched |
| KoreanLemmatizer.AddEndingForms | src/utils/koreanLemmatizer.ts:75-86 | the ending loop adds exactly the stem-minus-ending plus 다 and plus 하다 for every matching ending that leaves a non-empty stem, keeping earlier candidates first and no duplicates |
| KoreanLemmatizer.AddSpecialForms | src/utils/koreanLemmatizer.ts:88-103 | adds exactly the ㅂ니다 form, 하다 for 해요/해, and stem plus 다 for a non-empty stem not ending in 다 |
| KoreanLemmatizer.GuessLemmasWith | src/utils/koreanLemmatizer.ts:51-106 | the word comes first, then the cleaned word when it differs; no duplicates; a string is returned exactly when it is one of the candidates the steps describe |
| KoreanLemmatizer.GuessLemmas | src/utils/koreanLemmatizer.ts:51-106 | GuessLemmasWith on the source's particle and ending tables |
| KoreanLemmatizer.EndingYieldsBothForms | src/utils/koreanLemmatizer.ts:75-86 | a matching ending that leaves a non-empty stem makes both the 다 and the 하다 forms candidates |
| KoreanLemmatizer.WordRun | src/utils/koreanLemmatizer.ts:113-116 | the leading run of non-whitespace characters, ended by whitespace or the end of the text |
| KoreanLemmatizer.Segments | src/utils/koreanLemmatizer.ts:113-116 | every segment is non-empty and holds no whitespace |
| KoreanLemmatizer.NonWhitespaceOfRun | src/utils/koreanLemmatizer.ts:113-116 | a leading run without whitespace survives whitespace removal unchanged |
| KoreanLemmatizer.SegmentsSpellText | src/utils/koreanLemmatizer.ts:113-116 | the segments, concatenated, are the text with its whitespace removed: nothing is lost or reordered |
| KoreanLemmatizer.WordRunOfJoined | src/utils/koreanLemmatizer.ts:113-116 | a word without whitespace followed by whitespace or the end is one run |
| KoreanLemmatizer.SegmentsOfJoined | src/utils/koreanLemmatizer.ts:113-116 | non-empty words joined by single spaces segment back into the same words |
| SrsManagement.NextReviewDateTimestamp | src/database/models/SrsManagement.ts:23-25 | null exactly when the date is missing or 0 (falsy), the stored date otherwise |
| SrsManagement.LastReviewedTimestamp | src/database/models/SrsManagement.ts:28-30 | null exactly when the date is missing or 0, the stored date otherwise |
| SrsManagement.IsDueToday | src/database/models/SrsManagement.ts:33-37 | due exactly when a non-zero next review date is at or before now; a missing or zero date is never due |
| SrsManagement.IsMastered | src/database/models/SrsManagement.ts:40-46 | mastered exactly when not learning (level 9 and above): every record is in exactly one of the two states |
| SrsManagement.DueStaysDue | src/database/models/SrsManagement.ts:33-37 | a record due now is still due at any later time |
| SrsQueries.StartOfDay | src/database/queries/srsQueries.ts:99-102 | `setHours(0, 0, 0, 0)`: the midnight at or before the time, less than a day before it, on the same day |
| SrsQueries.TomorrowMidnight | src/database/queries/srsQueries.ts:44-47 | the next midnight: after now, at most a day later, on the following day |
| SrsQueries.DaysToReview | src/database/queries/srsQueries.ts:98-106 | the number of calendar days from today to the review day, and 0 for a review day today or in the past |
| SrsQueries.PastReviewIsZero | src/database/queries/srsQueries.ts:104-105 | a review date at or before now counts as 0 days |
| SrsQueries.DayOfMonotone | src/database/queries/srsQueries.ts:98-106 | a later time never falls on an earlier day |
| SrsQueries.SameDaySameCount | src/database/queries/srsQueries.ts:101-102 | two review times on the same day give the same count: the time of day is ignored |
| SrsQueries.DaysAheadCount | src/database/queries/srsQueries.ts:98-106 | any time on the day `n` days ahead counts as exactly `n` days |
| SrsQueries.DayOfOffset | src/database/queries/srsQueries.ts:101-102 | a time `d` days and less than a day past the epoch lies on day `d` |
| SrsQueries.DueIsZeroDays | src/database/queries/srsQueries.ts:98-106 | a record due today is 0 days from its review |
| SrsQueries.NewRecord | src/database/queries/srsQueries.ts:31-59 | a new record is learning, level 0, ease 2.5, interval 1, never reviewed, one mistake exactly when it comes from a mistake, due at tomorrow's midnight (`TomorrowMidnight(now)`), so not due today and one day from review |
| SrsQueries.MistakeUpdate | src/database/queries/srsQueries.ts:64-93 | a mistake lowers the level by one and the ease by 0.2, each clamped at its floor (0 and 1.3), resets the interval to 1, counts one more mistake, stamps now and schedules the review at tomorrow's midnight (`TomorrowMidnight(now)`); it keeps records well formed and never raises level or ease |
| SrsQueries.MistakesClamp | src/database/queries/srsQueries.ts:70-82 | after `n` mistakes the level is max(0, level - n), the ease max(1.3, ease - 0.2n), and the mistake count grows by `n` |
| SrsQueries.FirstForWord | src/database/queries/srsQueries.ts:21 | `find`: the index of the first record for the word; no earlier record is for it, and None means no record is |
| SrsQueries.SrsTable.GetByWordId | src/database/queries/srsQueries.ts:12-26 | a failing query gives null; otherwise the first record for the word, or null when there is none |
| SrsQueries.SrsTable.Create | src/database/queries/srsQueries.ts:31-59 | a failed write gives null and changes nothing; otherwise NewRecord is appended to the table and returned |
| SrsQueries.SrsTable.UpdateForMistake | src/database/queries/srsQueries.ts:64-93 | a failed write gives null and changes nothing; otherwise the record is replaced in place by MistakeUpdate of it, and the new record is returned |
| WordModel.UnitNumber | src/database/models/Word.ts:18-20 | `ceil(n / 10)`: the unit whose ten word numbers contain the word's number |
| WordModel.PositionInUnit | src/database/models/Word.ts:23-25 | for a number from 1 on, a position from 1 to 10 |
| WordModel.UnitAndPositionRebuild | src/database/models/Word.ts:17-25 | unit and position give the word's number back: (unit - 1) * 10 + position |
| WordModel.WordAudioPath | src/database/models/Word.ts:28-30 | `audio/words/` followed by the word's id and `.mp3` |
| WordModel.ExampleAudioPath | src/database/models/Word.ts:32-34 | `audio/examples/` followed by the word's id and `.mp3` |
| WordModel.AudioPathsDistinct | src/database/models/Word.ts:27-34 | different ids give different word paths and different example paths, and no word path is an example path |
| UnitModel.RangesTile | src/database/models/Unit.ts:18-22 | every unit spans ten word numbers and the next unit starts right after it ends |
| UnitModel.RangeLabelInjective | src/database/models/Unit.ts:18-22 | for units numbered from 1, equal range labels mean equal first and last units |
| UnitModel.DisplayNameInjective | src/database/models/Unit.ts:18-22 | units numbered from 1 with equal display names have equal numbers |
| UnitModel.FirstDisplayNames | src/database/models/__tests__/Unit.test.ts:68-70 | units 1, 2 and 3 display as 1-10, 11-20 and 21-30 |
| UnitModel.Children | src/database/models/Unit.ts:15 | the `words` children: exactly the words whose unit id is the unit's |
| UnitModel.WordCount | src/database/models/Unit.ts:25-27 | the number of children, never more than the words stored |
| UnitQueries.UnitsByGrade | src/database/queries/unitQueries.ts:11-19 | exactly the grade's units, each as often as stored, ascending by unit number |
| UnitQueries.GetUnit | src/database/queries/unitQueries.ts:27-37 | the first stored unit with the grade and number, or null exactly when there is none |
| UnitQueries.WordsByUnitId | src/database/queries/unitQueries.ts:44-52 | exactly the unit's words, each as often as stored, ascending by unit order |
| UnitQueries.WordsByUnit | src/database/queries/unitQueries.ts:60-67 | no words for a missing unit; otherwise the words of the unit GetUnit finds |
| UnitQueries.UnitCountByGrade | src/database/queries/unitQueries.ts:74-81 | `fetchCount`: the number of the grade's units |
| UnitQueries.UnitCountMatchesList | src/database/queries/unitQueries.ts:11-81 | the count equals the length of the unit list of the same grade |
| UnitQueries.WordsByUnitIdAreChildren | src/database/queries/unitQueries.ts:44-52 | the query returns the same words as the unit's children, so its length is the unit's word count |
| WordQueries.FindById | src/database/queries/wordQueries.ts:36-44 | a stored word with the id, or null exactly when no word has it (a rejected `find` is caught) |
| WordQueries.SliceEnd | src/database/queries/wordQueries.ts:28 | `slice(0, limit)` keeps `limit` words, or all of them when there are fewer |
| WordQueries.RandomWordsByGrade | src/database/queries/wordQueries.ts:13-29 | words of the grade other than the excluded one, drawn without repetition from the shuffled candidates, `limit` of them or all when there are fewer |
| WordQueries.DrawnFromCandidates | src/database/queries/wordQueries.ts:27-28 | any prefix of a shuffle of the candidates holds only candidates, none more often than stored |
| WordQueries.WordsByIds | src/database/queries/wordQueries.ts:51-60 | exactly the stored words whose id is listed; none for an empty list |
| WordQueries.WordCountByGrade | src/database/queries/wordQueries.ts:67-72 | the number of the grade's words |
| WordQueries.SearchWordsByKorean | src/database/queries/wordQueries.ts:79-97 | null for no candidates or a failing query; otherwise the first stored word whose Korean is a candidate, or null when none is |
| WordTooltip.TooltipUnit | src/components/WordTooltip.tsx:21-26 | the unit whose ten-number range holds the order |
| WordTooltip.Tooltip | src/components/WordTooltip.tsx:17-52 | nothing without a word; otherwise its Korean, its Japanese and the range of its unit order |
| UnitRanges.UnitRange.Id | src/hooks/useUnits.ts:55 | the range id starts with `unit-range-` |
| UnitRanges.GroupsShape | src/hooks/useUnits.ts:46-59 | every group is non-empty and every group but the last holds exactly the group size |
| UnitRanges.GroupsCount | src/hooks/useUnits.ts:46 | the number of groups is the units divided by the group size, rounded up |
| UnitRanges.GroupsConcat | src/hooks/useUnits.ts:59 | the groups, one after the other, are the units: none lost, repeated or reordered |
| UnitRanges.GroupsNth | src/hooks/useUnits.ts:46-59 | group `k` is the slice starting at `k` times the group size |
| UnitRanges.LabelNamesRange | src/hooks/useUnits.ts:51-56 | for units numbered from 1, equal labels mean equal first and last unit numbers |
| UnitRanges.RangeOf | src/hooks/useUnits.ts:47-61 | a range holds its group, starts at the group's first unit and ends at its last, with their numbers |
| UnitRanges.RangesOf | src/hooks/useUnits.ts:46-63 | one range per group, in order, each holding its group |
| UnitRanges.FlattenRangesOf | src/hooks/useUnits.ts:46-63 | the ranges' units, one after the other, are the groups' units |
| UnitRanges.GroupsStep | src/hooks/useUnits.ts:46-59 | the first group is the next group-size slice and the rest continue after it |
| UnitRanges.RangesOfStep | src/hooks/useUnits.ts:46-63 | the ranges are the first group's range followed by the rest's |
| UnitRanges.GenerateUnitRanges | src/hooks/useUnits.ts:43-66 | `generateUnitRanges`: ceil(n / size) ranges, every one but the last full, none empty, whose units together are the input units in order |
| WordMasteryQueries.WithMasteryRecords | src/database/queries/wordMasteryQueries.ts:12-48 | after `createWordMastery` the pair is recorded, and at most the one new record is added |
| WordMasteryQueries.WithMasteryKeepsUnique | src/database/queries/wordMasteryQueries.ts:17-30 | the existence check keeps at most one record per word and test type |
| WordMasteryQueries.WithMasteryIdempotent | src/database/queries/wordMasteryQueries.ts:28-30 | recording the same pair again, at any time, changes nothing |
| WordMasteryQueries.KeyCountPositive | src/database/queries/wordMasteryQueries.ts:18-28 | the `fetchCount` of the pair is positive exactly when the pair is recorded |
| WordMasteryQueries.GradeCount | src/database/queries/wordMasteryQueries.ts:92-100 | the loop's count never exceeds the records it visits |
| WordMasteryQueries.GradeCountStep | src/database/queries/wordMasteryQueries.ts:92-100 | a record whose word `find` rejects aborts the count; otherwise it adds 1 when the word has the grade |
| WordMasteryQueries.MasteredCountOf | src/database/queries/wordMasteryQueries.ts:83-107 | the grade's count is at most the records of the test type |
| WordMasteryQueries.GradeCountFound | src/database/queries/wordMasteryQueries.ts:92-107 | the count succeeds exactly when every visited record's word is found |
| WordMasteryQueries.GradeCountSnoc | src/database/queries/wordMasteryQueries.ts:92-100 | one more record with a found word adds 1 when its grade matches and 0 otherwise |
| WordMasteryQueries.MasteredCountAfterCreate | src/database/queries/wordMasteryQueries.ts:12-48 | recording a new pair for a stored word raises that word's grade count for the test type by exactly one |
| WordMasteryQueries.PlusPlus | src/database/queries/wordMasteryQueries.ts:91-100 | adding two counts to a pending count in turn adds their sum |
| WordMasteryQueries.MasteryTable.CreateWordMastery | src/database/queries/wordMasteryQueries.ts:12-48 | a failure is rethrown and changes nothing; a recorded pair gives null and changes nothing; otherwise the new record is stored and returned |
| WordMasteryQueries.MasteryTable.IsWordMastered | src/database/queries/wordMasteryQueries.ts:56-76 | true exactly when the query works and the pair is recorded |
| WordMasteryQueries.MasteryTable.MasteredCount | src/database/queries/wordMasteryQueries.ts:83-107 | the loop over the test type's records counts those whose word has the grade; 0 on a failure |
| WordMasteryQueries.MasteryTable.GetListeningMasteredCount | src/database/queries/wordMasteryQueries.ts:83-107 | the listening count of MasteredCountOf, or 0 on a failure |
| WordMasteryQueries.MasteryTable.GetReadingMasteredCount | src/database/queries/wordMasteryQueries.ts:114-138 | the reading count of MasteredCountOf, or 0 on a failure |
| LearningProgressQueries.KeyIndex | src/database/queries/learningProgressQueries.ts:18-28 | the first record with the date and grade, or -1 exactly when none has them |
| LearningProgressQueries.UpsertedKeepsUnique | src/database/queries/learningProgressQueries.ts:90-116 | storing a snapshot keeps one record per date and grade, and the snapshot is found by its key afterwards |
| LearningProgressQueries.UpsertedTwice | src/database/queries/learningProgressQueries.ts:90-116 | storing two snapshots of the same key leaves what storing the second alone leaves |
| LearningProgressQueries.TargetDate | src/database/queries/learningProgressQueries.ts:82 | `date \|\| today`: a non-empty date wins, a missing or empty one gives today |
| LearningProgressQueries.DateDescTotal | src/database/queries/learningProgressQueries.ts:60 | the descending date order relates every pair, so the sort is well defined |
| LearningProgressQueries.ProgressTable.GetLearningProgressByDate | src/database/queries/learningProgressQueries.ts:13-33 | null on a failure; otherwise the first record with the date and grade, or null exactly when there is none |
| LearningProgressQueries.ProgressTable.GetRecentLearningProgress | src/database/queries/learningProgressQueries.ts:41-69 | nothing on a failure; otherwise exactly the grade's records dated from `days - 1` days ago to today, each as often as stored, newest first |
| LearningProgressQueries.ProgressTable.UpdateOrCreateLearningProgress | src/database/queries/learningProgressQueries.ts:77-123 | stores a snapshot of the listening and reading mastered counts and the word count (each 0 when its query fails) for the target date: updating the record of that key, or adding one when none is found; a failed write gives null and changes nothing |
| ResultsQueries.PercentTenths | src/database/queries/resultsQueries.ts:65-71 | the percentage with one decimal: within half a tenth of the exact share, and 0 when there are no words |
| ResultsQueries.PercentTenthsBounds | src/database/queries/resultsQueries.ts:65-71 | a share of the words lies between 0 and 100 percent |
| ResultsQueries.GetGradeResults | src/database/queries/resultsQueries.ts:55-115 | both mastered counts (0 when their query fails) against the grade's word count (0 when `getTotalWordsCount` fails), with their percentages; all zeros when the whole computation fails |
| ResultsQueries.ToDaily | src/database/queries/resultsQueries.ts:126-141 | one history entry per snapshot: its date, its word count and both percentages |
| ResultsQueries.MapDaily | src/database/queries/resultsQueries.ts:126-141 | one entry per snapshot, in order |
| ResultsQueries.DateAscTotal | src/database/queries/resultsQueries.ts:144 | the ascending date order relates every pair, so the sort is well defined |
| ResultsQueries.GetDailyProgressData | src/database/queries/resultsQueries.ts:122-149 | the entries of the last 30 days' snapshots, each exactly once, sorted by ascending date |
| ResultsQueries.DecimalText | src/database/queries/resultsQueries.ts:177 | the text of a one-decimal number starts with its whole part |
| ResultsQueries.DecimalTextInjective | src/database/queries/resultsQueries.ts:177 | different percentages print differently |
| ResultsQueries.DigitRunOfDecimal | src/database/queries/resultsQueries.ts:177 | the whole part's digits end at the decimal point or the end |
| ResultsQueries.DigitRunAll | src/database/queries/resultsQueries.ts:177 | a text of digits only is one digit run |
| ResultsQueries.PieChart | src/database/queries/resultsQueries.ts:160-178 | two slices, mastered and rest, that add up to 100 percent, with the mastered percentage in the centre |
| ResultsQueries.ListeningPieChartData | src/database/queries/resultsQueries.ts:156-179 | the listening pie: the listening percentage in green plus the rest, adding up to 100, with the percentage in the centre |
| ResultsQueries.ReadingPieChartData | src/database/queries/resultsQueries.ts:186-209 | the reading pie: the reading percentage in blue plus the rest, adding up to 100, with the percentage in the centre |
| ResultsQueries.PieCenterNamesPercentage | src/database/queries/resultsQueries.ts:177 | two pies with the same centre text show the same percentage |
| ResultsQueries.MonthDayOfDate | src/database/queries/resultsQueries.ts:227-229 | a `YYYY-MM-DD` date is labelled `MM/DD` |
| ResultsQueries.LabelInterval | src/database/queries/resultsQueries.ts:218 | every seventh label for more than 30 entries, every label otherwise |
| ResultsQueries.GenerateStackedChartData | src/database/queries/resultsQueries.ts:216-251 | one label and two values per entry, in order; the label is blank off the interval and month/day on it |
| ResultsQueries.ShownLabelNotBlank | src/database/queries/resultsQueries.ts:227-229 | a shown label is never blank |
| ReviewHistory.NeverBothFeedbacks | src/database/models/ReviewHistory.ts:31-37 | a review is never both remembered and forgotten |
| ReviewHistory.MasteryLevelChange | src/database/models/ReviewHistory.ts:40-45 | the step from the previous level to the new one; from 0 on a first review |
| ReviewHistory.ExactlyOneLevelMove | src/database/models/ReviewHistory.ts:48-60 | exactly one of level up, down and stay holds |
| ReviewHistory.ReviewPerformance | src/database/models/ReviewHistory.ts:77-81 | improved exactly when the level went up, declined exactly when down, maintained otherwise |
| ReviewHistory.ChangeText | src/database/models/ReviewHistory.ts:67-73 | `+k` for a rise, `-k` for a fall, the no-change text otherwise |
| ReviewHistory.ChangeTextInjective | src/database/models/ReviewHistory.ts:67-73 | different changes print differently |
| ReviewHistory.ReviewSummaryInjective | src/database/models/ReviewHistory.ts:63-74 | equal summaries agree on the feedback and the level change |
| ReviewHistory.ReviewSummaryStarts | src/database/models/ReviewHistory.ts:64 | the summary starts with '覚えた' for a remembered word and '覚えてない' otherwise |
| TestQuestion.IsIncorrect | src/database/models/TestQuestion.ts:29-31 | exactly one of correct and incorrect holds |
| TestQuestion.ResponseTimeLevel | src/database/models/TestQuestion.ts:34-41 | none for a missing or zero time, else fast up to 2 s, normal up to 5 s, slow up to 10 s, very slow beyond |
| TestQuestion.ResponseTimeLevelMonotone | src/database/models/TestQuestion.ts:37-40 | a slower answer never gets a faster level |
| TestQuestion.HasUserAnswer | src/database/models/TestQuestion.ts:44-46 | an answer is recorded and not empty |
| TestQuestion.IsAnswerMatch | src/database/models/TestQuestion.ts:49-51 | the recorded answer equals the correct one; a match on a non-empty answer implies an answer was given |
| TestResult.Round | src/database/models/TestResult.ts:30 | `Math.round`: the nearest integer, halves up |
| TestResult.DurationMinutes | src/database/models/TestResult.ts:29-31 | none for a missing or zero duration, else the duration in minutes within half a minute |
| TestResult.NotBothTestTypes | src/database/models/TestResult.ts:34-40 | a test is never both listening and reading |
| TestResult.ScoreLevelOf | src/database/models/TestResult.ts:43-48 | excellent from 90, good from 70, fair from 50, poor below |
| TestResult.ScoreLevelMonotone | src/database/models/TestResult.ts:43-48 | a higher rate never gets a lower level |
| TestResult.IncorrectAnswers | src/database/models/TestResult.ts:51-53 | correct and incorrect answers add up to the total |
| LearningStatus.LearnedDateObj | src/database/models/LearningStatus.ts:22-24 | none exactly when the learned date is missing or zero, else that date |
| LearningStatus.MarkedDateObj | src/database/models/LearningStatus.ts:27-29 | none exactly when the marked date is missing or zero, else that date |
| LearningStatus.IsLearnedAndMarked | src/database/models/LearningStatus.ts:32-34 | holds exactly when the word is learned and marked |
| LearningStatus.IsFrequentlyStudied | src/database/models/LearningStatus.ts:37-39 | holds exactly from three sessions |
| LearningStatus.FrequentStaysFrequent | src/database/models/LearningStatus.ts:37-39 | one more session keeps a frequently studied word frequent |
| LearningSession.UnitRange | src/screens/LearningScreen.tsx:129-133 | `getUnitRange`: "(u-1)*10+1-u*10" for units from 1, the same text as the unit's display name |
| LearningSession.UnitRangeInjective | src/screens/LearningScreen.tsx:129-133 | different units from 1 on show different ranges |
| LearningSession.CompletionMessage | src/screens/LearningScreen.tsx:64 | the completion alert names the level and the unit's range and ends with the completion phrase |
| LearningSession.Toggle | src/screens/LearningScreen.tsx:87-93 | the word is marked exactly when it was not, and every other mark is unchanged |
| LearningSession.ToggleTwice | src/screens/LearningScreen.tsx:85-98 | marking a word twice restores the marks |
| LearningSession.ToggleCommutes | src/screens/LearningScreen.tsx:85-98 | marks of two words commute |
| LearningSession.Learning.constructor | src/screens/LearningScreen.tsx:18-24 | the initial state: no words, index 0, loading, no error, nothing marked, meaning and example hidden |
| LearningSession.Learning.LoadWords | src/screens/LearningScreen.tsx:27-49 | a failing query or an empty unit gives the error text and keeps the words; otherwise the unit's words are loaded and the error cleared; loading ends in every case |
| LearningSession.Learning.ShowFetched | src/screens/LearningScreen.tsx:29-45 | given the awaited answer, a throw or an empty list sets the error text and keeps the words; a non-empty list is shown and the error cleared; loading ends in every case |
| LearningSession.Learning.HandleNext | src/screens/LearningScreen.tsx:55-73 | before the last word, one word on with meaning and example hidden; at the last word, the completion alert and nothing else changes |
| LearningSession.Learning.HandlePrevious | src/screens/LearningScreen.tsx:76-82 | one word back with meaning and example hidden, nothing at the first word |
| LearningSession.Learning.HandleMarkForReview | src/screens/LearningScreen.tsx:85-98 | toggles the current word's mark, nothing without a current word |
| LearningSession.Learning.ToggleMeaning | src/screens/LearningScreen.tsx:101-103 | flips whether the meaning shows and nothing else |
| LearningSession.Learning.ToggleExample | src/screens/LearningScreen.tsx:106-108 | flips whether the example shows and nothing else |
| LearningSession.Learning.NextButtonLabel | src/screens/LearningScreen.tsx:321 | '完了' exactly at the last word, '次へ' otherwise |
| LearningSession.Learning.MarkButtonLabel | src/screens/LearningScreen.tsx:311 | '復習済み' exactly when the current word is marked, '復習に追加' otherwise |
| ReviewSession.Review.constructor | src/screens/ReviewScreen.tsx:27-33 | the initial state: no words, index 0, loading, no error, nothing in progress |
| ReviewSession.Review.RemainingCount | src/screens/ReviewScreen.tsx:80 | the words left, the current one included: between 1 and all of them while there is a word |
| ReviewSession.Review.LoadReviewWords | src/screens/ReviewScreen.tsx:36-68 | an empty due list gives the "nothing to review" alert and loads nothing; a failing query sets the error text; otherwise the due words are loaded; loading ends in every case |
| ReviewSession.Review.ToggleMeaning | src/screens/ReviewScreen.tsx:108-110 | flips whether the meaning shows |
| ReviewSession.Review.ToggleExample | src/screens/ReviewScreen.tsx:113-115 | flips whether the example shows |
| ReviewSession.Review.MoveToNext | src/screens/ReviewScreen.tsx:142-160 | before the last word, one word on with one fewer remaining and meaning and example hidden; at the last word, completion with nothing changed |
| ReviewSession.Review.HandleFeedback | src/screens/ReviewScreen.tsx:118-139 | ignored without a current word or while processing; otherwise dispatches the remembered or forgotten update on the current record, moves on exactly when the update returns a record and a word is left, and ends with processing over |
| QuizSession.TestTypeOf | src/screens/ListeningTestScreen.tsx:221-223 | the listening quiz records mastery as 'listening' and the reading quiz (src/screens/ReadingTestScreen.tsx:202-204) as 'reading' |
| QuizSession.JapaneseOf | src/screens/ListeningTestScreen.tsx:95 | the distractors' Japanese meanings, one per word, in order |
| QuizSession.MakeQuestion | src/screens/ListeningTestScreen.tsx:95-104 | the question holds the word, its meaning is the correct answer and one of the options, there is one option per distractor plus one, and every option is the meaning or a distractor's |
| QuizSession.DrawnQuestionWellBuilt | src/screens/ListeningTestScreen.tsx:92-104 | a question built from three random words of the level other than the word has at most four options, the correct one among them, the others meanings of such words |
| QuizSession.BuildQuestion | src/screens/ListeningTestScreen.tsx:92-104 | the loop body builds a well-built question for the word |
| QuizSession.BuildQuestions | src/screens/ListeningTestScreen.tsx:88-105 | one well-built question per word, in word order |
| QuizSession.Accuracy | src/screens/ListeningTestScreen.tsx:217 | `Math.round(correct / total * 100)`: the percentage within half a point, 0 to 100, 100 for all right and 0 for none |
| QuizSession.AccuracyBounds | src/screens/ListeningTestScreen.tsx:217 | any value within half a point of the percentage lies in 0..100 and is exact at the ends |
| QuizSession.ScoreLine | src/screens/ListeningTestScreen.tsx:246 | the alert starts with the accuracy percentage and the score ends with ')' |
| QuizSession.CompletionMessage | src/screens/ListeningTestScreen.tsx:244-252 | the completion alert starts with the score and ends with the review-list notice exactly when some answer was wrong |
| QuizSession.WithMasteriesRecords | src/screens/ListeningTestScreen.tsx:220-223 | after recording the right answers every such word is mastered under the test type, earlier records stay in place, and at most one record per answer is added |
| QuizSession.QuestionFor | src/screens/ListeningTestScreen.tsx:228 | `questions.find`: the first question of the word, or none exactly when no question has it |
| QuizSession.MistakeRecordedKeeps | src/screens/ListeningTestScreen.tsx:230-237 | one wrong answer keeps every record's word, adds at most one record, and leaves a record for the word |
| QuizSession.MistakesRecordedKeeps | src/screens/ListeningTestScreen.tsx:226-239 | after queueing the wrong answers each wrong word with a question has an SRS record, and earlier words keep theirs |
| QuizSession.Snapshot | src/screens/ListeningTestScreen.tsx:242 | the snapshot the listening quiz stores: today's date, the level, both mastered counts and the level's word count |
| QuizSession.OptionTone | src/screens/ListeningTestScreen.tsx:256-274 | before a selection all options look neutral; after it, the correct option shows right, a selected wrong option wrong, the rest muted |
| QuizSession.OptionStyle | src/screens/ListeningTestScreen.tsx:256-274 | `getOptionStyle` is the box style of the option's tone |
| QuizSession.OptionTextStyle | src/screens/ListeningTestScreen.tsx:277-295 | `getOptionTextStyle` is the text style of the option's tone |
| QuizSession.StylesTellTone | src/screens/ListeningTestScreen.tsx:256-295 | equal box styles or equal text styles mean equal tones |
| QuizSession.StyleCharsDiffer | src/screens/ListeningTestScreen.tsx:256-295 | different tones give different box and text styles |
| QuizSession.RecordMasteries | src/screens/ListeningTestScreen.tsx:220-223 | the first completion loop leaves the mastery table as WithMasteries of the right answers |
| QuizSession.QueueMistakes | src/screens/ListeningTestScreen.tsx:226-239 | the second completion loop creates a mistake record for a new wrong word and applies the mistake update to an existing one, skipping answers without a question |
| QuizSession.Quiz.constructor | src/screens/ListeningTestScreen.tsx:54-62 | the initial state: no questions, index 0, nothing selected, no results, timer at now |
| QuizSession.Quiz.GenerateQuestions | src/screens/ListeningTestScreen.tsx:70-117 | no unit does nothing; a failing query or an empty unit alerts and keeps the questions; otherwise one well-built question per word of the unit, in order, with the timer restarted |
| QuizSession.Quiz.HandleAnswerSelect | src/screens/ListeningTestScreen.tsx:179-197 | ignored once an answer is selected; otherwise the answer is selected, the next button shown, and one result appended with the word, whether the answer is right, and the elapsed time |
| QuizSession.Quiz.HandleTestComplete | src/screens/ListeningTestScreen.tsx:214-253 | masteries for the right answers, mistake records for the wrong ones, the progress snapshot in the listening quiz only, and the completion alert with the accuracy |
| QuizSession.Quiz.HandleNextQuestion | src/screens/ListeningTestScreen.tsx:200-211 | before the last question, the next one with the selection cleared and the timer restarted and no writes; at the last one, the completion of HandleTestComplete |
| SeedData.PrefixCancel | src/utils/seedDatabase.ts:41 | a common prefix can be cancelled from equal strings |
| SeedData.Grade3UnitIdsDistinct | src/utils/seedDatabase.ts:41 | different unit numbers give different generated unit ids |
| SeedData.GenerateGrade3Units | src/utils/seedDatabase.ts:38-49 | `generateGrade3Units`: units 1 to 50 of grade 3, in order |
| SeedData.Grade3Word | src/utils/seedDatabase.ts:316-336 | the `k`-th generated word carries the id of unit `k/10+1`, order `k%10+1` |
| SeedData.DivModOf | src/utils/seedDatabase.ts:316-336 | quotient and remainder are the unique pair with `n == q*m + r` and `0 <= r < m`, which places the wrap-around of the Korean word index |
| SeedData.GenerateGrade3Words | src/utils/seedDatabase.ts:51-338 | `generateGrade3Words`: 500 words, the `k`-th in unit `k/10+1` at order `k%10+1`, with the Korean word `k` modulo the list's length, the index wrapping to 0 when the list runs out |
| SeedData.SeedWordAt | src/utils/seedDatabase.ts:316-336 | the word built at a unit and order, after whole passes over the word list plus the current index, is the generated word of that position |
| SeedData.Grade3WordPlacement | src/utils/seedDatabase.ts:316-336 | every generated word belongs to a generated unit, at an order from 1 to 10, with the Korean word of its position modulo the list |
| SeedData.Grade3WordIdsDistinct | src/utils/seedDatabase.ts:316-336 | the generated words have pairwise different ids |
| SeedData.TestUnitsWithGrade3 | src/utils/seedDatabase.ts:17-36 | the `testUnits` array: the three hand-written units, then the generated ones |
| SeedData.TestWordsWithGrade3 | src/utils/seedDatabase.ts:340-394 | the `testWords` array: the five hand-written words, then the generated ones |
| SeedData.SeedWordsHaveUnits | src/utils/seedDatabase.ts:17-394 | every seeded word points at a seeded unit |
| SeedData.ListeningSnapshotCounts | src/utils/seedDatabase.ts:453 | the listening snapshots start at 350 and fall as the days go back, each the exact floor or one less where double rounding falls short |
| SeedData.ReadingSnapshotCounts | src/utils/seedDatabase.ts:454 | the same for the reading snapshots and 375 |
| SeedData.GenerateMasteryRows | src/utils/seedDatabase.ts:420-442 | 350 listening rows for the first 350 generated words, then 375 reading rows for the first 375, numbered `mastery_1` on, each mastered a whole number of random days before now |
| SeedData.GenerateProgressRows | src/utils/seedDatabase.ts:445-457 | 30 grade-3 snapshots, `progress_{day+1}` dated `day` days before now, with the day's counts and 500 words |
| SeedData.GenerateLearningData | src/utils/seedDatabase.ts:398-460 | `generateLearningData`: the mastery rows and the progress rows |
| SeedData.RowIdsDistinct | src/utils/seedDatabase.ts:427 | different row numbers give different mastery and progress ids |
| SeedData.MasteryRowWords | src/utils/seedDatabase.ts:424-442 | the listening rows name the first generated words in order, and the reading rows start over from the first |
| SeedData.Grade3IdSeeded | src/utils/seedDatabase.ts:393-395 | the k-th generated word sits right after the hand-written words in the seeded list |
| SeedData.Grade3RowsSeeded | src/utils/seedDatabase.ts:424-442 | rows that name the first generated words name seeded words |
| SeedData.MasteryRowsNameSeededWords | src/utils/seedDatabase.ts:428 | every mastery row names a seeded word |
| SeedData.MasteryRowDates | src/utils/seedDatabase.ts:424-442 | every mastery row was mastered its random number of days before now, whatever word and test type it names |
| SeedData.RandomDatesRecent | src/utils/seedDatabase.ts:430 | a random day count below 30 puts a date within the last 29 days |
| SeedData.MasteryDatesRecent | src/utils/seedDatabase.ts:430 | every mastery date lies within the last 29 days |
| SeedData.SeedStore.constructor | src/utils/seedDatabase.ts:505-533 | the five tables start empty |
| SeedData.SuccessMessage | src/utils/seedDatabase.ts:624-632 | the success message starts with '✅' |
| SeedData.SeedDatabase | src/utils/seedDatabase.ts:500-641 | succeeds exactly when neither the clear nor the insert fails; a failed clear changes nothing, a failed insert leaves the tables empty, and the error message never starts with '✅'; on success the tables hold the seeded units, words, SRS rows, mastery and progress rows, and the message counts 53 units, 505 words, 3 SRS rows, 725 mastery rows and 30 snapshots |
| AudioGenerator.Get | scripts/audio-generator/main.py:29-30 | `dict.get(key, "")`: the field's value, or the empty string when it is missing |
| AudioGenerator.PathJoin | scripts/audio-generator/main.py:33 | `os.path.join`: an absolute name is kept as is; otherwise the path starts with the directory and ends with the name |
| AudioGenerator.ProcessedEntries | scripts/audio-generator/main.py:26-28 | every entry without a truthy limit; otherwise no more than the limit (none for a negative one), and exactly the limit when entries are left over |
| AudioGenerator.EntryRequests | scripts/audio-generator/main.py:32-40 | one request for a non-empty word into the word directory, then one for a non-empty example sentence into the example directory, named after the word |
| AudioGenerator.FlatMapAppend | scripts/audio-generator/main.py:26-40 | concatenating the per-entry requests distributes over joining two runs of entries |
| AudioGenerator.RequestsForBound | scripts/audio-generator/main.py:26-40 | each entry adds at most two requests |
| AudioGenerator.RequestsForAppend | scripts/audio-generator/main.py:26-40 | the requests of two runs of entries are those of the first followed by those of the second |
| AudioGenerator.RequestsForStep | scripts/audio-generator/main.py:26-42 | one more pass of the loop appends exactly that entry's requests |
| AudioGenerator.GenerateAll | scripts/audio-generator/main.py:6-42 | `main`: the processed count is the entries the limit lets through, and the requests are those of the processed entries, in file order |
| AudioGenerator.LimitPrefix | scripts/audio-generator/main.py:26-28 | a smaller limit issues a prefix of the requests of a larger one, and at most two per processed entry |
| Text.IndexOf | src/utils/koreanTextUtils.ts:98 | `indexOf`: -1, or a position where the pattern occurs |
| Text.IndexOfFrom | src/utils/koreanTextUtils.ts:173 | `indexOf(p, from)`: -1, or a position from `from` on where the pattern occurs |
| Text.Split | src/database/queries/resultsQueries.ts:227 | `split` always yields at least one piece |
| Sorting.InsertSorted | src/database/queries/resultsQueries.ts:144 | inserting into a sequence sorted by a total order keeps it sorted |
| Sorting.SortBy | src/database/queries/resultsQueries.ts:144 | `Array.sort` by a comparator: a permutation of the input, sorted when the order is total |
| Sorting.SortByMembers | src/database/queries/resultsQueries.ts:144 | sorting keeps exactly the same members |
| Sorting.Filter | src/database/queries/unitQueries.ts:11-19 | `Q.where`: exactly the rows satisfying the condition, none added |
| Sorting.FirstIndex | src/database/queries/srsQueries.ts:21 | `find`: the first position satisfying the condition, or -1 exactly when none does |
| Sorting.Count | src/database/queries/unitQueries.ts:74-81 | `fetchCount`: the number of rows the condition selects |
| JsMath.RoundDiv | src/screens/ListeningTestScreen.tsx:217 | `Math.round(a / b)` for a positive `b`: the nearest integer, halves up |
| JsMath.CeilDiv | src/database/models/Word.ts:19 | `Math.ceil(a / b)` for a positive `b`: the least multiple count covering `a` |
| JsMath.MulCancel | src/screens/ListeningTestScreen.tsx:217 | a positive factor cancels from both sides of a comparison, as the rounded percentages need |
| JsMath.Truthy | src/database/models/LearningStatus.ts:23 | JavaScript truthiness of an optional number: present and non-zero |

## Left out

- Rendering, navigation, alerts' buttons, sound playback and the progress bar of every screen are UI. The screens that only dispatch are not part of this model: the top screen, mode and unit selection, the results screen and the navigator.
- WatermelonDB and SQLite are replaced by in-memory sequences. Schema, migrations and the asynchronous write batches are not modelled, and neither are the hooks `useUnits`, `useDatabase` and `useReviewCount`, apart from the pure `generateUnitRanges`.
- Random choices are parameters: the option shuffle, the candidate shuffle of `getRandomWordsByGrade` and the seed's random mastery days. Only set, length and membership properties are stated about them, never orders.
- `Date.now`, `setHours` and date-fns `format` are parameters. Calendar days are counted from the epoch, so time zones and daylight saving are not modelled.
- `toFixed(1)` and the other floating-point results are idealised as exact tenths rounded half up. `responseTimeSeconds`, `formattedResponseTime`, `accuracyPercentage` and `testDateObj` are display-only formatting and are not modelled.
- SeedData.ListeningSnapshotCounts: the seed's `Math.floor(count * (1 - day / 30))` is evaluated in double precision. The model keeps the resulting counts as a table and proves each within one of the exact floor; it does not model the floating-point evaluation.
- `localeCompare` on `yyyy-MM-dd` dates is modelled as code-unit order (`LexLe`), which agrees with it on such dates. Sort stability is not stated.
- Sorting.SortBy: proved a sorted permutation, but not that it keeps the relative order of equal elements, as `Array.sort` does.
- `updateSrsForRemembered`, `updateSrsForForgotten` and `getReviewWords` live outside the modelled code. The review screen takes the due list and the outcome of the update as parameters.
- The quiz completion writes are modelled as succeeding. A rethrown storage error would abort the asynchronous handler midway, which the model does not represent.
- QuizSession.QueueMistakes: the SRS lookup is modelled as succeeding. In the source a failed `getSrsManagementByWordId` returns null, and the handler then creates a second SRS record for a word that already has one; the model does not produce that duplicate.
- ReviewSession.Review.HandleFeedback: each handler runs atomically, so no call observes `isProcessing` set. Re-entrant taps during the awaited SRS update, which the guard ignores in the source, are not modelled.
- UnitRanges.GenerateUnitRanges: requires a positive group size. In the source a group size of 0 with a non-empty unit list never leaves the loop, which the model does not represent. The default argument `groupSize = 10` is not modelled separately; callers pass the size.
- `generate_audio` (a network call writing a file), reading `words.json`, `os.makedirs` and the console output of `main.py` are not modelled. The directories are parameters, and JSON values are restricted to strings.
- `generator.py`, `audioPlayer.ts` and `scripts/seed-db.ts` are not part of this model, because they are foreign calls and file-system I/O.
- Logging (`console.log`, `console.error`, `print`) is left out everywhere.
- The learning screen only toggles a local set of marked words, which is what is modelled. Storing marks or creating SRS records from that screen does not occur in its code.
- KoreanText.IsEndBoundary: the table of end boundaries includes the two-character '에서' and '으로', but the code compares them with a single following character. They can never match; the model keeps this behaviour and states it in `EndBoundaryIsOneChar`.
- The seed calls `Date.now()` several times in one run. The model uses one `now` for the generated learning data and one `loadedAt` for the SRS rows.
- Words carry `unitId` and `unitOrder` as the queries and the seed use them, beside the fields the `Word` model class declares.
