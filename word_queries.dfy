/** Lookups on the words table (`wordQueries.ts`). The table is a
    sequence of words in storage order. */
module WordQueries {
  import opened Wrappers
  import opened Sorting
  import opened WordModel

  /** `find(id)` and `getWordById`: the word with that id, or none when
      the lookup fails because there is no such word. */
  function FindById(words: seq<Word>, id: string): (r: Option<Word>)
    ensures r.Some? ==> r.value in words && r.value.id == id
    ensures r.None? <==> forall w :: w in words ==> w.id != id
  {
    var k := FirstIndex(words, (w: Word) => w.id == id);
    if k == -1 then None else Some(words[k])
  }

  predicate IsCandidate(w: Word, grade: int, excludeWordId: string) {
    w.grade == grade && w.id != excludeWordId
  }

  /** The words `getRandomWordsByGrade` draws from. */
  function RandomCandidates(words: seq<Word>, grade: int, excludeWordId: string): seq<Word> {
    Filter(words, (w: Word) => IsCandidate(w, grade, excludeWordId))
  }

  /** `Array.prototype.slice(0, end)`: a negative end counts from the
      back. */
  function SliceEnd(n: nat, end: int): (e: nat)
    ensures e <= n
    ensures end >= 0 ==> e == if end <= n then end else n
  {
    if end >= 0 then (if end <= n then end else n)
    else if n + end >= 0 then n + end else 0
  }

  /** `getRandomWordsByGrade`: the candidates in the shuffled order the
      caller supplies (`shuffled` stands for the random sort), cut to
      `limit`. Every word returned is of the grade and is not the
      excluded word, none is repeated, and there are at most `limit`. */
  function RandomWordsByGrade(words: seq<Word>, grade: int, excludeWordId: string, limit: int, shuffled: seq<Word>): (r: seq<Word>)
    requires multiset(shuffled) == multiset(RandomCandidates(words, grade, excludeWordId))
    ensures forall w :: w in r ==> w in words && IsCandidate(w, grade, excludeWordId)
    ensures multiset(r) <= multiset(RandomCandidates(words, grade, excludeWordId))
    ensures limit >= 0 ==> |r| <= limit
    ensures limit >= 0 ==> |r| == if limit <= |shuffled| then limit else |shuffled|
  {
    var r := shuffled[..SliceEnd(|shuffled|, limit)];
    DrawnFromCandidates(words, grade, excludeWordId, shuffled, r);
    r
  }

  lemma DrawnFromCandidates(words: seq<Word>, grade: int, excludeWordId: string, shuffled: seq<Word>, r: seq<Word>)
    requires multiset(shuffled) == multiset(RandomCandidates(words, grade, excludeWordId))
    requires |r| <= |shuffled| && r == shuffled[..|r|]
    ensures forall w :: w in r ==> w in words && IsCandidate(w, grade, excludeWordId)
    ensures multiset(r) <= multiset(RandomCandidates(words, grade, excludeWordId))
  {
    var cands := RandomCandidates(words, grade, excludeWordId);
    assert shuffled == r + shuffled[|r|..];
    assert multiset(shuffled) == multiset(r) + multiset(shuffled[|r|..]);
    forall w | w in r
      ensures w in words && IsCandidate(w, grade, excludeWordId)
    {
      assert w in multiset(r);
      assert w in multiset(cands);
      assert w in cands;
    }
  }

  /** `getWordsByIds`: the words whose id is listed, in storage order; an
      empty list gives no words. */
  function WordsByIds(words: seq<Word>, wordIds: seq<string>): (r: seq<Word>)
    ensures forall w :: w in r <==> w in words && w.id in wordIds
    ensures wordIds == [] ==> r == []
  {
    if |wordIds| == 0 then []
    else Filter(words, (w: Word) => w.id in wordIds)
  }

  /** `getWordCountByGrade` (and the total-word counts built on it). */
  function WordCountByGrade(words: seq<Word>, grade: int): (n: nat)
    ensures n == |Filter(words, (w: Word) => w.grade == grade)|
    ensures n <= |words|
  {
    Count(words, (w: Word) => w.grade == grade)
  }

  /** `searchWordsByKorean`: the first stored word whose Korean is among
      the candidates; none for an empty candidate list, when nothing
      matches, or when the query fails. */
  function SearchWordsByKorean(words: seq<Word>, koreanCandidates: seq<string>, fails: bool): (r: Option<Word>)
    ensures koreanCandidates == [] || fails ==> r.None?
    ensures r.Some? ==> r.value in words && r.value.korean in koreanCandidates
    ensures r.None? && koreanCandidates != [] && !fails ==> forall w :: w in words ==> w.korean !in koreanCandidates
    ensures r.Some? ==> exists i :: 0 <= i < |words| && words[i] == r.value && forall j :: 0 <= j < i ==> words[j].korean !in koreanCandidates
  {
    if |koreanCandidates| == 0 then None
    else if fails then None
    else
      var k := FirstIndex(words, (w: Word) => w.korean in koreanCandidates);
      if k == -1 then None else Some(words[k])
  }
}
