/** The audio generation script (`scripts/audio-generator/main.py`):
    walks the entries of `words.json` in file order and, for each, asks
    the text-to-speech generator for the Korean word and for its Korean
    example sentence, stopping once a truthy `limit` of entries has been
    processed. The generator itself (a network call that writes a file)
    is recorded as a request; reading the JSON file and creating the
    output directories are not part of this model. */
module AudioGenerator {
  import opened Wrappers
  import opened JsMath
  import opened Text

  /** A JSON entry of `words.json`, keeping its string-valued fields. */
  type Entry = map<string, string>

  /** One call of `generate_audio(text, output_path)`. */
  datatype AudioRequest = AudioRequest(text: string, outputPath: string)

  /** `dict.get(key, "")`. */
  function Get(entry: Entry, key: string): (v: string)
    ensures key !in entry ==> v == ""
    ensures key in entry ==> v == entry[key]
  {
    if key in entry then entry[key] else ""
  }

  /** `os.path.join(dir, name)` on POSIX: an absolute `name` replaces
      `dir`; otherwise a '/' separates the two unless `dir` is empty or
      already ends with one. */
  function PathJoin(dir: string, name: string): (p: string)
    ensures StartsWith(name, "/") ==> p == name
    ensures !StartsWith(name, "/") ==> StartsWith(p, dir) && EndsWith(p, name)
  {
    if StartsWith(name, "/") then name
    else if dir == [] || dir[|dir| - 1] == '/' then
      assert (dir + name)[..|dir|] == dir && (dir + name)[|dir|..] == name;
      dir + name
    else
      var p := dir + "/" + name;
      assert p[..|dir|] == dir && p[|dir| + 1..] == name;
      p
  }

  /** `limit and ...`: a limit of None or 0 caps nothing. */
  predicate Capped(limit: Option<int>) {
    limit.Some? && limit.value != 0
  }

  /** How many entries the loop processes. */
  function ProcessedEntries(n: nat, limit: Option<int>): (k: nat)
    ensures k <= n
    ensures !Capped(limit) ==> k == n
    ensures Capped(limit) ==> k <= Max(limit.value, 0)
    ensures Capped(limit) && k < n ==> k == Max(limit.value, 0)
  {
    if Capped(limit) then Min(n, Max(limit.value, 0)) else n
  }

  /** The requests for one entry: the word, spoken into `wordsDir`, when
      its Korean is not empty; then the example sentence, spoken into
      `examplesDir` under the file name of the Korean word, when the
      example is not empty. */
  function EntryRequests(entry: Entry, wordsDir: string, examplesDir: string): (r: seq<AudioRequest>)
    ensures |r| == (if Get(entry, "korean") != "" then 1 else 0)
                 + (if Get(entry, "korean_example_sentence") != "" then 1 else 0)
    ensures Get(entry, "korean") != "" ==>
      r[0] == AudioRequest(Get(entry, "korean"), PathJoin(wordsDir, Get(entry, "korean")))
    ensures Get(entry, "korean_example_sentence") != "" ==>
      r[|r| - 1] == AudioRequest(Get(entry, "korean_example_sentence"), PathJoin(examplesDir, Get(entry, "korean")))
  {
    var korean := Get(entry, "korean");
    var koreanExample := Get(entry, "korean_example_sentence");
    (if korean != "" then [AudioRequest(korean, PathJoin(wordsDir, korean))] else [])
      + (if koreanExample != "" then [AudioRequest(koreanExample, PathJoin(examplesDir, korean))] else [])
  }

  /** The sequences `f` gives for the elements of `s`, one after the
      other, in order. */
  function FlatMap<T, U>(s: seq<T>, f: T -> seq<U>): seq<U> {
    if s == [] then [] else FlatMap(s[..|s| - 1], f) + f(s[|s| - 1])
  }

  lemma {:induction false} FlatMapAppend<T, U>(a: seq<T>, b: seq<T>, f: T -> seq<U>)
    ensures FlatMap(a + b, f) == FlatMap(a, f) + FlatMap(b, f)
  {
    if b == [] {
      assert a + b == a;
    } else {
      var init, last := b[..|b| - 1], b[|b| - 1];
      assert (a + b)[..|a + b| - 1] == a + init;
      assert (a + b)[|a + b| - 1] == last;
      FlatMapAppend(a, init, f);
    }
  }

  /** The requests for a run of entries, in entry order. */
  function RequestsFor(entries: seq<(string, Entry)>, wordsDir: string, examplesDir: string): seq<AudioRequest> {
    FlatMap(entries, (e: (string, Entry)) => EntryRequests(e.1, wordsDir, examplesDir))
  }

  /** Each entry adds at most two requests. */
  lemma {:induction false} RequestsForBound(entries: seq<(string, Entry)>, wordsDir: string, examplesDir: string)
    ensures |RequestsFor(entries, wordsDir, examplesDir)| <= 2 * |entries|
  {
    if entries != [] {
      RequestsForBound(entries[..|entries| - 1], wordsDir, examplesDir);
    }
  }

  /** The requests of two runs of entries, one after the other, are the
      requests of the first run followed by those of the second. */
  lemma RequestsForAppend(a: seq<(string, Entry)>, b: seq<(string, Entry)>, wordsDir: string, examplesDir: string)
    ensures RequestsFor(a + b, wordsDir, examplesDir) == RequestsFor(a, wordsDir, examplesDir) + RequestsFor(b, wordsDir, examplesDir)
  {
    FlatMapAppend(a, b, (e: (string, Entry)) => EntryRequests(e.1, wordsDir, examplesDir));
  }

  /** The requests of one more entry are those of the entries before it
      followed by the entry's own. */
  lemma RequestsForStep(entries: seq<(string, Entry)>, i: nat, wordsDir: string, examplesDir: string)
    requires i < |entries|
    ensures RequestsFor(entries[..i + 1], wordsDir, examplesDir)
         == RequestsFor(entries[..i], wordsDir, examplesDir) + EntryRequests(entries[i].1, wordsDir, examplesDir)
  {
    assert entries[..i + 1][..i] == entries[..i];
  }

  /** `main(limit)` over the parsed entries of `words.json`: the
      requests of the first `ProcessedEntries` entries, and the number of
      entries processed. */
  method GenerateAll(wordsData: seq<(string, Entry)>, limit: Option<int>, wordsDir: string, examplesDir: string)
    returns (requests: seq<AudioRequest>, processedCount: nat)
    ensures processedCount == ProcessedEntries(|wordsData|, limit)
    ensures requests == RequestsFor(wordsData[..processedCount], wordsDir, examplesDir)
  {
    requests := [];
    processedCount := 0;
    var i := 0;
    while i < |wordsData|
      invariant 0 <= i <= |wordsData| && processedCount == i
      invariant Capped(limit) ==> i <= Max(limit.value, 0)
      invariant requests == RequestsFor(wordsData[..i], wordsDir, examplesDir)
    {
      if Capped(limit) && processedCount >= limit.value {
        break;
      }
      var word := wordsData[i].1;
      ghost var before := requests;
      var korean := Get(word, "korean");
      var koreanExample := Get(word, "korean_example_sentence");
      if korean != "" {
        var wordOutput := PathJoin(wordsDir, korean);
        requests := requests + [AudioRequest(korean, wordOutput)];
      }
      if koreanExample != "" {
        var exampleOutput := PathJoin(examplesDir, korean);
        requests := requests + [AudioRequest(koreanExample, exampleOutput)];
      }
      assert requests == before + EntryRequests(word, wordsDir, examplesDir);
      RequestsForStep(wordsData, i, wordsDir, examplesDir);
      processedCount := processedCount + 1;
      i := i + 1;
    }
  }

  predicate IsPrefix<T(==)>(p: seq<T>, s: seq<T>) {
    |p| <= |s| && s[..|p|] == p
  }

  /** A run with a smaller limit issues a prefix of the requests of a run
      with a larger one, and no run issues more than two requests per
      processed entry. */
  lemma LimitPrefix(wordsData: seq<(string, Entry)>, small: int, large: int, wordsDir: string, examplesDir: string)
    requires 0 < small <= large
    ensures
      var k := ProcessedEntries(|wordsData|, Some(small));
      var m := ProcessedEntries(|wordsData|, Some(large));
      && k <= m
      && IsPrefix(RequestsFor(wordsData[..k], wordsDir, examplesDir), RequestsFor(wordsData[..m], wordsDir, examplesDir))
      && |RequestsFor(wordsData[..k], wordsDir, examplesDir)| <= 2 * small
  {
    var k := ProcessedEntries(|wordsData|, Some(small));
    var m := ProcessedEntries(|wordsData|, Some(large));
    assert wordsData[..m] == wordsData[..k] + wordsData[k..m];
    RequestsForAppend(wordsData[..k], wordsData[k..m], wordsDir, examplesDir);
    RequestsForBound(wordsData[..k], wordsDir, examplesDir);
  }
}
