/** A vocabulary entry (`Word.ts`) and its derived fields.

    The queries and the seed data also give a word the unit it belongs
    to and its order there (`unitId`, `unitOrder`); the record carries
    those beside the fields the model class declares. */
module WordModel {
  import opened Wrappers
  import opened JsMath

  /** Words per unit. */
  const UnitSize: nat := 10

  datatype Word = Word(
    id: string,
    korean: string,
    japanese: string,
    exampleKorean: Option<string>,
    exampleJapanese: Option<string>,
    grade: int,
    gradeWordNumber: int,
    unitId: string,
    unitOrder: int)

  /** `unitNumber`: the unit holding word number `n` of its grade,
      `Math.ceil(n / 10)`. */
  function UnitNumber(w: Word): (u: int)
    ensures (u - 1) * UnitSize < w.gradeWordNumber <= u * UnitSize
  {
    CeilDiv(w.gradeWordNumber, UnitSize)
  }

  /** `positionInUnit`: `((n - 1) % 10) + 1`, with JavaScript's
      truncating remainder. */
  function PositionInUnit(w: Word): (p: int)
    ensures w.gradeWordNumber >= 1 ==> 1 <= p <= UnitSize
  {
    Rem(w.gradeWordNumber - 1, UnitSize) + 1
  }

  /** A word's unit and position give back its number in the grade. */
  lemma UnitAndPositionRebuild(w: Word)
    requires w.gradeWordNumber >= 1
    ensures (UnitNumber(w) - 1) * UnitSize + PositionInUnit(w) == w.gradeWordNumber
  {
    var n := w.gradeWordNumber;
    var q := (n - 1) / UnitSize;
    assert n - 1 == q * UnitSize + (n - 1) % UnitSize;
    assert q * UnitSize < n <= (q + 1) * UnitSize;
    assert UnitNumber(w) == q + 1 by {
      var u := UnitNumber(w);
      assert (u - 1) * UnitSize < n <= u * UnitSize;
      if u < q + 1 {
        MulMono(u, q, UnitSize);
      } else if u > q + 1 {
        MulMono(q + 1, u - 1, UnitSize);
      }
    }
  }

  const WordAudioDir: string := "audio/words/"
  const ExampleAudioDir: string := "audio/examples/"
  const AudioSuffix: string := ".mp3"

  /** `wordAudioPath`: `audio/words/{id}.mp3`. */
  function WordAudioPath(w: Word): (path: string)
    ensures |path| == |WordAudioDir| + |w.id| + |AudioSuffix|
    ensures path[..|WordAudioDir|] == WordAudioDir && path[|WordAudioDir|..|path| - |AudioSuffix|] == w.id
  {
    WordAudioDir + w.id + AudioSuffix
  }

  /** `exampleAudioPath`: `audio/examples/{id}.mp3`. */
  function ExampleAudioPath(w: Word): (path: string)
    ensures |path| == |ExampleAudioDir| + |w.id| + |AudioSuffix|
    ensures path[..|ExampleAudioDir|] == ExampleAudioDir && path[|ExampleAudioDir|..|path| - |AudioSuffix|] == w.id
  {
    ExampleAudioDir + w.id + AudioSuffix
  }

  /** Different words never share an audio file, and a word file is
      never an example file. */
  lemma AudioPathsDistinct(a: Word, b: Word)
    ensures WordAudioPath(a) == WordAudioPath(b) ==> a.id == b.id
    ensures ExampleAudioPath(a) == ExampleAudioPath(b) ==> a.id == b.id
    ensures WordAudioPath(a) != ExampleAudioPath(b)
  {
    assert WordAudioPath(a)[6] == 'w' && ExampleAudioPath(b)[6] == 'e';
  }
}
