/** The music-parameter generator: from an item seed, a tempo and a sequence
    of note tokens drawn from one `System.Random`, plus a fixed instrument
    list. The JSON and Base64 encoding of the record is not modelled; the
    record itself is the result. */
module MusicGenerator {
  import opened CSharpInt
  import opened Draws

  /** The pitch letters and octaves a note is drawn from. */
  const Letters: string := "CDEFGAB"
  const Octaves: string := "345"

  /** The number of bars the service asks for; four notes per bar. */
  const Bars: nat := 16
  const NotesPerBar: nat := 4

  const Instruments: seq<string> := ["piano", "bass", "drums"]

  datatype MusicParams = MusicParams(seed: Int64, tempo: int, notes: seq<string>, instruments: seq<string>)

  predicate IsLetter(c: char)
  {
    c == 'C' || c == 'D' || c == 'E' || c == 'F' || c == 'G' || c == 'A' || c == 'B'
  }

  predicate IsOctave(c: char)
  {
    c == '3' || c == '4' || c == '5'
  }

  /** A note token: one pitch letter followed by one octave digit, `[A-G][3-5]`. */
  predicate WellFormedNote(t: string)
  {
    |t| == 2 && IsLetter(t[0]) && IsOctave(t[1])
  }

  /** The token `$"{note}{octave}"` for the letter index drawn by `Next(7)`
      and the octave index drawn by `Next(3)`. */
  function NoteToken(letter: int, octave: int): (t: string)
    requires 0 <= letter < |Letters| && 0 <= octave < |Octaves|
    ensures WellFormedNote(t)
  {
    [Letters[letter], Octaves[octave]]
  }

  /** The note made of draws `k` (letter) and `k + 1` (octave). */
  function NoteAt(s: Stream, k: int): string
  {
    NoteToken(Draw(s, k, 0, |Letters|), Draw(s, k + 1, 0, |Octaves|))
  }

  /** The first `n` notes drawn from `s` starting at draw `p`, two draws each. */
  function NotesFrom(s: Stream, p: int, n: nat): (notes: seq<string>)
    ensures |notes| == n
  {
    if n == 0 then [] else NotesFrom(s, p, n - 1) + [NoteAt(s, p + 2 * (n - 1))]
  }

  /** Note `k` is a well-formed token made of draws `p + 2k` (letter) and
      `p + 2k + 1` (octave): the draws alternate letter, octave, letter, ... */
  lemma {:induction false} NotesFromAt(s: Stream, p: int, n: nat, k: nat)
    requires k < n
    ensures NotesFrom(s, p, n)[k] == NoteAt(s, p + 2 * k)
    ensures WellFormedNote(NotesFrom(s, p, n)[k])
  {
    if k < n - 1 {
      NotesFromAt(s, p, n - 1, k);
    }
  }

  /** `GenerateNotes(random, bars)`: `bars * 4` notes, two draws each, taken
      from the shared generator. */
  method GenerateNotes(random: Random, bars: nat) returns (result: seq<string>)
    modifies random
    ensures result == NotesFrom(random.stream, old(random.pos), bars * NotesPerBar)
    ensures random.pos == old(random.pos) + 2 * (bars * NotesPerBar)
  {
    ghost var start := random.pos;
    result := [];
    var i := 0;
    while i < bars * NotesPerBar
      invariant 0 <= i <= bars * NotesPerBar
      invariant random.pos == start + 2 * i
      invariant result == NotesFrom(random.stream, start, i)
    {
      ghost var s := random.stream;
      var note := random.Next(0, |Letters|);
      var octave := random.Next(0, |Octaves|);
      result := result + [[Letters[note], Octaves[octave]]];
      i := i + 1;
    }
  }

  /** The parameter record for a generator whose draws are `s`: tempo first
      (draw 0), then the notes (draws 1 to 128). */
  function MusicFor(seed: Int64, s: Stream): (m: MusicParams)
    ensures m.seed == seed
    ensures 80 <= m.tempo < 140
    ensures |m.notes| == Bars * NotesPerBar == 64
    ensures m.instruments == ["piano", "bass", "drums"]
  {
    MusicParams(seed, Draw(s, 0, 80, 140), NotesFrom(s, 1, Bars * NotesPerBar), Instruments)
  }

  /** `GenerateMusicAsync(seed, language)`: the language is accepted and not used. */
  method GenerateMusicAsync(seed: Int64, language: string, randoms: Seeding) returns (m: MusicParams)
    ensures m == MusicFor(seed, Seeded(randoms, seed))
  {
    ghost var s := Seeded(randoms, seed);
    var random := new Random(Seeded(randoms, seed));
    var tempo := random.Next(80, 140);
    var notes := GenerateNotes(random, Bars);
    assert tempo == Draw(s, 0, 80, 140) && notes == NotesFrom(s, 1, Bars * NotesPerBar);
    m := MusicParams(seed, tempo, notes, Instruments);
  }

  /** Note `k` of a generated record is a well-formed token made of draws
      `1 + 2k` and `2 + 2k` of the item's generator: the tempo is drawn first,
      then letter and octave alternate. */
  lemma {:induction false} MusicDrawOrder(seed: Int64, s: Stream, k: nat)
    requires k < Bars * NotesPerBar
    ensures MusicFor(seed, s).tempo == Draw(s, 0, 80, 140)
    ensures MusicFor(seed, s).notes[k] == NoteAt(s, 1 + 2 * k)
    ensures WellFormedNote(MusicFor(seed, s).notes[k])
  {
    NotesFromAt(s, 1, Bars * NotesPerBar, k);
  }
}
