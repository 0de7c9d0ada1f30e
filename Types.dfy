/** The two records of the app: a chord shape of the chord library and a
    song of the song library (guitar-app/types/index.ts). */
module Types {
  import opened Seqs

  datatype ChordType = Major | Minor | Seventh | Sus

  /** One entry of `strings`: `'x'` (not played), `'o'` (open) or a fret number. */
  datatype StringFret = Muted | Open | Fret(number: int)

  datatype Chord = Chord(
    name: string,
    kind: ChordType,
    strings: seq<StringFret>,
    fingers: seq<int>,
    baseFret: int)

  datatype Language = Greek | English

  /** `lyrics` and `notes` are optional keys: `None` is a missing (or
      `undefined`) key, which JSON storage drops. */
  datatype Song = Song(
    id: string,
    title: string,
    artist: string,
    chords: seq<string>,
    lyrics: Option<string>,
    notes: Option<string>,
    language: Language)
}
