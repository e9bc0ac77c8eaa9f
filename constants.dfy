/** The fixed tables of the trainer: the two twelve-name spelling tables, the
    standard tunings, the fret bounds of each difficulty tier and the length of
    a challenge round. */
module Constants {

  /** The twelve pitch classes spelled with sharps; index 0 is C. */
  const NotesSharp: seq<string> := ["C", "C#", "D", "D#", "E", "F", "F#", "G", "G#", "A", "A#", "B"]

  /** The same twelve pitch classes spelled with flats. */
  const NotesFlat: seq<string> := ["C", "Db", "D", "Eb", "E", "F", "Gb", "G", "Ab", "A", "Bb", "B"]

  /** A tuning: a display name and the open-string names, lowest string first. */
  datatype Tuning = Tuning(name: string, notes: seq<string>)

  const GuitarStandard: Tuning := Tuning("Standard E", ["E", "A", "D", "G", "B", "E"])

  const BassStandard: Tuning := Tuning("Standard E", ["E", "A", "D", "G"])

  /** Number of frets the board displays. */
  const FretCount: nat := 15

  datatype Difficulty = Beginner | Intermediate | Advanced

  /** Length of a challenge round, in seconds. */
  const GameDurationSeconds: nat := 60

  /** No name occurs twice in `t`. */
  predicate Distinct(t: seq<string>)
  {
    forall i, j :: 0 <= i < j < |t| ==> t[i] != t[j]
  }

  /** The highest fret in play at each difficulty tier. */
  function MaxFret(d: Difficulty): (m: nat)
    ensures m <= FretCount
    ensures d == Beginner ==> m == 3
    ensures d == Intermediate ==> m == 12
    ensures d == Advanced ==> m == FretCount
  {
    match d
    case Beginner => 3
    case Intermediate => 12
    case Advanced => 15
  }

  /** The spelling table chosen by the sharps/flats preference. */
  function Scale(useSharps: bool): (t: seq<string>)
    ensures |t| == 12
    ensures useSharps ==> t == NotesSharp
    ensures !useSharps ==> t == NotesFlat
  {
    if useSharps then NotesSharp else NotesFlat
  }

  lemma TablesDistinct()
    ensures |NotesSharp| == 12 && |NotesFlat| == 12
    ensures Distinct(NotesSharp) && Distinct(NotesFlat)
  {
  }

  /** The natural notes (indices 0, 2, 4, 5, 7, 9, 11) are spelled alike in both
      tables; the five accidentals are spelled differently, and no accidental of
      one table occurs anywhere in the other. */
  lemma TablesAgreeOnNaturals(p: nat)
    requires p < 12
    ensures NotesSharp[p] == NotesFlat[p] <==> p in {0, 2, 4, 5, 7, 9, 11}
    ensures p !in {0, 2, 4, 5, 7, 9, 11} ==> NotesSharp[p] !in NotesFlat && NotesFlat[p] !in NotesSharp
  {
  }

  /** Both standard tunings have the expected number of strings and every open
      string is named in the sharp table. */
  lemma TuningsWellFormed()
    ensures |GuitarStandard.notes| == 6 && |BassStandard.notes| == 4
    ensures forall n :: n in GuitarStandard.notes ==> n in NotesSharp
    ensures forall n :: n in BassStandard.notes ==> n in NotesSharp
  {
  }
}
