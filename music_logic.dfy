/** Pitch-class arithmetic and fret-position enumeration: name lookup over the
    two spelling tables, the note under a tapped position, a random target
    drawn as a table index, and every (string, fret) pair that sounds a target
    within a fret bound. */
module MusicLogic {
  import opened Constants

  datatype Option<T> = None | Some(value: T)

  /** One marker on the board. `note` is None where the program would read an
      array slot that does not exist (JavaScript's `undefined`); `isRoot` is
      never set by the position resolver. */
  datatype NotePosition = NotePosition(stringIndex: nat, fret: nat, note: Option<string>, isRoot: Option<bool>)

  /** `Array.prototype.indexOf` on a table of names: the first index holding
      `name`, or -1. */
  function IndexOf(table: seq<string>, name: string): (r: int)
    ensures -1 <= r < |table|
  {
    IndexFrom(table, name, 0)
  }

  /** The search from index `from` on. */
  function IndexFrom(table: seq<string>, name: string, from: nat): (r: int)
    requires from <= |table|
    ensures r == -1 || from <= r < |table|
    decreases |table| - from
  {
    if from == |table| then -1
    else if table[from] == name then from
    else IndexFrom(table, name, from + 1)
  }

  /** The search from `from` finds the first occurrence at or after `from`,
      and -1 means there is none. */
  lemma {:induction false} IndexFromFinds(table: seq<string>, name: string, from: nat)
    requires from <= |table|
    ensures IndexFrom(table, name, from) == -1 <==> name !in table[from..]
    ensures IndexFrom(table, name, from) >= 0 ==>
              table[IndexFrom(table, name, from)] == name &&
              forall k :: from <= k < IndexFrom(table, name, from) ==> table[k] != name
    decreases |table| - from
  {
    if from < |table| && table[from] != name {
      IndexFromFinds(table, name, from + 1);
      assert table[from..] == [table[from]] + table[from + 1..];
    }
  }

  /** `IndexOf` finds the first occurrence, and -1 means absent. */
  lemma IndexOfFinds(table: seq<string>, name: string)
    ensures IndexOf(table, name) == -1 <==> name !in table
    ensures IndexOf(table, name) >= 0 ==>
              table[IndexOf(table, name)] == name &&
              forall k :: 0 <= k < IndexOf(table, name) ==> table[k] != name
  {
    IndexFromFinds(table, name, 0);
    assert table[0..] == table;
  }

  /** JavaScript array indexing: in-range reads give the element, others give
      `undefined`. */
  function At(table: seq<string>, i: int): Option<string>
  {
    if 0 <= i < |table| then Some(table[i]) else None
  }

  /** JavaScript's `%` for a positive divisor: the remainder takes the sign of
      the dividend, so `-1 % 12` is -1. */
  function JsRem(a: int, n: int): (r: int)
    requires n > 0
    ensures a >= 0 ==> r == a % n
    ensures a < 0 ==> -n < r <= 0
    ensures -n < a < 0 ==> r == a
  {
    if a >= 0 then a % n else -((-a) % n)
  }

  /** Dafny's `%` is determined by the quotient-remainder equation. */
  lemma ModUnique(a: int, n: int, k: int, m: int)
    requires n > 0 && 0 <= m < n && a == k * n + m
    ensures a % n == m
  {
    var q := a / n;
    assert (k - q) * n == a % n - m;
    MultipleBounds(k - q, n);
  }

  /** A non-zero multiple of `n` is at least `n` away from zero. */
  lemma MultipleBounds(d: int, n: int)
    requires n > 0
    ensures d >= 1 ==> d * n >= n
    ensures d <= -1 ==> d * n <= -n
  {
  }

  /** For a negative dividend, JavaScript's remainder is Dafny's minus `n`,
      except where the division is exact. */
  lemma JsRemValue(a: int, n: int)
    requires n > 0 && a < 0
    ensures JsRem(a, n) == if a % n == 0 then 0 else a % n - n
  {
    var q, m := (-a) / n, (-a) % n;
    if m == 0 {
      ModUnique(a, n, -q, 0);
    } else {
      ModUnique(a, n, -q - 1, n - m);
    }
  }

  /** The pitch-class index of a name: its index in the sharp table if it is
      there, else its index in the flat table, else -1. */
  function GetNoteIndex(note: string): (p: int)
    ensures -1 <= p < 12
  {
    var idx := IndexOf(NotesSharp, note);
    if idx == -1 then IndexOf(NotesFlat, note) else idx
  }

  /** The sharp table is searched first, then the flat table; -1 exactly for a
      name in neither. */
  lemma GetNoteIndexFinds(note: string)
    ensures note in NotesSharp ==> GetNoteIndex(note) >= 0 && NotesSharp[GetNoteIndex(note)] == note
    ensures note !in NotesSharp && note in NotesFlat ==>
              GetNoteIndex(note) >= 0 && NotesFlat[GetNoteIndex(note)] == note
    ensures GetNoteIndex(note) == -1 <==> !IsNoteName(note)
  {
    IndexOfFinds(NotesSharp, note);
    IndexOfFinds(NotesFlat, note);
  }

  /** A name from either spelling table. */
  predicate IsNoteName(note: string)
  {
    note in NotesSharp || note in NotesFlat
  }

  /** Enharmonic round trip: both spellings of a pitch class look up to it. */
  lemma EnharmonicRoundTrip(p: nat)
    requires p < 12
    ensures GetNoteIndex(NotesSharp[p]) == p
    ensures GetNoteIndex(NotesFlat[p]) == p
  {
    TablesDistinct();
    var sharp := NotesSharp[p];
    GetNoteIndexFinds(sharp);
    assert NotesSharp[GetNoteIndex(sharp)] == NotesSharp[p];
    var flat := NotesFlat[p];
    GetNoteIndexFinds(flat);
    TablesAgreeOnNaturals(p);
    if flat in NotesSharp {
      assert NotesSharp[p] == flat;
      assert NotesSharp[GetNoteIndex(flat)] == NotesSharp[p];
    } else {
      assert NotesFlat[GetNoteIndex(flat)] == NotesFlat[p];
    }
  }

  /** Either spelling table's entry `p` looks up to `p`. */
  lemma ScaleRoundTrip(useSharps: bool, p: nat)
    requires p < 12
    ensures GetNoteIndex(Scale(useSharps)[p]) == p
  {
    EnharmonicRoundTrip(p);
  }

  lemma ScaleRoundTripAll(useSharps: bool)
    ensures forall p :: 0 <= p < 12 ==> GetNoteIndex(Scale(useSharps)[p]) == p
  {
    forall p | 0 <= p < 12 ensures GetNoteIndex(Scale(useSharps)[p]) == p {
      ScaleRoundTrip(useSharps, p);
    }
  }

  /** The random target of one draw: `randomIndex` stands for
      `Math.floor(Math.random() * 12)`, which lies in 0..11. */
  function GetRandomNote(useSharps: bool, randomIndex: nat): (n: string)
    requires randomIndex < 12
  {
    Scale(useSharps)[randomIndex]
  }

  /** A drawn name is a name of the chosen table and looks up to the drawn
      index, so each of the twelve pitch classes is drawn from exactly one
      index. */
  lemma RandomNoteRoundTrip(useSharps: bool, randomIndex: nat)
    requires randomIndex < 12
    ensures GetRandomNote(useSharps, randomIndex) in Scale(useSharps)
    ensures IsNoteName(GetRandomNote(useSharps, randomIndex))
    ensures GetNoteIndex(GetRandomNote(useSharps, randomIndex)) == randomIndex
  {
    ScaleRoundTrip(useSharps, randomIndex);
  }

  /** Pitch-class index sounded at `fret` on an open string whose own index is
      `openIndex` (-1 for an unknown name). */
  function PitchAt(openIndex: int, fret: nat): int
  {
    JsRem(openIndex + fret, 12)
  }

  /** From a known open string the pitch is the plain remainder. */
  lemma PitchAtKnown(openIndex: int, fret: nat)
    requires openIndex >= 0
    ensures PitchAt(openIndex, fret) == (openIndex + fret) % 12
  {
  }

  /** The name at a position, spelled from the chosen table: the entry
      (open + fret) mod 12 when the open string is a known name; for an unknown
      open string (index -1) it is `undefined` at fret 0 and the entry
      (fret - 1) mod 12 above it. */
  function GetNoteAtPosition(openStringNote: string, fret: nat, useSharps: bool): (r: Option<string>)
    ensures IsNoteName(openStringNote) ==>
              r == Some(Scale(useSharps)[(GetNoteIndex(openStringNote) + fret) % 12])
    ensures !IsNoteName(openStringNote) ==>
              r == if fret == 0 then None else Some(Scale(useSharps)[(fret - 1) % 12])
  {
    var notesScale := Scale(useSharps);
    var openIndex := GetNoteIndex(openStringNote);
    GetNoteIndexFinds(openStringNote);
    At(notesScale, PitchAt(openIndex, fret))
  }

  /** The name at a position on a known open string is a name of the chosen
      table that looks up to (open + fret) mod 12. */
  lemma NoteAtPositionRoundTrip(openStringNote: string, fret: nat, useSharps: bool)
    requires IsNoteName(openStringNote)
    ensures var r := GetNoteAtPosition(openStringNote, fret, useSharps);
      r.Some? && r.value in Scale(useSharps) &&
      GetNoteIndex(r.value) == (GetNoteIndex(openStringNote) + fret) % 12
  {
    GetNoteIndexFinds(openStringNote);
    ScaleRoundTrip(useSharps, (GetNoteIndex(openStringNote) + fret) % 12);
  }

  // ---------------------------------------------------------------------------
  // Position enumeration, specified by recursion in the loops' order. The
  // recursion is over the open strings' pitch-class indices, so that the proofs
  // about it need not look into the name tables.

  /** The pitch-class index of each open string, in tuning order. */
  function OpenIndices(notes: seq<string>): (opens: seq<int>)
    ensures |opens| == |notes|
    ensures forall i :: 0 <= i < |notes| ==> opens[i] == GetNoteIndex(notes[i])
  {
    seq(|notes|, i requires 0 <= i < |notes| => GetNoteIndex(notes[i]))
  }

  /** The marker for string `s` at `fret`, if that position sounds
      `targetIndex`. */
  function Candidate(opens: seq<int>, s: nat, fret: nat, targetIndex: int, notesScale: seq<string>): seq<NotePosition>
    requires s < |opens|
  {
    var current := PitchAt(opens[s], fret);
    if current == targetIndex then [NotePosition(s, fret, At(notesScale, current), None)] else []
  }

  /** Markers on string `s` for frets 0..n-1, fret-ascending. */
  function FretsBelow(opens: seq<int>, s: nat, n: nat, targetIndex: int, notesScale: seq<string>): seq<NotePosition>
    requires s < |opens|
  {
    if n == 0 then []
    else FretsBelow(opens, s, n - 1, targetIndex, notesScale) + Candidate(opens, s, n - 1, targetIndex, notesScale)
  }

  /** Markers on strings 0..k-1, string-major, for frets 0..maxFret. */
  function StringsBelow(opens: seq<int>, k: nat, maxFret: nat, targetIndex: int, notesScale: seq<string>): seq<NotePosition>
    requires k <= |opens|
  {
    if k == 0 then []
    else StringsBelow(opens, k - 1, maxFret, targetIndex, notesScale) + FretsBelow(opens, k - 1, maxFret + 1, targetIndex, notesScale)
  }

  /** Every marker for `targetNote` on `tuning` up to `maxFret`. */
  function NotePositions(targetNote: string, tuning: Tuning, useSharps: bool, maxFret: nat): seq<NotePosition>
  {
    StringsBelow(OpenIndices(tuning.notes), |tuning.notes|, maxFret, GetNoteIndex(targetNote), Scale(useSharps))
  }

  /** `a` comes strictly before `b` in string-major, fret-ascending order. */
  predicate Before(a: NotePosition, b: NotePosition)
  {
    a.stringIndex < b.stringIndex || (a.stringIndex == b.stringIndex && a.fret < b.fret)
  }

  predicate Ordered(r: seq<NotePosition>)
  {
    forall i, j :: 0 <= i < j < |r| ==> Before(r[i], r[j])
  }

  predicate FretAscending(r: seq<NotePosition>)
  {
    forall i, j :: 0 <= i < j < |r| ==> r[i].fret < r[j].fret
  }

  /** Some marker of `r` sits at string `s`, fret `f`. */
  predicate Covers(r: seq<NotePosition>, s: nat, f: nat)
  {
    exists i :: 0 <= i < |r| && r[i].stringIndex == s && r[i].fret == f
  }

  /** What every marker for target index `ti` must satisfy. */
  predicate SoundMarker(p: NotePosition, opens: seq<int>, maxFret: nat, ti: int, notesScale: seq<string>)
  {
    p.stringIndex < |opens| && p.fret <= maxFret &&
    PitchAt(opens[p.stringIndex], p.fret) == ti &&
    p.note == At(notesScale, ti) && p.isRoot == None
  }

  lemma {:induction false} FretsBelowSound(opens: seq<int>, s: nat, n: nat, ti: int, notesScale: seq<string>)
    requires s < |opens|
    ensures forall p :: p in FretsBelow(opens, s, n, ti, notesScale) ==>
              p.stringIndex == s && p.fret < n && SoundMarker(p, opens, p.fret, ti, notesScale)
  {
    if n > 0 {
      FretsBelowSound(opens, s, n - 1, ti, notesScale);
    }
  }

  lemma {:induction false} FretsBelowAscending(opens: seq<int>, s: nat, n: nat, ti: int, notesScale: seq<string>)
    requires s < |opens|
    ensures FretAscending(FretsBelow(opens, s, n, ti, notesScale))
  {
    if n > 0 {
      FretsBelowAscending(opens, s, n - 1, ti, notesScale);
      FretsBelowSound(opens, s, n - 1, ti, notesScale);
      var prefix := FretsBelow(opens, s, n - 1, ti, notesScale);
      var c := Candidate(opens, s, n - 1, ti, notesScale);
      var r := prefix + c;
      assert r == FretsBelow(opens, s, n, ti, notesScale);
      forall i, j | 0 <= i < j < |r| ensures r[i].fret < r[j].fret {
        if j >= |prefix| {
          assert r[j] == c[j - |prefix|];
          assert r[i] == prefix[i] && prefix[i] in prefix;
        }
      }
    }
  }

  lemma {:induction false} FretsBelowCovers(opens: seq<int>, s: nat, n: nat, ti: int, notesScale: seq<string>, f: nat)
    requires s < |opens| && f < n
    ensures Covers(FretsBelow(opens, s, n, ti, notesScale), s, f) <==> PitchAt(opens[s], f) == ti
  {
    var prefix := FretsBelow(opens, s, n - 1, ti, notesScale);
    var c := Candidate(opens, s, n - 1, ti, notesScale);
    CoversConcat(prefix, c, s, f);
    if f < n - 1 {
      FretsBelowCovers(opens, s, n - 1, ti, notesScale, f);
      assert !Covers(c, s, f);
    } else {
      FretsBelowPlaces(opens, s, n - 1, ti, notesScale);
      CoversOnString(prefix, s, n - 1, s, f);
      if PitchAt(opens[s], f) == ti {
        assert c[0].stringIndex == s && c[0].fret == f;
      }
    }
  }

  lemma {:induction false} StringsBelowSound(opens: seq<int>, k: nat, maxFret: nat, ti: int, notesScale: seq<string>)
    requires k <= |opens|
    ensures forall p :: p in StringsBelow(opens, k, maxFret, ti, notesScale) ==>
              p.stringIndex < k && SoundMarker(p, opens, maxFret, ti, notesScale)
  {
    if k > 0 {
      var prefix: seq<NotePosition> := StringsBelow(opens, k - 1, maxFret, ti, notesScale);
      var last: seq<NotePosition> := FretsBelow(opens, k - 1, maxFret + 1, ti, notesScale);
      StringsBelowSound(opens, k - 1, maxFret, ti, notesScale);
      FretsBelowSound(opens, k - 1, maxFret + 1, ti, notesScale);
      forall p: NotePosition | p in prefix + last
        ensures p.stringIndex < k && SoundMarker(p, opens, maxFret, ti, notesScale)
      {
        if p !in prefix {
          assert p in last;
        }
      }
    }
  }

  /** Every marker of `r` is on string `s` below fret `n`. */
  predicate OnString(r: seq<NotePosition>, s: nat, n: nat)
  {
    forall i :: 0 <= i < |r| ==> r[i].stringIndex == s && r[i].fret < n
  }

  /** Every marker of `r` is on a string below `k`. */
  predicate BelowString(r: seq<NotePosition>, k: nat)
  {
    forall i :: 0 <= i < |r| ==> r[i].stringIndex < k
  }

  /** Strings and frets of the markers, by index. */
  lemma {:induction false} FretsBelowPlaces(opens: seq<int>, s: nat, n: nat, ti: int, notesScale: seq<string>)
    requires s < |opens|
    ensures OnString(FretsBelow(opens, s, n, ti, notesScale), s, n)
  {
    if n > 0 {
      FretsBelowPlaces(opens, s, n - 1, ti, notesScale);
    }
  }

  lemma {:induction false} StringsBelowPlaces(opens: seq<int>, k: nat, maxFret: nat, ti: int, notesScale: seq<string>)
    requires k <= |opens|
    ensures BelowString(StringsBelow(opens, k, maxFret, ti, notesScale), k)
  {
    if k > 0 {
      var prefix: seq<NotePosition> := StringsBelow(opens, k - 1, maxFret, ti, notesScale);
      var last: seq<NotePosition> := FretsBelow(opens, k - 1, maxFret + 1, ti, notesScale);
      StringsBelowPlaces(opens, k - 1, maxFret, ti, notesScale);
      FretsBelowPlaces(opens, k - 1, maxFret + 1, ti, notesScale);
      forall i: int | 0 <= i < |prefix + last|
        ensures (prefix + last)[i].stringIndex < k
      {
        if i >= |prefix| {
          assert (prefix + last)[i] == last[i - |prefix|];
        }
      }
    }
  }

  lemma {:induction false} StringsBelowOrdered(opens: seq<int>, k: nat, maxFret: nat, ti: int, notesScale: seq<string>)
    requires k <= |opens|
    ensures Ordered(StringsBelow(opens, k, maxFret, ti, notesScale))
  {
    if k > 0 {
      var prefix: seq<NotePosition> := StringsBelow(opens, k - 1, maxFret, ti, notesScale);
      var last: seq<NotePosition> := FretsBelow(opens, k - 1, maxFret + 1, ti, notesScale);
      assert Ordered(prefix) && BelowString(prefix, k - 1) by {
        StringsBelowOrdered(opens, k - 1, maxFret, ti, notesScale);
        StringsBelowPlaces(opens, k - 1, maxFret, ti, notesScale);
      }
      assert FretAscending(last) && OnString(last, k - 1, maxFret + 1) by {
        FretsBelowPlaces(opens, k - 1, maxFret + 1, ti, notesScale);
        FretsBelowAscending(opens, k - 1, maxFret + 1, ti, notesScale);
      }
      OrderedConcat(prefix, last, k - 1, maxFret + 1);
    }
  }

  /** Appending markers that all lie on string `s`, fret-ascending, to ordered
      markers on strings below `s` keeps the order. */
  lemma OrderedConcat(prefix: seq<NotePosition>, last: seq<NotePosition>, s: nat, n: nat)
    requires Ordered(prefix) && FretAscending(last)
    requires BelowString(prefix, s) && OnString(last, s, n)
    ensures Ordered(prefix + last)
  {
    var r := prefix + last;
    forall i, j | 0 <= i < j < |r| ensures Before(r[i], r[j]) {
      if j < |prefix| {
        assert r[i] == prefix[i] && r[j] == prefix[j];
      } else if i >= |prefix| {
        assert r[i] == last[i - |prefix|] && r[j] == last[j - |prefix|];
      } else {
        assert r[i] == prefix[i] && r[j] == last[j - |prefix|];
      }
    }
  }

  /** A marker sits in a concatenation exactly when it sits in one part. */
  lemma CoversConcat(a: seq<NotePosition>, b: seq<NotePosition>, s: nat, f: nat)
    ensures Covers(a + b, s, f) <==> Covers(a, s, f) || Covers(b, s, f)
  {
    var r := a + b;
    if Covers(r, s, f) {
      var i :| 0 <= i < |r| && r[i].stringIndex == s && r[i].fret == f;
      if i < |a| { assert r[i] == a[i]; } else { assert r[i] == b[i - |a|]; }
    }
    if Covers(a, s, f) {
      var i :| 0 <= i < |a| && a[i].stringIndex == s && a[i].fret == f;
      assert r[i] == a[i];
    }
    if Covers(b, s, f) {
      var i :| 0 <= i < |b| && b[i].stringIndex == s && b[i].fret == f;
      assert r[|a| + i] == b[i];
    }
  }

  /** Markers all on string `s` below fret `n` cover nothing else. */
  lemma CoversOnString(r: seq<NotePosition>, s: nat, n: nat, s': nat, f: nat)
    requires OnString(r, s, n)
    requires s' != s || f >= n
    ensures !Covers(r, s', f)
  {
  }

  lemma {:induction false} StringsBelowCovers(opens: seq<int>, k: nat, maxFret: nat, ti: int, notesScale: seq<string>, s: nat, f: nat)
    requires k <= |opens|
    ensures Covers(StringsBelow(opens, k, maxFret, ti, notesScale), s, f) <==>
              s < k && f <= maxFret && PitchAt(opens[s], f) == ti
  {
    if k > 0 {
      var prefix: seq<NotePosition> := StringsBelow(opens, k - 1, maxFret, ti, notesScale);
      var last: seq<NotePosition> := FretsBelow(opens, k - 1, maxFret + 1, ti, notesScale);
      StringsBelowCovers(opens, k - 1, maxFret, ti, notesScale, s, f);
      CoversConcat(prefix, last, s, f);
      FretsBelowPlaces(opens, k - 1, maxFret + 1, ti, notesScale);
      if s == k - 1 && f <= maxFret {
        FretsBelowCovers(opens, k - 1, maxFret + 1, ti, notesScale, f);
      } else {
        CoversOnString(last, k - 1, maxFret + 1, s, f);
      }
    }
  }

  /** Soundness: every marker lies on a string of the tuning, within the fret
      bound, sounds the target, carries the target spelled from the chosen
      table, and is not flagged as a root. */
  lemma PositionsSound(targetNote: string, tuning: Tuning, useSharps: bool, maxFret: nat, p: NotePosition)
    requires p in NotePositions(targetNote, tuning, useSharps, maxFret)
    ensures p.stringIndex < |tuning.notes| && p.fret <= maxFret
    ensures PitchAt(GetNoteIndex(tuning.notes[p.stringIndex]), p.fret) == GetNoteIndex(targetNote)
    ensures p.note == At(Scale(useSharps), GetNoteIndex(targetNote))
    ensures p.isRoot == None
  {
    var opens := OpenIndices(tuning.notes);
    StringsBelowSound(opens, |opens|, maxFret, GetNoteIndex(targetNote), Scale(useSharps));
  }

  /** Completeness: a (string, fret) pair is covered exactly when it is in
      range and sounds the target. */
  lemma PositionsComplete(targetNote: string, tuning: Tuning, useSharps: bool, maxFret: nat, s: nat, f: nat)
    ensures Covers(NotePositions(targetNote, tuning, useSharps, maxFret), s, f) <==>
              s < |tuning.notes| && f <= maxFret &&
              PitchAt(GetNoteIndex(tuning.notes[s]), f) == GetNoteIndex(targetNote)
  {
    var opens := OpenIndices(tuning.notes);
    StringsBelowCovers(opens, |opens|, maxFret, GetNoteIndex(targetNote), Scale(useSharps), s, f);
  }

  /** Order: string-major, then fret-ascending. */
  lemma PositionsOrdered(targetNote: string, tuning: Tuning, useSharps: bool, maxFret: nat)
    ensures Ordered(NotePositions(targetNote, tuning, useSharps, maxFret))
  {
    var opens := OpenIndices(tuning.notes);
    StringsBelowOrdered(opens, |opens|, maxFret, GetNoteIndex(targetNote), Scale(useSharps));
  }

  /** No duplicates: no two markers share a (string, fret) pair. */
  lemma PositionsDistinct(targetNote: string, tuning: Tuning, useSharps: bool, maxFret: nat, i: nat, j: nat)
    requires i < j < |NotePositions(targetNote, tuning, useSharps, maxFret)|
    ensures var r := NotePositions(targetNote, tuning, useSharps, maxFret);
      r[i].stringIndex != r[j].stringIndex || r[i].fret != r[j].fret
  {
    PositionsOrdered(targetNote, tuning, useSharps, maxFret);
  }

  /** An unknown target (index -1) has no markers when every open string is a
      known name. */
  lemma UnknownTargetHasNoPositions(targetNote: string, tuning: Tuning, useSharps: bool, maxFret: nat)
    requires !IsNoteName(targetNote)
    requires forall n :: n in tuning.notes ==> IsNoteName(n)
    ensures NotePositions(targetNote, tuning, useSharps, maxFret) == []
  {
    GetNoteIndexFinds(targetNote);
    var r := NotePositions(targetNote, tuning, useSharps, maxFret);
    if |r| > 0 {
      PositionsSound(targetNote, tuning, useSharps, maxFret, r[0]);
      GetNoteIndexFinds(tuning.notes[r[0].stringIndex]);
    }
  }

  /** The position resolver: for each string in tuning order, scan frets
      0..maxFret and record the positions that sound the target. The open
      strings' indices, which the source's per-string callback looks up one at
      a time, are looked up together by `OpenIndices`; the lookup is pure, so
      the order of the lookups does not matter. */
  method CalculateNotePositions(targetNote: string, tuning: Tuning, useSharps: bool, maxFret: nat)
    returns (positions: seq<NotePosition>)
    ensures positions == NotePositions(targetNote, tuning, useSharps, maxFret)
  {
    var notesScale := Scale(useSharps);
    var targetIndex := GetNoteIndex(targetNote);
    var opens := OpenIndices(tuning.notes);
    positions := ScanStrings(opens, targetIndex, notesScale, maxFret);
  }

  /** The resolver's `forEach` over the open strings, given their indices. */
  method ScanStrings(opens: seq<int>, targetIndex: int, notesScale: seq<string>, maxFret: nat)
    returns (positions: seq<NotePosition>)
    ensures positions == StringsBelow(opens, |opens|, maxFret, targetIndex, notesScale)
  {
    positions := [];
    var stringIndex := 0;
    while stringIndex < |opens|
      invariant 0 <= stringIndex <= |opens|
      invariant positions == StringsBelow(opens, stringIndex, maxFret, targetIndex, notesScale)
    {
      positions := VisitString(positions, opens[stringIndex], stringIndex, targetIndex, notesScale, maxFret, opens);
      stringIndex := stringIndex + 1;
    }
  }

  /** The per-string callback of the resolver: scan frets 0..maxFret of the
      string at `stringIndex`, whose open index is `openStringIndex`, and append
      each position that sounds the target. */
  method VisitString(positions: seq<NotePosition>, openStringIndex: int, stringIndex: nat, targetIndex: int,
                     notesScale: seq<string>, maxFret: nat, ghost opens: seq<int>)
    returns (out: seq<NotePosition>)
    requires stringIndex < |opens| && opens[stringIndex] == openStringIndex
    ensures out == positions + FretsBelow(opens, stringIndex, maxFret + 1, targetIndex, notesScale)
  {
    out := positions;
    var fret := 0;
    while fret <= maxFret
      invariant 0 <= fret <= maxFret + 1
      invariant out == positions + FretsBelow(opens, stringIndex, fret, targetIndex, notesScale)
    {
      var currentNoteIndex := JsRem(openStringIndex + fret, 12);
      if currentNoteIndex == targetIndex {
        out := out + [NotePosition(stringIndex, fret, At(notesScale, currentNoteIndex), None)];
      }
      fret := fret + 1;
    }
  }
}
