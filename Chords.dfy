/** The chord catalogue (guitar-app/data/chords.ts): 27 shapes, each with one
    entry per guitar string from the low E string up, the finger for each
    string (0 = none) and the fret the diagram starts at. */
module ChordTable {
  import opened Types

  const Chords: seq<Chord> := [
    Chord("C", Major, [Open, Fret(3), Fret(2), Open, Fret(1), Open], [0, 3, 2, 0, 1, 0], 1),
    Chord("D", Major, [Muted, Muted, Open, Fret(2), Fret(3), Fret(2)], [0, 0, 0, 1, 3, 2], 1),
    Chord("D#", Major, [Muted, Muted, Fret(5), Fret(3), Fret(4), Fret(3)], [0, 0, 4, 1, 3, 2], 1),
    Chord("E", Major, [Open, Fret(2), Fret(2), Fret(1), Open, Open], [0, 2, 3, 1, 0, 0], 1),
    Chord("F", Major, [Fret(1), Fret(3), Fret(3), Fret(2), Fret(1), Fret(1)], [1, 3, 4, 2, 1, 1], 1),
    Chord("G", Major, [Fret(3), Fret(2), Open, Open, Open, Fret(3)], [2, 1, 0, 0, 0, 3], 1),
    Chord("A", Major, [Muted, Open, Fret(2), Fret(2), Fret(2), Open], [0, 0, 1, 2, 3, 0], 1),
    Chord("B", Major, [Muted, Fret(2), Fret(4), Fret(4), Fret(4), Fret(2)], [0, 1, 3, 4, 5, 2], 1),
    Chord("Am", Minor, [Muted, Open, Fret(2), Fret(2), Fret(1), Open], [0, 0, 2, 3, 1, 0], 1),
    Chord("Dm", Minor, [Muted, Muted, Open, Fret(2), Fret(3), Fret(1)], [0, 0, 0, 2, 3, 1], 1),
    Chord("D#m", Minor, [Muted, Muted, Fret(4), Fret(3), Fret(4), Fret(2)], [0, 0, 3, 1, 4, 2], 1),
    Chord("Em", Minor, [Open, Fret(2), Fret(2), Open, Open, Open], [0, 1, 2, 0, 0, 0], 1),
    Chord("Fm", Minor, [Fret(1), Fret(3), Fret(3), Fret(1), Fret(1), Fret(1)], [1, 3, 4, 1, 1, 1], 1),
    Chord("Gm", Minor, [Fret(3), Fret(5), Fret(5), Fret(3), Fret(3), Fret(3)], [1, 3, 4, 1, 1, 1], 3),
    Chord("Bm", Minor, [Muted, Fret(2), Fret(4), Fret(4), Fret(3), Fret(2)], [0, 1, 3, 4, 2, 1], 1),
    Chord("Cm", Minor, [Muted, Fret(3), Fret(5), Fret(5), Fret(4), Fret(3)], [0, 1, 3, 4, 2, 1], 1),
    Chord("C7", Seventh, [Muted, Fret(3), Fret(2), Fret(3), Fret(1), Open], [0, 3, 2, 4, 1, 0], 1),
    Chord("D7", Seventh, [Muted, Muted, Open, Fret(2), Fret(1), Fret(2)], [0, 0, 0, 2, 1, 3], 1),
    Chord("E7", Seventh, [Open, Fret(2), Open, Fret(1), Open, Open], [0, 2, 0, 1, 0, 0], 1),
    Chord("G7", Seventh, [Fret(3), Fret(2), Open, Open, Open, Fret(1)], [3, 2, 0, 0, 0, 1], 1),
    Chord("A7", Seventh, [Muted, Open, Fret(2), Open, Fret(2), Open], [0, 0, 2, 0, 3, 0], 1),
    Chord("Am7", Seventh, [Muted, Open, Fret(2), Open, Fret(1), Open], [0, 0, 2, 0, 1, 0], 1),
    Chord("B7", Seventh, [Muted, Fret(2), Fret(1), Fret(2), Open, Fret(2)], [0, 2, 1, 3, 0, 4], 1),
    Chord("Dsus4", Sus, [Muted, Muted, Open, Fret(2), Fret(3), Fret(3)], [0, 0, 0, 1, 3, 4], 1),
    Chord("Esus4", Sus, [Open, Fret(2), Fret(2), Fret(2), Open, Open], [0, 1, 2, 3, 0, 0], 1),
    Chord("Asus4", Sus, [Muted, Open, Fret(2), Fret(2), Fret(3), Open], [0, 0, 1, 2, 3, 0], 1),
    Chord("Gsus4", Sus, [Fret(3), Fret(3), Open, Open, Fret(1), Fret(3)], [3, 4, 0, 0, 1, 5], 1)
  ]

  /** The number of chords of kind `k` in `s`. */
  function CountKind(s: seq<Chord>, k: ChordType): (n: nat)
    ensures n <= |s|
  {
    if s == [] then 0 else (if s[0].kind == k then 1 else 0) + CountKind(s[1..], k)
  }

  lemma {:induction false} CountKindAppend(a: seq<Chord>, b: seq<Chord>, k: ChordType)
    ensures CountKind(a + b, k) == CountKind(a, k) + CountKind(b, k)
  {
    if a == [] {
      assert a + b == b;
    } else {
      assert (a + b)[1..] == a[1..] + b;
      CountKindAppend(a[1..], b, k);
    }
  }

  /** A run of chords all of kind `k` counts once per chord for `k` and not at all for other kinds. */
  lemma {:induction false} CountKindOfRun(s: seq<Chord>, k: ChordType, j: ChordType)
    requires forall i :: 0 <= i < |s| ==> s[i].kind == k
    ensures CountKind(s, j) == if j == k then |s| else 0
  {
    if s != [] {
      CountKindOfRun(s[1..], k, j);
    }
  }

  /** The table lists the 8 major chords, then 8 minor, 7 seventh and 4 suspended ones. */
  lemma KindBlocks()
    ensures |Chords| == 27
    ensures forall i :: 0 <= i < 8 ==> Chords[i].kind == Major
    ensures forall i :: 8 <= i < 16 ==> Chords[i].kind == Minor
    ensures forall i :: 16 <= i < 23 ==> Chords[i].kind == Seventh
    ensures forall i :: 23 <= i < 27 ==> Chords[i].kind == Sus
  {
  }

  /** Counting kinds over a table laid out in four blocks of 8, 8, 7 and 4 chords. */
  lemma {:induction false} CountsOfBlocks(s: seq<Chord>)
    requires |s| == 27
    requires forall i :: 0 <= i < 8 ==> s[i].kind == Major
    requires forall i :: 8 <= i < 16 ==> s[i].kind == Minor
    requires forall i :: 16 <= i < 23 ==> s[i].kind == Seventh
    requires forall i :: 23 <= i < 27 ==> s[i].kind == Sus
    ensures CountKind(s, Major) == 8 && CountKind(s, Minor) == 8
    ensures CountKind(s, Seventh) == 7 && CountKind(s, Sus) == 4
  {
    var major, minor, seventh, sus := s[..8], s[8..16], s[16..23], s[23..];
    assert s == major + minor + seventh + sus;
    forall k: ChordType
      ensures CountKind(s, k) == CountKind(major, k) + CountKind(minor, k) + CountKind(seventh, k) + CountKind(sus, k)
    {
      CountKindAppend(major + minor + seventh, sus, k);
      CountKindAppend(major + minor, seventh, k);
      CountKindAppend(major, minor, k);
    }
    forall k: ChordType
      ensures CountKind(major, k) == (if k == Major then 8 else 0)
      ensures CountKind(minor, k) == (if k == Minor then 8 else 0)
      ensures CountKind(seventh, k) == (if k == Seventh then 7 else 0)
      ensures CountKind(sus, k) == (if k == Sus then 4 else 0)
    {
      CountKindOfRun(major, Major, k);
      CountKindOfRun(minor, Minor, k);
      CountKindOfRun(seventh, Seventh, k);
      CountKindOfRun(sus, Sus, k);
    }
  }

  /** The chord-type filter buttons find 8 major, 8 minor, 7 seventh and 4 suspended chords. */
  lemma KindCounts()
    ensures CountKind(Chords, Major) == 8 && CountKind(Chords, Minor) == 8
    ensures CountKind(Chords, Seventh) == 7 && CountKind(Chords, Sus) == 4
  {
    KindBlocks();
    CountsOfBlocks(Chords);
  }

  /** Every shape has one entry per string of a six-string guitar, in both
      `strings` and `fingers` (the diagram draws six strings and `playChord`
      knows six open-string pitches). */
  lemma SixStrings()
    ensures forall i :: 0 <= i < |Chords| ==> |Chords[i].strings| == 6 && |Chords[i].fingers| == 6
  {
  }

  /** Chord names are pairwise distinct, so they can key the rendered list. */
  lemma DistinctNames()
    ensures forall i, j :: 0 <= i < j < |Chords| ==> Chords[i].name != Chords[j].name
  {
  }

  /** Every fretted string lies on one of the five frets the diagram draws. */
  lemma FretsWithinGrid()
    ensures forall i, k :: 0 <= i < |Chords| && 0 <= k < |Chords[i].strings| && Chords[i].strings[k].Fret? ==>
      1 <= Chords[i].strings[k].number <= 5
  {
  }

  /** A string carries no finger exactly when it is muted or open. */
  lemma FingersMatchStrings()
    ensures forall i, k :: 0 <= i < |Chords| && 0 <= k < 6 ==>
      k < |Chords[i].strings| && k < |Chords[i].fingers| &&
      (Chords[i].fingers[k] == 0 <==> !Chords[i].strings[k].Fret?)
  {
  }

  /** Every diagram starts at fret 1 or above; only Gm starts higher, at fret 3. */
  lemma BaseFrets()
    ensures forall i :: 0 <= i < |Chords| ==> Chords[i].baseFret >= 1
    ensures forall i :: 0 <= i < |Chords| ==> (Chords[i].baseFret > 1 <==> Chords[i].name == "Gm")
    ensures forall i :: 0 <= i < |Chords| && Chords[i].name == "Gm" ==> Chords[i].baseFret == 3
  {
  }
}
