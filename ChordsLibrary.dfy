/** The chord catalogue screen (guitar-app/components/ChordsLibrary.tsx): the
    type and name filter over the chord table, and which string sounds at
    which fret when a chord is played. */
module ChordsLibrary {
  import opened Seqs
  import opened Strings
  import opened Types
  import opened ChordTable

  /** The type buttons: all chords, or one chord type. */
  datatype TypeFilter = AllTypes | OnlyKind(kind: ChordType)

  predicate MatchesFilter(c: Chord, filter: TypeFilter) {
    filter.AllTypes? || c.kind == filter.kind
  }

  /** Case-insensitive name search: the lower-cased name includes the lower-cased query. */
  predicate MatchesSearch(c: Chord, search: string) {
    Includes(ToLower(c.name), ToLower(search))
  }

  function Keep(filter: TypeFilter, search: string): Chord -> bool {
    c => MatchesFilter(c, filter) && MatchesSearch(c, search)
  }

  /** `filteredChords`: the chords passing both the type filter and the name
      search, in table order; nothing else is dropped. */
  function FilteredChords(table: seq<Chord>, filter: TypeFilter, search: string): (r: seq<Chord>)
    ensures IsSubsequence(r, table)
    ensures forall c :: c in r ==> MatchesFilter(c, filter) && MatchesSearch(c, search)
    ensures forall c :: c in table && MatchesFilter(c, filter) && MatchesSearch(c, search) ==> c in r
    ensures forall c :: multiset(r)[c] == if MatchesFilter(c, filter) && MatchesSearch(c, search) then multiset(table)[c] else 0
  {
    Filter(table, Keep(filter, search))
  }

  /** With the type filter on "all" and an empty search box, the whole table is shown. */
  lemma {:induction false} UnfilteredShowsAll(table: seq<Chord>)
    ensures FilteredChords(table, AllTypes, "") == table
  {
    forall c | c in table ensures Keep(AllTypes, "")(c) {
      assert ToLower(c.name)[..0] == ToLower("");
    }
    FilterKeepsAll(table, Keep(AllTypes, ""));
  }

  /** With only a type selected, the screen lists exactly as many chords as the
      table holds of that type. */
  lemma {:induction false} TypeFilterCount(table: seq<Chord>, k: ChordType)
    ensures |FilteredChords(table, OnlyKind(k), "")| == CountKind(table, k)
  {
    if table != [] {
      TypeFilterCount(table[1..], k);
      assert ToLower(table[0].name)[..0] == ToLower("");
    }
  }

  /** The type buttons of the chord table show 8 major, 8 minor, 7 seventh and 4 suspended chords. */
  lemma TypeButtonsOnTable()
    ensures |FilteredChords(Chords, OnlyKind(Major), "")| == 8
    ensures |FilteredChords(Chords, OnlyKind(Minor), "")| == 8
    ensures |FilteredChords(Chords, OnlyKind(Seventh), "")| == 7
    ensures |FilteredChords(Chords, OnlyKind(Sus), "")| == 4
  {
    KindCounts();
    TypeFilterCount(Chords, Major);
    TypeFilterCount(Chords, Minor);
    TypeFilterCount(Chords, Seventh);
    TypeFilterCount(Chords, Sus);
  }

  predicate IsSounded(f: StringFret) {
    !f.Muted?
  }

  /** The fret a sounded string is played at: an open string is fret 0. */
  function FretNumber(f: StringFret): int
    requires IsSounded(f)
  {
    if f.Open? then 0 else f.number
  }

  /** The `(string index, fret)` pairs `playChord` sounds, from string `i` on:
      a muted string sounds nothing; the others sound in string order. */
  function PlayedFrom(strings: seq<StringFret>, i: nat): (r: seq<(nat, int)>)
    requires i <= |strings|
    ensures forall k :: 0 <= k < |r| ==>
      i <= r[k].0 < |strings| && IsSounded(strings[r[k].0]) && r[k].1 == FretNumber(strings[r[k].0])
    ensures forall k, l :: 0 <= k < l < |r| ==> r[k].0 < r[l].0
    decreases |strings| - i
  {
    if i == |strings| then []
    else if strings[i].Muted? then PlayedFrom(strings, i + 1)
    else [(i, FretNumber(strings[i]))] + PlayedFrom(strings, i + 1)
  }

  /** One note per string not marked `'x'`. */
  lemma {:induction false} PlayedFromCount(strings: seq<StringFret>, i: nat)
    requires i <= |strings|
    ensures |PlayedFrom(strings, i)| == |Filter(strings[i..], IsSounded)|
    decreases |strings| - i
  {
    if i < |strings| {
      PlayedFromCount(strings, i + 1);
      assert strings[i..][1..] == strings[i + 1..];
    }
  }

  /** Every string not marked `'x'` is sounded. */
  lemma {:induction false} PlayedFromComplete(strings: seq<StringFret>, i: nat, j: nat)
    requires i <= j < |strings| && IsSounded(strings[j])
    ensures exists k :: 0 <= k < |PlayedFrom(strings, i)| && PlayedFrom(strings, i)[k].0 == j
    decreases j - i
  {
    var r := PlayedFrom(strings, i);
    if i == j {
      assert r[0].0 == j;
    } else {
      PlayedFromComplete(strings, i + 1, j);
      var rest := PlayedFrom(strings, i + 1);
      var k :| 0 <= k < |rest| && rest[k].0 == j;
      if strings[i].Muted? {
        assert r[k].0 == j;
      } else {
        assert r[k + 1].0 == j;
      }
    }
  }

  /** `playChord`'s fret mapping over a chord's strings: one note per string
      not marked `'x'`, in string order, open strings at fret 0, and every
      such string is sounded. */
  function PlayedStrings(c: Chord): (r: seq<(nat, int)>)
    ensures |r| == |Filter(c.strings, IsSounded)|
    ensures forall k :: 0 <= k < |r| ==>
      r[k].0 < |c.strings| && IsSounded(c.strings[r[k].0]) && r[k].1 == FretNumber(c.strings[r[k].0])
    ensures forall k, l :: 0 <= k < l < |r| ==> r[k].0 < r[l].0
    ensures forall j :: 0 <= j < |c.strings| && IsSounded(c.strings[j]) ==> exists k :: 0 <= k < |r| && r[k].0 == j
  {
    PlayedFromCount(c.strings, 0);
    assert c.strings[0..] == c.strings;
    forall j | 0 <= j < |c.strings| && IsSounded(c.strings[j])
      ensures exists k :: 0 <= k < |PlayedFrom(c.strings, 0)| && PlayedFrom(c.strings, 0)[k].0 == j
    {
      PlayedFromComplete(c.strings, 0, j);
    }
    PlayedFrom(c.strings, 0)
  }
}
