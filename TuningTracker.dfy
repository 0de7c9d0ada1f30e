/** The per-frame tracker of guitar-app/components/Tuner.tsx (`updatePitch`):
    a range gate on the estimate, a window of the last five accepted pitches
    that a rejected frame empties, the middle entry of that window once sorted
    (the upper median for even lengths), its note
    name and octave, the cents offset, the tuning status and the needle.

    `noteFromPitch` and `centsOffFromPitch` take logarithms; they are not
    modelled and are passed to the tracker as functions. */
module TuningTracker {
  import opened PitchDetection

  const MinPitch: real := 60.0
  const MaxPitch: real := 1000.0
  /** `bufferSize`: the most pitches the smoothing window holds. */
  const WindowSize: nat := 5

  const NoteStrings: seq<string> := ["C", "C#", "D", "D#", "E", "F", "F#", "G", "G#", "A", "A#", "B"]

  datatype Status = Idle | Tuned | Sharp | Flat

  /** The note display: `'-'` before any pitch is accepted, then a pitch class
      name and an octave (the source shows their concatenation). */
  datatype NoteLabel = NoNote | Note(name: string, octave: int)

  /** The range gate `pitch > 60 && pitch < 1000`; `NoPitch` (the source's -1
      or a division by zero) never passes. */
  predicate Accepted(p: PitchEstimate) {
    p.Detected? && MinPitch < p.hz < MaxPitch
  }

  // ---------------------------------------------------------------- window

  /** `push` then one `shift` when the window overflows. */
  function Window(h: seq<real>, f: real): (r: seq<real>)
    ensures |h| < WindowSize ==> r == h + [f]
    ensures |h| >= WindowSize ==> |r| == |h| && r == (h + [f])[1..]
    ensures |r| > 0 && r[|r| - 1] == f
  {
    var pushed := h + [f];
    if |pushed| > WindowSize then pushed[1..] else pushed
  }

  /** The last `min(k, |s|)` elements of `s`. */
  function LastN(s: seq<real>, k: nat): (r: seq<real>)
    ensures |r| == if |s| < k then |s| else k
  {
    if |s| <= k then s else s[|s| - k..]
  }

  /** The window after pushing the pitches `fs` one by one. */
  function PushAll(h: seq<real>, fs: seq<real>): seq<real>
    decreases |fs|
  {
    if fs == [] then h else PushAll(Window(h, fs[0]), fs[1..])
  }

  /** After any run of accepted frames the window holds exactly the last (up to)
      five of them, oldest first. */
  lemma {:induction false} PushAllKeepsLatest(h: seq<real>, fs: seq<real>)
    requires |h| <= WindowSize
    ensures PushAll(h, fs) == LastN(h + fs, WindowSize)
    decreases |fs|
  {
    if fs != [] {
      var w := Window(h, fs[0]);
      PushAllKeepsLatest(w, fs[1..]);
      assert w == LastN(h + [fs[0]], WindowSize);
      var a := h + fs;
      var b := w + fs[1..];
      assert (h + [fs[0]]) + fs[1..] == a;
      assert LastN(b, WindowSize) == LastN(a, WindowSize);
    }
  }

  // ---------------------------------------------------------------- median

  predicate Sorted(s: seq<real>) {
    forall i, j :: 0 <= i < j < |s| ==> s[i] <= s[j]
  }

  /** Every element of a permutation of `tail + [x]` is at least `h` when
      `h` is at most `x` and every element of `tail`. */
  lemma LowerBound(h: real, x: real, tail: seq<real>, rest: seq<real>)
    requires h <= x && forall k :: 0 <= k < |tail| ==> h <= tail[k]
    requires multiset(rest) == multiset(tail) + multiset{x}
    ensures forall k :: 0 <= k < |rest| ==> h <= rest[k]
  {
    forall k | 0 <= k < |rest| ensures h <= rest[k] {
      assert rest[k] in multiset(rest);
      if rest[k] != x {
        assert rest[k] in multiset(tail);
        var j :| 0 <= j < |tail| && tail[j] == rest[k];
      }
    }
  }

  function Insert(x: real, t: seq<real>): (r: seq<real>)
    requires Sorted(t)
    ensures Sorted(r) && |r| == |t| + 1
    ensures multiset(r) == multiset(t) + multiset{x}
  {
    if t == [] then [x]
    else if x <= t[0] then [x] + t
    else
      var rest := Insert(x, t[1..]);
      assert t == [t[0]] + t[1..];
      LowerBound(t[0], x, t[1..], rest);
      [t[0]] + rest
  }

  /** `[...h].sort((a, b) => a - b)`: an ascending copy; `h` itself is untouched. */
  function SortAscending(h: seq<real>): (r: seq<real>)
    ensures Sorted(r) && |r| == |h|
    ensures multiset(r) == multiset(h)
  {
    if h == [] then []
    else
      assert h == [h[0]] + h[1..];
      Insert(h[0], SortAscending(h[1..]))
  }

  /** How many entries of `h` lie below `v`, and how many lie at or below it. */
  function CountBelow(h: seq<real>, v: real): (n: nat)
    ensures n <= |h|
  {
    if h == [] then 0 else (if h[0] < v then 1 else 0) + CountBelow(h[1..], v)
  }

  function CountAtMost(h: seq<real>, v: real): (n: nat)
    ensures n <= |h|
  {
    if h == [] then 0 else (if h[0] <= v then 1 else 0) + CountAtMost(h[1..], v)
  }

  /** How many entries of `h` equal `x`. */
  function Occurrences(h: seq<real>, x: real): (n: nat)
    ensures n <= |h|
  {
    if h == [] then 0 else (if h[0] == x then 1 else 0) + Occurrences(h[1..], x)
  }

  lemma {:induction false} InsertCounts(x: real, t: seq<real>, v: real)
    requires Sorted(t)
    ensures CountBelow(Insert(x, t), v) == CountBelow(t, v) + (if x < v then 1 else 0)
    ensures CountAtMost(Insert(x, t), v) == CountAtMost(t, v) + (if x <= v then 1 else 0)
  {
    if t != [] && x > t[0] {
      InsertCounts(x, t[1..], v);
    }
  }

  /** Sorting does not change how many entries lie below or at most `v`. */
  lemma {:induction false} SortCounts(h: seq<real>, v: real)
    ensures CountBelow(SortAscending(h), v) == CountBelow(h, v)
    ensures CountAtMost(SortAscending(h), v) == CountAtMost(h, v)
  {
    if h != [] {
      SortCounts(h[1..], v);
      InsertCounts(h[0], SortAscending(h[1..]), v);
    }
  }

  lemma {:induction false} NoneBelow(t: seq<real>, v: real)
    requires forall k :: 0 <= k < |t| ==> v <= t[k]
    ensures CountBelow(t, v) == 0
  {
    if t != [] {
      NoneBelow(t[1..], v);
    }
  }

  /** In an ascending sequence at most `i` entries lie below `t[i]` and at least
      `i + 1` lie at or below it. */
  lemma {:induction false} SortedRank(t: seq<real>, i: nat)
    requires Sorted(t) && i < |t|
    ensures CountBelow(t, t[i]) <= i
    ensures CountAtMost(t, t[i]) >= i + 1
  {
    if i == 0 {
      NoneBelow(t, t[0]);
    } else {
      SortedRank(t[1..], i - 1);
    }
  }

  /** `sorted[floor(len / 2)]`: the middle entry of the sorted window, the
      upper of the two middle entries for an even length. */
  function Median(h: seq<real>): (m: real)
    requires |h| > 0
    ensures m in h
    ensures CountBelow(h, m) <= |h| / 2 < CountAtMost(h, m)
  {
    var t := SortAscending(h);
    assert t[|h| / 2] in multiset(h);
    SortedRank(t, |h| / 2);
    SortCounts(h, t[|h| / 2]);
    t[|h| / 2]
  }

  lemma {:induction false} AtMostAvoids(h: seq<real>, v: real, x: real)
    requires v < x
    ensures CountAtMost(h, v) + Occurrences(h, x) <= |h|
  {
    if h != [] {
      AtMostAvoids(h[1..], v, x);
    }
  }

  lemma {:induction false} BelowIncludes(h: seq<real>, v: real, x: real)
    requires x < v
    ensures Occurrences(h, x) <= CountBelow(h, v)
  {
    if h != [] {
      BelowIncludes(h[1..], v, x);
    }
  }

  /** A value filling more than half of the window is its median: the reading
      only moves to a new note once the new pitch dominates the window. */
  lemma MajorityIsMedian(h: seq<real>, x: real)
    requires |h| > 0 && Occurrences(h, x) > |h| / 2
    ensures Median(h) == x
  {
    var m := Median(h);
    if m < x {
      AtMostAvoids(h, m, x);
    } else if x < m {
      BelowIncludes(h, m, x);
    }
  }

  // ---------------------------------------------------------------- note, status, needle

  /** `noteStrings[n % 12]` and `Math.floor(n / 12) - 1` for a note number `n >= 0`. */
  function LabelOf(n: int): (l: NoteLabel)
    requires n >= 0
    ensures l.Note? && l.name in NoteStrings
    ensures n == 12 * (l.octave + 1) + n % 12 && l.name == NoteStrings[n % 12]
  {
    Note(NoteStrings[n % 12], n / 12 - 1)
  }

  lemma NoteNamesDistinct()
    ensures forall i, j :: 0 <= i < j < |NoteStrings| ==> NoteStrings[i] != NoteStrings[j]
  {
  }

  /** The name and octave shown determine the note number. */
  lemma LabelDeterminesNote(n1: int, n2: int)
    requires n1 >= 0 && n2 >= 0 && LabelOf(n1) == LabelOf(n2)
    ensures n1 == n2
  {
    NoteNamesDistinct();
    assert NoteStrings[n1 % 12] == NoteStrings[n2 % 12];
    assert n1 % 12 == n2 % 12;
  }

  /** Tuned within two cents either way, otherwise flat below and sharp above;
      never idle. */
  function StatusOf(cents: int): (s: Status)
    ensures s != Idle
    ensures s == Tuned <==> -2 <= cents <= 2
    ensures s == Flat <==> cents < -2
    ensures s == Sharp <==> cents > 2
  {
    if Abs(cents) <= 2 then Tuned else if cents < 0 then Flat else Sharp
  }

  function Abs(x: int): nat {
    if x < 0 then -x else x
  }

  /** `50 + Math.max(-50, Math.min(50, cents))`: the needle's position in percent. */
  function NeedlePosition(cents: int): (p: int)
    ensures 0 <= p <= 100
    ensures -50 <= cents <= 50 ==> p == 50 + cents
    ensures cents <= -50 ==> p == 0
    ensures cents >= 50 ==> p == 100
  {
    50 + Max(-50, Min(50, cents))
  }

  function Min(a: int, b: int): int {
    if a < b then a else b
  }

  function Max(a: int, b: int): int {
    if a < b then b else a
  }

  /** The needle never moves left when the offset grows. */
  lemma NeedleMonotone(c1: int, c2: int)
    requires c1 <= c2
    ensures NeedlePosition(c1) <= NeedlePosition(c2)
  {
  }

  // ---------------------------------------------------------------- the tracker

  /** The tuner's display state and its smoothing window `pitchBufferRef`. */
  class Tracker {
    var history: seq<real>
    var note: NoteLabel
    var frequency: real
    var cents: int
    var status: Status

    /** The window never exceeds five entries, all of which passed the range gate. */
    ghost predicate Valid()
      reads this
    {
      |history| <= WindowSize && forall x :: x in history ==> MinPitch < x < MaxPitch
    }

    /** The initial state: note `'-'`, 0 Hz, 0 cents, idle, empty window. */
    constructor ()
      ensures Valid()
      ensures history == [] && note == NoNote && frequency == 0.0 && cents == 0 && status == Idle
    {
      history, note, frequency, cents, status := [], NoNote, 0.0, 0, Idle;
    }

    /** Starting a session empties the window; the display keeps its last
        reading (stopping a session changes nothing here). */
    method StartSession()
      modifies this
      ensures Valid() && history == []
      ensures note == old(note) && frequency == old(frequency) && cents == old(cents) && status == old(status)
    {
      history := [];
    }

    /** One frame of `updatePitch` after the estimate: an accepted pitch joins the
        window and the display shows the window's median; any other frame only
        empties the window and leaves the display as it was. */
    method Ingest(pitch: PitchEstimate, noteFromPitch: real -> int, centsOffFromPitch: (real, int) -> int)
      requires Valid()
      requires forall f :: MinPitch < f < MaxPitch ==> noteFromPitch(f) >= 0
      modifies this
      ensures Valid()
      ensures Accepted(pitch) ==>
        && history == Window(old(history), pitch.hz)
        && frequency == Median(history)
        && note == LabelOf(noteFromPitch(frequency))
        && cents == centsOffFromPitch(frequency, noteFromPitch(frequency))
        && status == StatusOf(cents)
      ensures !Accepted(pitch) ==>
        && history == []
        && note == old(note) && frequency == old(frequency) && cents == old(cents) && status == old(status)
    {
      if pitch.Detected? && pitch.hz > MinPitch && pitch.hz < MaxPitch {
        history := history + [pitch.hz];
        if |history| > WindowSize {
          history := history[1..];
        }
        assert forall x :: x in history ==> x in old(history) || x == pitch.hz;
        var sortedPitches := SortAscending(history);
        var medianPitch := sortedPitches[|sortedPitches| / 2];
        assert medianPitch == Median(history);
        var noteNum := noteFromPitch(medianPitch);
        var centsOff := centsOffFromPitch(medianPitch, noteNum);
        note := Note(NoteStrings[noteNum % 12], noteNum / 12 - 1);
        frequency := medianPitch;
        cents := centsOff;
        if Abs(centsOff) <= 2 {
          status := Tuned;
        } else if centsOff < 0 {
          status := Flat;
        } else {
          status := Sharp;
        }
      } else {
        history := [];
      }
    }

    /** `updatePitch` on one captured frame: estimate, then track. */
    method UpdatePitch(buffer: array<real>, sampleRate: real,
                       noteFromPitch: real -> int, centsOffFromPitch: (real, int) -> int)
      requires Valid()
      requires forall f :: MinPitch < f < MaxPitch ==> noteFromPitch(f) >= 0
      modifies this
      ensures Valid()
      ensures Accepted(Estimate(buffer[..], sampleRate)) ==>
        && history == Window(old(history), Estimate(buffer[..], sampleRate).hz)
        && frequency == Median(history)
        && note == LabelOf(noteFromPitch(frequency))
        && cents == centsOffFromPitch(frequency, noteFromPitch(frequency))
        && status == StatusOf(cents)
      ensures !Accepted(Estimate(buffer[..], sampleRate)) ==>
        && history == []
        && note == old(note) && frequency == old(frequency) && cents == old(cents) && status == old(status)
    {
      var pitch := AutoCorrelate(buffer, sampleRate);
      Ingest(pitch, noteFromPitch, centsOffFromPitch);
    }
  }

  /** An empty frame reports `-sampleRate`, which the range gate rejects for any
      non-negative sample rate. */
  lemma EmptyFrameRejected(rate: real)
    requires rate >= 0.0
    ensures !Accepted(Estimate([], rate))
  {
    EmptyFrameEstimate(rate);
  }
}
