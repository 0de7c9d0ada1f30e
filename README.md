# guitar-app in Dafny

A verified model of the logic of the guitar practice app `guitar-app`, which
has three screens:

- **Tuner** (`components/Tuner.tsx`). `autoCorrelate` estimates the pitch of
  one microphone frame. It applies a loudness gate, builds the lag-product
  autocorrelation, walks down the slope after lag 0, searches for the
  strongest later peak, refines its lag with a parabola and applies a
  confidence gate. `updatePitch` then feeds that estimate to a tracker. The
  tracker range-gates the estimate and keeps a window of the last five
  accepted pitches. It shows the middle entry of the sorted window (the upper median for an even
  count) as a note name and
  octave, with a cents offset, a tuned/flat/sharp status and a needle
  position.
- **Songs library** (`components/SongsLibrary.tsx` over `lib/storage.ts`).
  The song list is stored whole in one storage slot. Handlers add, delete and
  edit songs. They convert between a song and a text form: comma-separated
  chords, and optional lyrics and notes. A language filter picks what is
  listed.
- **Chords library** (`components/ChordsLibrary.tsx` over `data/chords.ts`).
  This is the type filter and case-insensitive name search over the table of
  27 chord shapes, and the string/fret pairs `playChord` sounds. The table's
  own invariants are also proved.

Modules:

| module | models |
|---|---|
| `Seqs` | `Option`, the order-preserving `Array.prototype.filter`, and the subsequence relation |
| `Strings` | `trim`, one-character `split`, `join`, ASCII `toLowerCase` and `includes` |
| `Types` | the `Chord` and `Song` records of `types/index.ts` |
| `ChordTable` | the chord table and what is proved about it |
| `ChordsLibrary` | the chord filter and `playChord`'s fret mapping |
| `PitchDetection` | `autoCorrelate`, with imperative methods over arrays proved equal to the specification function `Estimate` |
| `TuningTracker` | the smoothing window, the median, the note label, the status, the needle, and the `Tracker` class holding the tuner state |
| `Storage` | the song store, as classes (`SongStore`, and `SongList` for a JavaScript array reference), with the pure list updates |
| `SongsLibrary` | the form conversions, the language filter and the `Library` class whose methods are the screen's handlers |

Behaviours of the code that the model keeps as written:

- An empty frame is not rejected. Its mean square `0 / 0` is NaN, so neither
  gate fires, and `autoCorrelate` returns `sampleRate / -1`
  (`PitchDetection.EmptyFrameEstimate`). The tracker's range gate then
  rejects it.
- The range gate is strict: `60 < f < 1000`.
- A rejected frame only empties the window. Note, frequency, cents and status
  keep their previous values; the status does not return to idle.
- The peak search runs while `i < SIZE / 2` in real division. For an odd
  frame size it therefore also visits lag `(SIZE - 1) / 2`
  (`PitchDetection.SearchEnd`).

## Model

| member | source | states |
|---|---|---|
| Seqs.Filter | guitar-app/lib/storage.ts:34 | `filter` keeps exactly the elements satisfying the predicate, in their original order (a subsequence), each as many times as it occurred, and never more than it was given |
| Seqs.FilterIdempotent | guitar-app/lib/storage.ts:34 | filtering twice by the same predicate equals filtering once |
| Seqs.FilterPartition | guitar-app/components/SongsLibrary.tsx:386 | a predicate and its negation split a list: the two filtered lengths add up to the list's length |
| Strings.Trim | guitar-app/components/SongsLibrary.tsx:44 | `trim` yields a string with no whitespace at either end, no longer than the input and made of its characters |
| Strings.TrimIsSlice | guitar-app/components/SongsLibrary.tsx:44 | `trim` returns a contiguous slice of its input with only whitespace cut from either end |
| Strings.Split | guitar-app/components/SongsLibrary.tsx:44 | `split` yields at least one piece and no piece contains the separator |
| Strings.Join | guitar-app/components/SongsLibrary.tsx:72 | `join` concatenates the parts with the separator between neighbours (no contract; its partner is JoinOfSplit) |
| Strings.JoinOfSplit | guitar-app/components/SongsLibrary.tsx:44 | joining the pieces of a split with the same separator gives the text back |
| Strings.SplitOfJoin | guitar-app/components/SongsLibrary.tsx:72 | splitting comma-free pieces joined by a separator plus padding gives back one piece per part, each led by the padding |
| Strings.ToLower | guitar-app/components/ChordsLibrary.tsx:14 | `toLowerCase` keeps the length and lowers each character |
| Strings.IncludesAt | guitar-app/components/ChordsLibrary.tsx:14 | `includes` holds exactly when the needle occurs at some position of the text |
| ChordTable.KindBlocks | guitar-app/data/chords.ts:4-37 | the table has 27 chords: 8 major, then 8 minor, 7 seventh and 4 suspended, in blocks |
| ChordTable.CountsOfBlocks | guitar-app/data/chords.ts:3-38 | a table laid out in such blocks holds 8, 8, 7 and 4 chords of the four types |
| ChordTable.KindCounts | guitar-app/data/chords.ts:3-38 | the table holds 8 major, 8 minor, 7 seventh and 4 suspended chords |
| ChordTable.SixStrings | guitar-app/data/chords.ts:5-37 | every shape has six `strings` entries and six `fingers` entries |
| ChordTable.DistinctNames | guitar-app/data/chords.ts:5-37 | chord names are pairwise distinct, so they can key the rendered list |
| ChordTable.FretsWithinGrid | guitar-app/data/chords.ts:5-37 | every fretted string is on fret 1 to 5 |
| ChordTable.FingersMatchStrings | guitar-app/data/chords.ts:5-37 | a string has finger 0 exactly when it is muted or open |
| ChordTable.BaseFrets | guitar-app/data/chords.ts:5-37 | every base fret is at least 1, and only Gm's is higher (3) |
| ChordsLibrary.FilteredChords | guitar-app/components/ChordsLibrary.tsx:12-16 | the shown chords are exactly the table's chords matching both the type filter and the case-insensitive search, each as often as in the table, in table order |
| ChordsLibrary.UnfilteredShowsAll | guitar-app/components/ChordsLibrary.tsx:12-16 | with type "all" and an empty search the whole table is shown |
| ChordsLibrary.TypeFilterCount | guitar-app/components/ChordsLibrary.tsx:12-16 | with only a type selected, the number shown equals the number of chords of that type in the table |
| ChordsLibrary.TypeButtonsOnTable | guitar-app/components/ChordsLibrary.tsx:12-16 | on the real table the type buttons show 8, 8, 7 and 4 chords |
| ChordsLibrary.PlayedFrom | guitar-app/components/ChordsLibrary.tsx:24-27 | from a given string on, each played pair is a non-muted string at its fret number (open = 0), in increasing string order |
| ChordsLibrary.PlayedFromCount | guitar-app/components/ChordsLibrary.tsx:24-25 | one note is played per string not marked `'x'` |
| ChordsLibrary.PlayedFromComplete | guitar-app/components/ChordsLibrary.tsx:24-25 | every string not marked `'x'` is played |
| ChordsLibrary.PlayedStrings | guitar-app/components/ChordsLibrary.tsx:24-27 | `playChord` sounds exactly the non-muted strings, once each, in string order, open strings at fret 0 |
| PitchDetection.SumSquares | guitar-app/components/Tuner.tsx:26-31 | the accumulated energy is never negative |
| PitchDetection.Correlations | guitar-app/components/Tuner.tsx:46-51 | the correlation array has one entry per lag, the lag-product sum at that lag |
| PitchDetection.ZeroLagIsEnergy | guitar-app/components/Tuner.tsx:28-31 | the correlation at lag 0 is the frame's energy |
| PitchDetection.LoudFrameHasEnergy | guitar-app/components/Tuner.tsx:32-34 | a non-empty frame passing the loudness gate has a positive lag-0 correlation, so the confidence divides by a positive number |
| PitchDetection.Descend | guitar-app/components/Tuner.tsx:53-54 | the descent walk passes only strictly decreasing steps and stops at the first lag not followed by a smaller value, or at the last lag |
| PitchDetection.PeakIn | guitar-app/components/Tuner.tsx:56-63 | the search returns the first lag holding the range's largest correlation above -1, or (-1, -1) when no lag exceeds -1 |
| PitchDetection.SearchEnd | guitar-app/components/Tuner.tsx:58 | `i < SIZE / 2` in real division holds exactly for `i` below `(SIZE + 1) / 2` |
| PitchDetection.Energy | guitar-app/components/Tuner.tsx:26-31 | the loudness loop computes the sum of squares of the frame |
| PitchDetection.FillCorrelations | guitar-app/components/Tuner.tsx:46-51 | the nested loops fill a fresh array with the autocorrelation at every lag |
| PitchDetection.DescentWalk | guitar-app/components/Tuner.tsx:53-54 | the while loop ends where the descent walk ends |
| PitchDetection.PeakSearch | guitar-app/components/Tuner.tsx:56-63 | the search loop returns the first largest correlation above -1 after the descent |
| PitchDetection.Quiet | guitar-app/components/Tuner.tsx:32-34 | the loudness gate holds exactly for a non-empty frame whose energy is below `0.005²` times its length |
| PitchDetection.Refine | guitar-app/components/Tuner.tsx:65-74 | the integer lag is kept when a neighbour is missing or the curvature is zero |
| PitchDetection.Estimate | guitar-app/components/Tuner.tsx:24-80 | a quiet frame has no pitch; a detected pitch is the sample rate over a non-zero refined period; conversely a loud frame whose peak holds at least 85% of the lag-0 correlation and whose refined period is non-zero is detected at the sample rate over that period |
| PitchDetection.RefineAt | guitar-app/components/Tuner.tsx:65-74 | the refinement moves the lag to the parabola's vertex only for an interior lag with non-zero curvature |
| PitchDetection.AutoCorrelate | guitar-app/components/Tuner.tsx:24-80 | the estimator returns exactly the specified estimate: no pitch for a quiet frame, a low confidence or a zero period, otherwise sample rate over refined period |
| PitchDetection.SilenceHasNoEnergy | guitar-app/components/Tuner.tsx:26-31 | an all-zero frame has zero energy |
| PitchDetection.SilentFrameHasNoPitch | guitar-app/components/Tuner.tsx:26-34 | a non-empty silent frame is quiet and has no pitch |
| PitchDetection.EmptyFrameEstimate | guitar-app/components/Tuner.tsx:24-80 | an empty frame slips past both gates and reports minus the sample rate |
| PitchDetection.NoCandidateMeansNoPitch | guitar-app/components/Tuner.tsx:56-77 | when no lag of the search range exceeds -1 the confidence is negative and there is no pitch |
| PitchDetection.DetectedPitchIsConfident | guitar-app/components/Tuner.tsx:24-80 | a detected pitch comes from a loud frame and from a real peak in the search range after the descent holding at least 85% of the lag-0 correlation; it is the sample rate over a non-zero period |
| PitchDetection.RefineNearLocalMax | guitar-app/components/Tuner.tsx:67-74 | at a local maximum the refined lag stays within half a sample of the integer lag |
| PitchDetection.InteriorPeakRefinesNearby | guitar-app/components/Tuner.tsx:53-74 | a peak strictly inside the search range refines to within half a sample |
| TuningTracker.Window | guitar-app/components/Tuner.tsx:103-106 | push then one shift: the window grows until five entries, then drops its oldest; the newest is last |
| TuningTracker.PushAllKeepsLatest | guitar-app/components/Tuner.tsx:102-106 | after any run of accepted frames the window holds exactly the last (up to) five pitches, oldest first |
| TuningTracker.Insert | guitar-app/components/Tuner.tsx:108 | inserting into a sorted list keeps it sorted and adds exactly that value |
| TuningTracker.SortAscending | guitar-app/components/Tuner.tsx:108 | the numeric sort yields an ascending permutation of the window |
| TuningTracker.SortCounts | guitar-app/components/Tuner.tsx:108 | sorting keeps how many entries lie below, or at most, any value |
| TuningTracker.SortedRank | guitar-app/components/Tuner.tsx:108-109 | in an ascending list at most `i` entries lie below `t[i]` and at least `i + 1` at or below it |
| TuningTracker.Median | guitar-app/components/Tuner.tsx:108-109 | `sorted[floor(n / 2)]` is an entry of the window with at most `n / 2` entries below it and more than `n / 2` at or below it |
| TuningTracker.MajorityIsMedian | guitar-app/components/Tuner.tsx:108-109 | a pitch filling more than half the window is the median |
| TuningTracker.Accepted | guitar-app/components/Tuner.tsx:102 | the strict range gate `60 < f < 1000`, which no missing pitch passes (no contract; Ingest's contract uses it) |
| TuningTracker.LabelOf | guitar-app/components/Tuner.tsx:112-113 | the note name is one of the twelve, and the name and octave recompose the note number |
| TuningTracker.NoteNamesDistinct | guitar-app/components/Tuner.tsx:5 | the twelve note names are pairwise distinct |
| TuningTracker.LabelDeterminesNote | guitar-app/components/Tuner.tsx:112-113 | two note numbers with the same label are equal |
| TuningTracker.StatusOf | guitar-app/components/Tuner.tsx:120-126 | tuned exactly within 2 cents either way, flat exactly below -2, sharp exactly above 2; never idle |
| TuningTracker.NeedlePosition | guitar-app/components/Tuner.tsx:192 | the needle is at 50 + cents within ±50 cents, clamped to 0..100 outside |
| TuningTracker.NeedleMonotone | guitar-app/components/Tuner.tsx:192 | a larger offset never moves the needle left |
| TuningTracker.Tracker.constructor | guitar-app/components/Tuner.tsx:9-18 | the initial display is note '-', 0 Hz, 0 cents, idle, with an empty window |
| TuningTracker.Tracker.StartSession | guitar-app/components/Tuner.tsx:163-164 | starting the tuner empties the window and keeps the display |
| TuningTracker.Tracker.Ingest | guitar-app/components/Tuner.tsx:102-129 | an accepted pitch joins the window and the display shows the median's note, cents and status; any other frame empties the window and changes nothing else; the window stays at most five in-range pitches |
| TuningTracker.Tracker.UpdatePitch | guitar-app/components/Tuner.tsx:95-129 | one frame: the tracker is updated with the estimator's result for that frame |
| TuningTracker.EmptyFrameRejected | guitar-app/components/Tuner.tsx:100-102 | the negative estimate of an empty frame never passes the range gate |
| Storage.MergeNothing | guitar-app/lib/storage.ts:40-42 | a patch without keys leaves a song unchanged |
| Storage.MergeWholeSong | guitar-app/lib/storage.ts:40-42 | a whole song used as a patch replaces every field |
| Storage.MergeIdempotent | guitar-app/lib/storage.ts:40-42 | applying a patch twice equals applying it once |
| Storage.DeleteById | guitar-app/lib/storage.ts:34 | no song with the id is left, every other song stays as often as it occurred, in order |
| Storage.DeleteIdempotent | guitar-app/lib/storage.ts:33-37 | deleting an id twice equals deleting it once |
| Storage.DeleteAbsentId | guitar-app/lib/storage.ts:34 | deleting an id no song carries leaves the list unchanged |
| Storage.UpdateById | guitar-app/lib/storage.ts:40-42 | same length and order; songs with the id are patched, the others unchanged |
| Storage.UpdateWithWholeSong | guitar-app/lib/storage.ts:40-42 | saving a whole song under its id puts exactly that song wherever the id was |
| Storage.UpdateIdempotent | guitar-app/lib/storage.ts:39-45 | applying the same update twice equals applying it once |
| Storage.Merge | guitar-app/lib/storage.ts:41 | `{ ...song, ...patch }`: each field is the patch's value when the patch has that key, the song's otherwise |
| Storage.SongStore.Current | guitar-app/lib/storage.ts:12-24 | the list `loadSongs` would return in the current state: nothing without a window, the stored list, else the initial songs (no contract; LoadSongs states it) |
| Storage.SongStore.constructor | guitar-app/lib/storage.ts:2-4 | a store over a slot and the module's initial songs array |
| Storage.SongStore.SaveSongs | guitar-app/lib/storage.ts:6-10 | the list is stored when there is a window; otherwise nothing changes |
| Storage.SongStore.LoadSongs | guitar-app/lib/storage.ts:12-24 | returns the stored list as a fresh array; on a first visit stores the initial songs and returns that very array; without a window, a fresh empty one |
| Storage.SongStore.AddSong | guitar-app/lib/storage.ts:26-31 | appends the song to the loaded list and stores it; on a first visit the initial songs array itself receives the song |
| Storage.SongStore.DeleteSong | guitar-app/lib/storage.ts:33-37 | stores and returns the loaded list without the songs with the id |
| Storage.SongStore.UpdateSong | guitar-app/lib/storage.ts:39-45 | stores and returns the loaded list with the songs with the id patched |
| Storage.SongStore.ResetSongs | guitar-app/lib/storage.ts:47-53 | stores the initial songs array and returns it |
| Storage.AddThenReset | guitar-app/lib/storage.ts:12-53 | after a first-ever add, a reset restores the initial songs with the added song still in them |
| SongsLibrary.ParseChords | guitar-app/components/SongsLibrary.tsx:44 | parsing the chords field yields only non-empty, trimmed, comma-free names |
| SongsLibrary.ParseJoinedChords | guitar-app/components/SongsLibrary.tsx:72 | parsing the `', '`-joined chords of a song gives its chords back |
| SongsLibrary.OptionalText | guitar-app/components/SongsLibrary.tsx:45-46 | an empty field becomes a missing key, any other text is kept |
| SongsLibrary.TextOf | guitar-app/components/SongsLibrary.tsx:73-74 | a missing key shows as an empty field, a present one as its text |
| SongsLibrary.TextRoundTrip | guitar-app/components/SongsLibrary.tsx:45-46 | storing a field and showing it again gives the field back |
| SongsLibrary.OptionalRoundTrip | guitar-app/components/SongsLibrary.tsx:73-74 | showing a stored text and storing it again gives it back, except an empty string, which becomes missing |
| SongsLibrary.NewSong | guitar-app/components/SongsLibrary.tsx:39-47 | the new song carries the id, the typed title, artist and language, exactly the parsed chords of the chords field (all well-formed), and lyrics and notes that are never empty strings and show as typed |
| SongsLibrary.EditForm | guitar-app/components/SongsLibrary.tsx:68-76 | the edit form shows the song's fields, its chords joined with `', '` and missing texts as empty |
| SongsLibrary.EditedSong | guitar-app/components/SongsLibrary.tsx:84-94 | the edited song keeps the selected song's id and is built from the form like a new song |
| SongsLibrary.SaveUnchangedEdit | guitar-app/components/SongsLibrary.tsx:66-100 | opening a well-formed song for editing and saving without changes gives the same song |
| SongsLibrary.NewSongSurvivesEdit | guitar-app/components/SongsLibrary.tsx:34-100 | every song the add form creates survives an unchanged edit |
| SongsLibrary.EditKeepsUntouchedFields | guitar-app/components/SongsLibrary.tsx:84-94 | saving an edit keeps the id, and keeps every field whose form entry was left as the edit view showed it |
| SongsLibrary.JoinChords | guitar-app/components/SongsLibrary.tsx:72 | the chords joined by `", "` for the edit form (no contract; its partners are JoinedPieces and ParseJoinedChords) |
| SongsLibrary.MissingRequired | guitar-app/components/SongsLibrary.tsx:35-35 | the required-field check: an empty title or an empty artist (no contract; the handlers' contracts use it) |
| SongsLibrary.FilterByLanguage | guitar-app/components/SongsLibrary.tsx:394 | the listed songs are exactly those in the chosen language, in list order; all of them under "all" |
| SongsLibrary.LanguageCountsAddUp | guitar-app/components/SongsLibrary.tsx:386 | the Greek and English counts add up to the count under "all" |
| SongsLibrary.Library.constructor | guitar-app/components/SongsLibrary.tsx:8-28 | the screen starts with no songs, nothing open, filter "all" and blank forms |
| SongsLibrary.Library.Mount | guitar-app/components/SongsLibrary.tsx:30-32 | on mount the screen shows the stored songs; with a window and no stored list, the initial songs are written to the slot |
| SongsLibrary.Library.HandleAddSong | guitar-app/components/SongsLibrary.tsx:34-54 | without a title or an artist nothing changes; otherwise the new song is appended and stored, the list is shown, and the form is cleared and closed; on a first visit the initial songs array itself receives the new song |
| SongsLibrary.Library.HandleDeleteSong | guitar-app/components/SongsLibrary.tsx:56-64 | when confirmed, the song is removed and stored, and an open view of it is closed; unconfirmed, nothing changes |
| SongsLibrary.Library.HandleEditSong | guitar-app/components/SongsLibrary.tsx:66-78 | with a song open, the edit form is filled from it and edit mode starts |
| SongsLibrary.Library.HandleSaveEdit | guitar-app/components/SongsLibrary.tsx:80-100 | without an open song, a title or an artist nothing changes; otherwise the edited song replaces the stored songs with its id, is shown, and edit mode ends |
| SongsLibrary.Library.HandleCancelEdit | guitar-app/components/SongsLibrary.tsx:102-105 | edit mode ends and the edit form is cleared |
| SongsLibrary.SavedEditShown | guitar-app/components/SongsLibrary.tsx:95-97 | after a save every stored song with the edited id is the edited song and every other song is unchanged |

## Left out

- Audio capture is not modelled: the Web Audio graph, microphone permission, the analyser, `requestAnimationFrame` scheduling and `stopTuner`. A captured frame is a parameter of `UpdatePitch`.
- `noteFromPitch` and `centsOffFromPitch` use logarithms, which have no Dafny counterpart. They are passed in as functions. `Ingest` requires the note function to give a note number of at least 0 on (60, 1000); the logarithmic formula gives 35 to 83 there.
- Samples are exact reals: the Float32 rounding of the frame and the double rounding of the arithmetic are not modelled.
- The `r1` scan of `autoCorrelate` (its first loop) is not modelled. Its result is never used.
- A zero refined period, where the source divides by zero and gets Infinity, is modelled as no pitch. The range gate rejects Infinity as well.
- `playChord`'s sound is not modelled: the oscillators, gains, timing and the frequency `open * 2^(fret/12)`. The model keeps which strings sound at which fret.
- Storage is not modelled as text: JSON serialisation is the identity, and `localStorage` is a field of the store. The only difference: a key present with the value `undefined` is treated like a missing key, as JSON drops it.
- `Date.now()` is not modelled: its text is the `now` parameter of `HandleAddSong`.
- Browser dialogs are not modelled: `confirm`'s answer is the `confirmed` parameter, and `alert` is not modelled.
- The JSX rendering is not modelled: the chord diagrams, the song cards, the detail and edit views, and the inline click handlers that only set state (toggle the add form, pick a language, open a song, and close the detail view, which also leaves edit mode).
- Authentication and the Supabase client are not part of this model, and neither is the page shell.
- Strings.ToLower: lowers ASCII letters only; other letters of the chord search text stay as typed, where `toLowerCase` would lower them. Every chord name in the table is ASCII, so for ASCII search text the chord filter keeps the same chords as the source.
- The note display is a (name, octave) pair rather than the concatenated text the tuner shows.
- `autoCorrelate` is one function in the source; in the model its loops live in helper methods (`Energy`, `FillCorrelations`, `DescentWalk`, `PeakSearch`, `RefineAt`), each proved against its specification function.
