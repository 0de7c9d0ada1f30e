/** The song screen of guitar-app/components/SongsLibrary.tsx: its state, the
    event handlers that change it, and the text conversions between a song
    and the add/edit form. The browser's `alert` is left out; `confirm`'s
    answer and `Date.now()` rendered as text are inputs of the handlers. */
module SongsLibrary {
  import opened Seqs
  import opened Strings
  import opened Types
  import opened Storage

  /** The add and edit forms: every field is text, the chords comma separated. */
  datatype SongForm = SongForm(
    title: string,
    artist: string,
    chords: string,
    lyrics: string,
    notes: string,
    language: Language)

  const BlankForm: SongForm := SongForm("", "", "", "", "", English)

  /** A chord name as the form stores it: non-empty, trimmed, without a comma. */
  predicate IsChordName(c: string) {
    c != "" && IsTrimmed(c) && ',' !in c
  }

  /** `.map((c) => c.trim()).filter(Boolean)` over the pieces: each piece
      trimmed, blank ones dropped, in order. */
  function TrimmedNames(parts: seq<string>): seq<string> {
    if parts == [] then []
    else
      var t := Trim(parts[0]);
      (if t == "" then [] else [t]) + TrimmedNames(parts[1..])
  }

  /** Trimmed comma-free pieces that are not blank are chord names. */
  lemma {:induction false} TrimmedNamesAreNames(parts: seq<string>)
    requires forall i :: 0 <= i < |parts| ==> ',' !in parts[i]
    ensures forall c :: c in TrimmedNames(parts) ==> IsChordName(c)
  {
    if parts != [] {
      TrimmedNamesAreNames(parts[1..]);
      assert ',' !in parts[0];
    }
  }

  /** Pieces that trim to given chord names yield exactly those names. */
  lemma {:induction false} TrimmedNamesOfNames(parts: seq<string>, chords: seq<string>)
    requires |parts| == |chords|
    requires forall i :: 0 <= i < |parts| ==> Trim(parts[i]) == chords[i] && chords[i] != ""
    ensures TrimmedNames(parts) == chords
  {
    if parts != [] {
      TrimmedNamesOfNames(parts[1..], chords[1..]);
      assert chords == [chords[0]] + chords[1..];
    }
  }

  /** `text.split(',').map((c) => c.trim()).filter(Boolean)`: only chord names
      come out, one per comma-separated piece that is not blank. */
  function ParseChords(text: string): (r: seq<string>)
    ensures forall c :: c in r ==> IsChordName(c)
  {
    TrimmedNamesAreNames(Split(text, ','));
    TrimmedNames(Split(text, ','))
  }

  /** `chords.join(', ')`, the text the edit form shows. */
  function JoinChords(chords: seq<string>): string {
    Join(chords, ", ")
  }

  /** The pieces of the joined text are the chords, each after the first led by a blank. */
  lemma JoinedPieces(chords: seq<string>)
    requires chords != []
    requires forall i :: 0 <= i < |chords| ==> IsChordName(chords[i])
    ensures |Split(JoinChords(chords), ',')| == |chords|
    ensures Split(JoinChords(chords), ',')[0] == chords[0]
    ensures forall i :: 1 <= i < |chords| ==> Split(JoinChords(chords), ',')[i] == [' '] + chords[i]
  {
    assert ", " == [','] + " ";
    assert "" + JoinChords(chords) == JoinChords(chords);
    SplitOfJoin("", chords, ',', " ");
  }

  /** Parsing the text the edit form shows gives back the song's chords. */
  lemma ParseJoinedChords(chords: seq<string>)
    requires forall c :: c in chords ==> IsChordName(c)
    ensures ParseChords(JoinChords(chords)) == chords
  {
    if chords == [] {
      assert Split("", ',') == [""];
      assert Trim("") == "";
      assert TrimmedNames([""]) == [];
    } else {
      assert forall i :: 0 <= i < |chords| ==> IsChordName(chords[i]);
      JoinedPieces(chords);
      var pieces := Split(JoinChords(chords), ',');
      forall i | 0 <= i < |chords| ensures Trim(pieces[i]) == chords[i] {
        if i == 0 {
          TrimOfTrimmed(chords[0]);
        } else {
          TrimLeadingBlank(chords[i]);
        }
      }
      TrimmedNamesOfNames(pieces, chords);
    }
  }

  /** `text || undefined`: an empty field is stored as a missing key. */
  function OptionalText(text: string): (r: Option<string>)
    ensures r.None? <==> text == ""
    ensures r.Some? ==> r.value == text
  {
    if text == "" then None else Some(text)
  }

  /** `text || ''`: a missing (or empty) key is shown as an empty field. */
  function TextOf(o: Option<string>): (r: string)
    ensures o.Some? ==> r == o.value
    ensures o.None? ==> r == ""
  {
    o.GetOr("")
  }

  /** Storing a field and showing it again gives the field back. */
  lemma TextRoundTrip(text: string)
    ensures TextOf(OptionalText(text)) == text
  {
  }

  /** Showing a stored text and storing it again gives it back, unless it was an
      empty string, which comes back as a missing key. */
  lemma OptionalRoundTrip(o: Option<string>)
    ensures OptionalText(TextOf(o)) == (if o == Some("") then None else o)
  {
  }

  /** The required-field check of both handlers: an empty title or artist. */
  predicate MissingRequired(form: SongForm) {
    form.title == "" || form.artist == ""
  }

  /** The song `handleAddSong` builds from the add form, under the id `id`:
      title, artist and language as typed, the parsed chords, and the lyrics
      and notes unless their fields are empty. */
  function NewSong(form: SongForm, id: string): (r: Song)
    ensures r.id == id
    ensures r.title == form.title && r.artist == form.artist && r.language == form.language
    ensures r.chords == ParseChords(form.chords) && forall c :: c in r.chords ==> IsChordName(c)
    ensures r.lyrics != Some("") && TextOf(r.lyrics) == form.lyrics
    ensures r.notes != Some("") && TextOf(r.notes) == form.notes
  {
    Song(id, form.title, form.artist, ParseChords(form.chords), OptionalText(form.lyrics), OptionalText(form.notes), form.language)
  }

  /** The edit form `handleEditSong` fills in from a song. */
  function EditForm(song: Song): (r: SongForm)
    ensures r.title == song.title && r.artist == song.artist && r.language == song.language
    ensures r.chords == JoinChords(song.chords)
    ensures r.lyrics == TextOf(song.lyrics) && r.notes == TextOf(song.notes)
  {
    SongForm(song.title, song.artist, JoinChords(song.chords), TextOf(song.lyrics), TextOf(song.notes), song.language)
  }

  /** The song `handleSaveEdit` builds: the selected song with every form field
      applied; the id stays. */
  function EditedSong(selected: Song, form: SongForm): (r: Song)
    ensures r.id == selected.id
    ensures r == NewSong(form, selected.id)
  {
    Song(selected.id, form.title, form.artist, ParseChords(form.chords), OptionalText(form.lyrics), OptionalText(form.notes), form.language)
  }

  /** A song the form could have produced, opened for editing and saved
      without changes, is the same song. */
  lemma {:induction false} SaveUnchangedEdit(song: Song)
    requires forall c :: c in song.chords ==> IsChordName(c)
    requires song.lyrics != Some("") && song.notes != Some("")
    ensures EditedSong(song, EditForm(song)) == song
  {
    ParseJoinedChords(song.chords);
    OptionalRoundTrip(song.lyrics);
    OptionalRoundTrip(song.notes);
  }

  /** Saving an edit keeps every field of a well-formed song whose form field
      was left as `handleEditSong` filled it in, and the id always. */
  lemma {:induction false} EditKeepsUntouchedFields(song: Song, form: SongForm)
    requires forall c :: c in song.chords ==> IsChordName(c)
    requires song.lyrics != Some("") && song.notes != Some("")
    ensures EditedSong(song, form).id == song.id
    ensures form.title == EditForm(song).title ==> EditedSong(song, form).title == song.title
    ensures form.artist == EditForm(song).artist ==> EditedSong(song, form).artist == song.artist
    ensures form.chords == EditForm(song).chords ==> EditedSong(song, form).chords == song.chords
    ensures form.lyrics == EditForm(song).lyrics ==> EditedSong(song, form).lyrics == song.lyrics
    ensures form.notes == EditForm(song).notes ==> EditedSong(song, form).notes == song.notes
    ensures form.language == EditForm(song).language ==> EditedSong(song, form).language == song.language
  {
    ParseJoinedChords(song.chords);
    OptionalRoundTrip(song.lyrics);
    OptionalRoundTrip(song.notes);
  }

  /** Every song the add form produces survives an unchanged edit. */
  lemma NewSongSurvivesEdit(form: SongForm, id: string)
    ensures EditedSong(NewSong(form, id), EditForm(NewSong(form, id))) == NewSong(form, id)
  {
    SaveUnchangedEdit(NewSong(form, id));
  }

  /** The language buttons: all songs, or one language. */
  datatype LanguageFilter = AllLanguages | OnlyLanguage(language: Language)

  function Shown(filter: LanguageFilter): Song -> bool {
    (s: Song) => filter.AllLanguages? || s.language == filter.language
  }

  /** The songs listed (and counted in the heading) under a language filter:
      those in that language, in list order; all of them under "all". */
  function FilterByLanguage(songs: seq<Song>, filter: LanguageFilter): (r: seq<Song>)
    ensures IsSubsequence(r, songs)
    ensures forall s :: s in r <==> s in songs && (filter.AllLanguages? || s.language == filter.language)
    ensures filter.AllLanguages? ==> r == songs
  {
    if filter.AllLanguages? then
      FilterKeepsAll(songs, Shown(filter));
      Filter(songs, Shown(filter))
    else
      Filter(songs, Shown(filter))
  }

  /** The Greek and the English counts add up to the count under "all". */
  lemma LanguageCountsAddUp(songs: seq<Song>)
    ensures |FilterByLanguage(songs, OnlyLanguage(Greek))| + |FilterByLanguage(songs, OnlyLanguage(English))|
      == |FilterByLanguage(songs, AllLanguages)|
  {
    FilterPartition(songs, Shown(OnlyLanguage(Greek)), Shown(OnlyLanguage(English)));
  }

  /** The component's state, over the song store. */
  class Library {
    const store: SongStore
    var songs: seq<Song>
    var showAddForm: bool
    var selectedSong: Option<Song>
    var editMode: bool
    var languageFilter: LanguageFilter
    var newSong: SongForm
    var editedSong: SongForm

    constructor (store: SongStore)
      ensures this.store == store
      ensures songs == [] && !showAddForm && selectedSong.None? && !editMode
      ensures languageFilter == AllLanguages && newSong == BlankForm && editedSong == BlankForm
    {
      this.store := store;
      songs := [];
      showAddForm := false;
      selectedSong := None;
      editMode := false;
      languageFilter := AllLanguages;
      newSong := BlankForm;
      editedSong := BlankForm;
    }

    /** On mount: show the stored songs (storing the initial ones on a first visit). */
    method Mount()
      modifies this, store
      ensures songs == old(store.Current())
      ensures store.Current() == old(store.Current())
      ensures store.slot == (if store.hasWindow then Some(old(store.Current())) else old(store.slot))
      ensures showAddForm == old(showAddForm) && selectedSong == old(selectedSong) && editMode == old(editMode)
      ensures languageFilter == old(languageFilter) && newSong == old(newSong) && editedSong == old(editedSong)
    {
      var list := store.LoadSongs();
      songs := list.items;
    }

    /** `handleAddSong`: without a title or an artist nothing changes;
        otherwise the new song, under the id `now`, is appended to the stored
        list, which is shown; the form is cleared and closed. */
    method HandleAddSong(now: string)
      modifies this, store, store.initialSongs
      ensures MissingRequired(old(newSong)) ==>
        songs == old(songs) && newSong == old(newSong) && showAddForm == old(showAddForm)
        && store.slot == old(store.slot) && store.initialSongs.items == old(store.initialSongs.items)
      ensures !MissingRequired(old(newSong)) ==>
        songs == old(store.Current()) + [NewSong(old(newSong), now)]
        && store.slot == (if store.hasWindow then Some(songs) else old(store.slot))
        && store.initialSongs.items == (if store.hasWindow && old(store.slot).None?
             then old(store.initialSongs.items) + [NewSong(old(newSong), now)]
             else old(store.initialSongs.items))
        && newSong == BlankForm && !showAddForm
      ensures selectedSong == old(selectedSong) && editMode == old(editMode)
      ensures editedSong == old(editedSong) && languageFilter == old(languageFilter)
    {
      if MissingRequired(newSong) {
        return;
      }
      var song := NewSong(newSong, now);
      var list := store.AddSong(song);
      songs := list.items;
      newSong := BlankForm;
      showAddForm := false;
    }

    /** `handleDeleteSong`: when the user confirms, the song is removed from
        the stored list, the rest is shown, and an open detail view of that
        song is closed. */
    method HandleDeleteSong(id: string, confirmed: bool)
      modifies this, store
      ensures !confirmed ==> songs == old(songs) && selectedSong == old(selectedSong) && store.slot == old(store.slot)
      ensures confirmed ==>
        songs == DeleteById(old(store.Current()), id)
        && store.slot == (if store.hasWindow then Some(songs) else old(store.slot))
      ensures confirmed && old(selectedSong).Some? && old(selectedSong).value.id == id ==> selectedSong.None?
      ensures !(confirmed && old(selectedSong).Some? && old(selectedSong).value.id == id) ==> selectedSong == old(selectedSong)
      ensures showAddForm == old(showAddForm) && editMode == old(editMode) && languageFilter == old(languageFilter)
      ensures newSong == old(newSong) && editedSong == old(editedSong)
    {
      if confirmed {
        var list := store.DeleteSong(id);
        songs := list.items;
        if selectedSong.Some? && selectedSong.value.id == id {
          selectedSong := None;
        }
      }
    }

    /** `handleEditSong`: with a song open, fill the edit form from it and
        switch to edit mode. */
    method HandleEditSong()
      modifies this
      ensures old(selectedSong).None? ==> editedSong == old(editedSong) && editMode == old(editMode)
      ensures old(selectedSong).Some? ==> editedSong == EditForm(old(selectedSong).value) && editMode
      ensures songs == old(songs) && selectedSong == old(selectedSong) && showAddForm == old(showAddForm)
      ensures languageFilter == old(languageFilter) && newSong == old(newSong)
    {
      if selectedSong.None? {
        return;
      }
      editedSong := EditForm(selectedSong.value);
      editMode := true;
    }

    /** `handleSaveEdit`: without an open song, a title or an artist nothing
        changes; otherwise the edited song replaces every stored song with its
        id, the stored list is shown, the detail view shows the edited song
        and edit mode ends. */
    method HandleSaveEdit()
      modifies this, store
      ensures old(selectedSong).None? || MissingRequired(old(editedSong)) ==>
        songs == old(songs) && selectedSong == old(selectedSong) && editMode == old(editMode)
        && store.slot == old(store.slot)
      ensures old(selectedSong).Some? && !MissingRequired(old(editedSong)) ==>
        var edited := EditedSong(old(selectedSong).value, old(editedSong));
        songs == UpdateById(old(store.Current()), edited.id, AsPatch(edited))
        && store.slot == (if store.hasWindow then Some(songs) else old(store.slot))
        && selectedSong == Some(edited) && !editMode
      ensures showAddForm == old(showAddForm) && languageFilter == old(languageFilter)
      ensures newSong == old(newSong) && editedSong == old(editedSong)
    {
      if selectedSong.None? || MissingRequired(editedSong) {
        return;
      }
      var edited := EditedSong(selectedSong.value, editedSong);
      var list := store.UpdateSong(selectedSong.value.id, AsPatch(edited));
      songs := list.items;
      selectedSong := Some(edited);
      editMode := false;
    }

    /** `handleCancelEdit`: leave edit mode and clear the edit form. */
    method HandleCancelEdit()
      modifies this
      ensures !editMode && editedSong == BlankForm
      ensures songs == old(songs) && selectedSong == old(selectedSong) && showAddForm == old(showAddForm)
      ensures languageFilter == old(languageFilter) && newSong == old(newSong)
    {
      editMode := false;
      editedSong := BlankForm;
    }
  }

  /** After a save, every song the screen lists under the edited id is the
      edited song, and every other song is as stored before. */
  lemma SavedEditShown(stored: seq<Song>, edited: Song)
    ensures |UpdateById(stored, edited.id, AsPatch(edited))| == |stored|
    ensures forall i :: 0 <= i < |stored| && stored[i].id == edited.id ==> UpdateById(stored, edited.id, AsPatch(edited))[i] == edited
    ensures forall i :: 0 <= i < |stored| && stored[i].id != edited.id ==> UpdateById(stored, edited.id, AsPatch(edited))[i] == stored[i]
  {
    UpdateWithWholeSong(stored, edited);
  }
}
