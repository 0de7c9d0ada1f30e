/** The song store of guitar-app/lib/storage.ts: one storage slot holding the
    song list, read and written whole. The slot is a field (`None` = no entry
    under the key); JSON serialisation is the identity. `hasWindow` is false
    when the code runs without a browser window, where nothing is stored.

    JavaScript arrays are references: `SongList` is one, so that the model
    keeps the one case where two names denote the same array: on a first-ever
    load, `loadSongs` returns the module's `initialSongs` array itself, and
    an `addSong` then pushes into it. */
module Storage {
  import opened Seqs
  import opened Types

  /** A JavaScript array of songs. */
  class SongList {
    var items: seq<Song>

    constructor (items: seq<Song>)
      ensures this.items == items
    {
      this.items := items;
    }
  }

  /** `Partial<Song>`: each key present (`Some`) or absent (`None`). The
      optional keys can be present with the value `undefined`, hence the
      nested option. */
  datatype SongPatch = SongPatch(
    id: Option<string>,
    title: Option<string>,
    artist: Option<string>,
    chords: Option<seq<string>>,
    lyrics: Option<Option<string>>,
    notes: Option<Option<string>>,
    language: Option<Language>)

  const NoChanges: SongPatch := SongPatch(None, None, None, None, None, None, None)

  /** A whole song used as a patch: every key present. */
  function AsPatch(s: Song): SongPatch {
    SongPatch(Some(s.id), Some(s.title), Some(s.artist), Some(s.chords), Some(s.lyrics), Some(s.notes), Some(s.language))
  }

  /** `{ ...song, ...patch }`: the patch's keys win. */
  function Merge(song: Song, patch: SongPatch): (r: Song)
    ensures r.id == (if patch.id.Some? then patch.id.value else song.id)
    ensures r.title == (if patch.title.Some? then patch.title.value else song.title)
    ensures r.artist == (if patch.artist.Some? then patch.artist.value else song.artist)
    ensures r.chords == (if patch.chords.Some? then patch.chords.value else song.chords)
    ensures r.lyrics == (if patch.lyrics.Some? then patch.lyrics.value else song.lyrics)
    ensures r.notes == (if patch.notes.Some? then patch.notes.value else song.notes)
    ensures r.language == (if patch.language.Some? then patch.language.value else song.language)
  {
    Song(
      patch.id.GetOr(song.id),
      patch.title.GetOr(song.title),
      patch.artist.GetOr(song.artist),
      patch.chords.GetOr(song.chords),
      patch.lyrics.GetOr(song.lyrics),
      patch.notes.GetOr(song.notes),
      patch.language.GetOr(song.language))
  }

  /** A patch without keys leaves a song as it is. */
  lemma MergeNothing(song: Song)
    ensures Merge(song, NoChanges) == song
  {
  }

  /** A whole song as a patch replaces every field. */
  lemma MergeWholeSong(song: Song, u: Song)
    ensures Merge(song, AsPatch(u)) == u
  {
  }

  /** Applying the same patch twice is applying it once. */
  lemma MergeIdempotent(song: Song, patch: SongPatch)
    ensures Merge(Merge(song, patch), patch) == Merge(song, patch)
  {
  }

  function OtherId(id: string): Song -> bool {
    (s: Song) => s.id != id
  }

  /** `songs.filter(song => song.id !== id)`: no song with `id` is left, every
      other song stays, in its original order. */
  function DeleteById(songs: seq<Song>, id: string): (r: seq<Song>)
    ensures forall s :: s in r ==> s.id != id
    ensures forall s :: s in songs && s.id != id ==> s in r
    ensures IsSubsequence(r, songs)
    ensures forall x :: multiset(r)[x] == if x.id != id then multiset(songs)[x] else 0
  {
    Filter(songs, OtherId(id))
  }

  /** Deleting the same id twice is deleting it once. */
  lemma DeleteIdempotent(songs: seq<Song>, id: string)
    ensures DeleteById(DeleteById(songs, id), id) == DeleteById(songs, id)
  {
    FilterIdempotent(songs, OtherId(id));
  }

  /** Deleting an id no song has leaves the list as it is, duplicates included. */
  lemma DeleteAbsentId(songs: seq<Song>, id: string)
    requires forall s :: s in songs ==> s.id != id
    ensures DeleteById(songs, id) == songs
  {
    FilterKeepsAll(songs, OtherId(id));
  }

  /** `songs.map(song => song.id === id ? { ...song, ...patch } : song)`: same
      length and order, each song with `id` patched, the others unchanged. */
  function UpdateById(songs: seq<Song>, id: string, patch: SongPatch): (r: seq<Song>)
    ensures |r| == |songs|
    ensures forall i :: 0 <= i < |songs| && songs[i].id != id ==> r[i] == songs[i]
    ensures forall i :: 0 <= i < |songs| && songs[i].id == id ==> r[i] == Merge(songs[i], patch)
  {
    if songs == [] then []
    else [if songs[0].id == id then Merge(songs[0], patch) else songs[0]] + UpdateById(songs[1..], id, patch)
  }

  /** Saving a whole song under its own id puts exactly that song wherever the id was. */
  lemma UpdateWithWholeSong(songs: seq<Song>, u: Song)
    ensures forall i :: 0 <= i < |songs| && songs[i].id == u.id ==> UpdateById(songs, u.id, AsPatch(u))[i] == u
  {
  }

  /** Applying the same update twice is applying it once. */
  lemma {:induction false} UpdateIdempotent(songs: seq<Song>, id: string, patch: SongPatch)
    ensures UpdateById(UpdateById(songs, id, patch), id, patch) == UpdateById(songs, id, patch)
  {
    var once := UpdateById(songs, id, patch);
    var twice := UpdateById(once, id, patch);
    forall i | 0 <= i < |songs| ensures twice[i] == once[i] {
      if songs[i].id == id {
        MergeIdempotent(songs[i], patch);
      }
    }
  }

  /** The storage slot, and the module's `initialSongs` array. */
  class SongStore {
    const hasWindow: bool
    const initialSongs: SongList
    var slot: Option<seq<Song>>

    constructor (hasWindow: bool, slot: Option<seq<Song>>, initial: seq<Song>)
      ensures this.hasWindow == hasWindow && this.slot == slot
      ensures fresh(initialSongs) && initialSongs.items == initial
    {
      this.hasWindow := hasWindow;
      this.slot := slot;
      initialSongs := new SongList(initial);
    }

    /** The list `loadSongs` returns in the current state. */
    function Current(): seq<Song>
      reads this, initialSongs
    {
      if !hasWindow then [] else if slot.Some? then slot.value else initialSongs.items
    }

    /** `saveSongs`: write the list, when there is a window. */
    method SaveSongs(songs: seq<Song>)
      modifies this
      ensures slot == (if hasWindow then Some(songs) else old(slot))
    {
      if hasWindow {
        slot := Some(songs);
      }
    }

    /** `loadSongs`: the stored list (a fresh array parsed from the slot); on a
        first-ever call, `initialSongs` itself after storing it; without a
        window, a fresh empty array and no write. */
    method LoadSongs() returns (list: SongList)
      modifies this
      ensures list.items == old(Current())
      ensures hasWindow && old(slot).None? ==> list == initialSongs && slot == Some(initialSongs.items)
      ensures !(hasWindow && old(slot).None?) ==> fresh(list) && slot == old(slot)
      ensures Current() == old(Current())
    {
      if hasWindow {
        if slot.Some? {
          list := new SongList(slot.value);
        } else {
          SaveSongs(initialSongs.items);
          list := initialSongs;
        }
      } else {
        list := new SongList([]);
      }
    }

    /** `addSong`: push onto the loaded array, store it and return it. On a
        first-ever call the loaded array is `initialSongs`, which then keeps
        the new song too. */
    method AddSong(song: Song) returns (list: SongList)
      modifies this, initialSongs
      ensures list.items == old(Current()) + [song]
      ensures slot == (if hasWindow then Some(list.items) else old(slot))
      ensures list == initialSongs <==> hasWindow && old(slot).None?
      ensures initialSongs.items == if hasWindow && old(slot).None? then old(initialSongs.items) + [song] else old(initialSongs.items)
    {
      list := LoadSongs();
      list.items := list.items + [song];
      SaveSongs(list.items);
    }

    /** `deleteSong`: store and return the loaded list without the songs with `id`. */
    method DeleteSong(id: string) returns (list: SongList)
      modifies this
      ensures fresh(list) && list.items == DeleteById(old(Current()), id)
      ensures slot == (if hasWindow then Some(list.items) else old(slot))
    {
      var loaded := LoadSongs();
      list := new SongList(DeleteById(loaded.items, id));
      SaveSongs(list.items);
    }

    /** `updateSong`: store and return the loaded list with the songs with `id` patched. */
    method UpdateSong(id: string, patch: SongPatch) returns (list: SongList)
      modifies this
      ensures fresh(list) && list.items == UpdateById(old(Current()), id, patch)
      ensures slot == (if hasWindow then Some(list.items) else old(slot))
    {
      var loaded := LoadSongs();
      list := new SongList(UpdateById(loaded.items, id, patch));
      SaveSongs(list.items);
    }

    /** `resetSongs`: clear the slot, store `initialSongs` and return that array. */
    method ResetSongs() returns (list: SongList)
      modifies this
      ensures list == initialSongs
      ensures slot == (if hasWindow then Some(initialSongs.items) else old(slot))
      ensures hasWindow ==> Current() == initialSongs.items
    {
      if hasWindow {
        slot := None;
      }
      SaveSongs(initialSongs.items);
      list := initialSongs;
    }
  }

  /** With an empty slot, `addSong` followed by `resetSongs` stores and returns
      the initial songs with the added song still in them. */
  method AddThenReset(store: SongStore, song: Song) returns (restored: seq<Song>)
    requires store.hasWindow && store.slot.None?
    modifies store, store.initialSongs
    ensures restored == old(store.initialSongs.items) + [song]
    ensures store.slot == Some(restored)
  {
    var added := store.AddSong(song);
    var reset := store.ResetSongs();
    restored := reset.items;
  }
}
