/**
 * The in-memory song index: the catalogue scan that turns media-store rows into songs,
 * the id→song map and scan-order list that are replaced on every update, and the
 * five-minute staleness rule.
 */
module SongCacheManager {
  import opened Wrappers
  import opened Seqs
  import opened Codec
  import opened Media

  /** Shortest track (in ms) the catalogue query selects. */
  const MIN_DURATION_MS := 10000

  /** `CACHE_UPDATE_INTERVAL`: five minutes in ms. */
  const CACHE_UPDATE_INTERVAL := 5 * 60 * 1000

  /** The base URI of audio items, to which an item's id is appended. */
  const EXTERNAL_CONTENT_URI := "content://media/external/audio/media"

  /** One catalogue row with the queried columns; nullable text columns are `Option`. */
  datatype RawRow = RawRow(
    id: Long,
    title: Option<string>,
    artist: Option<string>,
    album: Option<string>,
    albumId: Long,
    duration: Long,
    dateAddedSeconds: Long,
    year: Option<string>,
    genre: Option<string>,
    data: Option<string>,
    isMusic: int)

  /** The query's selection: a music item at least ten seconds long. */
  predicate Selected(row: RawRow)
    ensures Selected(row) ==> row.duration >= MIN_DURATION_MS && row.isMusic != 0
  {
    row.isMusic != 0 && row.duration >= MIN_DURATION_MS
  }

  /** The rows the query returns: those of the table that pass the selection, in table order. */
  function SelectedRows(table: seq<RawRow>): (r: seq<RawRow>)
    ensures forall i :: 0 <= i < |r| ==> Selected(r[i])
  {
    Filter(table, Selected)
  }

  /** `Uri.withAppendedPath(EXTERNAL_CONTENT_URI, id.toString())`. */
  function ContentUri(id: Long): string {
    EXTERNAL_CONTENT_URI + "/" + LongToString(id)
  }

  /** The song built from one row; `favorites` is the stored favourite set that `isFavorite` consults. */
  function ConvertRow(row: RawRow, favorites: seq<Long>): (r: Song)
    ensures r.id == row.id && r.albumId == row.albumId && r.duration == row.duration && r.uri == ContentUri(row.id)
    ensures r.title == (if row.title.Some? then row.title.value else "Unknown Title")
    ensures r.artist.Some? && (row.artist.Some? ==> r.artist == row.artist)
    ensures r.album == row.album && r.year == row.year && r.genre == row.genre && r.path == row.data
    ensures r.isFavorite <==> row.id in favorites
  {
    Song(row.id,
         row.title.OrElse("Unknown Title"),
         Some(row.artist.OrElse("Unknown Artist")),
         row.albumId,
         row.album,
         row.year,
         row.genre,
         ContentUri(row.id),
         row.duration,
         WrapLong(row.dateAddedSeconds * 1000),
         row.data,
         row.id in favorites)
  }

  function ConvertRows(rows: seq<RawRow>, favorites: seq<Long>): (r: seq<Song>)
    ensures |r| == |rows|
    ensures forall i :: 0 <= i < |rows| ==> r[i] == ConvertRow(rows[i], favorites)
  {
    seq(|rows|, i requires 0 <= i < |rows| => ConvertRow(rows[i], favorites))
  }

  /** The rows a cursor loop reads before reading row `failAt` throws: all of them when none does. */
  function ReadUntil(rows: seq<RawRow>, failAt: Option<nat>): (r: seq<RawRow>)
    ensures |r| <= |rows| && r == rows[..|r|]
    ensures failAt.None? || failAt.value >= |rows| ==> r == rows
    ensures failAt.Some? && failAt.value < |rows| ==> |r| == failAt.value
  {
    match failAt
    case Some(k) => if k < |rows| then rows[..k] else rows
    case None => rows
  }

  /**
   * The rows the scan reaches: none when no cursor was returned, otherwise the selected rows
   * in cursor order, cut short at row `failAt` when reading that row throws.
   */
  function ScannedRows(table: seq<RawRow>, cursorOpened: bool, failAt: Option<nat>): (r: seq<RawRow>)
    ensures forall i :: 0 <= i < |r| ==> Selected(r[i])
  {
    if !cursorOpened then [] else ReadUntil(SelectedRows(table), failAt)
  }

  /**
   * The catalogue scan. `table` stands for the query's result in the order it returns rows
   * (by title); the selection filter is applied here. An exception while reading row `failAt`
   * ends the scan and the songs collected so far are returned.
   */
  method LoadSongsFromMediaStore(table: seq<RawRow>, favorites: seq<Long>, cursorOpened: bool, failAt: Option<nat>)
    returns (songs: seq<Song>)
    ensures songs == ConvertRows(ScannedRows(table, cursorOpened, failAt), favorites)
  {
    songs := [];
    if !cursorOpened {
      return;
    }
    songs := ReadCursor(SelectedRows(table), favorites, failAt);
  }

  /** The `while (it.moveToNext())` loop: one song per row, in cursor order, until a read throws. */
  method ReadCursor(rows: seq<RawRow>, favorites: seq<Long>, failAt: Option<nat>) returns (songs: seq<Song>)
    ensures songs == ConvertRows(ReadUntil(rows, failAt), favorites)
  {
    songs := [];
    var i := 0;
    while i < |rows|
      invariant 0 <= i <= |rows|
      invariant failAt.Some? ==> i <= failAt.value
      invariant songs == ConvertRows(rows[..i], favorites)
    {
      if failAt == Some(i) {
        return;
      }
      var song := ConvertRow(rows[i], favorites);
      ConvertRowsSnoc(rows, i, favorites, songs, song);
      songs := songs + [song];
      i := i + 1;
    }
    assert rows[..i] == rows;
  }

  lemma ConvertRowsSnoc(rows: seq<RawRow>, i: int, favorites: seq<Long>, songs: seq<Song>, song: Song)
    requires 0 <= i < |rows|
    requires songs == ConvertRows(rows[..i], favorites) && song == ConvertRow(rows[i], favorites)
    ensures songs + [song] == ConvertRows(rows[..i + 1], favorites)
  {
    assert rows[..i + 1] == rows[..i] + [rows[i]];
  }

  /** Every scanned song passed the selection, keeps its row's id and applies the defaults for missing title and artist. */
  lemma ScannedSongs(table: seq<RawRow>, favorites: seq<Long>, cursorOpened: bool, failAt: Option<nat>, i: int)
    requires 0 <= i < |ScannedRows(table, cursorOpened, failAt)|
    ensures var row := ScannedRows(table, cursorOpened, failAt)[i];
            var song := ConvertRows(ScannedRows(table, cursorOpened, failAt), favorites)[i];
            song.id == row.id && song.duration >= MIN_DURATION_MS &&
            (row.title.None? ==> song.title == "Unknown Title") &&
            (row.artist.None? ==> song.artist == Some("Unknown Artist")) &&
            song.artist.Some? &&
            (song.isFavorite <==> row.id in favorites)
  {
  }

  /** The stored date is the row's seconds times 1000 whenever that fits in a `Long`. */
  lemma DateAddedInMillis(row: RawRow, favorites: seq<Long>)
    requires -0x8000_0000_0000_0000 <= row.dateAddedSeconds * 1000 < 0x8000_0000_0000_0000
    ensures ConvertRow(row, favorites).dateAdded == row.dateAddedSeconds * 1000
  {
  }

  /** A scan cut short by an exception yields a prefix of the full scan. */
  lemma PartialScanIsPrefix(table: seq<RawRow>, favorites: seq<Long>, k: nat)
    ensures var partial := ConvertRows(ScannedRows(table, true, Some(k)), favorites);
            var full := ConvertRows(ScannedRows(table, true, None), favorites);
            |partial| <= |full| && partial == full[..|partial|]
  {
  }

  /** Rows the selection rejects never become songs, and the others all do, in cursor order. */
  lemma FullScan(table: seq<RawRow>, favorites: seq<Long>)
    ensures ScannedRows(table, true, None) == Filter(table, Selected)
    ensures forall i :: 0 <= i < |table| && Selected(table[i]) ==> table[i] in ScannedRows(table, true, None)
    ensures forall i :: 0 <= i < |table| && !Selected(table[i]) ==> table[i] !in ScannedRows(table, true, None)
  {
  }

  /** The id→song map built by `newMap[song.id] = song` over the list: a later song with the same id replaces an earlier one. */
  function IndexById(songs: seq<Song>): (m: map<Long, Song>)
    ensures forall id :: id in m ==> m[id].id == id
  {
    if songs == [] then map[]
    else IndexById(songs[..|songs| - 1])[songs[|songs| - 1].id := songs[|songs| - 1]]
  }

  /** An id is in the index exactly when some song of the list has it. */
  lemma {:induction false} IndexByIdKeys(songs: seq<Song>, id: Long)
    ensures id in IndexById(songs) <==> id in Ids(songs)
    decreases |songs|
  {
    if songs != [] {
      var init := songs[..|songs| - 1];
      IndexByIdKeys(init, id);
      assert Ids(songs) == Ids(init) + [songs[|songs| - 1].id];
    }
  }

  /** The index holds, for each id, the last song of the list with that id. */
  lemma {:induction false} IndexByIdLastWins(songs: seq<Song>, i: int)
    requires 0 <= i < |songs|
    requires forall j :: i < j < |songs| ==> songs[j].id != songs[i].id
    ensures songs[i].id in IndexById(songs) && IndexById(songs)[songs[i].id] == songs[i]
    decreases |songs|
  {
    if i < |songs| - 1 {
      var init := songs[..|songs| - 1];
      IndexByIdLastWins(init, i);
    }
  }

  /** The songs index (`songsCache`, `allSongsCache`) with its freshness state. */
  class SongCache {
    var songsCache: map<Long, Song>
    var allSongsCache: seq<Song>
    var isCacheInitialized: bool
    var lastCacheUpdateTime: Long

    /** The index is the id map of the list: every update installs the two together. */
    predicate Valid()
      reads this
    {
      songsCache == IndexById(allSongsCache)
    }

    constructor()
      ensures songsCache == map[] && allSongsCache == []
      ensures !isCacheInitialized && lastCacheUpdateTime == 0
      ensures Valid()
    {
      songsCache := map[];
      allSongsCache := [];
      isCacheInitialized := false;
      lastCacheUpdateTime := 0;
    }

    /** `getAllSongs()`: the list of the last update, in scan order. */
    function GetAllSongs(): (r: seq<Song>)
      requires Valid()
      reads this
      ensures r == allSongsCache
      ensures forall i :: 0 <= i < |r| ==> GetSongById(r[i].id).Some?
    {
      IndexByIdCovers(allSongsCache);
      allSongsCache
    }

    /** `getSongById(id)`: the indexed song with that id, if any. */
    function GetSongById(id: Long): (r: Option<Song>)
      reads this
      ensures r.Some? <==> id in songsCache
      ensures r.Some? ==> r.value in songsCache.Values
    {
      if id in songsCache then Some(songsCache[id]) else None
    }

    /** `shouldUpdateCache()` at clock reading `now`: never filled, or last filled more than the interval ago. */
    function ShouldUpdateCache(now: Long): (r: bool)
      reads this
      ensures isCacheInitialized && now <= lastCacheUpdateTime + CACHE_UPDATE_INTERVAL ==> !r
      ensures !isCacheInitialized || now > lastCacheUpdateTime + CACHE_UPDATE_INTERVAL ==> r
    {
      !isCacheInitialized || now - lastCacheUpdateTime > CACHE_UPDATE_INTERVAL
    }

    /** `updateCache(songs)`: builds a fresh map and swaps it and the list in, discarding every old entry. */
    method UpdateCache(songs: seq<Song>)
      modifies this
      ensures songsCache == IndexById(songs)
      ensures allSongsCache == songs
      ensures isCacheInitialized == old(isCacheInitialized)
      ensures lastCacheUpdateTime == old(lastCacheUpdateTime)
    {
      var newMap: map<Long, Song> := map[];
      for i := 0 to |songs|
        invariant newMap == IndexById(songs[..i])
      {
        assert songs[..i + 1][..i] == songs[..i];
        newMap := newMap[songs[i].id := songs[i]];
      }
      assert songs[..|songs|] == songs;
      songsCache := map[];
      songsCache := songsCache + newMap;
      allSongsCache := songs;
    }

    /** `initializeCache`: scans once; once the cache is initialised it does nothing. */
    method InitializeCache(table: seq<RawRow>, favorites: seq<Long>, cursorOpened: bool, failAt: Option<nat>, now: Long)
      modifies this
      ensures old(isCacheInitialized) ==> unchanged(this)
      ensures !old(isCacheInitialized) ==>
        var songs := ConvertRows(ScannedRows(table, cursorOpened, failAt), favorites);
        songsCache == IndexById(songs) && allSongsCache == songs &&
        isCacheInitialized && lastCacheUpdateTime == now
    {
      if isCacheInitialized {
        return;
      }
      var songs := LoadSongsFromMediaStore(table, favorites, cursorOpened, failAt);
      UpdateCache(songs);
      isCacheInitialized := true;
      lastCacheUpdateTime := now;
    }

    /** `refreshCache`: scans again and installs whatever the scan returned, even a partial list. */
    method RefreshCache(table: seq<RawRow>, favorites: seq<Long>, cursorOpened: bool, failAt: Option<nat>, now: Long)
      modifies this
      ensures var songs := ConvertRows(ScannedRows(table, cursorOpened, failAt), favorites);
              songsCache == IndexById(songs) && allSongsCache == songs
      ensures isCacheInitialized == old(isCacheInitialized) && lastCacheUpdateTime == now
    {
      var songs := LoadSongsFromMediaStore(table, favorites, cursorOpened, failAt);
      UpdateCache(songs);
      lastCacheUpdateTime := now;
    }
  }

  /** Every song of the list can be looked up by its id. */
  lemma IndexByIdCovers(songs: seq<Song>)
    ensures forall i :: 0 <= i < |songs| ==> songs[i].id in IndexById(songs)
  {
    forall i | 0 <= i < |songs| ensures songs[i].id in IndexById(songs) {
      IndexByIdKeys(songs, songs[i].id);
    }
  }

  /** Exactly five minutes after an update the cache is not yet stale; one millisecond later it is. */
  lemma StaleBoundary(c: SongCache, t: Long)
    requires t <= 0x7FFF_FFFF_FFFF_FFFF - CACHE_UPDATE_INTERVAL - 1
    ensures c.isCacheInitialized && c.lastCacheUpdateTime == t ==>
              !c.ShouldUpdateCache(t + CACHE_UPDATE_INTERVAL) && c.ShouldUpdateCache(t + CACHE_UPDATE_INTERVAL + 1)
  {
  }

  /** After an update, every song of the list can be looked up by its id, and ids not in the list cannot. */
  lemma LookupAfterUpdate(songs: seq<Song>, id: Long)
    ensures id in IndexById(songs) <==> id in Ids(songs)
    ensures id in IndexById(songs) ==> IndexById(songs)[id].id == id && IndexById(songs)[id] in songs
  {
    IndexByIdKeys(songs, id);
    if id in IndexById(songs) {
      IndexByIdMember(songs, id);
    }
  }

  lemma {:induction false} IndexByIdMember(songs: seq<Song>, id: Long)
    requires id in IndexById(songs)
    ensures IndexById(songs)[id] in songs
    decreases |songs|
  {
    var last := songs[|songs| - 1];
    if id != last.id {
      IndexByIdMember(songs[..|songs| - 1], id);
    }
  }
}
