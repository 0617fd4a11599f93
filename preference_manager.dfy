/**
 * The app's persisted settings, kept in SharedPreferences: the favourite set and recent list
 * as comma-joined ids, the per-category sort choice, the playlists, the playback snapshot,
 * and a small song cache that resolves queue ids back to songs.
 */
module PreferenceManager {
  import opened Wrappers
  import opened Seqs
  import opened Codec
  import opened Media
  import SongCacheManager

  /** The file the settings live in. */
  const PREFS_NAME := "NebulaMusicPrefs"
  const MAX_RECENT_SONGS := 50

  /** The keys the app stores under; `KeyName` gives the string each is stored as. */
  datatype PrefKey =
    | KeyFavorites
    | KeyRecentSongs
    | KeyPlaylists
    | KeyLastPlayedSongId
    | KeyLastSeekbarPosition
    | KeyRepeatMode
    | KeyShuffleMode
    | KeyQueueSongs
    | KeyCurrentQueuePosition
    | KeyOriginalQueueSongs
    | KeyQueueHashmap
    | KeyLastSongDetails
    | KeySortSongs
    | KeySortArtists
    | KeySortAlbums
    | KeySortGenres

  function KeyName(k: PrefKey): string {
    match k
    case KeyFavorites => "favorites"
    case KeyRecentSongs => "recent_songs"
    case KeyPlaylists => "playlists"
    case KeyLastPlayedSongId => "last_played_song_id"
    case KeyLastSeekbarPosition => "last_seekbar_position"
    case KeyRepeatMode => "repeat_mode"
    case KeyShuffleMode => "shuffle_mode"
    case KeyQueueSongs => "queue_songs"
    case KeyCurrentQueuePosition => "current_queue_position"
    case KeyOriginalQueueSongs => "original_queue_songs"
    case KeyQueueHashmap => "queue_hashmap"
    case KeyLastSongDetails => "last_song_details"
    case KeySortSongs => "sort_songs"
    case KeySortArtists => "sort_artists"
    case KeySortAlbums => "sort_albums"
    case KeySortGenres => "sort_genres"
  }

  /** The ordinal of the playback service's first repeat mode, `RepeatMode.ALL`, the default on load. */
  const REPEAT_MODE_ALL := 0

  /**
   * A stored preference. The playlists and the two song-detail maps are written by a JSON
   * library; they are kept here as the structured values that library encodes and decodes.
   */
  datatype Value =
    | IntV(i: Int32)
    | LongV(l: Long)
    | BoolV(b: bool)
    | StrV(s: string)
    | PlaylistsV(playlists: seq<Playlist>)
    | SongTableV(table: map<string, map<string, string>>)
    | DetailsV(details: map<string, string>)

  /** The SharedPreferences file: key to value. Only the keys above are ever written. */
  type Prefs = map<PrefKey, Value>

  /** Every key outside `keys` is present in `r` exactly when in `p`, with the same value: one `edit()` touched only `keys`. */
  ghost predicate KeepsOthers(p: Prefs, r: Prefs, keys: set<PrefKey>) {
    forall k :: k !in keys ==> (k in r <==> k in p) && (k in p ==> r[k] == p[k])
  }

  /** `getString(key, null)`; a value of another kind counts as absent. */
  function GetString(p: Prefs, key: PrefKey): Option<string> {
    if key in p && p[key].StrV? then Some(p[key].s) else None
  }

  /** `getInt(key, default)`. */
  function GetInt(p: Prefs, key: PrefKey, default: Int32): Int32 {
    if key in p && p[key].IntV? then p[key].i else default
  }

  /** `getLong(key, default)`. */
  function GetLong(p: Prefs, key: PrefKey, default: Long): Long {
    if key in p && p[key].LongV? then p[key].l else default
  }

  /** `getBoolean(key, default)`. */
  function GetBool(p: Prefs, key: PrefKey, default: bool): bool {
    if key in p && p[key].BoolV? then p[key].b else default
  }

  // ---------------------------------------------------------------- favourites

  /** `getFavorites`: the stored ids with unreadable tokens skipped, as a set that keeps first-seen order. */
  function GetFavorites(p: Prefs): (r: seq<Long>)
    ensures |r| <= |DecodeIds(GetString(p, KeyFavorites).OrElse(""))|
    ensures forall x :: x in r <==> x in DecodeIds(GetString(p, KeyFavorites).OrElse(""))
  {
    var s := GetString(p, KeyFavorites).OrElse("");
    if s == "" then [] else Dedupe(DecodeIds(s))
  }

  /** `isFavorite`: whether the id is among the ids the stored text parses to. */
  function IsFavorite(p: Prefs, songId: Long): (r: bool)
    ensures r <==> songId in DecodeIds(GetString(p, KeyFavorites).OrElse(""))
  {
    songId in GetFavorites(p)
  }

  /** `MutableSet.add` on an insertion-ordered set. */
  function AddToSet<T(==)>(s: seq<T>, x: T): (r: seq<T>)
    ensures x in r
  {
    if x in s then s else s + [x]
  }

  /** The preferences after `addFavorite(songId)`. */
  function WithFavoriteAdded(p: Prefs, songId: Long): (r: Prefs)
    ensures KeyFavorites in r && KeepsOthers(p, r, {KeyFavorites})
  {
    p[KeyFavorites := StrV(EncodeIds(AddToSet(GetFavorites(p), songId)))]
  }

  /** The preferences after `removeFavorite(songId)`. */
  function WithFavoriteRemoved(p: Prefs, songId: Long): (r: Prefs)
    ensures KeyFavorites in r && KeepsOthers(p, r, {KeyFavorites})
  {
    p[KeyFavorites := StrV(EncodeIds(RemoveFirst(GetFavorites(p), songId)))]
  }

  lemma FavoritesDistinct(p: Prefs)
    ensures NoDup(GetFavorites(p))
  {
    var s := GetString(p, KeyFavorites).OrElse("");
    if s != "" {
      DedupeNoDup(DecodeIds(s));
    }
  }

  /** Storing a set without duplicates and reading it back gives the same set, in the same order. */
  lemma FavoritesStored(p: Prefs, favs: seq<Long>)
    requires NoDup(favs)
    ensures GetFavorites(p[KeyFavorites := StrV(EncodeIds(favs))]) == favs
  {
    var e := EncodeIds(favs);
    var p' := p[KeyFavorites := StrV(e)];
    assert GetString(p', KeyFavorites) == Some(e);
    if favs == [] {
      assert e == "";
    } else {
      assert e != "" by {
        JoinNonEmpty(Map(favs, LongToString));
      }
      assert GetFavorites(p') == Dedupe(DecodeIds(e));
      DecodeEncodeIds(favs);
      DedupeOfNoDup(favs);
    }
  }

  /** After `addFavorite(id)` the favourites are the old ones plus `id`, appended when new. */
  lemma AddFavoriteUnion(p: Prefs, songId: Long)
    ensures GetFavorites(WithFavoriteAdded(p, songId)) == AddToSet(GetFavorites(p), songId)
    ensures forall x :: IsFavorite(WithFavoriteAdded(p, songId), x) <==> IsFavorite(p, x) || x == songId
  {
    var favs := GetFavorites(p);
    FavoritesDistinct(p);
    if songId !in favs {
      NoDupSnoc(favs, songId);
    }
    FavoritesStored(p, AddToSet(favs, songId));
  }

  /** Adding a favourite twice stores the same thing as adding it once. */
  lemma AddFavoriteIdempotent(p: Prefs, songId: Long)
    ensures WithFavoriteAdded(WithFavoriteAdded(p, songId), songId) == WithFavoriteAdded(p, songId)
  {
    AddFavoriteUnion(p, songId);
  }

  /** After `removeFavorite(id)` the favourites are the old ones without `id`, the rest in their old order. */
  lemma RemoveFavoriteDifference(p: Prefs, songId: Long)
    ensures GetFavorites(WithFavoriteRemoved(p, songId)) == RemoveFirst(GetFavorites(p), songId)
    ensures forall x :: IsFavorite(WithFavoriteRemoved(p, songId), x) <==> IsFavorite(p, x) && x != songId
  {
    var favs := GetFavorites(p);
    FavoritesDistinct(p);
    RemoveFirstNoDup(favs, songId);
    FavoritesStored(p, RemoveFirst(favs, songId));
    forall x ensures x in RemoveFirst(favs, songId) <==> x in favs && x != songId {
      assert x in multiset(RemoveFirst(favs, songId)) <==> x in multiset(favs) - multiset{songId};
    }
  }

  // ---------------------------------------------------------------- recent songs

  /** `getRecentSongs`: the stored ids, most recent first, unreadable tokens skipped. */
  function GetRecentSongs(p: Prefs): (r: seq<Long>)
    ensures DecodeIds(EncodeIds(r)) == r
  {
    var r := DecodeIds(GetString(p, KeyRecentSongs).OrElse(""));
    DecodeEncodeIds(r);
    r
  }

  /** What `addRecentSong` makes of the list: the id moved (or added) to the front, cut to the limit. */
  function AddRecent(recent: seq<Long>, songId: Long): (r: seq<Long>)
    ensures |r| <= MAX_RECENT_SONGS
  {
    var l := [songId] + RemoveFirst(recent, songId);
    if |l| > MAX_RECENT_SONGS then l[..MAX_RECENT_SONGS] else l
  }

  /** The preferences after `addRecentSong(songId)`. */
  function WithRecentAdded(p: Prefs, songId: Long): (r: Prefs)
    ensures KeyRecentSongs in r && KeepsOthers(p, r, {KeyRecentSongs})
  {
    p[KeyRecentSongs := StrV(EncodeIds(AddRecent(GetRecentSongs(p), songId)))]
  }

  /** The preferences after `removeRecentSong(songId)`. */
  function WithRecentRemoved(p: Prefs, songId: Long): (r: Prefs)
    ensures KeyRecentSongs in r && KeepsOthers(p, r, {KeyRecentSongs})
  {
    p[KeyRecentSongs := StrV(EncodeIds(RemoveFirst(GetRecentSongs(p), songId)))]
  }

  lemma RecentStored(p: Prefs, recent: seq<Long>)
    ensures GetRecentSongs(p[KeyRecentSongs := StrV(EncodeIds(recent))]) == recent
  {
    DecodeEncodeIds(recent);
  }

  /**
   * `addRecentSong`: the id is first, its earlier occurrence is gone, the other ids follow in
   * their old order, and at most 50 are kept.
   */
  lemma AddRecentShape(recent: seq<Long>, songId: Long)
    ensures var r := AddRecent(recent, songId);
            r != [] && r[0] == songId &&
            |r| == if |recent| - (if songId in recent then 1 else 0) + 1 > MAX_RECENT_SONGS
                   then MAX_RECENT_SONGS else |recent| - (if songId in recent then 1 else 0) + 1
    ensures var rest := RemoveFirst(recent, songId);
            var r := AddRecent(recent, songId);
            r[1..] == rest[..|r| - 1]
  {
    var rest := RemoveFirst(recent, songId);
    assert |rest| == |recent| - (if songId in recent then 1 else 0) by {
      if songId in recent {
        assert |rest| == |recent| - 1;
      }
    }
    var l := [songId] + rest;
    var r := AddRecent(recent, songId);
    if |l| > MAX_RECENT_SONGS {
      assert r == l[..MAX_RECENT_SONGS];
      assert r[1..] == rest[..MAX_RECENT_SONGS - 1];
    } else {
      assert r == l;
      assert r[1..] == rest;
    }
  }

  /** A recent list without repeats stays without repeats, so the id occurs exactly once. */
  lemma AddRecentDistinct(recent: seq<Long>, songId: Long)
    requires NoDup(recent)
    ensures NoDup(AddRecent(recent, songId))
  {
    var rest := RemoveFirst(recent, songId);
    RemoveFirstNoDup(recent, songId);
    var l := [songId] + rest;
    assert l[1..] == rest;
    if |l| > MAX_RECENT_SONGS {
      NoDupPrefix(l, MAX_RECENT_SONGS);
    }
  }

  lemma {:induction false} NoDupPrefix<T>(s: seq<T>, n: int)
    requires NoDup(s) && 0 <= n <= |s|
    ensures NoDup(s[..n])
  {
    if n > 0 {
      NoDupPrefix(s[1..], n - 1);
      assert s[..n][1..] == s[1..][..n - 1];
    }
  }

  /** Reading back the list `addRecentSong` stored gives `AddRecent` of the old list. */
  lemma AddRecentStored(p: Prefs, songId: Long)
    ensures GetRecentSongs(WithRecentAdded(p, songId)) == AddRecent(GetRecentSongs(p), songId)
  {
    RecentStored(p, AddRecent(GetRecentSongs(p), songId));
  }

  /** Playing 5, 7, 5, 9 in turn leaves the recent list [9, 5, 7]. */
  lemma AddRecentExample()
    ensures AddRecent(AddRecent(AddRecent(AddRecent([], 5), 7), 5), 9) == [9, 5, 7]
  {
    assert AddRecent([], 5) == [5];
    assert RemoveFirst([5], 7) == [5];
    assert AddRecent([5], 7) == [7, 5];
    assert RemoveFirst([7, 5], 5) == [7] by {
      assert [7, 5][1..] == [5];
      assert RemoveFirst([5], 5) == [];
    }
    assert AddRecent([7, 5], 5) == [5, 7];
    assert RemoveFirst([5, 7], 9) == [5, 7];
  }

  /** `removeRecentSong(id)` drops only the first occurrence of `id`; everything else stays, in order. */
  lemma RemoveRecentStored(p: Prefs, songId: Long)
    ensures var old_ := GetRecentSongs(p);
            var new_ := GetRecentSongs(WithRecentRemoved(p, songId));
            new_ == (if songId in old_ then old_[..IndexOf(old_, songId)] + old_[IndexOf(old_, songId) + 1..] else old_)
  {
    RecentStored(p, RemoveFirst(GetRecentSongs(p), songId));
    if songId in GetRecentSongs(p) {
      RemoveFirstAt(GetRecentSongs(p), songId);
    }
  }

  // ---------------------------------------------------------------- sort preference

  /** The key a category's sort choice is stored under; an unknown category uses the songs key. */
  function SortKey(category: string): PrefKey {
    if category == "songs" then KeySortSongs
    else if category == "artists" then KeySortArtists
    else if category == "albums" then KeySortAlbums
    else if category == "genres" then KeySortGenres
    else KeySortSongs
  }

  /** The default sort ordinal: newest first for songs, name ascending otherwise. */
  function DefaultSortOrdinal(category: string): (r: int)
    ensures 0 <= r < SORT_TYPE_COUNT
  {
    if category == "songs" then Ordinal(DateAddedDesc) else Ordinal(NameAsc)
  }

  /** `getSortPreferenceWithDefault`: the stored ordinal, or the default when none is stored or it is out of range. */
  function GetSortPreferenceWithDefault(p: Prefs, category: string): (r: SortType)
    ensures var o := GetInt(p, SortKey(category), DefaultSortOrdinal(category) as Int32);
            (0 <= o < SORT_TYPE_COUNT ==> Ordinal(r) == o as int) &&
            (!(0 <= o < SORT_TYPE_COUNT) ==> r == if category == "songs" then DateAddedDesc else NameAsc)
  {
    var ordinal := GetInt(p, SortKey(category), DefaultSortOrdinal(category) as Int32);
    if 0 <= ordinal < SORT_TYPE_COUNT then FromOrdinal(ordinal) else FromOrdinal(DefaultSortOrdinal(category))
  }

  /** The preferences after `saveSortPreference(category, sortType)`. */
  function WithSortSaved(p: Prefs, category: string, sortType: SortType): (r: Prefs)
    ensures 0 <= GetInt(r, SortKey(category), -1) < SORT_TYPE_COUNT
    ensures KeepsOthers(p, r, {SortKey(category)})
  {
    p[SortKey(category) := IntV(Ordinal(sortType) as Int32)]
  }

  /** Reading right after saving gives the saved type, for any category. */
  lemma SortSaveThenGet(p: Prefs, category: string, sortType: SortType)
    ensures GetSortPreferenceWithDefault(WithSortSaved(p, category, sortType), category) == sortType
  {
    FromOrdinalOfOrdinal(sortType);
  }

  /** With nothing stored: newest first for songs, name ascending for artists, albums, genres and any other category. */
  lemma SortDefaults(p: Prefs, category: string)
    requires SortKey(category) !in p
    ensures GetSortPreferenceWithDefault(p, category) == if category == "songs" then DateAddedDesc else NameAsc
  {
  }

  /** A stored ordinal outside the enum, negative ones included, falls back to the default. */
  lemma SortOutOfRange(p: Prefs, category: string, ordinal: Int32)
    requires ordinal < 0 || ordinal >= SORT_TYPE_COUNT
    ensures GetSortPreferenceWithDefault(p[SortKey(category) := IntV(ordinal)], category) ==
            GetSortPreferenceWithDefault(map[], category)
  {
  }

  /** An unknown category reads the songs key but defaults to name ascending. */
  lemma SortUnknownCategory(p: Prefs, category: string)
    requires category !in {"songs", "artists", "albums", "genres"}
    ensures SortKey(category) == KeySortSongs
    ensures KeySortSongs !in p ==> GetSortPreferenceWithDefault(p, category) == NameAsc
    ensures GetSortPreferenceWithDefault(p, category) ==
            (var o := GetInt(p, KeySortSongs, 0); if 0 <= o < SORT_TYPE_COUNT then FromOrdinal(o) else NameAsc)
  {
  }

  // ---------------------------------------------------------------- playlists

  /** `getPlaylists`: the stored playlists, or none. */
  function GetPlaylists(p: Prefs): (r: seq<Playlist>)
    ensures r != [] ==> KeyPlaylists in p && p[KeyPlaylists] == PlaylistsV(r)
  {
    if KeyPlaylists in p && p[KeyPlaylists].PlaylistsV? then p[KeyPlaylists].playlists else []
  }

  /** The preferences after `savePlaylists(playlists)`. */
  function WithPlaylistsSaved(p: Prefs, playlists: seq<Playlist>): (r: Prefs)
    ensures GetPlaylists(r) == playlists
    ensures KeepsOthers(p, r, {KeyPlaylists})
  {
    p[KeyPlaylists := PlaylistsV(playlists)]
  }

  /** The position `find { it.id == playlistId }` stops at, or -1. */
  function PlaylistIndex(playlists: seq<Playlist>, playlistId: Long): (r: int)
    ensures -1 <= r < |playlists|
    ensures r == -1 <==> forall i :: 0 <= i < |playlists| ==> playlists[i].id != playlistId
    ensures 0 <= r ==> playlists[r].id == playlistId && forall i :: 0 <= i < r ==> playlists[i].id != playlistId
  {
    if playlists == [] then -1
    else if playlists[0].id == playlistId then 0
    else
      var k := PlaylistIndex(playlists[1..], playlistId);
      assert forall i :: 1 <= i < |playlists| ==> playlists[i] == playlists[1..][i - 1];
      if k == -1 then -1 else k + 1
  }

  /**
   * The playlists after `find { it.id == playlistId }?.songIds?.add(songId)`: only the first
   * playlist with that id changes, and it gets the song appended even when it already has it.
   */
  function AppendSongTo(playlists: seq<Playlist>, playlistId: Long, songId: Long): (r: seq<Playlist>)
    ensures |r| == |playlists|
    ensures forall i :: 0 <= i < |r| ==>
              r[i].id == playlists[i].id && r[i].name == playlists[i].name && r[i].createdAt == playlists[i].createdAt
    ensures forall i :: 0 <= i < |r| ==>
              r[i].songIds == if i == PlaylistIndex(playlists, playlistId) then playlists[i].songIds + [songId] else playlists[i].songIds
    ensures (forall i :: 0 <= i < |playlists| ==> playlists[i].id != playlistId) ==> r == playlists
  {
    var k := PlaylistIndex(playlists, playlistId);
    if k == -1 then playlists else playlists[k := playlists[k].(songIds := playlists[k].songIds + [songId])]
  }

  /** The playlists after `find { it.id == playlistId }?.songIds?.remove(songId)`: only the first occurrence goes, in the first playlist with that id. */
  function RemoveSongFrom(playlists: seq<Playlist>, playlistId: Long, songId: Long): (r: seq<Playlist>)
    ensures |r| == |playlists|
    ensures forall i :: 0 <= i < |r| ==>
              r[i].id == playlists[i].id && r[i].name == playlists[i].name && r[i].createdAt == playlists[i].createdAt
    ensures forall i :: 0 <= i < |r| ==>
              r[i].songIds == if i == PlaylistIndex(playlists, playlistId) then RemoveFirst(playlists[i].songIds, songId) else playlists[i].songIds
    ensures (forall i :: 0 <= i < |playlists| ==> playlists[i].id != playlistId) ==> r == playlists
  {
    var k := PlaylistIndex(playlists, playlistId);
    if k == -1 then playlists else playlists[k := playlists[k].(songIds := RemoveFirst(playlists[k].songIds, songId))]
  }

  // ---------------------------------------------------------------- playback snapshot

  /** `PlaybackState`, as `loadPlaybackState` returns it. */
  datatype PlaybackState = PlaybackState(
    lastPlayedSongId: Option<Long>,
    lastSeekPosition: Int32,
    repeatMode: Int32,
    isShuffleMode: bool,
    queueSongIds: seq<Long>,
    originalQueueSongIds: seq<Long>,
    currentQueuePosition: Int32,
    songsHashMap: map<string, map<string, string>>,
    lastSongDetails: map<string, string>)

  /** The entry saved per queued song for fast restoration. */
  function SongDetails(song: Song): map<string, string> {
    map["title" := song.title,
        "artist" := song.artist.OrElse("Unknown Artist"),
        "album" := song.album.OrElse("Unknown Album"),
        "albumId" := LongToString(song.albumId),
        "duration" := LongToString(song.duration),
        "uri" := song.uri]
  }

  /** The mini-player's details of the current song. */
  function LastSongDetails(song: Song): map<string, string> {
    map["title" := song.title,
        "artist" := song.artist.OrElse("Unknown Artist"),
        "album" := song.album.OrElse("Unknown Album"),
        "albumId" := LongToString(song.albumId)]
  }

  /** The song table keyed by id text, filled in list order, so a later song with the same id wins. */
  function SongTable(songs: seq<Song>): (m: map<string, map<string, string>>)
    ensures forall i :: 0 <= i < |songs| ==> LongToString(songs[i].id) in m
  {
    if songs == [] then map[]
    else
      var init := songs[..|songs| - 1];
      var last := songs[|songs| - 1];
      assert forall i :: 0 <= i < |songs| - 1 ==> songs[i] == init[i];
      SongTable(init)[LongToString(last.id) := SongDetails(last)]
  }

  /** Everything `savePlaybackState(...)` writes except the mini-player details, given the encoded values. */
  function SnapshotBase(p: Prefs, songId: Long, seekPosition: Int32, repeatMode: Int32, isShuffleMode: bool,
                        currentQueuePosition: Int32, queueJson: string, originalQueueJson: string,
                        table: map<string, map<string, string>>): (r: Prefs)
    ensures KeepsOthers(p, r, PLAYBACK_KEYS)
    ensures GetLong(r, KeyLastPlayedSongId, 0) == songId && GetInt(r, KeyCurrentQueuePosition, -1) == currentQueuePosition
  {
    p[KeyLastPlayedSongId := LongV(songId)]
     [KeyLastSeekbarPosition := IntV(seekPosition)]
     [KeyRepeatMode := IntV(repeatMode)]
     [KeyShuffleMode := BoolV(isShuffleMode)]
     [KeyCurrentQueuePosition := IntV(currentQueuePosition)]
     [KeyQueueSongs := StrV(queueJson)]
     [KeyOriginalQueueSongs := StrV(originalQueueJson)]
     [KeyQueueHashmap := SongTableV(table)]
  }

  /**
   * The preferences after `savePlaybackState(...)`: a missing song id is written as -1, both
   * queues as JSON id lists, and every queued song into the song table. The mini-player
   * details are only rewritten when a song id is given and the position is inside the queue;
   * otherwise the old entry stays.
   */
  function SavedSnapshot(p: Prefs, currentSongId: Option<Long>, seekPosition: Int32, repeatMode: Int32,
                         isShuffleMode: bool, queueSongs: seq<Song>, currentQueuePosition: Int32,
                         originalQueueSongs: seq<Song>): (r: Prefs)
    ensures KeepsOthers(p, r, PLAYBACK_KEYS)
    ensures GetLong(r, KeyLastPlayedSongId, 0) == currentSongId.OrElse(-1)
    ensures GetInt(r, KeyCurrentQueuePosition, -1) == currentQueuePosition
  {
    var q := SnapshotBase(p, currentSongId.OrElse(-1), seekPosition, repeatMode, isShuffleMode, currentQueuePosition,
                          EncodeJsonIds(Ids(queueSongs)), EncodeJsonIds(Ids(originalQueueSongs)),
                          SongTable(queueSongs + originalQueueSongs));
    if currentSongId.Some? && 0 <= currentQueuePosition < |queueSongs| then
      q[KeyLastSongDetails := DetailsV(LastSongDetails(queueSongs[currentQueuePosition]))]
    else q
  }

  /** Loading a base snapshot with a real song id gives back each written field. */
  lemma LoadBase(p: Prefs, songId: Long, seekPosition: Int32, repeatMode: Int32, isShuffleMode: bool,
                 currentQueuePosition: Int32, queueJson: string, originalQueueJson: string,
                 table: map<string, map<string, string>>)
    requires songId != -1
    ensures var s := SnapshotBase(p, songId, seekPosition, repeatMode, isShuffleMode, currentQueuePosition,
                                  queueJson, originalQueueJson, table);
            LoadPlaybackState(s) ==
            Some(PlaybackState(Some(songId), seekPosition, repeatMode, isShuffleMode,
                               DecodeJsonIds(queueJson).OrElse([]), DecodeJsonIds(originalQueueJson).OrElse([]),
                               currentQueuePosition, table, GetLastSongDetails(p)))
  {
    SnapshotScalars(p, songId, seekPosition, repeatMode, isShuffleMode, currentQueuePosition,
                    queueJson, originalQueueJson, table);
    SnapshotQueues(p, songId, seekPosition, repeatMode, isShuffleMode, currentQueuePosition,
                   queueJson, originalQueueJson, table);
  }

  /** The scalar fields of a base snapshot read back as written. */
  lemma SnapshotScalars(p: Prefs, songId: Long, seekPosition: Int32, repeatMode: Int32, isShuffleMode: bool,
                        currentQueuePosition: Int32, queueJson: string, originalQueueJson: string,
                        table: map<string, map<string, string>>)
    ensures var s := SnapshotBase(p, songId, seekPosition, repeatMode, isShuffleMode, currentQueuePosition,
                                  queueJson, originalQueueJson, table);
            && GetLong(s, KeyLastPlayedSongId, -1) == songId
            && GetInt(s, KeyLastSeekbarPosition, 0) == seekPosition
            && GetInt(s, KeyRepeatMode, REPEAT_MODE_ALL) == repeatMode
            && GetBool(s, KeyShuffleMode, false) == isShuffleMode
            && GetInt(s, KeyCurrentQueuePosition, 0) == currentQueuePosition
  {
  }

  /** The queues, the song table and the untouched details of a base snapshot read back as written. */
  lemma SnapshotQueues(p: Prefs, songId: Long, seekPosition: Int32, repeatMode: Int32, isShuffleMode: bool,
                       currentQueuePosition: Int32, queueJson: string, originalQueueJson: string,
                       table: map<string, map<string, string>>)
    ensures var s := SnapshotBase(p, songId, seekPosition, repeatMode, isShuffleMode, currentQueuePosition,
                                  queueJson, originalQueueJson, table);
            && StoredIds(s, KeyQueueSongs) == DecodeJsonIds(queueJson).OrElse([])
            && StoredIds(s, KeyOriginalQueueSongs) == DecodeJsonIds(originalQueueJson).OrElse([])
            && KeyQueueHashmap in s && s[KeyQueueHashmap] == SongTableV(table)
            && GetLastSongDetails(s) == GetLastSongDetails(p)
  {
    var s := SnapshotBase(p, songId, seekPosition, repeatMode, isShuffleMode, currentQueuePosition,
                          queueJson, originalQueueJson, table);
    assert GetString(s, KeyQueueSongs) == Some(queueJson);
    assert GetString(s, KeyOriginalQueueSongs) == Some(originalQueueJson);
    assert (KeyLastSongDetails in s) == (KeyLastSongDetails in p);
    if KeyLastSongDetails in p {
      assert s[KeyLastSongDetails] == p[KeyLastSongDetails];
    }
  }

  /** Writing the mini-player details changes only that field of what loads. */
  lemma LoadWithDetails(p: Prefs, details: map<string, string>)
    ensures var st := LoadPlaybackState(p[KeyLastSongDetails := DetailsV(details)]);
            st == if LoadPlaybackState(p).None? then None
                  else Some(LoadPlaybackState(p).value.(lastSongDetails := details))
  {
  }

  /** The queue that is saved: the current one, or the original one when the current one is empty. */
  function ValidQueue(queueSongs: seq<Song>, originalQueueSongs: seq<Song>): seq<Song> {
    if queueSongs != [] then queueSongs else originalQueueSongs
  }

  /** The original queue that is saved: itself, or the current queue when it is empty. */
  function ValidOriginalQueue(queueSongs: seq<Song>, originalQueueSongs: seq<Song>): seq<Song> {
    if originalQueueSongs != [] then originalQueueSongs else queueSongs
  }

  /** `coerceIn(0, n - 1)` of the position for a non-empty saved queue, else 0. */
  function ValidPosition(queueSongs: seq<Song>, originalQueueSongs: seq<Song>, position: Int32): (r: Int32)
    ensures ValidQueue(queueSongs, originalQueueSongs) != [] ==> 0 <= r < |ValidQueue(queueSongs, originalQueueSongs)|
    ensures ValidQueue(queueSongs, originalQueueSongs) == [] ==> r == 0
    ensures 0 <= position < |ValidQueue(queueSongs, originalQueueSongs)| ==> r == position
  {
    var n := |ValidQueue(queueSongs, originalQueueSongs)|;
    if n > 0 then
      (if position < 0 then 0 else if position > n - 1 then n - 1 else position)
    else 0
  }

  /** The preferences after `savePlaybackStateWithQueueValidation(...)`. */
  function SavedValidatedSnapshot(p: Prefs, currentSongId: Option<Long>, seekPosition: Int32, repeatMode: Int32,
                                  isShuffleMode: bool, queueSongs: seq<Song>, currentQueuePosition: Int32,
                                  originalQueueSongs: seq<Song>): (r: Prefs)
    ensures KeepsOthers(p, r, PLAYBACK_KEYS)
    ensures var n := |ValidQueue(queueSongs, originalQueueSongs)|;
            var pos := GetInt(r, KeyCurrentQueuePosition, -1);
            (n > 0 ==> 0 <= pos < n) && (n == 0 ==> pos == 0)
  {
    SavedSnapshot(p, currentSongId, seekPosition, repeatMode, isShuffleMode,
                  ValidQueue(queueSongs, originalQueueSongs),
                  ValidPosition(queueSongs, originalQueueSongs, currentQueuePosition),
                  ValidOriginalQueue(queueSongs, originalQueueSongs))
  }

  /** A stored JSON id list: absent means empty, and text that does not decode also gives empty. */
  function StoredIds(p: Prefs, key: PrefKey): seq<Long> {
    match GetString(p, key)
    case None => []
    case Some(json) => DecodeJsonIds(json).OrElse([])
  }

  /** `loadPlaybackState`: `None` when the stored song id is -1 or absent; otherwise each field or its default. */
  function LoadPlaybackState(p: Prefs): (r: Option<PlaybackState>)
    ensures r.None? <==> KeyLastPlayedSongId !in p || !p[KeyLastPlayedSongId].LongV? || p[KeyLastPlayedSongId].l == -1
    ensures r.Some? ==> r.value.lastPlayedSongId == Some(p[KeyLastPlayedSongId].l)
  {
    var lastSongId := GetLong(p, KeyLastPlayedSongId, -1);
    if lastSongId == -1 then None
    else Some(PlaybackState(
      Some(lastSongId),
      GetInt(p, KeyLastSeekbarPosition, 0),
      GetInt(p, KeyRepeatMode, REPEAT_MODE_ALL),
      GetBool(p, KeyShuffleMode, false),
      StoredIds(p, KeyQueueSongs),
      StoredIds(p, KeyOriginalQueueSongs),
      GetInt(p, KeyCurrentQueuePosition, 0),
      (if KeyQueueHashmap in p && p[KeyQueueHashmap].SongTableV? then p[KeyQueueHashmap].table else map[]),
      GetLastSongDetails(p)))
  }

  /** `getLastSongDetails`: the stored details, or an empty map. */
  function GetLastSongDetails(p: Prefs): (r: map<string, string>)
    ensures r != map[] ==> KeyLastSongDetails in p && p[KeyLastSongDetails] == DetailsV(r)
  {
    if KeyLastSongDetails in p && p[KeyLastSongDetails].DetailsV? then p[KeyLastSongDetails].details else map[]
  }

  /** The keys `clearPlaybackState` removes. */
  const PLAYBACK_KEYS: set<PrefKey> := {
    KeyLastPlayedSongId, KeyLastSeekbarPosition, KeyRepeatMode, KeyShuffleMode,
    KeyQueueSongs, KeyOriginalQueueSongs, KeyCurrentQueuePosition, KeyQueueHashmap,
    KeyLastSongDetails }

  /** The preferences after `clearPlaybackState()`. */
  function Cleared(p: Prefs): (r: Prefs)
    ensures forall k :: k in PLAYBACK_KEYS ==> k !in r
    ensures KeepsOthers(p, r, PLAYBACK_KEYS)
  {
    p - PLAYBACK_KEYS
  }

  /** After clearing, nothing is restored; the other settings are untouched. */
  lemma LoadAfterClear(p: Prefs)
    ensures LoadPlaybackState(Cleared(p)) == None
    ensures forall k :: k in p && k !in PLAYBACK_KEYS ==> k in Cleared(p) && Cleared(p)[k] == p[k]
  {
  }

  /** A save without a current song stores -1, so loading restores nothing; so does a song whose id is -1. */
  lemma LoadAfterSaveWithoutSong(p: Prefs, seekPosition: Int32, repeatMode: Int32, isShuffleMode: bool,
                                 queueSongs: seq<Song>, currentQueuePosition: Int32, originalQueueSongs: seq<Song>)
    ensures LoadPlaybackState(SavedSnapshot(p, None, seekPosition, repeatMode, isShuffleMode, queueSongs,
                                            currentQueuePosition, originalQueueSongs)) == None
    ensures LoadPlaybackState(SavedSnapshot(p, Some(-1), seekPosition, repeatMode, isShuffleMode, queueSongs,
                                            currentQueuePosition, originalQueueSongs)) == None
  {
  }

  /** The base snapshot with the queues encoded loads back the decoded id lists. */
  lemma LoadEncodedBase(p: Prefs, songId: Long, seekPosition: Int32, repeatMode: Int32, isShuffleMode: bool,
                        queueSongs: seq<Song>, currentQueuePosition: Int32, originalQueueSongs: seq<Song>)
    requires songId != -1
    ensures LoadPlaybackState(SnapshotBase(p, songId, seekPosition, repeatMode, isShuffleMode, currentQueuePosition,
                                           EncodeJsonIds(Ids(queueSongs)), EncodeJsonIds(Ids(originalQueueSongs)),
                                           SongTable(queueSongs + originalQueueSongs))) ==
            Some(PlaybackState(Some(songId), seekPosition, repeatMode, isShuffleMode,
                               Ids(queueSongs), Ids(originalQueueSongs), currentQueuePosition,
                               SongTable(queueSongs + originalQueueSongs), GetLastSongDetails(p)))
  {
    DecodeEncodeJsonIds(Ids(queueSongs));
    DecodeEncodeJsonIds(Ids(originalQueueSongs));
    LoadBase(p, songId, seekPosition, repeatMode, isShuffleMode, currentQueuePosition,
             EncodeJsonIds(Ids(queueSongs)), EncodeJsonIds(Ids(originalQueueSongs)), SongTable(queueSongs + originalQueueSongs));
  }

  /** Loading what was saved gives back every field; the details come from the saved position, or stay as they were. */
  lemma LoadAfterSave(p: Prefs, songId: Long, seekPosition: Int32, repeatMode: Int32, isShuffleMode: bool,
                      queueSongs: seq<Song>, currentQueuePosition: Int32, originalQueueSongs: seq<Song>)
    requires songId != -1
    ensures LoadPlaybackState(SavedSnapshot(p, Some(songId), seekPosition, repeatMode, isShuffleMode, queueSongs,
                                            currentQueuePosition, originalQueueSongs)) ==
            Some(PlaybackState(Some(songId), seekPosition, repeatMode, isShuffleMode,
                               Ids(queueSongs), Ids(originalQueueSongs), currentQueuePosition,
                               SongTable(queueSongs + originalQueueSongs),
                               if 0 <= currentQueuePosition < |queueSongs|
                               then LastSongDetails(queueSongs[currentQueuePosition])
                               else GetLastSongDetails(p)))
  {
    var qj, oj := EncodeJsonIds(Ids(queueSongs)), EncodeJsonIds(Ids(originalQueueSongs));
    var table := SongTable(queueSongs + originalQueueSongs);
    var q := SnapshotBase(p, songId, seekPosition, repeatMode, isShuffleMode, currentQueuePosition, qj, oj, table);
    var base := PlaybackState(Some(songId), seekPosition, repeatMode, isShuffleMode,
                              Ids(queueSongs), Ids(originalQueueSongs), currentQueuePosition, table, GetLastSongDetails(p));
    LoadEncodedBase(p, songId, seekPosition, repeatMode, isShuffleMode, queueSongs, currentQueuePosition, originalQueueSongs);
    var saved := SavedSnapshot(p, Some(songId), seekPosition, repeatMode, isShuffleMode, queueSongs,
                               currentQueuePosition, originalQueueSongs);
    if 0 <= currentQueuePosition < |queueSongs| {
      var d := LastSongDetails(queueSongs[currentQueuePosition]);
      assert LoadPlaybackState(saved) == Some(base.(lastSongDetails := d)) by {
        assert saved == q[KeyLastSongDetails := DetailsV(d)];
        LoadWithDetails(q, d);
      }
    } else {
      assert saved == q;
    }
  }

  /** With only a song id stored, every other field takes its default: seek 0, repeat all, no shuffle, position 0, empty queues and maps. */
  lemma LoadDefaults(songId: Long)
    requires songId != -1
    ensures LoadPlaybackState(map[KeyLastPlayedSongId := LongV(songId)]) ==
            Some(PlaybackState(Some(songId), 0, REPEAT_MODE_ALL, false, [], [], 0, map[], map[]))
  {
  }

  /** A queue entry that is not a JSON id list gives an empty queue; the rest of the state still loads. */
  lemma LoadMalformedQueue(p: Prefs, json: string)
    requires DecodeJsonIds(json).None?
    requires GetLong(p, KeyLastPlayedSongId, -1) != -1
    ensures var st := LoadPlaybackState(p[KeyQueueSongs := StrV(json)]);
            st.Some? && st.value.queueSongIds == [] &&
            st.value.originalQueueSongIds == StoredIds(p, KeyOriginalQueueSongs)
    ensures var st := LoadPlaybackState(p[KeyOriginalQueueSongs := StrV(json)]);
            st.Some? && st.value.originalQueueSongIds == [] && st.value.queueSongIds == StoredIds(p, KeyQueueSongs)
  {
  }

  /**
   * Validation: an empty current queue is replaced by the original and vice versa, and the
   * saved position lies inside the saved queue, or is 0 when both queues are empty; the
   * mini-player details then always describe the song at that position.
   */
  lemma ValidatedSave(p: Prefs, songId: Long, seekPosition: Int32, repeatMode: Int32, isShuffleMode: bool,
                      queueSongs: seq<Song>, currentQueuePosition: Int32, originalQueueSongs: seq<Song>)
    requires songId != -1
    ensures var q := if queueSongs != [] then queueSongs else originalQueueSongs;
            var st := LoadPlaybackState(SavedValidatedSnapshot(p, Some(songId), seekPosition, repeatMode, isShuffleMode,
                                                                queueSongs, currentQueuePosition, originalQueueSongs));
            st.Some? &&
            st.value.queueSongIds == Ids(q) &&
            st.value.originalQueueSongIds == Ids(if originalQueueSongs != [] then originalQueueSongs else queueSongs) &&
            (q != [] ==> 0 <= st.value.currentQueuePosition < |q| &&
                         st.value.lastSongDetails == LastSongDetails(q[st.value.currentQueuePosition])) &&
            (q == [] ==> st.value.currentQueuePosition == 0 && st.value.lastSongDetails == GetLastSongDetails(p)) &&
            (0 <= currentQueuePosition < |q| ==> st.value.currentQueuePosition == currentQueuePosition)
  {
    LoadAfterSave(p, songId, seekPosition, repeatMode, isShuffleMode,
                  ValidQueue(queueSongs, originalQueueSongs),
                  ValidPosition(queueSongs, originalQueueSongs, currentQueuePosition),
                  ValidOriginalQueue(queueSongs, originalQueueSongs));
  }

  // ---------------------------------------------------------------- queue resolution

  function Lookup(index: map<Long, Song>): Long -> Option<Song> {
    id => if id in index then Some(index[id]) else None
  }

  /** `songIds.mapNotNull { index[it] }`: the known songs in id order. */
  function ResolveIds(ids: seq<Long>, index: map<Long, Song>): seq<Song> {
    MapNotNull(ids, Lookup(index))
  }

  /** When every id is known, each id gives its own song, in the same order. */
  lemma {:induction false} ResolveKnown(ids: seq<Long>, index: map<Long, Song>)
    requires forall i :: 0 <= i < |ids| ==> ids[i] in index
    ensures var r := ResolveIds(ids, index);
            |r| == |ids| && forall i :: 0 <= i < |ids| ==> r[i] == index[ids[i]]
  {
    if ids != [] {
      ResolveKnown(ids[1..], index);
      MapNotNullAppend(ids[..1], ids[1..], Lookup(index));
      assert ids[..1] + ids[1..] == ids;
    }
  }

  function Known(index: map<Long, Song>): Long -> bool {
    id => id in index
  }

  /** Unknown ids are dropped and nothing else changes: resolving is resolving the known ids alone. */
  lemma {:induction false} ResolveSkipsUnknown(ids: seq<Long>, index: map<Long, Song>)
    ensures ResolveIds(ids, index) == ResolveIds(Filter(ids, Known(index)), index)
  {
    if ids != [] {
      ResolveSkipsUnknown(ids[1..], index);
      var known := Filter(ids, Known(index));
      var rest := Filter(ids[1..], Known(index));
      if ids[0] in index {
        assert known == [ids[0]] + rest;
        assert known[0] == ids[0] && known[1..] == rest;
      } else {
        assert known == rest;
      }
    }
  }

  /** So the result is exactly the songs of the known ids, one per known id, in id order. */
  lemma ResolveKnownIds(ids: seq<Long>, index: map<Long, Song>)
    ensures var known := Filter(ids, Known(index));
            |ResolveIds(ids, index)| == |known| &&
            forall i :: 0 <= i < |known| ==> ResolveIds(ids, index)[i] == index[known[i]]
  {
    ResolveSkipsUnknown(ids, index);
    ResolveKnown(Filter(ids, Known(index)), index);
  }

  /** Every resolved song comes from the index. */
  lemma {:induction false} ResolveInIndex(ids: seq<Long>, index: map<Long, Song>)
    ensures forall i :: 0 <= i < |ResolveIds(ids, index)| ==> ResolveIds(ids, index)[i] in index.Values
  {
    if ids != [] {
      ResolveInIndex(ids[1..], index);
      var head := OptionList(Lookup(index)(ids[0]));
      assert ResolveIds(ids, index) == head + ResolveIds(ids[1..], index);
      assert forall v :: v in head ==> v in index.Values;
    }
  }

  /** Nothing resolves against an empty index. */
  lemma {:induction false} ResolveEmptyIndex(ids: seq<Long>)
    ensures ResolveIds(ids, map[]) == []
  {
    if ids != [] {
      ResolveEmptyIndex(ids[1..]);
    }
  }

  /** `getSongsForQueueFast`: each id looked up in the song index; an empty id list is answered at once. */
  function GetSongsForQueueFast(songIds: seq<Long>, cache: SongCacheManager.SongCache): (r: seq<Song>)
    reads cache
    ensures ResolveIds(songIds, cache.songsCache) == r
    ensures forall i :: 0 <= i < |r| ==> r[i] in cache.songsCache.Values
  {
    ResolveInIndex(songIds, cache.songsCache);
    if songIds == [] then [] else ResolveIds(songIds, cache.songsCache)
  }

  // ---------------------------------------------------------------- the object

  /** `find { it.id == playlistId }`, as the index it stops at, or -1. */
  method FindPlaylist(playlists: seq<Playlist>, playlistId: Long) returns (k: int)
    ensures k == PlaylistIndex(playlists, playlistId)
  {
    k := 0;
    while k < |playlists|
      invariant 0 <= k <= |playlists|
      invariant forall i :: 0 <= i < k ==> playlists[i].id != playlistId
    {
      if playlists[k].id == playlistId {
        return;
      }
      k := k + 1;
    }
    k := -1;
  }

  /** The songs `loadSongsInBackground` supplies: the source leaves it as a placeholder returning no songs. */
  function LoadSongsInBackground(): (r: seq<Song>)
    ensures r == []
  {
    []
  }

  /** The values of `songs.associateBy { it.id }`: one song per distinct id, in first-seen order, the last song with that id. */
  lemma AssociateByValues(songs: seq<Song>)
    ensures var ids := Dedupe(Ids(songs));
            var r := ResolveIds(ids, SongCacheManager.IndexById(songs));
            |r| == |ids| && NoDup(ids) &&
            forall i :: 0 <= i < |r| ==> r[i].id == ids[i] && r[i] in songs
  {
    var ids := Dedupe(Ids(songs));
    var m := SongCacheManager.IndexById(songs);
    DedupeNoDup(Ids(songs));
    forall i | 0 <= i < |ids| ensures ids[i] in m {
      SongCacheManager.IndexByIdKeys(songs, ids[i]);
    }
    ResolveKnown(ids, m);
    forall i | 0 <= i < |ids| ensures m[ids[i]] in songs {
      SongCacheManager.IndexByIdMember(songs, ids[i]);
    }
  }

  /**
   * The `PreferenceManager` object: the preferences file it reads and writes, and its song
   * cache. `cachedIds` is the key order of the insertion-ordered `cachedSongsMap`.
   */
  class Store {
    var prefs: Prefs
    var cachedSongsMap: map<Long, Song>
    var cachedIds: seq<Long>
    var isCacheDirty: bool

    constructor (initial: Prefs)
      ensures prefs == initial
      ensures cachedSongsMap == map[] && cachedIds == [] && isCacheDirty
    {
      prefs := initial;
      cachedSongsMap := map[];
      cachedIds := [];
      isCacheDirty := true;
    }

    /** `cachedSongsMap.values.toList()`. */
    function CachedValues(): seq<Song>
      reads this
    {
      ResolveIds(cachedIds, cachedSongsMap)
    }

    method SaveSortPreference(category: string, sortType: SortType)
      modifies this`prefs
      ensures prefs == WithSortSaved(old(prefs), category, sortType)
    {
      var key := SortKey(category);
      prefs := prefs[key := IntV(Ordinal(sortType) as Int32)];
    }

    method AddFavorite(songId: Long)
      modifies this`prefs
      ensures prefs == WithFavoriteAdded(old(prefs), songId)
    {
      var favorites := GetFavorites(prefs);
      if songId !in favorites {
        favorites := favorites + [songId];
      }
      prefs := prefs[KeyFavorites := StrV(EncodeIds(favorites))];
    }

    method RemoveFavorite(songId: Long)
      modifies this`prefs
      ensures prefs == WithFavoriteRemoved(old(prefs), songId)
    {
      var favorites := GetFavorites(prefs);
      favorites := RemoveFirst(favorites, songId);
      prefs := prefs[KeyFavorites := StrV(EncodeIds(favorites))];
    }

    /** Remove the id, insert it at the front, then clear everything past the limit. */
    method AddRecentSong(songId: Long)
      modifies this`prefs
      ensures prefs == WithRecentAdded(old(prefs), songId)
    {
      var recentSongs := GetRecentSongs(prefs);
      recentSongs := RemoveFirst(recentSongs, songId);
      recentSongs := [songId] + recentSongs;
      if |recentSongs| > MAX_RECENT_SONGS {
        recentSongs := recentSongs[..MAX_RECENT_SONGS];
      }
      prefs := prefs[KeyRecentSongs := StrV(EncodeIds(recentSongs))];
    }

    method RemoveRecentSong(songId: Long)
      modifies this`prefs
      ensures prefs == WithRecentRemoved(old(prefs), songId)
    {
      var recentSongs := GetRecentSongs(prefs);
      recentSongs := RemoveFirst(recentSongs, songId);
      prefs := prefs[KeyRecentSongs := StrV(EncodeIds(recentSongs))];
    }

    method SavePlaylists(playlists: seq<Playlist>)
      modifies this`prefs
      ensures prefs == WithPlaylistsSaved(old(prefs), playlists)
    {
      prefs := prefs[KeyPlaylists := PlaylistsV(playlists)];
    }

    /** The found playlist's id list gets the song appended in place; the list is saved either way. */
    method AddSongToPlaylist(playlistId: Long, songId: Long)
      modifies this`prefs
      ensures prefs == WithPlaylistsSaved(old(prefs), AppendSongTo(GetPlaylists(old(prefs)), playlistId, songId))
    {
      var playlists := GetPlaylists(prefs);
      var k := FindPlaylist(playlists, playlistId);
      if k >= 0 {
        playlists := playlists[k := playlists[k].(songIds := playlists[k].songIds + [songId])];
      }
      SavePlaylists(playlists);
    }

    method RemoveSongFromPlaylist(playlistId: Long, songId: Long)
      modifies this`prefs
      ensures prefs == WithPlaylistsSaved(old(prefs), RemoveSongFrom(GetPlaylists(old(prefs)), playlistId, songId))
    {
      var playlists := GetPlaylists(prefs);
      var k := FindPlaylist(playlists, playlistId);
      if k >= 0 {
        playlists := playlists[k := playlists[k].(songIds := RemoveFirst(playlists[k].songIds, songId))];
      }
      SavePlaylists(playlists);
    }

    method SavePlaybackState(currentSongId: Option<Long>, seekPosition: Int32, repeatMode: Int32, isShuffleMode: bool,
                             queueSongs: seq<Song>, currentQueuePosition: Int32, originalQueueSongs: seq<Song>)
      modifies this`prefs
      ensures prefs == SavedSnapshot(old(prefs), currentSongId, seekPosition, repeatMode, isShuffleMode,
                                     queueSongs, currentQueuePosition, originalQueueSongs)
    {
      prefs := SnapshotBase(prefs, currentSongId.OrElse(-1), seekPosition, repeatMode, isShuffleMode, currentQueuePosition,
                            EncodeJsonIds(Ids(queueSongs)), EncodeJsonIds(Ids(originalQueueSongs)),
                            SongTable(queueSongs + originalQueueSongs));
      if currentSongId.Some? && 0 <= currentQueuePosition < |queueSongs| {
        prefs := prefs[KeyLastSongDetails := DetailsV(LastSongDetails(queueSongs[currentQueuePosition]))];
      }
    }

    method SavePlaybackStateWithQueueValidation(currentSongId: Option<Long>, seekPosition: Int32, repeatMode: Int32,
                                                isShuffleMode: bool, queueSongs: seq<Song>, currentQueuePosition: Int32,
                                                originalQueueSongs: seq<Song>)
      modifies this`prefs
      ensures prefs == SavedValidatedSnapshot(old(prefs), currentSongId, seekPosition, repeatMode, isShuffleMode,
                                              queueSongs, currentQueuePosition, originalQueueSongs)
    {
      var validQueueSongs := if queueSongs != [] then queueSongs else originalQueueSongs;
      var validOriginalQueueSongs := if originalQueueSongs != [] then originalQueueSongs else queueSongs;
      var validQueuePosition: Int32 := 0;
      if validQueueSongs != [] {
        var n := |validQueueSongs|;
        validQueuePosition := if currentQueuePosition < 0 then 0
                              else if currentQueuePosition > n - 1 then (n - 1) as Int32
                              else currentQueuePosition;
      }
      assert validQueueSongs == ValidQueue(queueSongs, originalQueueSongs);
      assert validOriginalQueueSongs == ValidOriginalQueue(queueSongs, originalQueueSongs);
      assert validQueuePosition == ValidPosition(queueSongs, originalQueueSongs, currentQueuePosition);
      SavePlaybackState(currentSongId, seekPosition, repeatMode, isShuffleMode,
                        validQueueSongs, validQueuePosition, validOriginalQueueSongs);
    }

    method ClearPlaybackState()
      modifies this`prefs
      ensures prefs == Cleared(old(prefs))
    {
      prefs := prefs - PLAYBACK_KEYS;
    }

    method MarkCacheDirty()
      modifies this`isCacheDirty, this`cachedSongsMap, this`cachedIds
      ensures isCacheDirty && cachedSongsMap == map[] && cachedIds == []
    {
      isCacheDirty := true;
      cachedSongsMap := map[];
      cachedIds := [];
    }

    /** The cached songs while the cache is clean and non-empty; otherwise a reload that refills the cache. */
    method GetCachedSongs() returns (songs: seq<Song>)
      modifies this`isCacheDirty, this`cachedSongsMap, this`cachedIds
      ensures !old(isCacheDirty) && |old(cachedSongsMap)| > 0 ==>
                songs == old(CachedValues()) &&
                cachedSongsMap == old(cachedSongsMap) && cachedIds == old(cachedIds) && isCacheDirty == old(isCacheDirty)
      ensures old(isCacheDirty) || |old(cachedSongsMap)| == 0 ==>
                songs == LoadSongsInBackground() && !isCacheDirty &&
                cachedSongsMap == SongCacheManager.IndexById(songs) && cachedIds == Dedupe(Ids(songs))
    {
      if !isCacheDirty && |cachedSongsMap| > 0 {
        songs := CachedValues();
      } else {
        songs := LoadSongsInBackground();
        cachedSongsMap := SongCacheManager.IndexById(songs);
        cachedIds := Dedupe(Ids(songs));
        isCacheDirty := false;
      }
    }

    method GetCachedSongsMap() returns (m: map<Long, Song>)
      modifies this`isCacheDirty, this`cachedSongsMap, this`cachedIds
      ensures m == cachedSongsMap
      ensures !old(isCacheDirty) && |old(cachedSongsMap)| > 0 ==>
                cachedSongsMap == old(cachedSongsMap) && cachedIds == old(cachedIds) && isCacheDirty == old(isCacheDirty)
      ensures old(isCacheDirty) || |old(cachedSongsMap)| == 0 ==>
                !isCacheDirty && cachedSongsMap == SongCacheManager.IndexById(LoadSongsInBackground()) &&
                cachedIds == Dedupe(Ids(LoadSongsInBackground()))
    {
      if isCacheDirty || |cachedSongsMap| == 0 {
        var _ := GetCachedSongs();
      }
      m := cachedSongsMap;
    }

    /** The known songs of the ids, in id order, looked up in the (refreshed) cache. */
    method GetSongsForQueue(songIds: seq<Long>) returns (songs: seq<Song>)
      modifies this`isCacheDirty, this`cachedSongsMap, this`cachedIds
      ensures songs == ResolveIds(songIds, cachedSongsMap)
      ensures !old(isCacheDirty) && |old(cachedSongsMap)| > 0 ==>
                cachedSongsMap == old(cachedSongsMap) && cachedIds == old(cachedIds) && isCacheDirty == old(isCacheDirty)
      ensures old(isCacheDirty) || |old(cachedSongsMap)| == 0 ==> songs == [] && !isCacheDirty
    {
      var m := GetCachedSongsMap();
      songs := ResolveIds(songIds, m);
      ResolveEmptyIndex(songIds);
    }
  }
}
