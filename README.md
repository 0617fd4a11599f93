# Nebula Music — a Dafny model of the library core

Nebula Music is an Android music player written in Kotlin. This project models its library
core in Dafny 4.11 and proves properties of that model:

- **PreferenceManager** keeps the app's persistent state in `SharedPreferences`:
  - favourites, as a comma-separated id list read back as an insertion-ordered set;
  - recently played ids, most recent first and capped at 50;
  - playlists;
  - one sort choice per library category;
  - the playback snapshot the player restores after a restart;
  - an in-memory song cache.
- **SongCacheManager** scans the device's media table once, keeps the songs as a list and as an
  id index, and knows when that index is more than five minutes old.
- **SongAdapter** computes the fast-scroll sections of a song list: one per run of equal initials.
- **The nine library screens** (songs, home, albums, artists, genres, playlists, one playlist,
  recent, favourites) load from the catalogue and the preferences, group, sort and filter, and
  write back to the preferences through the manager.

## How the model is built

- The preferences are a `map` from key to a tagged value (`Prefs`).
- Each `PreferenceManager` operation is two things:
  - a function `WithX(p, ...)` giving the preferences after the write;
  - a method of the `Store` class that reassigns its `prefs` field to exactly that.
- The screens are classes whose fields are the Kotlin fields they update (`songList`,
  `filteredSongList`, `currentSortType`, `albumList`, ...).
- Every screen method is stated against a specification function of its inputs and old state:
  - `LoadSongs` leaves `songList == ApplySort(catalogue, currentSortType)`;
  - `DeleteSong` on the favourites screen leaves the reloaded list and the preferences after
    `removeFavorite`.
- Lemmas then state what those functions mean, among them:
  - sorted and a permutation, and stable;
  - filtered exactly by the search predicate;
  - grouped into disjoint groups whose counts add up;
  - what each store operation does to what is read back.
- Kotlin's library behaviour that the app relies on is modelled in helper modules:
  - `Ordering`: `sortBy`, a stable sort;
  - `Text`: `trim`, `isBlank`, `contains(ignoreCase)`, `compareTo` on strings;
  - `Codec`: `Long.toString`, `toLongOrNull`, `split(",")`, `joinToString`, and JSON arrays of ids;
  - `Grouping`: an insertion-ordered `LinkedHashMap` grouping;
  - `Seqs`: `filter`, `remove`, `indexOf`, `toSet`, `mapNotNull`, `reverse`.
- Kotlin `Long` and `Int` are the subset types `Long` and `Int32`. Arithmetic that can overflow
  wraps explicitly:
  - `sumOf { it.duration }`;
  - `dateAdded * 1000`.
- Things outside the app's code become parameters:
  - the media table (`table`), the clock (`now`, `id`, `createdAt`), and the random shuffle
    (`shuffled`);
  - the answers of dialogs (`input`, `selected`, `which`);
  - the catalogue that `SongRepository` supplies (`catalogue`).
- Calls into the player service (`startPlayback`, `toggleShuffle`) are returned as
  `ServiceCall` values.

Source paths below are relative to the repository root.

## Model

| member | source | states |
|---|---|---|
| PreferenceManager.GetFavorites | app/src/main/java/com/shubhamgupta/nebula_music/utils/PreferenceManager.kt:100-104 | `getFavorites` keeps at most as many ids as the stored text parses to, and an id is in the set exactly when it is one of the parsed ids. That it holds each once is FavoritesDistinct. |
| PreferenceManager.IsFavorite | app/src/main/java/com/shubhamgupta/nebula_music/utils/PreferenceManager.kt:106-108 | A song is a favourite exactly when its id is among the ids parsed from the stored favourites text. |
| PreferenceManager.WithFavoriteAdded | app/src/main/java/com/shubhamgupta/nebula_music/utils/PreferenceManager.kt:88-92 | `addFavorite` writes the favourites key and leaves every other key as it was. The new set is AddFavoriteUnion. |
| PreferenceManager.WithFavoriteRemoved | app/src/main/java/com/shubhamgupta/nebula_music/utils/PreferenceManager.kt:94-98 | `removeFavorite` writes the favourites key and leaves every other key as it was. The new set is RemoveFavoriteDifference. |
| PreferenceManager.FavoritesDistinct | app/src/main/java/com/shubhamgupta/nebula_music/utils/PreferenceManager.kt:100-104 | The favourites read back never repeat an id, because `toSet` keeps one copy of each. |
| PreferenceManager.FavoritesStored | app/src/main/java/com/shubhamgupta/nebula_music/utils/PreferenceManager.kt:88-104 | Storing a duplicate-free id list and reading it back gives the same ids in the same order. |
| PreferenceManager.AddFavoriteUnion | app/src/main/java/com/shubhamgupta/nebula_music/utils/PreferenceManager.kt:88-92 | After `addFavorite(id)` the set is the old set with `id` appended when it is new. A song is a favourite exactly when it was one before or is `id`. |
| PreferenceManager.AddFavoriteIdempotent | app/src/main/java/com/shubhamgupta/nebula_music/utils/PreferenceManager.kt:88-92 | Adding the same favourite twice stores the same as adding it once. |
| PreferenceManager.RemoveFavoriteDifference | app/src/main/java/com/shubhamgupta/nebula_music/utils/PreferenceManager.kt:94-98 | After `removeFavorite(id)` the favourites are the old ones without `id`, in their old order. A song is a favourite exactly when it was one and is not `id`. |
| PreferenceManager.GetRecentSongs | app/src/main/java/com/shubhamgupta/nebula_music/utils/PreferenceManager.kt:132-136 | The recent list read back survives another write and read unchanged: decoding its encoding gives it again. |
| PreferenceManager.WithRecentAdded | app/src/main/java/com/shubhamgupta/nebula_music/utils/PreferenceManager.kt:113-124 | `addRecentSong` writes the recent-songs key and leaves every other key as it was. The new list is AddRecentShape. |
| PreferenceManager.WithRecentRemoved | app/src/main/java/com/shubhamgupta/nebula_music/utils/PreferenceManager.kt:126-130 | `removeRecentSong` writes the recent-songs key and leaves every other key as it was. |
| PreferenceManager.AddRecent | app/src/main/java/com/shubhamgupta/nebula_music/utils/PreferenceManager.kt:113-124 | The recent list `addRecentSong` builds never holds more than `MAX_RECENT_SONGS` (50) ids. |
| PreferenceManager.RecentStored | app/src/main/java/com/shubhamgupta/nebula_music/utils/PreferenceManager.kt:113-136 | Any recent list reads back unchanged from the comma-separated text it is stored as. |
| PreferenceManager.AddRecentShape | app/src/main/java/com/shubhamgupta/nebula_music/utils/PreferenceManager.kt:113-124 | The played id comes first. The rest is the old list with that id's earlier occurrence removed, in order. The list is cut to 50, and its exact length is given. |
| PreferenceManager.AddRecentDistinct | app/src/main/java/com/shubhamgupta/nebula_music/utils/PreferenceManager.kt:113-124 | A recent list without repeats keeps none after `addRecentSong`, so the played id occurs once. |
| PreferenceManager.AddRecentStored | app/src/main/java/com/shubhamgupta/nebula_music/utils/PreferenceManager.kt:113-136 | Reading back after `addRecentSong` gives `AddRecent` of the list read before. |
| PreferenceManager.AddRecentExample | app/src/main/java/com/shubhamgupta/nebula_music/utils/PreferenceManager.kt:113-124 | Playing 5, 7, 5 and 9 in turn leaves the recent list [9, 5, 7]. |
| PreferenceManager.RemoveRecentStored | app/src/main/java/com/shubhamgupta/nebula_music/utils/PreferenceManager.kt:126-136 | `removeRecentSong(id)` drops only the first occurrence of `id`. Everything else stays, in order. |
| PreferenceManager.GetSortPreferenceWithDefault | app/src/main/java/com/shubhamgupta/nebula_music/utils/PreferenceManager.kt:64-83 | A stored ordinal in range is the sort type returned. A missing or out-of-range one gives the category default: DATE_ADDED_DESC for songs and NAME_ASC for any other category. |
| PreferenceManager.WithSortSaved | app/src/main/java/com/shubhamgupta/nebula_music/utils/PreferenceManager.kt:51-61 | `saveSortPreference` stores an ordinal in range under the category's key and leaves every other key as it was. |
| PreferenceManager.DefaultSortOrdinal | app/src/main/java/com/shubhamgupta/nebula_music/utils/PreferenceManager.kt:72-78 | The default ordinal of every category names a sort type. |
| PreferenceManager.SortSaveThenGet | app/src/main/java/com/shubhamgupta/nebula_music/utils/PreferenceManager.kt:51-83 | Reading a category's sort right after saving it gives the saved type, for every category. |
| PreferenceManager.SortDefaults | app/src/main/java/com/shubhamgupta/nebula_music/utils/PreferenceManager.kt:64-83 | With nothing stored, songs default to newest first and every other category to name ascending. |
| PreferenceManager.SortOutOfRange | app/src/main/java/com/shubhamgupta/nebula_music/utils/PreferenceManager.kt:79-82 | A stored ordinal outside the enum, negative ones included, falls back to the category default (`getOrElse`). |
| PreferenceManager.SortUnknownCategory | app/src/main/java/com/shubhamgupta/nebula_music/utils/PreferenceManager.kt:51-83 | An unknown category reads and writes the songs key but defaults to name ascending. |
| PreferenceManager.WithPlaylistsSaved | app/src/main/java/com/shubhamgupta/nebula_music/utils/PreferenceManager.kt:141-145 | `savePlaylists` followed by `getPlaylists` gives the same playlists back, and no other key changes. |
| PreferenceManager.GetPlaylists | app/src/main/java/com/shubhamgupta/nebula_music/utils/PreferenceManager.kt:147-155 | A non-empty playlist list read back is exactly the one stored under the playlists key; anything else reads as empty. |
| PreferenceManager.PlaylistIndex | app/src/main/java/com/shubhamgupta/nebula_music/utils/PreferenceManager.kt:157-167 | `find { it.id == playlistId }` stops at the first playlist with that id. The result is -1 exactly when none has it. |
| PreferenceManager.AppendSongTo | app/src/main/java/com/shubhamgupta/nebula_music/utils/PreferenceManager.kt:157-161 | Only the first playlist with the id changes, and it gets the song appended even when it already holds it. Names, ids and dates are untouched. An unknown id changes nothing. |
| PreferenceManager.RemoveSongFrom | app/src/main/java/com/shubhamgupta/nebula_music/utils/PreferenceManager.kt:163-167 | Only the first playlist with the id loses the first occurrence of the song. Everything else is untouched, and an unknown id changes nothing. |
| PreferenceManager.SongTable | app/src/main/java/com/shubhamgupta/nebula_music/utils/PreferenceManager.kt:208-220 | Every queued song has an entry under its id text in the saved song table. |
| PreferenceManager.LoadPlaybackState | app/src/main/java/com/shubhamgupta/nebula_music/utils/PreferenceManager.kt:293-366 | Nothing is restored exactly when the last song id is missing or -1 (a value of another type reads as missing, where the app throws). Otherwise the restored state carries that id. |
| PreferenceManager.GetLastSongDetails | app/src/main/java/com/shubhamgupta/nebula_music/utils/PreferenceManager.kt:368-378 | A non-empty details map is exactly the one stored under its key; anything else reads as an empty map. |
| PreferenceManager.LoadBase | app/src/main/java/com/shubhamgupta/nebula_music/utils/PreferenceManager.kt:176-234 | Loading a snapshot saved with a real song id gives back every field: id, seek position, repeat mode, shuffle flag, both queues, position and song table. |
| PreferenceManager.SnapshotBase | app/src/main/java/com/shubhamgupta/nebula_music/utils/PreferenceManager.kt:186-220 | The common part of both saves writes only playback keys, and the song id and queue position read back as written. |
| PreferenceManager.SavedSnapshot | app/src/main/java/com/shubhamgupta/nebula_music/utils/PreferenceManager.kt:176-235 | `savePlaybackState` changes only the playback keys. The last song id reads back as the current song's id, or -1 without one, and the queue position as given. |
| PreferenceManager.SnapshotScalars | app/src/main/java/com/shubhamgupta/nebula_music/utils/PreferenceManager.kt:193-203 | The scalar fields of a saved snapshot read back as written. |
| PreferenceManager.SnapshotQueues | app/src/main/java/com/shubhamgupta/nebula_music/utils/PreferenceManager.kt:196-220 | The two JSON queue lists and the song table read back as written. The mini-player details are left as they were. |
| PreferenceManager.LoadWithDetails | app/src/main/java/com/shubhamgupta/nebula_music/utils/PreferenceManager.kt:222-231 | Writing the mini-player details changes only that field of what `loadPlaybackState` returns. |
| PreferenceManager.ValidPosition | app/src/main/java/com/shubhamgupta/nebula_music/utils/PreferenceManager.kt:252-260 | The validated position lies inside a non-empty saved queue, is 0 for an empty one, and is kept when it was already in range (`coerceIn`). |
| PreferenceManager.Cleared | app/src/main/java/com/shubhamgupta/nebula_music/utils/PreferenceManager.kt:383-395 | `clearPlaybackState` removes every one of the nine playback keys and leaves every other key as it was. |
| PreferenceManager.LoadAfterClear | app/src/main/java/com/shubhamgupta/nebula_music/utils/PreferenceManager.kt:383-395 | After `clearPlaybackState` nothing is restored, and every other preference keeps its value. |
| PreferenceManager.LoadAfterSaveWithoutSong | app/src/main/java/com/shubhamgupta/nebula_music/utils/PreferenceManager.kt:187-190 | A save without a current song writes -1, so loading restores nothing. A song whose id is itself -1 restores nothing either. |
| PreferenceManager.LoadEncodedBase | app/src/main/java/com/shubhamgupta/nebula_music/utils/PreferenceManager.kt:176-220 | Loading reads back the queue id lists that were written as JSON. |
| PreferenceManager.LoadAfterSave | app/src/main/java/com/shubhamgupta/nebula_music/utils/PreferenceManager.kt:176-234 | The save/load round trip: every field comes back. The details are those of the song at the saved position when it is in range, and otherwise the old ones. |
| PreferenceManager.LoadDefaults | app/src/main/java/com/shubhamgupta/nebula_music/utils/PreferenceManager.kt:293-366 | With only a song id stored, every other field takes its default: seek 0, repeat all, no shuffle, position 0, empty queues and maps. |
| PreferenceManager.LoadMalformedQueue | app/src/main/java/com/shubhamgupta/nebula_music/utils/PreferenceManager.kt:293-366 | A queue entry that is not a JSON id list loads as an empty queue, and the rest of the state still loads. |
| PreferenceManager.SavedValidatedSnapshot | app/src/main/java/com/shubhamgupta/nebula_music/utils/PreferenceManager.kt:240-288 | The validating save changes only the playback keys. The saved position lies within the validated queue when it is non-empty, and is 0 when it is empty. |
| PreferenceManager.ValidatedSave | app/src/main/java/com/shubhamgupta/nebula_music/utils/PreferenceManager.kt:240-288 | With validation, an empty current queue is replaced by the original one and the other way round. The saved position lies inside the saved queue, or is 0 when both are empty. The restored details describe the song at that position. |
| PreferenceManager.ResolveKnown | app/src/main/java/com/shubhamgupta/nebula_music/utils/PreferenceManager.kt:472-493 | When every id is in the index, each id gives its own song, in id order. |
| PreferenceManager.ResolveSkipsUnknown | app/src/main/java/com/shubhamgupta/nebula_music/utils/PreferenceManager.kt:472-493 | Unknown ids are dropped and nothing else changes (`mapNotNull`). |
| PreferenceManager.ResolveKnownIds | app/src/main/java/com/shubhamgupta/nebula_music/utils/PreferenceManager.kt:472-493 | The queue is exactly one song per known id, in id order. |
| PreferenceManager.ResolveInIndex | app/src/main/java/com/shubhamgupta/nebula_music/utils/PreferenceManager.kt:472-493 | Every song returned comes from the index. |
| PreferenceManager.ResolveEmptyIndex | app/src/main/java/com/shubhamgupta/nebula_music/utils/PreferenceManager.kt:472-493 | Nothing resolves against an empty index. |
| PreferenceManager.LoadSongsInBackground | app/src/main/java/com/shubhamgupta/nebula_music/utils/PreferenceManager.kt:463-467 | The placeholder loader returns no songs. |
| PreferenceManager.GetSongsForQueueFast | app/src/main/java/com/shubhamgupta/nebula_music/utils/PreferenceManager.kt:484-493 | `getSongsForQueueFast` looks each id up in the song cache's index, and every song it returns is one of the cached songs. |
| PreferenceManager.FindPlaylist | app/src/main/java/com/shubhamgupta/nebula_music/utils/PreferenceManager.kt:157-167 | The search loop stops at `PlaylistIndex`: the first playlist with the id, or -1. |
| PreferenceManager.AssociateByValues | app/src/main/java/com/shubhamgupta/nebula_music/utils/PreferenceManager.kt:427-447 | The values of `associateBy { it.id }` are one song per distinct id, in first-seen order, each one of the listed songs with that id. |
| PreferenceManager.Store.constructor | app/src/main/java/com/shubhamgupta/nebula_music/utils/PreferenceManager.kt:41-42 | A fresh manager has an empty, dirty song cache over the given preferences. |
| PreferenceManager.Store.SaveSortPreference | app/src/main/java/com/shubhamgupta/nebula_music/utils/PreferenceManager.kt:51-61 | The new preferences are `WithSortSaved`: only the category's key changes. |
| PreferenceManager.Store.AddFavorite | app/src/main/java/com/shubhamgupta/nebula_music/utils/PreferenceManager.kt:88-92 | The new preferences are `WithFavoriteAdded` (see AddFavoriteUnion). |
| PreferenceManager.Store.RemoveFavorite | app/src/main/java/com/shubhamgupta/nebula_music/utils/PreferenceManager.kt:94-98 | The new preferences are `WithFavoriteRemoved` (see RemoveFavoriteDifference). |
| PreferenceManager.Store.AddRecentSong | app/src/main/java/com/shubhamgupta/nebula_music/utils/PreferenceManager.kt:113-124 | The remove, insert-at-front and trim loop leaves exactly `WithRecentAdded` (see AddRecentShape). |
| PreferenceManager.Store.RemoveRecentSong | app/src/main/java/com/shubhamgupta/nebula_music/utils/PreferenceManager.kt:126-130 | The new preferences are `WithRecentRemoved` (see RemoveRecentStored). |
| PreferenceManager.Store.SavePlaylists | app/src/main/java/com/shubhamgupta/nebula_music/utils/PreferenceManager.kt:141-145 | The playlists key holds the given list. |
| PreferenceManager.Store.AddSongToPlaylist | app/src/main/java/com/shubhamgupta/nebula_music/utils/PreferenceManager.kt:157-161 | The saved list is `AppendSongTo` of the stored one. It is saved even when no playlist has the id. |
| PreferenceManager.Store.RemoveSongFromPlaylist | app/src/main/java/com/shubhamgupta/nebula_music/utils/PreferenceManager.kt:163-167 | The saved list is `RemoveSongFrom` of the stored one. |
| PreferenceManager.Store.SavePlaybackState | app/src/main/java/com/shubhamgupta/nebula_music/utils/PreferenceManager.kt:176-234 | The new preferences are `SavedSnapshot` (see LoadAfterSave). |
| PreferenceManager.Store.SavePlaybackStateWithQueueValidation | app/src/main/java/com/shubhamgupta/nebula_music/utils/PreferenceManager.kt:240-288 | The new preferences are `SavedValidatedSnapshot` (see ValidatedSave). |
| PreferenceManager.Store.ClearPlaybackState | app/src/main/java/com/shubhamgupta/nebula_music/utils/PreferenceManager.kt:383-395 | The new preferences are `Cleared` (see LoadAfterClear). |
| PreferenceManager.Store.MarkCacheDirty | app/src/main/java/com/shubhamgupta/nebula_music/utils/PreferenceManager.kt:419-422 | The cache is marked dirty and emptied. |
| PreferenceManager.Store.GetCachedSongs | app/src/main/java/com/shubhamgupta/nebula_music/utils/PreferenceManager.kt:427-437 | A clean, non-empty cache answers from its values and stays as it is. Otherwise the cache is refilled from the background load, indexed by id, and marked clean. |
| PreferenceManager.Store.GetCachedSongsMap | app/src/main/java/com/shubhamgupta/nebula_music/utils/PreferenceManager.kt:442-447 | The same refresh rule, answering with the id index. |
| PreferenceManager.Store.GetSongsForQueue | app/src/main/java/com/shubhamgupta/nebula_music/utils/PreferenceManager.kt:472-479 | The known songs of the ids, in id order, from the refreshed cache. A refill yields no songs because the background load returns none. |
| SongCacheManager.Selected | app/src/main/java/com/shubhamgupta/nebula_music/utils/SongCacheManager.kt:70 | A row the query selects has a duration of at least 10000 ms and a non-zero music flag. |
| SongCacheManager.ConvertRow | app/src/main/java/com/shubhamgupta/nebula_music/utils/SongCacheManager.kt:92-107 | A row becomes a song with the same id, album id, duration, album, year, genre and path. The title defaults to "Unknown Title", the artist is always present and kept when the row has one, the uri is the content uri of the id, and the favourite flag is set exactly when the id is a favourite. |
| SongCacheManager.ConvertRows | app/src/main/java/com/shubhamgupta/nebula_music/utils/SongCacheManager.kt:92-109 | One song per scanned row, in cursor order, each built from its own row. |
| SongCacheManager.ReadUntil | app/src/main/java/com/shubhamgupta/nebula_music/utils/SongCacheManager.kt:92-113 | The rows read before a read throws are a prefix of the rows: all of them when no read throws, and exactly the rows before the failing one otherwise. |
| SongCacheManager.ScannedRows | app/src/main/java/com/shubhamgupta/nebula_music/utils/SongCacheManager.kt:70-114 | Every row the scan reaches passed the query's selection: music, at least 10 000 ms long. |
| SongCacheManager.LoadSongsFromMediaStore | app/src/main/java/com/shubhamgupta/nebula_music/utils/SongCacheManager.kt:54-116 | The cursor loop returns exactly the converted rows of the scan. That is nothing without a cursor, and the rows before the failing one when reading a row throws. |
| SongCacheManager.ReadCursor | app/src/main/java/com/shubhamgupta/nebula_music/utils/SongCacheManager.kt:92-109 | The `while (it.moveToNext())` loop returns one converted song per row read, in cursor order, stopping at the row whose read throws. |
| SongCacheManager.ConvertRowsSnoc | app/src/main/java/com/shubhamgupta/nebula_music/utils/SongCacheManager.kt:92-109 | Converting one more row appends that row's song: the loop step. |
| SongCacheManager.ScannedSongs | app/src/main/java/com/shubhamgupta/nebula_music/utils/SongCacheManager.kt:93-107 | Every scanned song keeps its row's id and passed the duration filter. A missing title becomes "Unknown Title" and a missing artist "Unknown Artist". The song is a favourite exactly when its id is one. |
| SongCacheManager.DateAddedInMillis | app/src/main/java/com/shubhamgupta/nebula_music/utils/SongCacheManager.kt:99 | The stored date is the row's seconds times 1000 whenever that fits in a `Long`. |
| SongCacheManager.PartialScanIsPrefix | app/src/main/java/com/shubhamgupta/nebula_music/utils/SongCacheManager.kt:92-114 | A scan cut short by an exception yields a prefix of the full scan. |
| SongCacheManager.FullScan | app/src/main/java/com/shubhamgupta/nebula_music/utils/SongCacheManager.kt:70-109 | A full scan keeps exactly the selected rows, in cursor order. Rejected rows never become songs. |
| SongCacheManager.IndexById | app/src/main/java/com/shubhamgupta/nebula_music/utils/SongCacheManager.kt:135-145 | Every entry of the id map is a song with that id. |
| SongCacheManager.IndexByIdKeys | app/src/main/java/com/shubhamgupta/nebula_music/utils/SongCacheManager.kt:135-145 | An id is in the map exactly when some song of the list has it. |
| SongCacheManager.IndexByIdLastWins | app/src/main/java/com/shubhamgupta/nebula_music/utils/SongCacheManager.kt:137-139 | For a duplicated id the map keeps the last song with that id. |
| SongCacheManager.IndexByIdCovers | app/src/main/java/com/shubhamgupta/nebula_music/utils/SongCacheManager.kt:118-124 | Every listed song can be looked up by its id. |
| SongCacheManager.SongCache.constructor | app/src/main/java/com/shubhamgupta/nebula_music/utils/SongCacheManager.kt:17-26 | The cache starts empty and uninitialised, with update time 0 and a consistent index. |
| SongCacheManager.SongCache.GetAllSongs | app/src/main/java/com/shubhamgupta/nebula_music/utils/SongCacheManager.kt:118-120 | `getAllSongs` returns the list of the last update, and `getSongById` finds each of its songs. |
| SongCacheManager.SongCache.GetSongById | app/src/main/java/com/shubhamgupta/nebula_music/utils/SongCacheManager.kt:122-124 | A song is returned exactly when the id is indexed, and it is one of the indexed songs. |
| SongCacheManager.SongCache.ShouldUpdateCache | app/src/main/java/com/shubhamgupta/nebula_music/utils/SongCacheManager.kt:130-133 | An update is needed when the cache was never filled or was last filled more than five minutes ago, and only then. |
| SongCacheManager.SongCache.UpdateCache | app/src/main/java/com/shubhamgupta/nebula_music/utils/SongCacheManager.kt:135-145 | The index becomes the id map of the new list and the list becomes the new list. Every old entry is discarded and the freshness state is untouched. |
| SongCacheManager.SongCache.InitializeCache | app/src/main/java/com/shubhamgupta/nebula_music/utils/SongCacheManager.kt:29-41 | An initialised cache is left unchanged. Otherwise the cache holds the scan, is initialised and is stamped with `now`. |
| SongCacheManager.SongCache.RefreshCache | app/src/main/java/com/shubhamgupta/nebula_music/utils/SongCacheManager.kt:43-52 | The cache holds whatever the new scan returned, even a partial list, and is stamped with `now`. |
| SongCacheManager.StaleBoundary | app/src/main/java/com/shubhamgupta/nebula_music/utils/SongCacheManager.kt:27 | Exactly five minutes after an update the cache is still fresh, and one millisecond later it is stale. |
| SongCacheManager.LookupAfterUpdate | app/src/main/java/com/shubhamgupta/nebula_music/utils/SongCacheManager.kt:122-145 | After an update, exactly the ids in the list can be looked up, and each lookup gives a listed song with that id. |
| SongCacheManager.IndexByIdMember | app/src/main/java/com/shubhamgupta/nebula_music/utils/SongCacheManager.kt:135-145 | Every indexed song is one of the listed songs. |
| SongAdapter.Initials | app/src/main/java/com/shubhamgupta/nebula_music/adapters/SongAdapter.kt:36-40 | One upper-cased first title character per song, in list order. |
| SongAdapter.Runs | app/src/main/java/com/shubhamgupta/nebula_music/adapters/SongAdapter.kt:31-52 | There are no more sections than songs and none only for an empty list. The first section starts at position 0 with the first song's letter. RunsAreMaximal states the rest. |
| SongAdapter.RunsAreMaximal | app/src/main/java/com/shubhamgupta/nebula_music/adapters/SongAdapter.kt:31-52 | The sections are the maximal runs of equal initials. They start at 0 and their starts increase. Every position in a run has its letter, and a new run starts exactly where the initial changes. |
| SongAdapter.ExtendLastRun | app/src/main/java/com/shubhamgupta/nebula_music/adapters/SongAdapter.kt:38-46 | A song with the current initial extends the open run. |
| SongAdapter.NewRunLetters | app/src/main/java/com/shubhamgupta/nebula_music/adapters/SongAdapter.kt:40-45 | Opening a run for a new initial keeps every position on its run's letter. |
| SongAdapter.NewRunStarts | app/src/main/java/com/shubhamgupta/nebula_music/adapters/SongAdapter.kt:40-45 | Opening a run for a new initial keeps the starts in range and increasing. |
| SongAdapter.NewRunChanges | app/src/main/java/com/shubhamgupta/nebula_music/adapters/SongAdapter.kt:40-45 | After opening a run for a new initial, every later run still starts where the initial changes. |
| SongAdapter.StartNewRun | app/src/main/java/com/shubhamgupta/nebula_music/adapters/SongAdapter.kt:40-45 | A song with a different initial closes the open run and starts a new one at its position. |
| SongAdapter.RunsNext | app/src/main/java/com/shubhamgupta/nebula_music/adapters/SongAdapter.kt:38-46 | One song further, the open run either goes on or is closed and a new one opens. |
| SongAdapter.OpenRunStep | app/src/main/java/com/shubhamgupta/nebula_music/adapters/SongAdapter.kt:38-46 | The loop step keeps the state "closed sections followed by the open run". |
| SongAdapter.NeighbourRunsDiffer | app/src/main/java/com/shubhamgupta/nebula_music/adapters/SongAdapter.kt:40-45 | Two neighbouring sections never share a letter. |
| SongAdapter.LettersOf | app/src/main/java/com/shubhamgupta/nebula_music/adapters/SongAdapter.kt:43-50 | `sectionLetters` holds one letter per section, in order. |
| SongAdapter.CloseSection | app/src/main/java/com/shubhamgupta/nebula_music/adapters/SongAdapter.kt:42-50 | Closing a section appends its letter and records its start under the letter's code. |
| SongAdapter.LastWith | app/src/main/java/com/shubhamgupta/nebula_music/adapters/SongAdapter.kt:42-49 | The last section with a given letter, or -1. |
| SongAdapter.StartsOf | app/src/main/java/com/shubhamgupta/nebula_music/adapters/SongAdapter.kt:42-50 | Every section's letter has an entry in the letter-to-start map. StartsOfLastWins states which start it holds. |
| SongAdapter.StartsOfLastWins | app/src/main/java/com/shubhamgupta/nebula_music/adapters/SongAdapter.kt:42-49 | `sections.put` overwrites: a letter's entry is the start of its last section, and letters without a section have none. |
| SongAdapter.BuiltPosition | app/src/main/java/com/shubhamgupta/nebula_music/adapters/SongAdapter.kt:58-65 | On sections built from the songs, a section index in range gives the start of the last section with that index's letter. |
| SongAdapter.PositionFor | app/src/main/java/com/shubhamgupta/nebula_music/adapters/SongAdapter.kt:58-65 | A section index past the end gives position 0. |
| SongAdapter.DistinctSectionPositions | app/src/main/java/com/shubhamgupta/nebula_music/adapters/SongAdapter.kt:58-65 | When no letter repeats (a title-sorted list), section k points at the start of run k. The first section points at 0 and the positions strictly increase. |
| SongAdapter.RepeatedLetterPosition | app/src/main/java/com/shubhamgupta/nebula_music/adapters/SongAdapter.kt:42-65 | A letter that recurs in a later run is listed twice, and both sections point at the later run's start. |
| SongAdapter.PositionInItsSection | app/src/main/java/com/shubhamgupta/nebula_music/adapters/SongAdapter.kt:58-75 | With distinct letters, the section `getSectionForPosition` settles on is the run that holds the position. |
| SongAdapter.SongAdapter.constructor | app/src/main/java/com/shubhamgupta/nebula_music/adapters/SongAdapter.kt:27-29 | Constructing the adapter runs `setupSections`: the letters and starts are those of the runs of initials. |
| SongAdapter.SongAdapter.SetupSections | app/src/main/java/com/shubhamgupta/nebula_music/adapters/SongAdapter.kt:31-52 | The one-pass loop leaves the letters and the letter-to-start map of the maximal runs (see RunsAreMaximal). |
| SongAdapter.SongAdapter.UpdateSongs | app/src/main/java/com/shubhamgupta/nebula_music/adapters/SongAdapter.kt:77-81 | `updateSongs` ignores its argument and recomputes the sections of the adapter's own list, so nothing changes. |
| SongAdapter.SongAdapter.GetSections | app/src/main/java/com/shubhamgupta/nebula_music/adapters/SongAdapter.kt:54-56 | One single-character string per section letter, in order. |
| SongAdapter.SongAdapter.GetPositionForSection | app/src/main/java/com/shubhamgupta/nebula_music/adapters/SongAdapter.kt:58-65 | An index past the letters gives 0. On the adapter's built sections, an index in range gives the start of the last section with its letter. |
| SongAdapter.SongAdapter.GetSectionForPosition | app/src/main/java/com/shubhamgupta/nebula_music/adapters/SongAdapter.kt:67-75 | The last section whose start is not after the position, or 0: every later section starts after it. |
| SongsFragment.SortedInOrder | app/src/main/java/com/shubhamgupta/nebula_music/fragments/SongsFragment.kt:311-348 | A list sorted on a sort type's selector is in that type's order. Name sorts compare the lower-cased title. Date sorts compare `dateAdded` in either direction. Duration puts the longest first. |
| SongsFragment.ApplySort | app/src/main/java/com/shubhamgupta/nebula_music/fragments/SongsFragment.kt:311-348 | `applyCurrentSort` returns a permutation of the list in the sort type's order. |
| SongsFragment.ApplySortStable | app/src/main/java/com/shubhamgupta/nebula_music/fragments/SongsFragment.kt:311-348 | `sortBy` and `sortByDescending` are stable: songs that tie on the selector keep their catalogue order. |
| SongsFragment.Matches | app/src/main/java/com/shubhamgupta/nebula_music/fragments/SongsFragment.kt:364-368 | The empty query matches every song. |
| SongsFragment.FilterByQuery | app/src/main/java/com/shubhamgupta/nebula_music/fragments/SongsFragment.kt:360-372 | A blank query keeps everything. Otherwise the result is exactly the songs whose title, artist or album contains the query, ignoring case. |
| SongsFragment.FilterKeepsSortOrder | app/src/main/java/com/shubhamgupta/nebula_music/fragments/SongsFragment.kt:311-372 | Filtering after sorting keeps the sort order in the list shown. |
| SongsFragment.Toggled | app/src/main/java/com/shubhamgupta/nebula_music/fragments/SongsFragment.kt:404-411 | The favourite toggle writes only the favourites key; every other key keeps its value. |
| SongsFragment.ToggleFlips | app/src/main/java/com/shubhamgupta/nebula_music/fragments/SongsFragment.kt:404-411 | The favourite toggle flips that song's favourite status and leaves every other song's as it was. |
| SongsFragment.ToggleTwice | app/src/main/java/com/shubhamgupta/nebula_music/fragments/SongsFragment.kt:404-411 | Toggling twice restores the favourite status of every song. |
| SongsFragment.SongsFragment.constructor | app/src/main/java/com/shubhamgupta/nebula_music/fragments/SongsFragment.kt:137-142 | `onCreate` reads the sort type from the saved preference for "songs" and starts with empty lists. |
| SongsFragment.SongsFragment.FilterSongs | app/src/main/java/com/shubhamgupta/nebula_music/fragments/SongsFragment.kt:360-372 | The shown list becomes `FilterByQuery` of the song list. |
| SongsFragment.SongsFragment.ApplyCurrentSort | app/src/main/java/com/shubhamgupta/nebula_music/fragments/SongsFragment.kt:311-348 | The song list is sorted in place by the current type and then re-filtered. |
| SongsFragment.SongsFragment.LoadSongs | app/src/main/java/com/shubhamgupta/nebula_music/fragments/SongsFragment.kt:259-309 | Loading clears the list, refills it from the catalogue, sorts and filters. `loadSongsPreserveState` and the refresh broadcast do the same. |
| SongsFragment.SongsFragment.OnSearchQuery | app/src/main/java/com/shubhamgupta/nebula_music/fragments/SongsFragment.kt:48-55 | The search broadcast stores the query, "" when it is missing, and re-filters. |
| SongsFragment.SongsFragment.OnSortBroadcast | app/src/main/java/com/shubhamgupta/nebula_music/fragments/SongsFragment.kt:100-115 | Only a sort type different from the current one is adopted, saved under "songs" and reloaded. The same type changes nothing. |
| SongsFragment.SongsFragment.OnResume | app/src/main/java/com/shubhamgupta/nebula_music/fragments/SongsFragment.kt:201-213 | A changed saved sort is adopted and the list reloaded. Otherwise the list is reloaded after the first load, and on the first resume only the flag is cleared. |
| SongsFragment.SongsFragment.OpenNowPlaying | app/src/main/java/com/shubhamgupta/nebula_music/fragments/SongsFragment.kt:413-421 | The song becomes most recent and the shown list is played from that position. |
| SongsFragment.SongsFragment.ToggleFavorite | app/src/main/java/com/shubhamgupta/nebula_music/fragments/SongsFragment.kt:395-411 | The menu's toggle removes the shown song from the favourites when it is one and adds it otherwise. |
| HomeFragment.ViewSort | app/src/main/java/com/shubhamgupta/nebula_music/fragments/HomeFragment.kt:219-248 | The loaded list is a permutation of the catalogue. The artist, album and genre views order it ascending by that field, lower-cased, with a missing value read as empty. The songs view uses the sort type, and any other mode keeps catalogue order. |
| HomeFragment.ViewSortStable | app/src/main/java/com/shubhamgupta/nebula_music/fragments/HomeFragment.kt:219-248 | The artist, album and genre sorts are stable: the songs sharing a key keep their catalogue order. |
| HomeFragment.RecentCardSong | app/src/main/java/com/shubhamgupta/nebula_music/fragments/HomeFragment.kt:259-270 | The recent card shows the playing song when there is one. Otherwise it shows the first catalogue song with the most recent id, found exactly when some song has that id. |
| HomeFragment.FavoriteCardSong | app/src/main/java/com/shubhamgupta/nebula_music/fragments/HomeFragment.kt:292-297 | The favourites card shows the first catalogue song with the last favourite id. It shows nothing exactly when there are no favourites or no song has that id. |
| HomeFragment.PlaylistCardSong | app/src/main/java/com/shubhamgupta/nebula_music/fragments/HomeFragment.kt:319-331 | The playlists card shows the first catalogue song with the first id of the first playlist. It shows nothing exactly when there is no such id or no song has it. |
| HomeFragment.AddFromHomeKeepsDistinct | app/src/main/java/com/shubhamgupta/nebula_music/fragments/HomeFragment.kt:442-451 | Adding from the home menu never creates a duplicate: a playlist without repeats still has none and has grown by exactly that song. |
| HomeFragment.HomeFragment.constructor | app/src/main/java/com/shubhamgupta/nebula_music/fragments/HomeFragment.kt:104-117 | The view mode is the `VIEW_MODE` argument, "songs" when it is absent. The sort is name ascending and the query empty. |
| HomeFragment.HomeFragment.FilterSongs | app/src/main/java/com/shubhamgupta/nebula_music/fragments/HomeFragment.kt:372-384 | The shown list becomes `FilterByQuery` of the song list, the same search as the songs screen. |
| HomeFragment.HomeFragment.SortSongs | app/src/main/java/com/shubhamgupta/nebula_music/fragments/HomeFragment.kt:349-370 | The list is reordered by the sort type only in song mode, but it is always re-filtered. |
| HomeFragment.HomeFragment.LoadSongs | app/src/main/java/com/shubhamgupta/nebula_music/fragments/HomeFragment.kt:219-248 | The list is refilled in `ViewSort` order. In song mode the filtering comes from `sortSongs`; in other modes it is done directly. |
| HomeFragment.HomeFragment.AddToExistingPlaylist | app/src/main/java/com/shubhamgupta/nebula_music/fragments/HomeFragment.kt:441-452 | Picking playlist `which` (after the "create" entry) appends the song only when that playlist does not hold it yet. |
| HomeFragment.HomeFragment.CreatePlaylistWithSong | app/src/main/java/com/shubhamgupta/nebula_music/fragments/HomeFragment.kt:463-496 | A name that trims to nothing is refused and nothing is saved. Otherwise a playlist holding just the song, under the trimmed name, is appended to the stored ones. |
| HomeFragment.HomeFragment.ToggleFavorite | app/src/main/java/com/shubhamgupta/nebula_music/fragments/HomeFragment.kt:420-430 | The menu's toggle removes the song from the favourites when it is one and adds it otherwise. |
| HomeFragment.HomeFragment.OpenNowPlaying | app/src/main/java/com/shubhamgupta/nebula_music/fragments/HomeFragment.kt:507-517 | The song becomes most recent and the shown list is played from that position. |
| HomeFragment.HomeFragment.OnSearchQuery | app/src/main/java/com/shubhamgupta/nebula_music/fragments/HomeFragment.kt:57-64 | The search broadcast stores the query and re-filters. |
| HomeFragment.HomeFragment.OnSortBroadcast | app/src/main/java/com/shubhamgupta/nebula_music/fragments/HomeFragment.kt:66-74 | The broadcast's sort type is adopted even when it is unchanged, and it is not saved. In song mode the list is re-sorted in place, and it is re-filtered. |
| HomeFragment.HomeFragment.OnResume | app/src/main/java/com/shubhamgupta/nebula_music/fragments/HomeFragment.kt:157-218 | An empty list loads only once the storage permission is granted. A non-empty list is reloaded. |
| AlbumsFragment.Albums | app/src/main/java/com/shubhamgupta/nebula_music/fragments/AlbumsFragment.kt:251-268 | One album per distinct album name ("Unknown Album" when missing), in order of first appearance. Each album holds exactly the songs of its name, in catalogue order. |
| AlbumsFragment.AlbumNamesDistinct | app/src/main/java/com/shubhamgupta/nebula_music/fragments/AlbumsFragment.kt:251-268 | No two albums share a name. |
| AlbumsFragment.AlbumFromFirstSong | app/src/main/java/com/shubhamgupta/nebula_music/fragments/AlbumsFragment.kt:253-260 | An album's artist ("Unknown Artist" when missing) and album id come from the first catalogue song with that album name. |
| AlbumsFragment.AlbumCounts | app/src/main/java/com/shubhamgupta/nebula_music/fragments/AlbumsFragment.kt:262-265 | Every album's count is its number of songs. Every song is in the album of its own name and in no other, and the counts add up to the catalogue size. |
| AlbumsFragment.AlbumIndexDomain | app/src/main/java/com/shubhamgupta/nebula_music/fragments/AlbumsFragment.kt:251-266 | The grouping map holds exactly the album names that occur. |
| AlbumsFragment.AddSongOf | app/src/main/java/com/shubhamgupta/nebula_music/fragments/AlbumsFragment.kt:262-265 | `songCount++` and `songs.add` on a group's album give the album of the group with that song. |
| AlbumsFragment.AlbumIndexValue | app/src/main/java/com/shubhamgupta/nebula_music/fragments/AlbumsFragment.kt:251-266 | Each album in the map is the album of its members. |
| AlbumsFragment.MembersLast | app/src/main/java/com/shubhamgupta/nebula_music/fragments/AlbumsFragment.kt:251-266 | A name's members are those before the last song, plus the last song when it has that name. |
| AlbumsFragment.AlbumIndexNext | app/src/main/java/com/shubhamgupta/nebula_music/fragments/AlbumsFragment.kt:251-266 | One song further, the key order grows exactly when the song's album name is new, and the map takes the updated album. |
| Grouping.ValuesInOrder | app/src/main/java/com/shubhamgupta/nebula_music/fragments/AlbumsFragment.kt:268 | `map.values` of an insertion-ordered map lists exactly the values of its keys, in insertion order (also `artistMap.values` and `genreMap.values`). |
| AlbumsFragment.AlbumIndexValues | app/src/main/java/com/shubhamgupta/nebula_music/fragments/AlbumsFragment.kt:251-268 | Listing the map's albums in key order gives `Albums` of the catalogue. |
| AlbumsFragment.GroupAlbums | app/src/main/java/com/shubhamgupta/nebula_music/fragments/AlbumsFragment.kt:248-268 | The `forEach` into an insertion-ordered map returns exactly `Albums(songs)`. |
| AlbumsFragment.SortAlbums | app/src/main/java/com/shubhamgupta/nebula_music/fragments/AlbumsFragment.kt:326-351 | The result is a permutation, descending by lower-cased name for NAME_DESC and ascending for every other sort type. |
| AlbumsFragment.SortAlbumsStable | app/src/main/java/com/shubhamgupta/nebula_music/fragments/AlbumsFragment.kt:326-351 | Albums whose names tie on the lower-cased key keep their order from before the sort. |
| AlbumsFragment.FilterAlbums | app/src/main/java/com/shubhamgupta/nebula_music/fragments/AlbumsFragment.kt:363-374 | A blank query keeps every album. Otherwise the result is exactly the albums whose name or artist contains the query, ignoring case. |
| AlbumsFragment.AlbumsFragment.constructor | app/src/main/java/com/shubhamgupta/nebula_music/fragments/AlbumsFragment.kt:126-131 | `onCreate` reads the saved sort for "albums" and starts with empty lists. |
| AlbumsFragment.AlbumsFragment.FilterAlbumList | app/src/main/java/com/shubhamgupta/nebula_music/fragments/AlbumsFragment.kt:363-374 | The shown list becomes `FilterAlbums` of the album list. |
| AlbumsFragment.AlbumsFragment.ApplyCurrentSort | app/src/main/java/com/shubhamgupta/nebula_music/fragments/AlbumsFragment.kt:326-351 | The album list is sorted in place and the shown list re-filtered. |
| AlbumsFragment.AlbumsFragment.LoadAlbums | app/src/main/java/com/shubhamgupta/nebula_music/fragments/AlbumsFragment.kt:236-324 | `loadAlbums` and `loadAlbumsPreserveState` group the catalogue, sort and filter. |
| AlbumsFragment.AlbumsFragment.OnSearchQuery | app/src/main/java/com/shubhamgupta/nebula_music/fragments/AlbumsFragment.kt:47-55 | The search broadcast stores the query and re-filters. |
| AlbumsFragment.AlbumsFragment.OnSortBroadcast | app/src/main/java/com/shubhamgupta/nebula_music/fragments/AlbumsFragment.kt:99-115 | A different sort type is adopted, saved under "albums" and reloaded. The same type changes nothing. |
| AlbumsFragment.AlbumsFragment.OnForceRefresh | app/src/main/java/com/shubhamgupta/nebula_music/fragments/AlbumsFragment.kt:117-124 | The refresh broadcast reloads. |
| AlbumsFragment.AlbumsFragment.OnResume | app/src/main/java/com/shubhamgupta/nebula_music/fragments/AlbumsFragment.kt:181-195 | A changed saved sort is adopted and the list reloaded. Otherwise the list is reloaded after the first load, and on the first resume only the flag is cleared. |
| ArtistsFragment.Artists | app/src/main/java/com/shubhamgupta/nebula_music/fragments/ArtistsFragment.kt:251-266 | One artist per distinct artist name ("Unknown Artist" when missing), in order of first appearance. Each artist holds exactly the songs of its name, in catalogue order. |
| ArtistsFragment.ArtistNamesDistinct | app/src/main/java/com/shubhamgupta/nebula_music/fragments/ArtistsFragment.kt:251-266 | No two artists share a name. |
| ArtistsFragment.ArtistCounts | app/src/main/java/com/shubhamgupta/nebula_music/fragments/ArtistsFragment.kt:260-263 | Every artist's count is its number of songs. Every song is under its own artist only, and the counts add up to the catalogue size. |
| ArtistsFragment.ArtistIndexDomain | app/src/main/java/com/shubhamgupta/nebula_music/fragments/ArtistsFragment.kt:251-264 | The grouping map holds exactly the artist names that occur. |
| ArtistsFragment.ArtistIndexValue | app/src/main/java/com/shubhamgupta/nebula_music/fragments/ArtistsFragment.kt:251-264 | Each artist in the map is the artist of its members. |
| ArtistsFragment.ArtistIndexNext | app/src/main/java/com/shubhamgupta/nebula_music/fragments/ArtistsFragment.kt:251-264 | One song further, the key order grows exactly when the artist name is new, and the map takes the updated artist. |
| ArtistsFragment.ArtistIndexValues | app/src/main/java/com/shubhamgupta/nebula_music/fragments/ArtistsFragment.kt:251-266 | Listing the map's artists in key order gives `Artists` of the catalogue. |
| ArtistsFragment.GroupArtists | app/src/main/java/com/shubhamgupta/nebula_music/fragments/ArtistsFragment.kt:248-266 | The `forEach` into an insertion-ordered map returns exactly `Artists(songs)`. |
| ArtistsFragment.SortArtists | app/src/main/java/com/shubhamgupta/nebula_music/fragments/ArtistsFragment.kt:322-347 | The result is a permutation, descending by lower-cased name for NAME_DESC and ascending for every other sort type. |
| ArtistsFragment.SortArtistsStable | app/src/main/java/com/shubhamgupta/nebula_music/fragments/ArtistsFragment.kt:322-347 | Artists whose names tie on the lower-cased key keep their order from before the sort. |
| ArtistsFragment.FilterArtists | app/src/main/java/com/shubhamgupta/nebula_music/fragments/ArtistsFragment.kt:359-369 | A blank query keeps every artist. Otherwise the result is exactly the artists whose name contains the query, ignoring case. |
| ArtistsFragment.ArtistsFragment.constructor | app/src/main/java/com/shubhamgupta/nebula_music/fragments/ArtistsFragment.kt:126-131 | `onCreate` reads the saved sort for "artists" and starts with empty lists. |
| ArtistsFragment.ArtistsFragment.FilterArtistList | app/src/main/java/com/shubhamgupta/nebula_music/fragments/ArtistsFragment.kt:359-369 | The shown list becomes `FilterArtists` of the artist list. |
| ArtistsFragment.ArtistsFragment.ApplyCurrentSort | app/src/main/java/com/shubhamgupta/nebula_music/fragments/ArtistsFragment.kt:322-347 | The artist list is sorted in place and the shown list re-filtered. |
| ArtistsFragment.ArtistsFragment.LoadArtists | app/src/main/java/com/shubhamgupta/nebula_music/fragments/ArtistsFragment.kt:236-320 | `loadArtists` and `loadArtistsPreserveState` group the catalogue, sort and filter. |
| ArtistsFragment.ArtistsFragment.OnSearchQuery | app/src/main/java/com/shubhamgupta/nebula_music/fragments/ArtistsFragment.kt:47-55 | The search broadcast stores the query and re-filters. |
| ArtistsFragment.ArtistsFragment.OnSortBroadcast | app/src/main/java/com/shubhamgupta/nebula_music/fragments/ArtistsFragment.kt:99-115 | A different sort type is adopted, saved under "artists" and reloaded. The same type changes nothing. |
| ArtistsFragment.ArtistsFragment.OnForceRefresh | app/src/main/java/com/shubhamgupta/nebula_music/fragments/ArtistsFragment.kt:117-124 | The refresh broadcast reloads. |
| ArtistsFragment.ArtistsFragment.OnResume | app/src/main/java/com/shubhamgupta/nebula_music/fragments/ArtistsFragment.kt:181-195 | A changed saved sort is adopted and the list reloaded. Otherwise the list is reloaded after the first load, and on the first resume only the flag is cleared. |
| GenresFragment.Genres | app/src/main/java/com/shubhamgupta/nebula_music/fragments/GenresFragment.kt:205-224 | One genre per distinct year text ("Unknown" when the year is missing), in order of first appearance. Each genre holds exactly the songs of that year, in catalogue order. |
| GenresFragment.GenreNamesDistinct | app/src/main/java/com/shubhamgupta/nebula_music/fragments/GenresFragment.kt:205-224 | No two genres share a name. |
| GenresFragment.GenreCounts | app/src/main/java/com/shubhamgupta/nebula_music/fragments/GenresFragment.kt:210-222 | Once counted, every genre's count is its number of songs. Every song is in its own genre only, and the counts add up to the catalogue size. |
| GenresFragment.GenreIndexDomain | app/src/main/java/com/shubhamgupta/nebula_music/fragments/GenresFragment.kt:210-219 | The grouping map holds exactly the names that occur. |
| GenresFragment.GenreIndexValue | app/src/main/java/com/shubhamgupta/nebula_music/fragments/GenresFragment.kt:210-219 | Each genre in the map holds its members, with its count still 0. |
| GenresFragment.GenreIndexNext | app/src/main/java/com/shubhamgupta/nebula_music/fragments/GenresFragment.kt:210-219 | One song further, the key order grows exactly when the name is new (`getOrPut`), and the map takes the updated genre. |
| GenresFragment.GenreIndexValues | app/src/main/java/com/shubhamgupta/nebula_music/fragments/GenresFragment.kt:210-223 | Listing the map's genres in key order gives the genres of the catalogue, with their counts still 0. |
| GenresFragment.CountSongs | app/src/main/java/com/shubhamgupta/nebula_music/fragments/GenresFragment.kt:222 | The counting pass sets each genre's count to its number of songs and changes nothing else. |
| GenresFragment.CountedAreGenres | app/src/main/java/com/shubhamgupta/nebula_music/fragments/GenresFragment.kt:220-223 | Setting each grouped genre's count to its number of songs gives exactly the specified genres. |
| GenresFragment.GroupGenres | app/src/main/java/com/shubhamgupta/nebula_music/fragments/GenresFragment.kt:205-224 | A detached screen gets no genres. Otherwise grouping and then counting returns exactly `Genres(songs)`. |
| GenresFragment.FetchedGenres | app/src/main/java/com/shubhamgupta/nebula_music/fragments/GenresFragment.kt:205-224 | A fragment that is not attached fetches nothing. Otherwise every genre's count is its number of songs, and the counts add up to the catalogue size. |
| GenresFragment.SortGenres | app/src/main/java/com/shubhamgupta/nebula_music/fragments/GenresFragment.kt:260-267 | The result is a permutation, descending by lower-cased name for NAME_DESC and ascending otherwise. |
| GenresFragment.SortGenresStable | app/src/main/java/com/shubhamgupta/nebula_music/fragments/GenresFragment.kt:260-267 | Genres whose names tie on the lower-cased key keep their order from before the sort. |
| GenresFragment.FilterGenres | app/src/main/java/com/shubhamgupta/nebula_music/fragments/GenresFragment.kt:274-281 | A blank query keeps every genre. Otherwise the result is exactly the genres whose name contains the query, ignoring case. |
| GenresFragment.GenresFragment.constructor | app/src/main/java/com/shubhamgupta/nebula_music/fragments/GenresFragment.kt:122-125 | `onCreate` reads the saved sort for "genres" and starts with empty lists. |
| GenresFragment.GenresFragment.FilterGenreList | app/src/main/java/com/shubhamgupta/nebula_music/fragments/GenresFragment.kt:274-281 | The shown list becomes `FilterGenres` of the genre list. |
| GenresFragment.GenresFragment.ApplyCurrentSort | app/src/main/java/com/shubhamgupta/nebula_music/fragments/GenresFragment.kt:260-267 | The genre list is sorted in place and the shown list re-filtered. |
| GenresFragment.GenresFragment.LoadGenres | app/src/main/java/com/shubhamgupta/nebula_music/fragments/GenresFragment.kt:226-258 | `loadGenres` and `loadGenresPreserveState` fetch, sort and filter. |
| GenresFragment.GenresFragment.OnSearchQuery | app/src/main/java/com/shubhamgupta/nebula_music/fragments/GenresFragment.kt:50-57 | The search broadcast stores the query and re-filters. |
| GenresFragment.GenresFragment.OnSortBroadcast | app/src/main/java/com/shubhamgupta/nebula_music/fragments/GenresFragment.kt:99-112 | A different sort type is adopted, saved under "genres" and reloaded. The same type changes nothing. |
| GenresFragment.GenresFragment.OnForceRefresh | app/src/main/java/com/shubhamgupta/nebula_music/fragments/GenresFragment.kt:114-120 | The refresh broadcast reloads. |
| GenresFragment.GenresFragment.OnResume | app/src/main/java/com/shubhamgupta/nebula_music/fragments/GenresFragment.kt:166-174 | A changed saved sort is adopted and the list reloaded. Otherwise the list is reloaded after the first load, and on the first resume only the flag is cleared. |
| GenresFragment.GenresFragment.OpenGenreSongs | app/src/main/java/com/shubhamgupta/nebula_music/fragments/GenresFragment.kt:293-301 | The genre at a position of the shown list is opened, and nothing when the position is out of range. |
| PlaylistsFragment.LoadedPlaylists | app/src/main/java/com/shubhamgupta/nebula_music/fragments/PlaylistsFragment.kt:85-87 | The loaded list is a permutation of the stored playlists, newest `createdAt` first. |
| PlaylistsFragment.LoadedPlaylistsTies | app/src/main/java/com/shubhamgupta/nebula_music/fragments/PlaylistsFragment.kt:87 | Playlists with the same `createdAt` keep their stored order, because `sortedByDescending` is stable. |
| PlaylistsFragment.GetPlaylistSongs | app/src/main/java/com/shubhamgupta/nebula_music/fragments/PlaylistsFragment.kt:474-477 | A playlist's songs are exactly the catalogue songs whose id it lists, as a sub-multiset of the catalogue and in catalogue order (a subsequence of it). |
| PlaylistsFragment.PlaylistOrderIgnored | app/src/main/java/com/shubhamgupta/nebula_music/fragments/PlaylistsFragment.kt:474-477 | Two playlists listing the same ids in any order or multiplicity play the same songs: catalogue order wins over playlist order. |
| PlaylistsFragment.AllPlaylistSongs | app/src/main/java/com/shubhamgupta/nebula_music/fragments/PlaylistsFragment.kt:458-461 | A song is in the combined list exactly when it is in the catalogue and some playlist lists its id. |
| PlaylistsFragment.AllPlaylistSongsSnoc | app/src/main/java/com/shubhamgupta/nebula_music/fragments/PlaylistsFragment.kt:458-461 | Each `forEach` step appends that playlist's songs to what came before. |
| PlaylistsFragment.SharedSongQueuedTwice | app/src/main/java/com/shubhamgupta/nebula_music/fragments/PlaylistsFragment.kt:457-465 | A song listed by two playlists is queued twice by "shuffle all": the combined list is not de-duplicated. |
| PlaylistsFragment.CheckName | app/src/main/java/com/shubhamgupta/nebula_music/fragments/PlaylistsFragment.kt:186-196 | The trimmed input is rejected when blank, and when some other playlist has the same name ignoring case. Otherwise it is accepted, and the accepted name is non-empty, has no outer whitespace and clashes with no other playlist. The rename check at lines 257-266 differs only in skipping the playlist being renamed. |
| PlaylistsFragment.DistinctNamesAtMostOnce | app/src/main/java/com/shubhamgupta/nebula_music/fragments/PlaylistsFragment.kt:193 | When names are distinct ignoring case, no playlist appears twice in the list. |
| PlaylistsFragment.PermutationKeepsDistinctNames | app/src/main/java/com/shubhamgupta/nebula_music/fragments/PlaylistsFragment.kt:87 | Reordering, as the load does, keeps names distinct. |
| PlaylistsFragment.CreateKeepsNamesDistinct | app/src/main/java/com/shubhamgupta/nebula_music/fragments/PlaylistsFragment.kt:186-206 | Adding a playlist whose name passed the check keeps all names distinct ignoring case. |
| PlaylistsFragment.Renamed | app/src/main/java/com/shubhamgupta/nebula_music/fragments/PlaylistsFragment.kt:268-269 | Renaming changes only the chosen playlist's name. Its id, songs and creation time stay, and every other playlist is unchanged. |
| PlaylistsFragment.RenameKeepsNamesDistinct | app/src/main/java/com/shubhamgupta/nebula_music/fragments/PlaylistsFragment.kt:257-270 | A rename that passed the check keeps all names distinct ignoring case. |
| PlaylistsFragment.RemovedAt | app/src/main/java/com/shubhamgupta/nebula_music/fragments/PlaylistsFragment.kt:289 | `removeAt(position)` keeps the playlists before the position and shifts the later ones down by one. |
| PlaylistsFragment.DeleteKeepsNamesDistinct | app/src/main/java/com/shubhamgupta/nebula_music/fragments/PlaylistsFragment.kt:289-290 | Deleting a playlist keeps the names distinct. |
| PlaylistsFragment.WithNewSongs | app/src/main/java/com/shubhamgupta/nebula_music/fragments/PlaylistsFragment.kt:431-439 | The existing ids stay first, in order. The appended ids are selected ids not already present, and the result holds exactly the existing and the selected ids. |
| PlaylistsFragment.WithNewSongsNoDup | app/src/main/java/com/shubhamgupta/nebula_music/fragments/PlaylistsFragment.kt:431-439 | A duplicate-free playlist stays duplicate-free when a duplicate-free selection is added. |
| PlaylistsFragment.WithNewSongsRepeatsSelection | app/src/main/java/com/shubhamgupta/nebula_music/fragments/PlaylistsFragment.kt:435-436 | The filter only compares against the ids already present, so a selection that repeats an id adds it twice. |
| PlaylistsFragment.SongsAdded | app/src/main/java/com/shubhamgupta/nebula_music/fragments/PlaylistsFragment.kt:431-440 | Only the chosen playlist's ids change, to `WithNewSongs`. Every other playlist and every name is unchanged. |
| PlaylistsFragment.AddSongsKeepsNamesDistinct | app/src/main/java/com/shubhamgupta/nebula_music/fragments/PlaylistsFragment.kt:431-440 | Adding songs keeps the names distinct. |
| PlaylistsFragment.CreateThenCancel | app/src/main/java/com/shubhamgupta/nebula_music/fragments/PlaylistsFragment.kt:198-214 | A new playlist with a fresh id is found again after the reload (at the `indexOfFirst` position). Removing it there leaves exactly the playlists from before creation. This covers the cancel path at lines 409-416. |
| PlaylistsFragment.PlaylistsFragment.constructor | app/src/main/java/com/shubhamgupta/nebula_music/fragments/PlaylistsFragment.kt:85-87 | The screen starts with no playlists. |
| PlaylistsFragment.PlaylistsFragment.LoadPlaylists | app/src/main/java/com/shubhamgupta/nebula_music/fragments/PlaylistsFragment.kt:85-100 | The list becomes `LoadedPlaylists` of the stored playlists. |
| PlaylistsFragment.PlaylistsFragment.CreatePlaylist | app/src/main/java/com/shubhamgupta/nebula_music/fragments/PlaylistsFragment.kt:184-218 | The returned check is `CheckName`. A rejected name changes nothing. An accepted one saves the list with the new playlist appended and reloads, and the add-songs dialog opens at the new playlist's position in the reloaded list. |
| PlaylistsFragment.PlaylistsFragment.RenamePlaylist | app/src/main/java/com/shubhamgupta/nebula_music/fragments/PlaylistsFragment.kt:255-270 | A rejected name changes nothing. An accepted one saves the renamed list and reloads. |
| PlaylistsFragment.PlaylistsFragment.DeletePlaylist | app/src/main/java/com/shubhamgupta/nebula_music/fragments/PlaylistsFragment.kt:282-293 | The list without the chosen position is saved and reloaded. |
| PlaylistsFragment.PlaylistsFragment.AddSongsToPlaylist | app/src/main/java/com/shubhamgupta/nebula_music/fragments/PlaylistsFragment.kt:431-442 | The list with the new ids added to the chosen playlist is saved and reloaded. |
| PlaylistsFragment.PlaylistsFragment.SubmitSelection | app/src/main/java/com/shubhamgupta/nebula_music/fragments/PlaylistsFragment.kt:390-406 | An empty selection changes nothing. Otherwise the songs are added, and the dialog reopens exactly when the playlist is not new. |
| PlaylistsFragment.PlaylistsFragment.CancelAddSongs | app/src/main/java/com/shubhamgupta/nebula_music/fragments/PlaylistsFragment.kt:408-416 | A new playlist still without songs is removed (its first occurrence), saved and reloaded. Any other cancel changes nothing. |
| PlaylistsFragment.PlaylistsFragment.PlayPlaylist | app/src/main/java/com/shubhamgupta/nebula_music/fragments/PlaylistsFragment.kt:444-455 | An empty playlist plays nothing. Otherwise playback starts with its songs from the top. |
| PlaylistsFragment.PlaylistsFragment.ShuffleAllPlaylists | app/src/main/java/com/shubhamgupta/nebula_music/fragments/PlaylistsFragment.kt:457-472 | Nothing happens when no playlist has songs. Otherwise a shuffle of all playlists' songs plays from the top and shuffle is toggled. |
| PlaylistSongsFragment.TotalDuration | app/src/main/java/com/shubhamgupta/nebula_music/fragments/PlaylistSongsFragment.kt:233 | `sumOf { it.duration }` on `Long` equals the true sum modulo 2^64. |
| PlaylistSongsFragment.TotalMinutes | app/src/main/java/com/shubhamgupta/nebula_music/fragments/PlaylistSongsFragment.kt:233-235 | `toMinutes` divides the `Long` total by 60000, truncating toward zero (downward for a non-negative total, upward for a negative one). |
| PlaylistSongsFragment.SumOfNonNegative | app/src/main/java/com/shubhamgupta/nebula_music/fragments/PlaylistSongsFragment.kt:233 | Durations that are not negative have a sum that is not negative. |
| PlaylistSongsFragment.MinutesOfRealTotal | app/src/main/java/com/shubhamgupta/nebula_music/fragments/PlaylistSongsFragment.kt:233-235 | Without overflow, the minutes shown are the whole minutes of the real total duration. |
| PlaylistSongsFragment.OverflowShowsNegativeMinutes | app/src/main/java/com/shubhamgupta/nebula_music/fragments/PlaylistSongsFragment.kt:233-235 | A total past `Long.MAX_VALUE` wraps, and the header shows negative minutes. |
| PlaylistSongsFragment.CheckRename | app/src/main/java/com/shubhamgupta/nebula_music/fragments/PlaylistSongsFragment.kt:471-482 | The trimmed input is rejected when blank, and when a stored playlist with another id has the same name ignoring case. Otherwise it is accepted as the non-empty trimmed name, which clashes with no other stored playlist. |
| PlaylistSongsFragment.ReplaceById | app/src/main/java/com/shubhamgupta/nebula_music/fragments/PlaylistSongsFragment.kt:486-488 | Only the position `indexOfFirst` finds for the id is replaced. The list keeps its length and every other entry. |
| PlaylistSongsFragment.RenameKeepsNamesDistinct | app/src/main/java/com/shubhamgupta/nebula_music/fragments/PlaylistSongsFragment.kt:471-489 | For stored playlists with distinct ids and names, an accepted rename keeps the names distinct ignoring case. |
| PlaylistSongsFragment.WithoutId | app/src/main/java/com/shubhamgupta/nebula_music/fragments/PlaylistSongsFragment.kt:507-508 | `removeAll { it.id == playlist.id }` keeps exactly the stored playlists with another id, as a sub-multiset, in their relative order. |
| PlaylistSongsFragment.WithoutIdAppend | app/src/main/java/com/shubhamgupta/nebula_music/fragments/PlaylistSongsFragment.kt:507-508 | Removing by id distributes over concatenation, so the playlists that remain keep their relative order. |
| PlaylistSongsFragment.WithoutAbsentId | app/src/main/java/com/shubhamgupta/nebula_music/fragments/PlaylistSongsFragment.kt:507-508 | Removing an id that no stored playlist has leaves the list unchanged. |
| PlaylistSongsFragment.PlaylistSongsFragment.constructor | app/src/main/java/com/shubhamgupta/nebula_music/fragments/PlaylistSongsFragment.kt:118-124 | The screen holds the playlist passed to `newInstance`, or none when the argument is missing (lines 193-198). |
| PlaylistSongsFragment.PlaylistSongsFragment.SetupPlaylistSongs | app/src/main/java/com/shubhamgupta/nebula_music/fragments/PlaylistSongsFragment.kt:225-235 | The shown songs are the playlist's catalogue songs, and the header minutes are their `TotalMinutes`. |
| PlaylistSongsFragment.PlaylistSongsFragment.Refresh | app/src/main/java/com/shubhamgupta/nebula_music/fragments/PlaylistSongsFragment.kt:590-592 | With a playlist, the songs and minutes are set up again. Without one, nothing changes. The same applies in `onResume` (line 160). |
| PlaylistSongsFragment.PlaylistSongsFragment.AddSongsToPlaylist | app/src/main/java/com/shubhamgupta/nebula_music/fragments/PlaylistSongsFragment.kt:432-448 | The held playlist gets the new ids. It is written back at its stored position, and nothing is saved when the store no longer has its id. |
| PlaylistSongsFragment.PlaylistSongsFragment.SubmitSelection | app/src/main/java/com/shubhamgupta/nebula_music/fragments/PlaylistSongsFragment.kt:408-419 | An empty selection, or no held playlist, changes nothing. Otherwise the songs are added to the held playlist, the store is rewritten in place when it has that id and left alone when not, and the list is set up from the updated playlist. |
| PlaylistSongsFragment.PlaylistSongsFragment.RenamePlaylist | app/src/main/java/com/shubhamgupta/nebula_music/fragments/PlaylistSongsFragment.kt:450-499 | The name check is `CheckRename` against the stored playlists. A rejected name changes nothing. An accepted one renames the held playlist. When the store has its id it is saved in place and the list set up again; otherwise the list and minutes stay as they were. |
| PlaylistSongsFragment.PlaylistSongsFragment.SaveRenamed | app/src/main/java/com/shubhamgupta/nebula_music/fragments/PlaylistSongsFragment.kt:485-491 | The renamed playlist is written at its stored position and the list set up again. When the id is gone, the store, the list and the minutes are unchanged. |
| PlaylistSongsFragment.PlaylistSongsFragment.DeletePlaylist | app/src/main/java/com/shubhamgupta/nebula_music/fragments/PlaylistSongsFragment.kt:501-509 | Every stored playlist with the held playlist's id is removed and the rest saved. Without a playlist, nothing changes. |
| PlaylistSongsFragment.PlaylistSongsFragment.ToggleFavorite | app/src/main/java/com/shubhamgupta/nebula_music/fragments/PlaylistSongsFragment.kt:551-559 | The song's favourite flag flips. With a held playlist, the list is set up again and the minutes are its total; without one, the list and minutes are unchanged. |
| PlaylistSongsFragment.PlaylistSongsFragment.PlayPlaylist | app/src/main/java/com/shubhamgupta/nebula_music/fragments/PlaylistSongsFragment.kt:561-566 | An empty list plays nothing. Otherwise it plays from the top. |
| PlaylistSongsFragment.PlaylistSongsFragment.ShufflePlaylist | app/src/main/java/com/shubhamgupta/nebula_music/fragments/PlaylistSongsFragment.kt:568-575 | An empty list does nothing. Otherwise a shuffle of it plays from the top and shuffle is toggled. |
| PlaylistSongsFragment.PlaylistSongsFragment.OpenNowPlaying | app/src/main/java/com/shubhamgupta/nebula_music/fragments/PlaylistSongsFragment.kt:577-583 | The song is recorded as most recent and the list plays from its position. |
| RecentFragment.SameSongsAsFilter | app/src/main/java/com/shubhamgupta/nebula_music/fragments/RecentFragment.kt:91-93 | Any reordering of the filtered catalogue holds exactly the catalogue songs whose id is listed. |
| RecentFragment.RecencyOrdered | app/src/main/java/com/shubhamgupta/nebula_music/fragments/RecentFragment.kt:93-95 | A list sorted on `indexOf(id)` has the positions in the recent list in ascending order. |
| RecentFragment.RecencyReversed | app/src/main/java/com/shubhamgupta/nebula_music/fragments/RecentFragment.kt:160-162 | The same list reversed has the recent positions in descending order. |
| RecentFragment.TitleOrdered | app/src/main/java/com/shubhamgupta/nebula_music/fragments/RecentFragment.kt:168-172 | A list sorted on the raw title, in either direction, has its titles in that order. |
| RecentFragment.LoadedRecent | app/src/main/java/com/shubhamgupta/nebula_music/fragments/RecentFragment.kt:86-95 | The loaded list is a permutation of the catalogue songs whose id is in the recent list, ordered by position in that list, so most recent first. |
| RecentFragment.StrictlyOrdered | app/src/main/java/com/shubhamgupta/nebula_music/fragments/RecentFragment.kt:93-95 | With every id in the recent list, songs with different ids are in strictly increasing recent position. |
| RecentFragment.LoadedRecentStrictOrder | app/src/main/java/com/shubhamgupta/nebula_music/fragments/RecentFragment.kt:86-95 | In the loaded list, two songs with different ids appear strictly in recent-list order. |
| RecentFragment.SortByRecency | app/src/main/java/com/shubhamgupta/nebula_music/fragments/RecentFragment.kt:158-166 | "Most recent" sorts by recent position ascending. "Least recent" is its reverse, so recent position descending. Both are permutations. |
| RecentFragment.RecencySortsOfLoaded | app/src/main/java/com/shubhamgupta/nebula_music/fragments/RecentFragment.kt:158-166 | On a freshly loaded list, "most recent" changes nothing and "least recent" reverses it. |
| RecentFragment.SortByName | app/src/main/java/com/shubhamgupta/nebula_music/fragments/RecentFragment.kt:168-175 | A permutation with titles in ascending order for A-Z and descending order for Z-A. |
| RecentFragment.NameSortTies | app/src/main/java/com/shubhamgupta/nebula_music/fragments/RecentFragment.kt:168-175 | Songs with equal titles keep their load order under A-Z and come out in reverse load order under Z-A, because Z-A is the A-Z list reversed rather than a descending sort. |
| RecentFragment.DeleteHidesSong | app/src/main/java/com/shubhamgupta/nebula_music/fragments/RecentFragment.kt:187-189 | After `removeRecentSong`, the reloaded list shows exactly the songs it showed before, minus those with the removed id. |
| RecentFragment.RecentFragment.constructor | app/src/main/java/com/shubhamgupta/nebula_music/fragments/RecentFragment.kt:86-90 | The screen starts with an empty list. |
| RecentFragment.RecentFragment.LoadRecentSongs | app/src/main/java/com/shubhamgupta/nebula_music/fragments/RecentFragment.kt:86-95 | The list becomes `LoadedRecent` of the catalogue and the stored recent ids. This also covers `onResume` (line 42) and `refreshData` (lines 213-215). |
| RecentFragment.RecentFragment.PlaySong | app/src/main/java/com/shubhamgupta/nebula_music/fragments/RecentFragment.kt:120-128 | The song is recorded as most recent and the list plays from its position. |
| RecentFragment.RecentFragment.ShuffleRecentSongs | app/src/main/java/com/shubhamgupta/nebula_music/fragments/RecentFragment.kt:130-140 | An empty list does nothing. Otherwise a shuffle plays from the top and shuffle is toggled. |
| RecentFragment.RecentFragment.SortRecentByDate | app/src/main/java/com/shubhamgupta/nebula_music/fragments/RecentFragment.kt:158-166 | The list becomes `SortByRecency` of itself under the stored recent ids. |
| RecentFragment.RecentFragment.SortRecentByName | app/src/main/java/com/shubhamgupta/nebula_music/fragments/RecentFragment.kt:168-175 | The list becomes `SortByName` of itself. |
| RecentFragment.RecentFragment.DeleteSong | app/src/main/java/com/shubhamgupta/nebula_music/fragments/RecentFragment.kt:187-189 | The song's id is removed from the recent list and the screen reloaded from the new store. |
| FavoritesFragment.DateOrdered | app/src/main/java/com/shubhamgupta/nebula_music/fragments/FavoritesFragment.kt:162-166 | A list sorted on `dateAdded`, in either direction, has its dates in that order. |
| FavoritesFragment.LoadedFavorites | app/src/main/java/com/shubhamgupta/nebula_music/fragments/FavoritesFragment.kt:82-89 | A permutation of the catalogue songs whose id is a favourite, newest `dateAdded` first. Unknown ids are dropped. |
| FavoritesFragment.LoadedFavoritesTies | app/src/main/java/com/shubhamgupta/nebula_music/fragments/FavoritesFragment.kt:88-89 | Songs added at the same moment keep their catalogue order. |
| FavoritesFragment.SortByDate | app/src/main/java/com/shubhamgupta/nebula_music/fragments/FavoritesFragment.kt:162-169 | A permutation with dates ascending ("oldest") or descending ("newest"). |
| FavoritesFragment.WithFlagCleared | app/src/main/java/com/shubhamgupta/nebula_music/fragments/FavoritesFragment.kt:183 | `song.isFavorite = false` clears the flag on the catalogue entries that are that song and changes nothing else, ids and length included. |
| FavoritesFragment.ClearedFlagNotLoaded | app/src/main/java/com/shubhamgupta/nebula_music/fragments/FavoritesFragment.kt:181-185 | Once the id is no longer a favourite, clearing that song's flag does not change the reloaded favourites list. |
| FavoritesFragment.DeleteHidesSong | app/src/main/java/com/shubhamgupta/nebula_music/fragments/FavoritesFragment.kt:181-185 | After `removeFavorite`, the reloaded list shows exactly the songs it showed before, minus those with that id. |
| FavoritesFragment.FavoritesFragment.constructor | app/src/main/java/com/shubhamgupta/nebula_music/fragments/FavoritesFragment.kt:82-86 | The screen starts with an empty list. |
| FavoritesFragment.FavoritesFragment.LoadFavorites | app/src/main/java/com/shubhamgupta/nebula_music/fragments/FavoritesFragment.kt:82-89 | The list becomes `LoadedFavorites` of the catalogue and the stored favourites. This also covers `onResume` (line 46) and `refreshData` (lines 209-211). |
| FavoritesFragment.FavoritesFragment.PlaySong | app/src/main/java/com/shubhamgupta/nebula_music/fragments/FavoritesFragment.kt:116-123 | The song is recorded as most recent and the list plays from its position. |
| FavoritesFragment.FavoritesFragment.ShuffleFavorites | app/src/main/java/com/shubhamgupta/nebula_music/fragments/FavoritesFragment.kt:125-135 | An empty list does nothing. Otherwise a shuffle plays from the top and shuffle is toggled. |
| FavoritesFragment.FavoritesFragment.SortFavoritesByName | app/src/main/java/com/shubhamgupta/nebula_music/fragments/FavoritesFragment.kt:153-160 | The list becomes `RecentFragment.SortByName` of itself: a permutation with titles ascending for A-Z and descending for Z-A. |
| FavoritesFragment.FavoritesFragment.SortFavoritesByDate | app/src/main/java/com/shubhamgupta/nebula_music/fragments/FavoritesFragment.kt:162-169 | The list becomes `SortByDate` of itself. |
| FavoritesFragment.FavoritesFragment.DeleteSong | app/src/main/java/com/shubhamgupta/nebula_music/fragments/FavoritesFragment.kt:181-185 | The id leaves the favourites, the returned catalogue has that song's flag cleared, and the screen is reloaded from the new store. The reloaded list is the same whether or not the flag was cleared. |
| Codec.WrapLong | app/src/main/java/com/shubhamgupta/nebula_music/utils/SongCacheManager.kt:99 | Wrapping (here `dateAdded * 1000`; also `sumOf` at fragments/PlaylistSongsFragment.kt line 233) to a Kotlin `Long` agrees with the true value modulo 2^64, and is the identity inside the `Long` range. |
| Codec.TruncDiv | app/src/main/java/com/shubhamgupta/nebula_music/fragments/PlaylistSongsFragment.kt:234 | `Long` division truncates toward zero: downward for a non-negative dividend, upward for a negative one. |
| Codec.LongToString | app/src/main/java/com/shubhamgupta/nebula_music/utils/PreferenceManager.kt:91 | `Long.toString` is never empty and never holds a comma. |
| Codec.ParseLong | app/src/main/java/com/shubhamgupta/nebula_music/utils/PreferenceManager.kt:103 | `toLongOrNull` succeeds only on non-empty text without a comma. ParseShowLong states that it reads back every written `Long`. |
| Codec.ParseShowLong | app/src/main/java/com/shubhamgupta/nebula_music/utils/PreferenceManager.kt:103 | `toLongOrNull` reads back every `Long` that `toString` wrote. |
| Codec.Split | app/src/main/java/com/shubhamgupta/nebula_music/utils/PreferenceManager.kt:103 | `split(",")` always gives at least one piece, and no piece contains a comma. SplitJoin states that joining them back gives the text. |
| Codec.SplitJoin | app/src/main/java/com/shubhamgupta/nebula_music/utils/PreferenceManager.kt:91-103 | `split(",")` undoes `joinToString(",")` for comma-free pieces. |
| Codec.EncodeIds | app/src/main/java/com/shubhamgupta/nebula_music/utils/PreferenceManager.kt:91 | `joinToString(",")` gives the empty text exactly for the empty id list. |
| Codec.DecodeIds | app/src/main/java/com/shubhamgupta/nebula_music/utils/PreferenceManager.kt:103 | Reading ids keeps no more ids than there are tokens, and each id read is the value of one of the tokens. |
| Codec.DecodeEncodeIds | app/src/main/java/com/shubhamgupta/nebula_music/utils/PreferenceManager.kt:91-103 | Reading an id list written with `joinToString(",")`, via `split` and `mapNotNull { toLongOrNull() }`, gives back the same ids in the same order. |
| Codec.DecodeSkipsMalformed | app/src/main/java/com/shubhamgupta/nebula_music/utils/PreferenceManager.kt:135 | A malformed entry between two id lists is dropped by `mapNotNull` and the ids around it survive. |
| Codec.DecodeExample | app/src/main/java/com/shubhamgupta/nebula_music/utils/PreferenceManager.kt:135 | "5,x,7" reads as the ids 5 and 7. |
| Codec.EncodeJsonIds | app/src/main/java/com/shubhamgupta/nebula_music/utils/PreferenceManager.kt:199-200 | Gson writes a queue id list as text in brackets, which is `[]` exactly for the empty list. |
| Codec.DecodeJsonIds | app/src/main/java/com/shubhamgupta/nebula_music/utils/PreferenceManager.kt:309-327 | Only bracketed text parses as a queue id list. The forms it accepts are those of DecodeEncodeJsonIds. |
| Codec.DecodeEncodeJsonIds | app/src/main/java/com/shubhamgupta/nebula_music/utils/PreferenceManager.kt:199-200 | The JSON array of queue ids reads back as the same ids (lines 309-327). |
| Codec.JsonMalformedEntry | app/src/main/java/com/shubhamgupta/nebula_music/utils/PreferenceManager.kt:309-317 | An array whose first entry is a bare word other than `null` fails to parse as a whole, as Gson's `nextLong` fails on it, and the loader then falls back to an empty queue. |
| Ordering.SortBy | app/src/main/java/com/shubhamgupta/nebula_music/fragments/SongsFragment.kt:314-321 | `sortBy` and `sortByDescending` rearrange the list without adding or losing any song. SortBySorted and SortByStable state the order. |
| Ordering.SortBySorted | app/src/main/java/com/shubhamgupta/nebula_music/fragments/RecentFragment.kt:93-95 | `sortBy` / `sortedBy` / `sortedByDescending` return a list sorted on the key, in the requested direction. |
| Ordering.SortByStable | app/src/main/java/com/shubhamgupta/nebula_music/fragments/FavoritesFragment.kt:88-89 | The sort is stable: elements with equal keys keep their input order. |
| Ordering.WithKeyReverse | app/src/main/java/com/shubhamgupta/nebula_music/fragments/RecentFragment.kt:168-175 | `reverse()` reverses, for every key, the order of the elements carrying it. |
| Ordering.SortBySortedIdentity | app/src/main/java/com/shubhamgupta/nebula_music/fragments/RecentFragment.kt:158-160 | Sorting an already sorted list leaves it as it is. |
| Ordering.FilterSorted | app/src/main/java/com/shubhamgupta/nebula_music/fragments/SongsFragment.kt:360-371 | Filtering a sorted list keeps it sorted. |
| Ordering.ReverseSorted | app/src/main/java/com/shubhamgupta/nebula_music/fragments/FavoritesFragment.kt:163-165 | `reverse()` of an ascending list is descending, and vice versa. |
| Text.TrimEmptyIffBlank | app/src/main/java/com/shubhamgupta/nebula_music/fragments/PlaylistsFragment.kt:187-188 | `trim()` gives the empty string exactly when the input is blank. |
| Text.TrimHasNoOuterWhitespace | app/src/main/java/com/shubhamgupta/nebula_music/fragments/PlaylistsFragment.kt:187 | A non-empty trimmed name starts and ends with a non-whitespace character. |
| Text.ContainsAt | app/src/main/java/com/shubhamgupta/nebula_music/fragments/SongsFragment.kt:365-367 | `contains` holds exactly when the query occurs at some offset. |
| Grouping.GroupKeysDistinct | app/src/main/java/com/shubhamgupta/nebula_music/fragments/AlbumsFragment.kt:251-268 | The keys of an insertion-ordered grouping are distinct. |
| Grouping.GroupPartition | app/src/main/java/com/shubhamgupta/nebula_music/fragments/AlbumsFragment.kt:251-266 | An element is in a key's group exactly when it has that key. |
| Grouping.GroupSizes | app/src/main/java/com/shubhamgupta/nebula_music/fragments/AlbumsFragment.kt:251-266 | The group sizes add up to the input size. |
| Grouping.MembersHead | app/src/main/java/com/shubhamgupta/nebula_music/fragments/AlbumsFragment.kt:253-260 | A group's first member is the first input element with that key. |
| Media.FromOrdinalOfOrdinal | app/src/main/java/com/shubhamgupta/nebula_music/utils/PreferenceManager.kt:59-82 | Saving a sort type's ordinal and reading it back through `entries` gives the same sort type. |
| Seqs.MapNotNullSources | app/src/main/java/com/shubhamgupta/nebula_music/utils/PreferenceManager.kt:103 | Each value `mapNotNull` keeps is the result of its function on some input element. |
| Seqs.FirstWhere | app/src/main/java/com/shubhamgupta/nebula_music/fragments/HomeFragment.kt:296-297 | `firstOrNull` finds nothing exactly when no element satisfies the test, and otherwise the first element that does. |
| Seqs.FilterSubsequence | app/src/main/java/com/shubhamgupta/nebula_music/fragments/PlaylistsFragment.kt:474-477 | `filter` keeps the elements it keeps in their original order. |
| Seqs.Dedupe | app/src/main/java/com/shubhamgupta/nebula_music/utils/PreferenceManager.kt:103 | `toSet` keeps exactly the elements of the list, never more of them than the list has. DedupeNoDup states that each is kept once. |
| Seqs.RemoveFirstAt | app/src/main/java/com/shubhamgupta/nebula_music/fragments/PlaylistsFragment.kt:412 | `remove(x)` drops exactly the first occurrence of `x`. |
| Seqs.RemoveFirstMultiset | app/src/main/java/com/shubhamgupta/nebula_music/fragments/PlaylistsFragment.kt:412 | `remove(x)` takes exactly one `x` out of the multiset. |
| Seqs.RemoveFirstNoDup | app/src/main/java/com/shubhamgupta/nebula_music/utils/PreferenceManager.kt:126-129 | On a duplicate-free list, `remove(x)` leaves no `x` and no duplicate. |
| Seqs.DedupeNoDup | app/src/main/java/com/shubhamgupta/nebula_music/utils/PreferenceManager.kt:103 | `toSet()` (insertion-ordered) has no duplicates. |
| Seqs.IndexOfFirst | app/src/main/java/com/shubhamgupta/nebula_music/fragments/RecentFragment.kt:94 | `indexOf` finds the first occurrence. |

## Left out

- Android UI is not modelled: views, adapters' view holders, Glide image loading, toasts, dialogs' layout and colours, navigation, scroll-state saving and restoring, handler delays, the drawer and the status bar. That covers `getPlaylistAlbumArt`, `loadPlaylistArt`, `openAlbumSongs`, `openArtistSongs`, `openPlaylistSongs` and `shareSong`, which only build views or intents.
- Concurrency is not modelled: coroutines, `Dispatchers.IO`, job cancellation, and registering or unregistering broadcast receivers. A receiver's handler is a method called with the broadcast's extra.
- The player service is not modelled. `startPlayback` and `toggleShuffle` are returned as `ServiceCall` values; `MusicService` is not part of this model.
- `SongRepository` is not part of this model. The catalogue it returns is the `catalogue` parameter.
- The media-store query is not modelled. Its rows are the `table` parameter, whether the cursor opened is `cursorOpened`, and a row at which reading throws is `failAt`.
- The clock, `System.currentTimeMillis()` ids and `shuffled()` are inputs: `now`, `id`, `createdAt` and `shuffled`. A shuffle is constrained only to be a permutation.
- Gson is not modelled for playlists, the song-details map and the queue song map. They are stored as structured values that read back unchanged. Only the queue id lists get a concrete JSON codec, so that a malformed entry can be stated.
- `MainActivity.SortType` and `MusicService.RepeatMode` are not part of this model. Their ordinals are assumed to be NAME_ASC, NAME_DESC, DATE_ADDED_ASC, DATE_ADDED_DESC, DURATION and ALL, ONE, SHUFFLE.
- `lowercase`, `uppercaseChar`, `equals(ignoreCase)`, `contains(ignoreCase)`, `isBlank` and `trim` are modelled on ASCII letters and ASCII whitespace only. String `compareTo` compares character codes lexicographically; surrogate pairs are not modelled.
- `Log` calls and the try/catch blocks that only log are not modelled.
- The `catch` fallback of `savePlaybackStateWithQueueValidation` is not modelled. It repeats an unvalidated save when the validated one throws, and the model's save cannot throw.
- `updateCacheWithSongs` and `loadSpecificSongs` in `PreferenceManager` are private and never called, so they are not modelled.
- `loadSongsInBackground` is modelled as written: it returns no songs.
- The `isFavorite` callback and the selection dialogs' checkbox state (`SongSelectionAdapter`) are not modelled. The selected ids are an input.
- The `isFirstLoad`/"preserve state" loading variants are one method each, because they differ only in scroll restoration.
- HomeFragment's permission request is the `granted` parameter of `OnResume`.
- SongAdapter.PositionFor: requires `0 <= sectionIndex`, because a negative index throws in `sectionLetters[sectionIndex]`.
- SongAdapter.SongAdapter.GetPositionForSection: requires `0 <= sectionIndex`, because a negative index throws in `sectionLetters[sectionIndex]`.
- SongAdapter.Initials: requires every title to be non-empty, because `title[0]` throws on an empty one.
- SongAdapter.SongAdapter.constructor: requires every title to be non-empty, because `setupSections` reads `title[0]`.
- SongAdapter.SongAdapter.SetupSections: requires every title to be non-empty, because `title[0]` throws on an empty one.
- SongAdapter.SongAdapter.UpdateSongs: requires every title of the adapter's own list to be non-empty, because `setupSections` reads `title[0]` of those songs. The argument is ignored, as `updateSongs` ignores it, so it is unconstrained.
- SongAdapter.SongAdapter.UpdateSongs: requires the sections to be those of the adapter's songs, which the constructor establishes and nothing else changes.
- SongCacheManager.SongCache.GetAllSongs: requires `Valid()`, that the id index is built from the list, which the constructor and every update keep.
- SongCacheManager.SongCache.ShouldUpdateCache: subtracts the timestamps without 64-bit wrap-around. That subtraction can only wrap for negative clock values.
- SongsFragment.SongsFragment.OnSortBroadcast: requires the ordinal to name a sort type, because `SortType.entries[ordinal]` throws otherwise.
- HomeFragment.HomeFragment.OnSortBroadcast: requires the ordinal to name a sort type, because `SortType.entries[ordinal]` throws otherwise.
- AlbumsFragment.AlbumsFragment.OnSortBroadcast: requires the ordinal to name a sort type, because `SortType.entries[ordinal]` throws otherwise.
- ArtistsFragment.ArtistsFragment.OnSortBroadcast: requires the ordinal to name a sort type, because `SortType.entries[ordinal]` throws otherwise.
- GenresFragment.GenresFragment.OnSortBroadcast: requires the ordinal to name a sort type, because `SortType.entries[ordinal]` throws otherwise.
- PreferenceManager.GetString: a stored value of another type reads as absent, whereas `getString` throws `ClassCastException`; the app never stores one under a string key.
- PreferenceManager.GetInt: a stored value of another type reads as the default, whereas `getInt` throws `ClassCastException`; the app never stores anything but an `Int` under these keys.
- PreferenceManager.GetLong: a stored value of another type reads as the default, whereas `getLong` throws `ClassCastException`; the app never stores anything but a `Long` under these keys.
- PreferenceManager.GetBool: a stored value of another type reads as the default, whereas `getBoolean` throws `ClassCastException`; the app never stores anything but a `Boolean` under these keys.
- PreferenceManager.LoadPlaybackState: a last-song id, position, seek position, repeat mode or shuffle flag of another type reads as missing or as its default, whereas the uncaught `getLong`/`getInt`/`getBoolean` calls throw; the app never stores another type under these keys. Only the JSON reads are inside the `try`.
- PreferenceManager.GetSortPreferenceWithDefault: a stored sort ordinal of another type reads as the category default, whereas the uncaught `getInt` throws; the app never stores another type under a sort key.
- Aliasing of the song list: the `SongAdapter` class holds its own immutable copy of the song list, not an alias of the screen's mutable list. In the app, the recent and favourites screens sort and reverse that shared list in place and only call `notifyDataSetChanged`, so the adapter's `sections` and `sectionLetters` go stale; the model cannot represent that stale fast-scroll index.
- Codec.ParseLong: accepts ASCII digits only, whereas `toLongOrNull` also accepts other Unicode decimal digits.
- Codec.DecodeJsonIds: decodes only the compact form Gson writes, `[` then ids separated by single commas then `]`. Gson also reads whitespace around entries, integral decimals such as `5.0` or `1e3`, quoted numbers such as `"5"` and, leniently, empty or `null` entries (dropped later by the queue lookup); for those the model loads an empty queue where the app restores one. The app itself never writes any of these forms.
- Lifecycle callbacks that only register or unregister receivers or touch views (`onPause`, `onDestroyView`, `onCreateView`) are left out.
