/**
 * The home screen: the catalogue ordered by the current view mode (by artist, album or genre
 * name, or by the sort type in song mode), the search filter, the quick-action cards, and
 * adding a song to a playlist or to a new one.
 */
module HomeFragment {
  import opened Wrappers
  import opened Seqs
  import opened Text
  import opened Ordering
  import opened Codec
  import opened Media
  import opened SongsFragment
  import PreferenceManager

  function ArtistNameKey(s: Song): Key { StrKey(Lower(s.artist.OrElse(""))) }
  function AlbumNameKey(s: Song): Key { StrKey(Lower(s.album.OrElse(""))) }
  function GenreNameKey(s: Song): Key { StrKey(Lower(s.genre.OrElse(""))) }

  /** The field a view mode groups the list by, lower-cased, a missing value read as empty. */
  function ViewField(s: Song, viewMode: string): string
    requires viewMode in {"artists", "albums", "genres"}
  {
    if viewMode == "artists" then Lower(s.artist.OrElse(""))
    else if viewMode == "albums" then Lower(s.album.OrElse(""))
    else Lower(s.genre.OrElse(""))
  }

  function ViewKey(viewMode: string): Song -> Key
    requires viewMode in {"artists", "albums", "genres"}
  {
    if viewMode == "artists" then ArtistNameKey
    else if viewMode == "albums" then AlbumNameKey
    else GenreNameKey
  }

  /**
   * The order `loadSongs` leaves the list in: ascending by the view's field, by the sort type
   * in song mode, and untouched in any other mode.
   */
  function ViewSort(catalogue: seq<Song>, viewMode: string, sortType: SortType): (r: seq<Song>)
    ensures multiset(r) == multiset(catalogue) && |r| == |catalogue|
    ensures viewMode in {"artists", "albums", "genres"} ==>
              forall i, j :: 0 <= i < j < |r| ==> !StrLt(ViewField(r[j], viewMode), ViewField(r[i], viewMode))
    ensures viewMode == "songs" ==> r == ApplySort(catalogue, sortType)
    ensures viewMode !in {"artists", "albums", "genres", "songs"} ==> r == catalogue
  {
    if viewMode in {"artists", "albums", "genres"} then
      var r := SortBy(catalogue, ViewKey(viewMode), false);
      SortBySorted(catalogue, ViewKey(viewMode), false);
      assert forall i, j :: 0 <= i < j < |r| ==> !Before(ViewKey(viewMode)(r[j]), ViewKey(viewMode)(r[i]), false);
      r
    else if viewMode == "songs" then ApplySort(catalogue, sortType)
    else catalogue
  }

  /** `song` is what `allSongs.firstOrNull { it.id == id }` finds: the song at the first index holding that id. */
  ghost predicate FirstWithId(allSongs: seq<Song>, id: Long, song: Song) {
    exists i :: 0 <= i < |allSongs| && allSongs[i] == song && song.id == id &&
                forall j :: 0 <= j < i ==> allSongs[j].id != id
  }

  /** In the artist, album and genre views, songs with the same name keep their catalogue order. */
  lemma ViewSortStable(catalogue: seq<Song>, viewMode: string, sortType: SortType, k: Key)
    requires viewMode in {"artists", "albums", "genres"}
    ensures WithKey(ViewSort(catalogue, viewMode, sortType), ViewKey(viewMode), k) == WithKey(catalogue, ViewKey(viewMode), k)
  {
    SortByStable(catalogue, ViewKey(viewMode), false, k);
  }

  /** The recent card: the playing song if there is one, else the first catalogue song with the most recent id. */
  function RecentCardSong(playing: Option<Song>, allSongs: seq<Song>, recentIds: seq<Long>): (r: Option<Song>)
    ensures playing.Some? ==> r == playing
    ensures playing.None? && recentIds == [] ==> r == None
    ensures playing.None? && recentIds != [] ==>
              (r.None? <==> forall i :: 0 <= i < |allSongs| ==> allSongs[i].id != recentIds[0])
    ensures playing.None? && r.Some? ==> FirstWithId(allSongs, recentIds[0], r.value)
  {
    if playing.Some? then playing
    else if recentIds == [] then None
    else FirstWhere(allSongs, (s: Song) => s.id == recentIds[0])
  }

  /** The favourites card: the first catalogue song with the last favourite id. */
  function FavoriteCardSong(allSongs: seq<Song>, favoriteIds: seq<Long>): (r: Option<Song>)
    ensures favoriteIds == [] ==> r == None
    ensures favoriteIds != [] ==>
              (r.None? <==> forall i :: 0 <= i < |allSongs| ==> allSongs[i].id != favoriteIds[|favoriteIds| - 1])
    ensures r.Some? ==> FirstWithId(allSongs, favoriteIds[|favoriteIds| - 1], r.value)
  {
    if favoriteIds == [] then None
    else FirstWhere(allSongs, (s: Song) => s.id == favoriteIds[|favoriteIds| - 1])
  }

  /** The playlists card: the first catalogue song with the first id of the first playlist. */
  function PlaylistCardSong(allSongs: seq<Song>, playlists: seq<Playlist>): (r: Option<Song>)
    ensures playlists == [] || playlists[0].songIds == [] ==> r == None
    ensures playlists != [] && playlists[0].songIds != [] ==>
              (r.None? <==> forall i :: 0 <= i < |allSongs| ==> allSongs[i].id != playlists[0].songIds[0])
    ensures r.Some? ==> FirstWithId(allSongs, playlists[0].songIds[0], r.value)
  {
    if playlists == [] || playlists[0].songIds == [] then None
    else FirstWhere(allSongs, (s: Song) => s.id == playlists[0].songIds[0])
  }

  /** A song added from home is never a duplicate: if the chosen playlist had no repeats, it still has none. */
  lemma AddFromHomeKeepsDistinct(playlists: seq<Playlist>, which: int, songId: Long)
    requires 0 <= which < |playlists| && PreferenceManager.PlaylistIndex(playlists, playlists[which].id) == which
    requires songId !in playlists[which].songIds && NoDup(playlists[which].songIds)
    ensures var r := PreferenceManager.AppendSongTo(playlists, playlists[which].id, songId);
            NoDup(r[which].songIds) && songId in r[which].songIds && |r[which].songIds| == |playlists[which].songIds| + 1
  {
    NoDupSnoc(playlists[which].songIds, songId);
  }

  class HomeFragment {
    var songList: seq<Song>
    var filteredSongList: seq<Song>
    var currentSortType: SortType
    var currentQuery: string
    var viewMode: string

    /** `newInstance(mode)` and `onCreate`: the view mode is the argument, "songs" when none is given. */
    constructor (mode: Option<string>)
      ensures songList == [] && filteredSongList == [] && currentSortType == NameAsc
      ensures currentQuery == "" && viewMode == mode.OrElse("songs")
    {
      songList := [];
      filteredSongList := [];
      currentSortType := NameAsc;
      currentQuery := "";
      viewMode := mode.OrElse("songs");
    }

    method FilterSongs()
      modifies this`filteredSongList
      ensures filteredSongList == FilterByQuery(songList, currentQuery)
    {
      filteredSongList := FilterByQuery(songList, currentQuery);
    }

    /** `sortSongs`: reorders only in song mode, but always re-filters. */
    method SortSongs()
      modifies this`songList, this`filteredSongList
      ensures songList == if viewMode == "songs" then ApplySort(old(songList), currentSortType) else old(songList)
      ensures filteredSongList == FilterByQuery(songList, currentQuery)
    {
      if viewMode == "songs" {
        songList := ApplySort(songList, currentSortType);
      }
      FilterSongs();
    }

    /** `loadSongs`: refill, order by view mode (an unknown mode keeps catalogue order), then filter. */
    method LoadSongs(catalogue: seq<Song>)
      modifies this`songList, this`filteredSongList
      ensures songList == ViewSort(catalogue, viewMode, currentSortType)
      ensures filteredSongList == FilterByQuery(songList, currentQuery)
    {
      songList := catalogue;
      if viewMode == "artists" {
        songList := SortBy(songList, ArtistNameKey, false);
      } else if viewMode == "albums" {
        songList := SortBy(songList, AlbumNameKey, false);
      } else if viewMode == "genres" {
        songList := SortBy(songList, GenreNameKey, false);
      } else if viewMode == "songs" {
        SortSongs();
      }
      if viewMode != "songs" {
        FilterSongs();
      }
    }

    /** Picking an existing playlist (dialog item `which`, after the "create" entry) adds the song only if it is not there yet. */
    method AddToExistingPlaylist(which: int, song: Song, store: PreferenceManager.Store)
      requires 1 <= which <= |PreferenceManager.GetPlaylists(store.prefs)|
      modifies store`prefs
      ensures var playlist := PreferenceManager.GetPlaylists(old(store.prefs))[which - 1];
              store.prefs == if song.id in playlist.songIds then old(store.prefs)
                             else PreferenceManager.WithPlaylistsSaved(old(store.prefs),
                                    PreferenceManager.AppendSongTo(PreferenceManager.GetPlaylists(old(store.prefs)), playlist.id, song.id))
    {
      var playlists := PreferenceManager.GetPlaylists(store.prefs);
      var playlist := playlists[which - 1];
      if song.id !in playlist.songIds {
        store.AddSongToPlaylist(playlist.id, song.id);
      }
    }

    /**
     * Creating a playlist from a song: a name that trims to nothing is refused; otherwise a
     * playlist holding just that song is appended to the stored ones. The id and the creation
     * time come from the clock and a random number, so they are parameters.
     */
    method CreatePlaylistWithSong(name: string, song: Song, newId: Long, now: Long, store: PreferenceManager.Store)
      returns (created: bool)
      modifies store`prefs
      ensures created <==> Trim(name) != ""
      ensures created ==> store.prefs == PreferenceManager.WithPlaylistsSaved(old(store.prefs),
                            PreferenceManager.GetPlaylists(old(store.prefs)) + [Playlist(newId, Trim(name), [song.id], now)])
      ensures !created ==> store.prefs == old(store.prefs)
    {
      var newName := Trim(name);
      created := newName != "";
      if created {
        var newPlaylist := Playlist(newId, newName, [song.id], now);
        var existingPlaylists := PreferenceManager.GetPlaylists(store.prefs);
        existingPlaylists := existingPlaylists + [newPlaylist];
        store.SavePlaylists(existingPlaylists);
      }
    }

    /** `toggleFavorite` from the song menu, on the shown song at `position`. */
    method ToggleFavorite(position: int, store: PreferenceManager.Store)
      requires 0 <= position < |filteredSongList|
      modifies store`prefs
      ensures store.prefs == Toggled(old(store.prefs), filteredSongList[position].id)
    {
      var song := filteredSongList[position];
      if PreferenceManager.IsFavorite(store.prefs, song.id) {
        store.RemoveFavorite(song.id);
      } else {
        store.AddFavorite(song.id);
      }
    }

    /** `openNowPlaying`: record the song as most recent, then play the shown list from that index. */
    method OpenNowPlaying(position: int, store: PreferenceManager.Store) returns (call: ServiceCall)
      requires 0 <= position < |filteredSongList|
      modifies store`prefs
      ensures store.prefs == PreferenceManager.WithRecentAdded(old(store.prefs), filteredSongList[position].id)
      ensures call == StartPlayback(filteredSongList, position)
    {
      var songToPlay := filteredSongList[position];
      store.AddRecentSong(songToPlay.id);
      call := StartPlayback(filteredSongList, position);
    }

    /** The search broadcast: new query, re-filter. */
    method OnSearchQuery(query: Option<string>)
      modifies this`currentQuery, this`filteredSongList
      ensures currentQuery == query.OrElse("")
      ensures filteredSongList == FilterByQuery(songList, currentQuery)
    {
      currentQuery := query.OrElse("");
      FilterSongs();
    }

    /**
     * The sort broadcast: unlike the songs screen, the sort type is adopted whether or not it
     * changed and is not saved; the list is re-sorted in place (in song mode) and re-filtered.
     */
    method OnSortBroadcast(sortTypeOrdinal: int)
      requires 0 <= sortTypeOrdinal < SORT_TYPE_COUNT
      modifies this`currentSortType, this`songList, this`filteredSongList
      ensures currentSortType == FromOrdinal(sortTypeOrdinal)
      ensures songList == if viewMode == "songs" then ApplySort(old(songList), currentSortType) else old(songList)
      ensures filteredSongList == FilterByQuery(songList, currentQuery)
    {
      currentSortType := FromOrdinal(sortTypeOrdinal);
      SortSongs();
    }

    /**
     * `onResume`: an empty list waits for the storage permission and loads once it is granted
     * (`granted` is the answer); a non-empty list is reloaded.
     */
    method OnResume(catalogue: seq<Song>, granted: bool)
      modifies this`songList, this`filteredSongList
      ensures old(songList) == [] && !granted ==> songList == old(songList) && filteredSongList == old(filteredSongList)
      ensures old(songList) != [] || granted ==>
                songList == ViewSort(catalogue, viewMode, currentSortType) &&
                filteredSongList == FilterByQuery(songList, currentQuery)
    {
      if songList != [] || granted {
        LoadSongs(catalogue);
      }
    }
  }
}
