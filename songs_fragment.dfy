/**
 * The songs screen: the catalogue sorted by the chosen sort type and filtered by the search
 * query, the sort broadcast and resume handling, and opening a song.
 */
module SongsFragment {
  import opened Wrappers
  import opened Seqs
  import opened Text
  import opened Codec
  import opened Ordering
  import opened Media
  import PreferenceManager

  function TitleKey(s: Song): Key { StrKey(Lower(s.title)) }
  function DateAddedKey(s: Song): Key { IntKey(s.dateAdded) }
  function DurationKey(s: Song): Key { IntKey(s.duration) }

  /** `sortBy { it.title }` as the recent and favourite screens use it: the raw title, case-sensitive. */
  function RawTitleKey(s: Song): Key { StrKey(s.title) }

  /** The selector of each sort type: lower-cased title, date added, or duration. */
  function KeyOf(t: SortType): Song -> Key {
    match t
    case NameAsc => TitleKey
    case NameDesc => TitleKey
    case DateAddedAsc => DateAddedKey
    case DateAddedDesc => DateAddedKey
    case Duration => DurationKey
  }

  /** Whether the sort type uses `sortByDescending`; duration sorts longest first. */
  function Descending(t: SortType): bool {
    t == NameDesc || t == DateAddedDesc || t == Duration
  }

  /** What each sort type promises about two songs `a` before `b` in the result. */
  predicate InOrder(a: Song, b: Song, t: SortType) {
    match t
    case NameAsc => !StrLt(Lower(b.title), Lower(a.title))
    case NameDesc => !StrLt(Lower(a.title), Lower(b.title))
    case DateAddedAsc => a.dateAdded <= b.dateAdded
    case DateAddedDesc => a.dateAdded >= b.dateAdded
    case Duration => a.duration >= b.duration
  }

  lemma SortedInOrder(r: seq<Song>, t: SortType)
    requires SortedBy(r, KeyOf(t), Descending(t))
    ensures forall i, j :: 0 <= i < j < |r| ==> InOrder(r[i], r[j], t)
  {
    forall i, j | 0 <= i < j < |r| ensures InOrder(r[i], r[j], t) {
      assert !Before(KeyOf(t)(r[j]), KeyOf(t)(r[i]), Descending(t));
    }
  }

  /** `applyCurrentSort`: a stable sort of the list that is a permutation of it and in the sort type's order. */
  function ApplySort(songs: seq<Song>, t: SortType): (r: seq<Song>)
    ensures multiset(r) == multiset(songs) && |r| == |songs|
    ensures forall i, j :: 0 <= i < j < |r| ==> InOrder(r[i], r[j], t)
  {
    SortBySorted(songs, KeyOf(t), Descending(t));
    SortedInOrder(SortBy(songs, KeyOf(t), Descending(t)), t);
    SortBy(songs, KeyOf(t), Descending(t))
  }

  /** Songs with the same sort key keep their catalogue order. */
  lemma ApplySortStable(songs: seq<Song>, t: SortType, k: Key)
    ensures WithKey(ApplySort(songs, t), KeyOf(t), k) == WithKey(songs, KeyOf(t), k)
  {
    SortByStable(songs, KeyOf(t), Descending(t), k);
  }

  /** The search match: title, artist or album contains the query, ignoring case; a missing artist or album never matches. */
  predicate Matches(song: Song, query: string)
    ensures query == [] ==> Matches(song, query)
  {
    ContainsIgnoreCase(song.title, query) ||
    (song.artist.Some? && ContainsIgnoreCase(song.artist.value, query)) ||
    (song.album.Some? && ContainsIgnoreCase(song.album.value, query))
  }

  function MatchesQuery(query: string): Song -> bool {
    s => Matches(s, query)
  }

  /** `filterSongs`: everything for a blank query, otherwise exactly the matching songs. */
  function FilterByQuery(songs: seq<Song>, query: string): (r: seq<Song>)
    ensures IsBlank(query) ==> r == songs
    ensures !IsBlank(query) ==> forall i :: 0 <= i < |r| ==> r[i] in songs && Matches(r[i], query)
    ensures !IsBlank(query) ==> forall i :: 0 <= i < |songs| && Matches(songs[i], query) ==> songs[i] in r
  {
    if IsBlank(query) then songs else Filter(songs, MatchesQuery(query))
  }

  /** Filtering a sorted list keeps it in the sort type's order. */
  lemma FilterKeepsSortOrder(songs: seq<Song>, t: SortType, query: string)
    ensures var r := FilterByQuery(ApplySort(songs, t), query);
            forall i, j :: 0 <= i < j < |r| ==> InOrder(r[i], r[j], t)
  {
    var sorted := ApplySort(songs, t);
    SortBySorted(songs, KeyOf(t), Descending(t));
    if !IsBlank(query) {
      FilterSorted(sorted, MatchesQuery(query), KeyOf(t), Descending(t));
      SortedInOrder(Filter(sorted, MatchesQuery(query)), t);
    }
  }

  /** The preferences after the toggle-favourite action on `songId`. */
  function Toggled(p: PreferenceManager.Prefs, songId: Long): (r: PreferenceManager.Prefs)
    ensures PreferenceManager.KeyFavorites in r && PreferenceManager.KeepsOthers(p, r, {PreferenceManager.KeyFavorites})
  {
    if PreferenceManager.IsFavorite(p, songId) then PreferenceManager.WithFavoriteRemoved(p, songId)
    else PreferenceManager.WithFavoriteAdded(p, songId)
  }

  /** Toggling flips whether that song is a favourite and leaves every other song as it was. */
  lemma ToggleFlips(p: PreferenceManager.Prefs, songId: Long)
    ensures PreferenceManager.IsFavorite(Toggled(p, songId), songId) == !PreferenceManager.IsFavorite(p, songId)
    ensures forall x :: x != songId ==> (PreferenceManager.IsFavorite(Toggled(p, songId), x) <==> PreferenceManager.IsFavorite(p, x))
  {
    PreferenceManager.RemoveFavoriteDifference(p, songId);
    PreferenceManager.AddFavoriteUnion(p, songId);
  }

  /** Toggling twice restores the favourite status of every song. */
  lemma ToggleTwice(p: PreferenceManager.Prefs, songId: Long)
    ensures forall x :: PreferenceManager.IsFavorite(Toggled(Toggled(p, songId), songId), x) <==> PreferenceManager.IsFavorite(p, x)
  {
    ToggleFlips(p, songId);
    ToggleFlips(Toggled(p, songId), songId);
  }

  /** The screen's state. */
  class SongsFragment {
    var songList: seq<Song>
    var filteredSongList: seq<Song>
    var currentSortType: SortType
    var currentQuery: string
    var isFirstLoad: bool

    /** `onCreate`: the sort type comes from the saved preference. */
    constructor (prefs: PreferenceManager.Prefs)
      ensures currentSortType == PreferenceManager.GetSortPreferenceWithDefault(prefs, "songs")
      ensures songList == [] && filteredSongList == [] && currentQuery == "" && isFirstLoad
    {
      songList := [];
      filteredSongList := [];
      currentSortType := PreferenceManager.GetSortPreferenceWithDefault(prefs, "songs");
      currentQuery := "";
      isFirstLoad := true;
    }

    method FilterSongs()
      modifies this`filteredSongList
      ensures filteredSongList == FilterByQuery(songList, currentQuery)
    {
      filteredSongList := FilterByQuery(songList, currentQuery);
    }

    method ApplyCurrentSort()
      modifies this`songList, this`filteredSongList
      ensures songList == ApplySort(old(songList), currentSortType)
      ensures filteredSongList == FilterByQuery(songList, currentQuery)
    {
      songList := ApplySort(songList, currentSortType);
      FilterSongs();
    }

    /** `loadSongs` / `loadSongsPreserveState`: clear, refill from the catalogue, sort, filter. */
    method LoadSongs(catalogue: seq<Song>)
      modifies this`songList, this`filteredSongList
      ensures songList == ApplySort(catalogue, currentSortType)
      ensures filteredSongList == FilterByQuery(songList, currentQuery)
    {
      songList := [];
      songList := songList + catalogue;
      assert songList == catalogue;
      ApplyCurrentSort();
    }

    /** The search broadcast: new query, re-filter. */
    method OnSearchQuery(query: Option<string>)
      modifies this`currentQuery, this`filteredSongList
      ensures currentQuery == query.OrElse("")
      ensures filteredSongList == FilterByQuery(songList, currentQuery)
    {
      currentQuery := query.OrElse("");
      FilterSongs();
    }

    /**
     * The sort broadcast: only a sort type different from the current one is adopted, saved
     * and reloaded; the ordinal must name a sort type, as `entries[ordinal]` demands.
     */
    method OnSortBroadcast(sortTypeOrdinal: int, catalogue: seq<Song>, store: PreferenceManager.Store)
      requires 0 <= sortTypeOrdinal < SORT_TYPE_COUNT
      modifies this`currentSortType, this`songList, this`filteredSongList, store`prefs
      ensures var newSortType := FromOrdinal(sortTypeOrdinal);
              if newSortType != old(currentSortType) then
                currentSortType == newSortType &&
                store.prefs == PreferenceManager.WithSortSaved(old(store.prefs), "songs", newSortType) &&
                songList == ApplySort(catalogue, newSortType) && filteredSongList == FilterByQuery(songList, currentQuery)
              else
                currentSortType == old(currentSortType) && store.prefs == old(store.prefs) &&
                songList == old(songList) && filteredSongList == old(filteredSongList)
    {
      var newSortType := FromOrdinal(sortTypeOrdinal);
      if newSortType != currentSortType {
        currentSortType := newSortType;
        store.SaveSortPreference("songs", currentSortType);
        LoadSongs(catalogue);
      }
    }

    /** `onResume`: adopt a changed saved sort and reload; else reload after the first load; else just mark the first load done. */
    method OnResume(catalogue: seq<Song>, prefs: PreferenceManager.Prefs)
      modifies this`currentSortType, this`songList, this`filteredSongList, this`isFirstLoad
      ensures var saved := PreferenceManager.GetSortPreferenceWithDefault(prefs, "songs");
              if saved != old(currentSortType) then
                currentSortType == saved && isFirstLoad == old(isFirstLoad) &&
                songList == ApplySort(catalogue, saved) && filteredSongList == FilterByQuery(songList, currentQuery)
              else if !old(isFirstLoad) then
                currentSortType == old(currentSortType) && !isFirstLoad &&
                songList == ApplySort(catalogue, currentSortType) && filteredSongList == FilterByQuery(songList, currentQuery)
              else
                currentSortType == old(currentSortType) && !isFirstLoad &&
                songList == old(songList) && filteredSongList == old(filteredSongList)
    {
      var savedSortType := PreferenceManager.GetSortPreferenceWithDefault(prefs, "songs");
      if savedSortType != currentSortType {
        currentSortType := savedSortType;
        LoadSongs(catalogue);
      } else if !isFirstLoad {
        LoadSongs(catalogue);
      } else {
        isFirstLoad := false;
      }
    }

    /** `openNowPlaying`: record the song as most recent, then play the filtered list from that index. */
    method OpenNowPlaying(position: int, store: PreferenceManager.Store) returns (call: ServiceCall)
      requires 0 <= position < |filteredSongList|
      modifies store`prefs
      ensures store.prefs == PreferenceManager.WithRecentAdded(old(store.prefs), filteredSongList[position].id)
      ensures call == StartPlayback(filteredSongList, position)
    {
      var songToPlay := filteredSongList[position];
      store.AddRecentSong(songToPlay.id);
      call := StartPlayback(filteredSongList, position);
    }

    /** `toggleFavorite` from the song menu, on the shown song at `position`. */
    method ToggleFavorite(position: int, store: PreferenceManager.Store)
      requires 0 <= position < |filteredSongList|
      modifies store`prefs
      ensures store.prefs == Toggled(old(store.prefs), filteredSongList[position].id)
    {
      var song := filteredSongList[position];
      if PreferenceManager.IsFavorite(store.prefs, song.id) {
        store.RemoveFavorite(song.id);
      } else {
        store.AddFavorite(song.id);
      }
    }
  }
}
