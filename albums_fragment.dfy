/**
 * The albums screen: the catalogue grouped by album name, sorted by name and filtered by the
 * search query.
 */
module AlbumsFragment {
  import opened Wrappers
  import opened Seqs
  import opened Text
  import opened Ordering
  import opened Media
  import opened Grouping
  import PreferenceManager

  /** The grouping key: the album name, "Unknown Album" when missing. */
  function AlbumName(s: Song): string { s.album.OrElse("Unknown Album") }

  /** The album built for a group: artist and album id from its first song, the song count its size. */
  function AlbumOf(name: string, members: seq<Song>): Album
    requires members != []
  {
    Album(name, members[0].artist.OrElse("Unknown Artist"), |members|, members, members[0].albumId)
  }

  /** The albums in order of first appearance in the catalogue. */
  function Albums(songs: seq<Song>): (r: seq<Album>)
    ensures |r| == |GroupKeys(songs, AlbumName)|
    ensures forall j :: 0 <= j < |r| ==> r[j].name == GroupKeys(songs, AlbumName)[j] &&
                                           r[j].songs == Members(songs, AlbumName, r[j].name)
  {
    var ks := GroupKeys(songs, AlbumName);
    seq(|ks|, j requires 0 <= j < |ks| =>
      MembersOfKey(songs, AlbumName, j);
      AlbumOf(ks[j], Members(songs, AlbumName, ks[j])))
  }

  /** Album names are pairwise distinct. */
  lemma AlbumNamesDistinct(songs: seq<Song>, i: int, j: int)
    requires 0 <= i < j < |Albums(songs)|
    ensures Albums(songs)[i].name != Albums(songs)[j].name
  {
    GroupKeysDistinct(songs, AlbumName);
    NoDupIndex(GroupKeys(songs, AlbumName), i, j);
  }

  /** Each album's artist (default "Unknown Artist") and id come from the first catalogue song with that album name. */
  lemma AlbumFromFirstSong(songs: seq<Song>, j: int)
    requires 0 <= j < |Albums(songs)|
    ensures var a := Albums(songs)[j];
            var first := FirstWhere(songs, KeyIs(AlbumName, a.name));
            first.Some? && a.artist == first.value.artist.OrElse("Unknown Artist") && a.albumId == first.value.albumId
  {
    var a := Albums(songs)[j];
    MembersOfKey(songs, AlbumName, j);
    MembersHead(songs, AlbumName, a.name);
  }

  function AlbumSongCount(a: Album): int { a.songCount }

  /** Every album counts its own songs, every song is in the album of its name only, and the counts add up to the catalogue size. */
  lemma AlbumCounts(songs: seq<Song>)
    ensures forall j :: 0 <= j < |Albums(songs)| ==> Albums(songs)[j].songCount == |Albums(songs)[j].songs|
    ensures forall i, j :: 0 <= i < |songs| && 0 <= j < |Albums(songs)| ==>
              (songs[i] in Albums(songs)[j].songs <==> AlbumName(songs[i]) == Albums(songs)[j].name)
    ensures SumOf(Albums(songs), AlbumSongCount) == |songs|
  {
    var albums := Albums(songs);
    var ks := GroupKeys(songs, AlbumName);
    forall j | 0 <= j < |albums| ensures albums[j].songCount == |albums[j].songs| {
      MembersOfKey(songs, AlbumName, j);
    }
    SumOfCounts(albums, AlbumSongCount, songs, AlbumName, ks);
    GroupSizes(songs, AlbumName);
  }

  /** The album started for a song with a new name: its artist and id, no songs yet. */
  function NewAlbum(s: Song): Album {
    Album(AlbumName(s), s.artist.OrElse("Unknown Artist"), 0, [], s.albumId)
  }

  /** `songCount++` and `songs.add(song)` on an album. */
  function AddSong(a: Album, s: Song): Album {
    a.(songCount := a.songCount + 1, songs := a.songs + [s])
  }

  /** The album a song's name maps to once the song is added: a new album when the name is unseen. */
  function AlbumWith(albumMap: map<string, Album>, s: Song): Album {
    AddSong(if AlbumName(s) in albumMap then albumMap[AlbumName(s)] else NewAlbum(s), s)
  }

  /** The `albumMap` the grouping loop has built after a catalogue prefix. */
  function AlbumIndex(songs: seq<Song>): map<string, Album>
    decreases |songs|
  {
    if songs == [] then map[]
    else
      var m := AlbumIndex(songs[..|songs| - 1]);
      var last := songs[|songs| - 1];
      m[AlbumName(last) := AlbumWith(m, last)]
  }

  /** The map holds exactly the album names that occur. */
  lemma {:induction false} AlbumIndexDomain(songs: seq<Song>, k: string)
    ensures k in AlbumIndex(songs) <==> Members(songs, AlbumName, k) != []
    decreases |songs|
  {
    if songs != [] {
      var init, last := songs[..|songs| - 1], songs[|songs| - 1];
      assert songs == init + [last];
      AlbumIndexDomain(init, k);
      MembersSnoc(init, last, AlbumName, k);
    }
  }

  /** Adding a song to the album of a group gives the album of the group with that song. */
  lemma AddSongOf(name: string, members: seq<Song>, s: Song)
    requires members != []
    ensures AddSong(AlbumOf(name, members), s) == AlbumOf(name, members + [s])
  {
    assert (members + [s])[0] == members[0];
  }

  /** Each album in the map is the album of its members. */
  lemma {:induction false} AlbumIndexValue(songs: seq<Song>, k: string)
    requires Members(songs, AlbumName, k) != []
    ensures k in AlbumIndex(songs) && AlbumIndex(songs)[k] == AlbumOf(k, Members(songs, AlbumName, k))
    decreases |songs|
  {
    var init, last := songs[..|songs| - 1], songs[|songs| - 1];
    var before := Members(init, AlbumName, k);
    MembersLast(songs, k);
    if AlbumName(last) != k {
      AlbumIndexValue(init, k);
    } else if before != [] {
      AlbumIndexValue(init, k);
      AddSongOf(k, before, last);
    } else {
      AlbumIndexDomain(init, k);
    }
  }

  /** The members of a name in a non-empty catalogue: those before the last song, then the last song if it has that name. */
  lemma MembersLast(songs: seq<Song>, k: string)
    requires songs != []
    ensures var init, last := songs[..|songs| - 1], songs[|songs| - 1];
            Members(songs, AlbumName, k) == Members(init, AlbumName, k) + (if AlbumName(last) == k then [last] else [])
  {
    var init, last := songs[..|songs| - 1], songs[|songs| - 1];
    assert songs == init + [last];
    MembersSnoc(init, last, AlbumName, k);
  }

  /** One more song: the keys grow exactly when its album name is new, and the map takes the updated album. */
  lemma AlbumIndexNext(songs: seq<Song>, i: int)
    requires 0 <= i < |songs|
    ensures var n, m := AlbumName(songs[i]), AlbumIndex(songs[..i]);
            && AlbumIndex(songs[..i + 1]) == m[n := AlbumWith(m, songs[i])]
            && GroupKeys(songs[..i + 1], AlbumName) ==
               if n in m then GroupKeys(songs[..i], AlbumName) else GroupKeys(songs[..i], AlbumName) + [n]
  {
    var n, prefix := AlbumName(songs[i]), songs[..i];
    assert AlbumIndex(songs[..i + 1]) == AlbumIndex(prefix)[n := AlbumWith(AlbumIndex(prefix), songs[i])] by {
      TakeSnoc(songs, i);
      assert songs[..i + 1][..i] == prefix;
    }
    assert GroupKeys(songs[..i + 1], AlbumName) ==
           if n in AlbumIndex(prefix) then GroupKeys(prefix, AlbumName) else GroupKeys(prefix, AlbumName) + [n] by {
      GroupKeysNext(songs, AlbumName, i);
      AlbumIndexDomain(prefix, n);
    }
  }

  /** Listing the map's albums in key order gives the albums of the catalogue. */
  lemma AlbumIndexValues(songs: seq<Song>)
    ensures forall j :: 0 <= j < |GroupKeys(songs, AlbumName)| ==> GroupKeys(songs, AlbumName)[j] in AlbumIndex(songs)
    ensures ValuesInOrder(GroupKeys(songs, AlbumName), AlbumIndex(songs)) == Albums(songs)
  {
    var keys := GroupKeys(songs, AlbumName);
    forall j | 0 <= j < |keys| ensures keys[j] in AlbumIndex(songs) && AlbumIndex(songs)[keys[j]] == Albums(songs)[j] {
      MembersOfKey(songs, AlbumName, j);
      AlbumIndexValue(songs, keys[j]);
    }
  }

  /** `forEach` over the catalogue into an insertion-ordered map (put when absent, then count and add), then its values. */
  method GroupAlbums(songs: seq<Song>) returns (albums: seq<Album>)
    ensures albums == Albums(songs)
  {
    var keys: seq<string> := [];
    var albumMap: map<string, Album> := map[];
    for i := 0 to |songs|
      invariant keys == GroupKeys(songs[..i], AlbumName)
      invariant albumMap == AlbumIndex(songs[..i])
    {
      AlbumIndexNext(songs, i);
      var song := songs[i];
      var albumName := AlbumName(song);
      var album := AlbumWith(albumMap, song);
      if albumName !in albumMap {
        keys := keys + [albumName];
      }
      albumMap := albumMap[albumName := album];
    }
    assert songs[..|songs|] == songs;
    AlbumIndexValues(songs);
    albums := ValuesInOrder(keys, albumMap);
  }

  function AlbumNameKey(a: Album): Key { StrKey(Lower(a.name)) }

  /** `applyCurrentSort`: by lower-cased name, descending only for NAME_DESC; every other type sorts ascending. */
  function SortAlbums(albums: seq<Album>, t: SortType): (r: seq<Album>)
    ensures multiset(r) == multiset(albums) && |r| == |albums|
    ensures t == NameDesc ==> forall i, j :: 0 <= i < j < |r| ==> !StrLt(Lower(r[i].name), Lower(r[j].name))
    ensures t != NameDesc ==> forall i, j :: 0 <= i < j < |r| ==> !StrLt(Lower(r[j].name), Lower(r[i].name))
  {
    var desc := t == NameDesc;
    var r := SortBy(albums, AlbumNameKey, desc);
    SortBySorted(albums, AlbumNameKey, desc);
    assert forall i, j :: 0 <= i < j < |r| ==> !Before(AlbumNameKey(r[j]), AlbumNameKey(r[i]), desc);
    r
  }

  /**
   * The sort is stable: albums whose names differ only in case tie on the lower-cased key and
   * keep the order they had before sorting.
   */
  lemma SortAlbumsStable(albums: seq<Album>, t: SortType, k: Key)
    ensures WithKey(SortAlbums(albums, t), AlbumNameKey, k) == WithKey(albums, AlbumNameKey, k)
  {
    SortByStable(albums, AlbumNameKey, t == NameDesc, k);
  }

  predicate AlbumMatches(a: Album, query: string) {
    ContainsIgnoreCase(a.name, query) || ContainsIgnoreCase(a.artist, query)
  }

  function AlbumMatchesQuery(query: string): Album -> bool {
    a => AlbumMatches(a, query)
  }

  /** `filterAlbums`: all for a blank query, else exactly the albums whose name or artist contains it. */
  function FilterAlbums(albums: seq<Album>, query: string): (r: seq<Album>)
    ensures IsBlank(query) ==> r == albums
    ensures !IsBlank(query) ==> forall i :: 0 <= i < |r| ==> r[i] in albums && AlbumMatches(r[i], query)
    ensures !IsBlank(query) ==> forall i :: 0 <= i < |albums| && AlbumMatches(albums[i], query) ==> albums[i] in r
  {
    if IsBlank(query) then albums else Filter(albums, AlbumMatchesQuery(query))
  }

  class AlbumsFragment {
    var albumList: seq<Album>
    var filteredAlbumList: seq<Album>
    var currentSortType: SortType
    var currentQuery: string
    var isFirstLoad: bool

    /** `onCreate`: the sort type comes from the saved preference. */
    constructor (prefs: PreferenceManager.Prefs)
      ensures currentSortType == PreferenceManager.GetSortPreferenceWithDefault(prefs, "albums")
      ensures albumList == [] && filteredAlbumList == [] && currentQuery == "" && isFirstLoad
    {
      albumList := [];
      filteredAlbumList := [];
      currentSortType := PreferenceManager.GetSortPreferenceWithDefault(prefs, "albums");
      currentQuery := "";
      isFirstLoad := true;
    }

    method FilterAlbumList()
      modifies this`filteredAlbumList
      ensures filteredAlbumList == FilterAlbums(albumList, currentQuery)
    {
      filteredAlbumList := FilterAlbums(albumList, currentQuery);
    }

    method ApplyCurrentSort()
      modifies this`albumList, this`filteredAlbumList
      ensures albumList == SortAlbums(old(albumList), currentSortType)
      ensures filteredAlbumList == FilterAlbums(albumList, currentQuery)
    {
      albumList := SortAlbums(albumList, currentSortType);
      FilterAlbumList();
    }

    /** `loadAlbums` / `loadAlbumsPreserveState`: group the catalogue, sort, filter. */
    method LoadAlbums(catalogue: seq<Song>)
      modifies this`albumList, this`filteredAlbumList
      ensures albumList == SortAlbums(Albums(catalogue), currentSortType)
      ensures filteredAlbumList == FilterAlbums(albumList, currentQuery)
    {
      albumList := GroupAlbums(catalogue);
      ApplyCurrentSort();
    }

    /** The search broadcast: new query, re-filter. */
    method OnSearchQuery(query: Option<string>)
      modifies this`currentQuery, this`filteredAlbumList
      ensures currentQuery == query.OrElse("")
      ensures filteredAlbumList == FilterAlbums(albumList, currentQuery)
    {
      currentQuery := query.OrElse("");
      FilterAlbumList();
    }

    /** The sort broadcast: a different sort type is adopted, saved under "albums" and reloaded; the ordinal must name a sort type. */
    method OnSortBroadcast(sortTypeOrdinal: int, catalogue: seq<Song>, store: PreferenceManager.Store)
      requires 0 <= sortTypeOrdinal < SORT_TYPE_COUNT
      modifies this`currentSortType, this`albumList, this`filteredAlbumList, store`prefs
      ensures var newSortType := FromOrdinal(sortTypeOrdinal);
              if newSortType != old(currentSortType) then
                currentSortType == newSortType &&
                store.prefs == PreferenceManager.WithSortSaved(old(store.prefs), "albums", newSortType) &&
                albumList == SortAlbums(Albums(catalogue), newSortType) &&
                filteredAlbumList == FilterAlbums(albumList, currentQuery)
              else
                currentSortType == old(currentSortType) && store.prefs == old(store.prefs) &&
                albumList == old(albumList) && filteredAlbumList == old(filteredAlbumList)
    {
      var newSortType := FromOrdinal(sortTypeOrdinal);
      if newSortType != currentSortType {
        currentSortType := newSortType;
        store.SaveSortPreference("albums", currentSortType);
        LoadAlbums(catalogue);
      }
    }

    /** The refresh broadcast: reload. */
    method OnForceRefresh(catalogue: seq<Song>)
      modifies this`albumList, this`filteredAlbumList
      ensures albumList == SortAlbums(Albums(catalogue), currentSortType)
      ensures filteredAlbumList == FilterAlbums(albumList, currentQuery)
    {
      LoadAlbums(catalogue);
    }

    /** `onResume`: adopt a changed saved sort and reload; else reload after the first load; else just mark the first load done. */
    method OnResume(catalogue: seq<Song>, prefs: PreferenceManager.Prefs)
      modifies this`currentSortType, this`albumList, this`filteredAlbumList, this`isFirstLoad
      ensures var saved := PreferenceManager.GetSortPreferenceWithDefault(prefs, "albums");
              if saved != old(currentSortType) then
                currentSortType == saved && isFirstLoad == old(isFirstLoad) &&
                albumList == SortAlbums(Albums(catalogue), saved) && filteredAlbumList == FilterAlbums(albumList, currentQuery)
              else if !old(isFirstLoad) then
                currentSortType == old(currentSortType) && !isFirstLoad &&
                albumList == SortAlbums(Albums(catalogue), currentSortType) &&
                filteredAlbumList == FilterAlbums(albumList, currentQuery)
              else
                currentSortType == old(currentSortType) && !isFirstLoad &&
                albumList == old(albumList) && filteredAlbumList == old(filteredAlbumList)
    {
      var savedSortType := PreferenceManager.GetSortPreferenceWithDefault(prefs, "albums");
      if savedSortType != currentSortType {
        currentSortType := savedSortType;
        LoadAlbums(catalogue);
      } else if !isFirstLoad {
        LoadAlbums(catalogue);
      } else {
        isFirstLoad := false;
      }
    }
  }
}
