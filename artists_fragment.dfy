/**
 * The artists screen: the catalogue grouped by artist name, sorted by name and filtered by the
 * search query.
 */
module ArtistsFragment {
  import opened Wrappers
  import opened Seqs
  import opened Text
  import opened Ordering
  import opened Media
  import opened Grouping
  import PreferenceManager

  /** The grouping key: the artist name, "Unknown Artist" when missing. */
  function ArtistName(s: Song): string { s.artist.OrElse("Unknown Artist") }

  /** The artist built for a group: the song count its size. */
  function ArtistOf(name: string, members: seq<Song>): Artist
    requires members != []
  {
    Artist(name, |members|, members)
  }

  /** The artists in order of first appearance in the catalogue. */
  function Artists(songs: seq<Song>): (r: seq<Artist>)
    ensures |r| == |GroupKeys(songs, ArtistName)|
    ensures forall j :: 0 <= j < |r| ==> r[j].name == GroupKeys(songs, ArtistName)[j] &&
                                           r[j].songs == Members(songs, ArtistName, r[j].name)
  {
    var ks := GroupKeys(songs, ArtistName);
    seq(|ks|, j requires 0 <= j < |ks| =>
      MembersOfKey(songs, ArtistName, j);
      ArtistOf(ks[j], Members(songs, ArtistName, ks[j])))
  }

  /** Artist names are pairwise distinct. */
  lemma ArtistNamesDistinct(songs: seq<Song>, i: int, j: int)
    requires 0 <= i < j < |Artists(songs)|
    ensures Artists(songs)[i].name != Artists(songs)[j].name
  {
    GroupKeysDistinct(songs, ArtistName);
    NoDupIndex(GroupKeys(songs, ArtistName), i, j);
  }

  function ArtistSongCount(a: Artist): int { a.songCount }

  /** Every artist counts its own songs, every song is in the artist of its name only, and the counts add up to the catalogue size. */
  lemma ArtistCounts(songs: seq<Song>)
    ensures forall j :: 0 <= j < |Artists(songs)| ==> Artists(songs)[j].songCount == |Artists(songs)[j].songs|
    ensures forall i, j :: 0 <= i < |songs| && 0 <= j < |Artists(songs)| ==>
              (songs[i] in Artists(songs)[j].songs <==> ArtistName(songs[i]) == Artists(songs)[j].name)
    ensures SumOf(Artists(songs), ArtistSongCount) == |songs|
  {
    var artists := Artists(songs);
    var ks := GroupKeys(songs, ArtistName);
    forall j | 0 <= j < |artists| ensures artists[j].songCount == |artists[j].songs| {
      MembersOfKey(songs, ArtistName, j);
    }
    SumOfCounts(artists, ArtistSongCount, songs, ArtistName, ks);
    GroupSizes(songs, ArtistName);
  }

  /** The artist started for a song with a new name: no songs yet. */
  function NewArtist(s: Song): Artist {
    Artist(ArtistName(s), 0, [])
  }

  /** `songCount++` and `songs.add(song)` on an artist. */
  function AddSong(a: Artist, s: Song): Artist {
    a.(songCount := a.songCount + 1, songs := a.songs + [s])
  }

  /** The artist a song's name maps to once the song is added: a new artist when the name is unseen. */
  function ArtistWith(artistMap: map<string, Artist>, s: Song): Artist {
    AddSong(if ArtistName(s) in artistMap then artistMap[ArtistName(s)] else NewArtist(s), s)
  }

  /** The `artistMap` the grouping loop has built after a catalogue prefix. */
  function ArtistIndex(songs: seq<Song>): map<string, Artist>
    decreases |songs|
  {
    if songs == [] then map[]
    else
      var m := ArtistIndex(songs[..|songs| - 1]);
      var last := songs[|songs| - 1];
      m[ArtistName(last) := ArtistWith(m, last)]
  }

  /** The map holds exactly the artist names that occur. */
  lemma {:induction false} ArtistIndexDomain(songs: seq<Song>, k: string)
    ensures k in ArtistIndex(songs) <==> Members(songs, ArtistName, k) != []
    decreases |songs|
  {
    if songs != [] {
      var init, last := songs[..|songs| - 1], songs[|songs| - 1];
      assert songs == init + [last];
      ArtistIndexDomain(init, k);
      MembersSnoc(init, last, ArtistName, k);
    }
  }

  /** Each artist in the map is the artist of its members. */
  lemma {:induction false} ArtistIndexValue(songs: seq<Song>, k: string)
    requires Members(songs, ArtistName, k) != []
    ensures k in ArtistIndex(songs) && ArtistIndex(songs)[k] == ArtistOf(k, Members(songs, ArtistName, k))
    decreases |songs|
  {
    ArtistIndexDomain(songs, k);
    var init, last := songs[..|songs| - 1], songs[|songs| - 1];
    assert songs == init + [last];
    MembersSnoc(init, last, ArtistName, k);
    if Members(init, ArtistName, k) != [] {
      ArtistIndexValue(init, k);
    } else {
      ArtistIndexDomain(init, k);
    }
  }

  /** One more song: the keys grow exactly when its artist name is new, and the map takes the updated artist. */
  lemma ArtistIndexNext(songs: seq<Song>, i: int)
    requires 0 <= i < |songs|
    ensures var n, m := ArtistName(songs[i]), ArtistIndex(songs[..i]);
            && ArtistIndex(songs[..i + 1]) == m[n := ArtistWith(m, songs[i])]
            && GroupKeys(songs[..i + 1], ArtistName) ==
               if n in m then GroupKeys(songs[..i], ArtistName) else GroupKeys(songs[..i], ArtistName) + [n]
  {
    var n, prefix := ArtistName(songs[i]), songs[..i];
    assert ArtistIndex(songs[..i + 1]) == ArtistIndex(prefix)[n := ArtistWith(ArtistIndex(prefix), songs[i])] by {
      TakeSnoc(songs, i);
      assert songs[..i + 1][..i] == prefix;
    }
    assert GroupKeys(songs[..i + 1], ArtistName) ==
           if n in ArtistIndex(prefix) then GroupKeys(prefix, ArtistName) else GroupKeys(prefix, ArtistName) + [n] by {
      GroupKeysNext(songs, ArtistName, i);
      ArtistIndexDomain(prefix, n);
    }
  }

  /** Listing the map's artists in key order gives the artists of the catalogue. */
  lemma ArtistIndexValues(songs: seq<Song>)
    ensures forall j :: 0 <= j < |GroupKeys(songs, ArtistName)| ==> GroupKeys(songs, ArtistName)[j] in ArtistIndex(songs)
    ensures ValuesInOrder(GroupKeys(songs, ArtistName), ArtistIndex(songs)) == Artists(songs)
  {
    var keys := GroupKeys(songs, ArtistName);
    forall j | 0 <= j < |keys| ensures keys[j] in ArtistIndex(songs) && ArtistIndex(songs)[keys[j]] == Artists(songs)[j] {
      MembersOfKey(songs, ArtistName, j);
      ArtistIndexValue(songs, keys[j]);
    }
  }

  /** `forEach` over the catalogue into an insertion-ordered map (put when absent, then count and add), then its values. */
  method GroupArtists(songs: seq<Song>) returns (artists: seq<Artist>)
    ensures artists == Artists(songs)
  {
    var keys: seq<string> := [];
    var artistMap: map<string, Artist> := map[];
    for i := 0 to |songs|
      invariant keys == GroupKeys(songs[..i], ArtistName)
      invariant artistMap == ArtistIndex(songs[..i])
    {
      ArtistIndexNext(songs, i);
      var song := songs[i];
      var artistName := ArtistName(song);
      var artist := ArtistWith(artistMap, song);
      if artistName !in artistMap {
        keys := keys + [artistName];
      }
      artistMap := artistMap[artistName := artist];
    }
    assert songs[..|songs|] == songs;
    ArtistIndexValues(songs);
    artists := ValuesInOrder(keys, artistMap);
  }

  function ArtistNameKey(a: Artist): Key { StrKey(Lower(a.name)) }

  /** `applyCurrentSort`: by lower-cased name, descending only for NAME_DESC; every other type sorts ascending. */
  function SortArtists(artists: seq<Artist>, t: SortType): (r: seq<Artist>)
    ensures multiset(r) == multiset(artists) && |r| == |artists|
    ensures t == NameDesc ==> forall i, j :: 0 <= i < j < |r| ==> !StrLt(Lower(r[i].name), Lower(r[j].name))
    ensures t != NameDesc ==> forall i, j :: 0 <= i < j < |r| ==> !StrLt(Lower(r[j].name), Lower(r[i].name))
  {
    var desc := t == NameDesc;
    var r := SortBy(artists, ArtistNameKey, desc);
    SortBySorted(artists, ArtistNameKey, desc);
    assert forall i, j :: 0 <= i < j < |r| ==> !Before(ArtistNameKey(r[j]), ArtistNameKey(r[i]), desc);
    r
  }

  /**
   * The sort is stable: artists whose names differ only in case tie on the lower-cased key and
   * keep the order they had before sorting.
   */
  lemma SortArtistsStable(artists: seq<Artist>, t: SortType, k: Key)
    ensures WithKey(SortArtists(artists, t), ArtistNameKey, k) == WithKey(artists, ArtistNameKey, k)
  {
    SortByStable(artists, ArtistNameKey, t == NameDesc, k);
  }

  predicate ArtistMatches(a: Artist, query: string) {
    ContainsIgnoreCase(a.name, query)
  }

  function ArtistMatchesQuery(query: string): Artist -> bool {
    a => ArtistMatches(a, query)
  }

  /** `filterArtists`: all for a blank query, else exactly the artists whose name contains it. */
  function FilterArtists(artists: seq<Artist>, query: string): (r: seq<Artist>)
    ensures IsBlank(query) ==> r == artists
    ensures !IsBlank(query) ==> forall i :: 0 <= i < |r| ==> r[i] in artists && ArtistMatches(r[i], query)
    ensures !IsBlank(query) ==> forall i :: 0 <= i < |artists| && ArtistMatches(artists[i], query) ==> artists[i] in r
  {
    if IsBlank(query) then artists else Filter(artists, ArtistMatchesQuery(query))
  }

  class ArtistsFragment {
    var artistList: seq<Artist>
    var filteredArtistList: seq<Artist>
    var currentSortType: SortType
    var currentQuery: string
    var isFirstLoad: bool

    /** `onCreate`: the sort type comes from the saved preference. */
    constructor (prefs: PreferenceManager.Prefs)
      ensures currentSortType == PreferenceManager.GetSortPreferenceWithDefault(prefs, "artists")
      ensures artistList == [] && filteredArtistList == [] && currentQuery == "" && isFirstLoad
    {
      artistList := [];
      filteredArtistList := [];
      currentSortType := PreferenceManager.GetSortPreferenceWithDefault(prefs, "artists");
      currentQuery := "";
      isFirstLoad := true;
    }

    method FilterArtistList()
      modifies this`filteredArtistList
      ensures filteredArtistList == FilterArtists(artistList, currentQuery)
    {
      filteredArtistList := FilterArtists(artistList, currentQuery);
    }

    method ApplyCurrentSort()
      modifies this`artistList, this`filteredArtistList
      ensures artistList == SortArtists(old(artistList), currentSortType)
      ensures filteredArtistList == FilterArtists(artistList, currentQuery)
    {
      artistList := SortArtists(artistList, currentSortType);
      FilterArtistList();
    }

    /** `loadArtists` / `loadArtistsPreserveState`: group the catalogue, sort, filter. */
    method LoadArtists(catalogue: seq<Song>)
      modifies this`artistList, this`filteredArtistList
      ensures artistList == SortArtists(Artists(catalogue), currentSortType)
      ensures filteredArtistList == FilterArtists(artistList, currentQuery)
    {
      artistList := GroupArtists(catalogue);
      ApplyCurrentSort();
    }

    /** The search broadcast: new query, re-filter. */
    method OnSearchQuery(query: Option<string>)
      modifies this`currentQuery, this`filteredArtistList
      ensures currentQuery == query.OrElse("")
      ensures filteredArtistList == FilterArtists(artistList, currentQuery)
    {
      currentQuery := query.OrElse("");
      FilterArtistList();
    }

    /** The sort broadcast: a different sort type is adopted, saved under "artists" and reloaded; the ordinal must name a sort type. */
    method OnSortBroadcast(sortTypeOrdinal: int, catalogue: seq<Song>, store: PreferenceManager.Store)
      requires 0 <= sortTypeOrdinal < SORT_TYPE_COUNT
      modifies this`currentSortType, this`artistList, this`filteredArtistList, store`prefs
      ensures var newSortType := FromOrdinal(sortTypeOrdinal);
              if newSortType != old(currentSortType) then
                currentSortType == newSortType &&
                store.prefs == PreferenceManager.WithSortSaved(old(store.prefs), "artists", newSortType) &&
                artistList == SortArtists(Artists(catalogue), newSortType) &&
                filteredArtistList == FilterArtists(artistList, currentQuery)
              else
                currentSortType == old(currentSortType) && store.prefs == old(store.prefs) &&
                artistList == old(artistList) && filteredArtistList == old(filteredArtistList)
    {
      var newSortType := FromOrdinal(sortTypeOrdinal);
      if newSortType != currentSortType {
        currentSortType := newSortType;
        store.SaveSortPreference("artists", currentSortType);
        LoadArtists(catalogue);
      }
    }

    /** The refresh broadcast: reload. */
    method OnForceRefresh(catalogue: seq<Song>)
      modifies this`artistList, this`filteredArtistList
      ensures artistList == SortArtists(Artists(catalogue), currentSortType)
      ensures filteredArtistList == FilterArtists(artistList, currentQuery)
    {
      LoadArtists(catalogue);
    }

    /** `onResume`: adopt a changed saved sort and reload; else reload after the first load; else just mark the first load done. */
    method OnResume(catalogue: seq<Song>, prefs: PreferenceManager.Prefs)
      modifies this`currentSortType, this`artistList, this`filteredArtistList, this`isFirstLoad
      ensures var saved := PreferenceManager.GetSortPreferenceWithDefault(prefs, "artists");
              if saved != old(currentSortType) then
                currentSortType == saved && isFirstLoad == old(isFirstLoad) &&
                artistList == SortArtists(Artists(catalogue), saved) && filteredArtistList == FilterArtists(artistList, currentQuery)
              else if !old(isFirstLoad) then
                currentSortType == old(currentSortType) && !isFirstLoad &&
                artistList == SortArtists(Artists(catalogue), currentSortType) &&
                filteredArtistList == FilterArtists(artistList, currentQuery)
              else
                currentSortType == old(currentSortType) && !isFirstLoad &&
                artistList == old(artistList) && filteredArtistList == old(filteredArtistList)
    {
      var savedSortType := PreferenceManager.GetSortPreferenceWithDefault(prefs, "artists");
      if savedSortType != currentSortType {
        currentSortType := savedSortType;
        LoadArtists(catalogue);
      } else if !isFirstLoad {
        LoadArtists(catalogue);
      } else {
        isFirstLoad := false;
      }
    }
  }
}
