/**
 * The genres screen: the catalogue grouped by release year (the year stands in for the genre
 * tag), sorted by name and filtered by the search query.
 */
module GenresFragment {
  import opened Wrappers
  import opened Seqs
  import opened Text
  import opened Ordering
  import opened Media
  import opened Grouping
  import PreferenceManager

  /** The grouping key: the year, "Unknown" when missing. */
  function GenreName(s: Song): string { s.year.OrElse("Unknown") }

  /** The genre built for a group: the song count its size. */
  function GenreOf(name: string, members: seq<Song>): Genre
    requires members != []
  {
    Genre(name, |members|, members)
  }

  /** The genres in order of first appearance in the catalogue. */
  function Genres(songs: seq<Song>): (r: seq<Genre>)
    ensures |r| == |GroupKeys(songs, GenreName)|
    ensures forall j :: 0 <= j < |r| ==> r[j].name == GroupKeys(songs, GenreName)[j] &&
                                           r[j].songs == Members(songs, GenreName, r[j].name)
  {
    var ks := GroupKeys(songs, GenreName);
    seq(|ks|, j requires 0 <= j < |ks| =>
      MembersOfKey(songs, GenreName, j);
      GenreOf(ks[j], Members(songs, GenreName, ks[j])))
  }

  /** Genre names are pairwise distinct. */
  lemma GenreNamesDistinct(songs: seq<Song>, i: int, j: int)
    requires 0 <= i < j < |Genres(songs)|
    ensures Genres(songs)[i].name != Genres(songs)[j].name
  {
    GroupKeysDistinct(songs, GenreName);
    NoDupIndex(GroupKeys(songs, GenreName), i, j);
  }

  function GenreSongCount(a: Genre): int { a.songCount }

  /** Every genre counts its own songs, every song is in the genre of its name only, and the counts add up to the catalogue size. */
  lemma GenreCounts(songs: seq<Song>)
    ensures forall j :: 0 <= j < |Genres(songs)| ==> Genres(songs)[j].songCount == |Genres(songs)[j].songs|
    ensures forall i, j :: 0 <= i < |songs| && 0 <= j < |Genres(songs)| ==>
              (songs[i] in Genres(songs)[j].songs <==> GenreName(songs[i]) == Genres(songs)[j].name)
    ensures SumOf(Genres(songs), GenreSongCount) == |songs|
  {
    var genres := Genres(songs);
    var ks := GroupKeys(songs, GenreName);
    forall j | 0 <= j < |genres| ensures genres[j].songCount == |genres[j].songs| {
      MembersOfKey(songs, GenreName, j);
    }
    SumOfCounts(genres, GenreSongCount, songs, GenreName, ks);
    GroupSizes(songs, GenreName);
  }

  /** The `getOrPut` default for a song with a new name: no songs, count 0. */
  function NewGenre(s: Song): Genre {
    Genre(GenreName(s), 0, [])
  }

  /** `genre.songs.add(song)`; the count is left for the second pass. */
  function AddSong(a: Genre, s: Song): Genre {
    a.(songs := a.songs + [s])
  }

  /** The genre a song's name maps to once the song is added: a new genre when the name is unseen. */
  function GenreWith(genreMap: map<string, Genre>, s: Song): Genre {
    AddSong(if GenreName(s) in genreMap then genreMap[GenreName(s)] else NewGenre(s), s)
  }

  /** The `genreMap` the grouping loop has built after a catalogue prefix. */
  function GenreIndex(songs: seq<Song>): map<string, Genre>
    decreases |songs|
  {
    if songs == [] then map[]
    else
      var m := GenreIndex(songs[..|songs| - 1]);
      var last := songs[|songs| - 1];
      m[GenreName(last) := GenreWith(m, last)]
  }

  /** The map holds exactly the genre names that occur. */
  lemma {:induction false} GenreIndexDomain(songs: seq<Song>, k: string)
    ensures k in GenreIndex(songs) <==> Members(songs, GenreName, k) != []
    decreases |songs|
  {
    if songs != [] {
      var init, last := songs[..|songs| - 1], songs[|songs| - 1];
      assert songs == init + [last];
      GenreIndexDomain(init, k);
      MembersSnoc(init, last, GenreName, k);
    }
  }

  /** Each genre in the map holds its members, its count not yet set. */
  lemma {:induction false} GenreIndexValue(songs: seq<Song>, k: string)
    requires Members(songs, GenreName, k) != []
    ensures k in GenreIndex(songs) && GenreIndex(songs)[k] == Genre(k, 0, Members(songs, GenreName, k))
    decreases |songs|
  {
    GenreIndexDomain(songs, k);
    var init, last := songs[..|songs| - 1], songs[|songs| - 1];
    assert songs == init + [last];
    MembersSnoc(init, last, GenreName, k);
    if Members(init, GenreName, k) != [] {
      GenreIndexValue(init, k);
    } else {
      GenreIndexDomain(init, k);
    }
  }

  /** One more song: the keys grow exactly when its genre name is new, and the map takes the updated genre. */
  lemma GenreIndexNext(songs: seq<Song>, i: int)
    requires 0 <= i < |songs|
    ensures var n, m := GenreName(songs[i]), GenreIndex(songs[..i]);
            && GenreIndex(songs[..i + 1]) == m[n := GenreWith(m, songs[i])]
            && GroupKeys(songs[..i + 1], GenreName) ==
               if n in m then GroupKeys(songs[..i], GenreName) else GroupKeys(songs[..i], GenreName) + [n]
  {
    var n, prefix := GenreName(songs[i]), songs[..i];
    assert GenreIndex(songs[..i + 1]) == GenreIndex(prefix)[n := GenreWith(GenreIndex(prefix), songs[i])] by {
      TakeSnoc(songs, i);
      assert songs[..i + 1][..i] == prefix;
    }
    assert GroupKeys(songs[..i + 1], GenreName) ==
           if n in GenreIndex(prefix) then GroupKeys(prefix, GenreName) else GroupKeys(prefix, GenreName) + [n] by {
      GroupKeysNext(songs, GenreName, i);
      GenreIndexDomain(prefix, n);
    }
  }

  /** Listing the map's genres in key order gives the genres of the catalogue, their counts still 0. */
  lemma GenreIndexValues(songs: seq<Song>)
    ensures forall j :: 0 <= j < |GroupKeys(songs, GenreName)| ==> GroupKeys(songs, GenreName)[j] in GenreIndex(songs)
    ensures var vs := ValuesInOrder(GroupKeys(songs, GenreName), GenreIndex(songs));
            |vs| == |Genres(songs)| && forall j :: 0 <= j < |vs| ==> vs[j] == Genres(songs)[j].(songCount := 0)
  {
    var keys := GroupKeys(songs, GenreName);
    forall j | 0 <= j < |keys|
      ensures keys[j] in GenreIndex(songs) && GenreIndex(songs)[keys[j]] == Genres(songs)[j].(songCount := 0)
    {
      MembersOfKey(songs, GenreName, j);
      GenreIndexValue(songs, keys[j]);
    }
  }

  /** `genreMap.values.forEach { it.songCount = it.songs.size }`. */
  method CountSongs(genres: seq<Genre>) returns (r: seq<Genre>)
    ensures |r| == |genres|
    ensures forall j :: 0 <= j < |r| ==> r[j].name == genres[j].name && r[j].songs == genres[j].songs
    ensures forall j :: 0 <= j < |r| ==> r[j].songCount == |r[j].songs|
  {
    r := genres;
    for j := 0 to |r|
      invariant |r| == |genres|
      invariant forall q :: 0 <= q < |r| ==> r[q].name == genres[q].name && r[q].songs == genres[q].songs
      invariant forall q :: 0 <= q < j ==> r[q].songCount == |r[q].songs|
    {
      r := r[j := r[j].(songCount := |r[j].songs|)];
    }
  }

  /** What one fetch yields: the genres of the catalogue while attached, else none. */
  function FetchedGenres(songs: seq<Song>, isAdded: bool): (r: seq<Genre>)
    ensures !isAdded ==> r == []
    ensures forall j :: 0 <= j < |r| ==> r[j].songCount == |r[j].songs|
    ensures isAdded ==> SumOf(r, GenreSongCount) == |songs|
  {
    GenreCounts(songs);
    if isAdded then Genres(songs) else []
  }

  /**
   * `fetchAndGroupSongs`: nothing when the screen is no longer attached; else `forEach` over the
   * catalogue into an insertion-ordered map (`getOrPut`, then add), a pass setting each count,
   * and the values.
   */
  method GroupGenres(songs: seq<Song>, isAdded: bool) returns (genres: seq<Genre>)
    ensures genres == FetchedGenres(songs, isAdded)
  {
    if !isAdded {
      return [];
    }
    var keys: seq<string> := [];
    var genreMap: map<string, Genre> := map[];
    for i := 0 to |songs|
      invariant keys == GroupKeys(songs[..i], GenreName)
      invariant genreMap == GenreIndex(songs[..i])
    {
      GenreIndexNext(songs, i);
      var song := songs[i];
      var genreName := GenreName(song);
      var genre := GenreWith(genreMap, song);
      if genreName !in genreMap {
        keys := keys + [genreName];
      }
      genreMap := genreMap[genreName := genre];
    }
    assert songs[..|songs|] == songs;
    GenreIndexValues(songs);
    var values := ValuesInOrder(keys, genreMap);
    genres := CountSongs(values);
    CountedAreGenres(songs, values, genres);
  }

  /** Setting the counts on the grouped values gives the genres of the catalogue. */
  lemma CountedAreGenres(songs: seq<Song>, values: seq<Genre>, counted: seq<Genre>)
    requires |values| == |Genres(songs)|
    requires forall j :: 0 <= j < |values| ==> values[j] == Genres(songs)[j].(songCount := 0)
    requires |counted| == |values|
    requires forall j :: 0 <= j < |counted| ==> counted[j].name == values[j].name && counted[j].songs == values[j].songs
    requires forall j :: 0 <= j < |counted| ==> counted[j].songCount == |counted[j].songs|
    ensures counted == Genres(songs)
  {
    var genres := Genres(songs);
    forall j | 0 <= j < |counted| ensures counted[j] == genres[j] {
      MembersOfKey(songs, GenreName, j);
    }
  }

  function GenreNameKey(a: Genre): Key { StrKey(Lower(a.name)) }

  /** `applyCurrentSort`: by lower-cased name, descending only for NAME_DESC; every other type sorts ascending. */
  function SortGenres(genres: seq<Genre>, t: SortType): (r: seq<Genre>)
    ensures multiset(r) == multiset(genres) && |r| == |genres|
    ensures t == NameDesc ==> forall i, j :: 0 <= i < j < |r| ==> !StrLt(Lower(r[i].name), Lower(r[j].name))
    ensures t != NameDesc ==> forall i, j :: 0 <= i < j < |r| ==> !StrLt(Lower(r[j].name), Lower(r[i].name))
  {
    var desc := t == NameDesc;
    var r := SortBy(genres, GenreNameKey, desc);
    SortBySorted(genres, GenreNameKey, desc);
    assert forall i, j :: 0 <= i < j < |r| ==> !Before(GenreNameKey(r[j]), GenreNameKey(r[i]), desc);
    r
  }

  /**
   * The sort is stable: genres whose names differ only in case tie on the lower-cased key and
   * keep the order they had before sorting.
   */
  lemma SortGenresStable(genres: seq<Genre>, t: SortType, k: Key)
    ensures WithKey(SortGenres(genres, t), GenreNameKey, k) == WithKey(genres, GenreNameKey, k)
  {
    SortByStable(genres, GenreNameKey, t == NameDesc, k);
  }

  predicate GenreMatches(a: Genre, query: string) {
    ContainsIgnoreCase(a.name, query)
  }

  function GenreMatchesQuery(query: string): Genre -> bool {
    a => GenreMatches(a, query)
  }

  /** `filterGenres`: all for a blank query, else exactly the genres whose name contains it. */
  function FilterGenres(genres: seq<Genre>, query: string): (r: seq<Genre>)
    ensures IsBlank(query) ==> r == genres
    ensures !IsBlank(query) ==> forall i :: 0 <= i < |r| ==> r[i] in genres && GenreMatches(r[i], query)
    ensures !IsBlank(query) ==> forall i :: 0 <= i < |genres| && GenreMatches(genres[i], query) ==> genres[i] in r
  {
    if IsBlank(query) then genres else Filter(genres, GenreMatchesQuery(query))
  }

  class GenresFragment {
    var genreList: seq<Genre>
    var filteredGenreList: seq<Genre>
    var currentSortType: SortType
    var currentQuery: string
    var isFirstLoad: bool

    /** `onCreate`: the sort type comes from the saved preference. */
    constructor (prefs: PreferenceManager.Prefs)
      ensures currentSortType == PreferenceManager.GetSortPreferenceWithDefault(prefs, "genres")
      ensures genreList == [] && filteredGenreList == [] && currentQuery == "" && isFirstLoad
    {
      genreList := [];
      filteredGenreList := [];
      currentSortType := PreferenceManager.GetSortPreferenceWithDefault(prefs, "genres");
      currentQuery := "";
      isFirstLoad := true;
    }

    method FilterGenreList()
      modifies this`filteredGenreList
      ensures filteredGenreList == FilterGenres(genreList, currentQuery)
    {
      filteredGenreList := FilterGenres(genreList, currentQuery);
    }

    method ApplyCurrentSort()
      modifies this`genreList, this`filteredGenreList
      ensures genreList == SortGenres(old(genreList), currentSortType)
      ensures filteredGenreList == FilterGenres(genreList, currentQuery)
    {
      genreList := SortGenres(genreList, currentSortType);
      FilterGenreList();
    }

    /** `loadGenres` / `loadGenresPreserveState`: group the catalogue, sort, filter. */
    method LoadGenres(catalogue: seq<Song>, isAdded: bool)
      modifies this`genreList, this`filteredGenreList
      ensures genreList == SortGenres(FetchedGenres(catalogue, isAdded), currentSortType)
      ensures filteredGenreList == FilterGenres(genreList, currentQuery)
    {
      genreList := GroupGenres(catalogue, isAdded);
      ApplyCurrentSort();
    }

    /** The search broadcast: new query, re-filter. */
    method OnSearchQuery(query: Option<string>)
      modifies this`currentQuery, this`filteredGenreList
      ensures currentQuery == query.OrElse("")
      ensures filteredGenreList == FilterGenres(genreList, currentQuery)
    {
      currentQuery := query.OrElse("");
      FilterGenreList();
    }

    /** The sort broadcast: a different sort type is adopted, saved under "genres" and reloaded; the ordinal must name a sort type. */
    method OnSortBroadcast(sortTypeOrdinal: int, catalogue: seq<Song>, isAdded: bool, store: PreferenceManager.Store)
      requires 0 <= sortTypeOrdinal < SORT_TYPE_COUNT
      modifies this`currentSortType, this`genreList, this`filteredGenreList, store`prefs
      ensures var newSortType := FromOrdinal(sortTypeOrdinal);
              if newSortType != old(currentSortType) then
                currentSortType == newSortType &&
                store.prefs == PreferenceManager.WithSortSaved(old(store.prefs), "genres", newSortType) &&
                genreList == SortGenres(FetchedGenres(catalogue, isAdded), newSortType) &&
                filteredGenreList == FilterGenres(genreList, currentQuery)
              else
                currentSortType == old(currentSortType) && store.prefs == old(store.prefs) &&
                genreList == old(genreList) && filteredGenreList == old(filteredGenreList)
    {
      var newSortType := FromOrdinal(sortTypeOrdinal);
      if newSortType != currentSortType {
        currentSortType := newSortType;
        store.SaveSortPreference("genres", currentSortType);
        LoadGenres(catalogue, isAdded);
      }
    }

    /** The refresh broadcast: reload. */
    method OnForceRefresh(catalogue: seq<Song>, isAdded: bool)
      modifies this`genreList, this`filteredGenreList
      ensures genreList == SortGenres(FetchedGenres(catalogue, isAdded), currentSortType)
      ensures filteredGenreList == FilterGenres(genreList, currentQuery)
    {
      LoadGenres(catalogue, isAdded);
    }

    /** `onResume`: adopt a changed saved sort and reload; else reload after the first load; else just mark the first load done. */
    method OnResume(catalogue: seq<Song>, isAdded: bool, prefs: PreferenceManager.Prefs)
      modifies this`currentSortType, this`genreList, this`filteredGenreList, this`isFirstLoad
      ensures var saved := PreferenceManager.GetSortPreferenceWithDefault(prefs, "genres");
              if saved != old(currentSortType) then
                currentSortType == saved && isFirstLoad == old(isFirstLoad) &&
                genreList == SortGenres(FetchedGenres(catalogue, isAdded), saved) && filteredGenreList == FilterGenres(genreList, currentQuery)
              else if !old(isFirstLoad) then
                currentSortType == old(currentSortType) && !isFirstLoad &&
                genreList == SortGenres(FetchedGenres(catalogue, isAdded), currentSortType) &&
                filteredGenreList == FilterGenres(genreList, currentQuery)
              else
                currentSortType == old(currentSortType) && !isFirstLoad &&
                genreList == old(genreList) && filteredGenreList == old(filteredGenreList)
    {
      var savedSortType := PreferenceManager.GetSortPreferenceWithDefault(prefs, "genres");
      if savedSortType != currentSortType {
        currentSortType := savedSortType;
        LoadGenres(catalogue, isAdded);
      } else if !isFirstLoad {
        LoadGenres(catalogue, isAdded);
      } else {
        isFirstLoad := false;
      }
    }

    /** `openGenreSongs`: the genre at a position of the shown list, nothing when the position is out of range. */
    method OpenGenreSongs(position: int) returns (r: Option<Genre>)
      ensures 0 <= position < |filteredGenreList| ==> r == Some(filteredGenreList[position])
      ensures !(0 <= position < |filteredGenreList|) ==> r == None
    {
      if position < 0 || position >= |filteredGenreList| {
        return None;
      }
      r := Some(filteredGenreList[position]);
    }
  }
}
