/**
 * The favourites screen: the catalogue songs whose id is in the stored favourite set, newest
 * first, its name and date sorts, playing, shuffling and removing a favourite.
 */
module FavoritesFragment {
  import opened Seqs
  import opened Text
  import opened Ordering
  import opened Codec
  import opened Media
  import opened SongsFragment
  import RecentFragment
  import PreferenceManager

  /** A list sorted on `dateAdded`, in either direction, has the dates in that order. */
  lemma DateOrdered(r: seq<Song>, desc: bool)
    requires SortedBy(r, DateAddedKey, desc)
    ensures !desc ==> forall i, j :: 0 <= i < j < |r| ==> r[i].dateAdded <= r[j].dateAdded
    ensures desc ==> forall i, j :: 0 <= i < j < |r| ==> r[i].dateAdded >= r[j].dateAdded
  {
    forall i, j | 0 <= i < j < |r| ensures !Before(DateAddedKey(r[j]), DateAddedKey(r[i]), desc) {
    }
  }

  /**
   * `loadFavorites`: the catalogue songs whose id is a favourite (ids the catalogue does not
   * know are dropped), newest `dateAdded` first.
   */
  function LoadedFavorites(catalogue: seq<Song>, favoriteIds: seq<Long>): (r: seq<Song>)
    ensures multiset(r) == multiset(Filter(catalogue, IdIn(favoriteIds)))
    ensures forall s :: s in r <==> s in catalogue && s.id in favoriteIds
    ensures forall i, j :: 0 <= i < j < |r| ==> r[i].dateAdded >= r[j].dateAdded
  {
    var f := Filter(catalogue, IdIn(favoriteIds));
    var r := SortBy(f, DateAddedKey, true);
    SortBySorted(f, DateAddedKey, true);
    DateOrdered(r, true);
    RecentFragment.SameSongsAsFilter(r, catalogue, favoriteIds);
    r
  }

  /** Favourites added to the library at the same moment keep their catalogue order (`sortedByDescending` is stable). */
  lemma LoadedFavoritesTies(catalogue: seq<Song>, favoriteIds: seq<Long>, k: Key)
    ensures WithKey(LoadedFavorites(catalogue, favoriteIds), DateAddedKey, k) ==
            WithKey(Filter(catalogue, IdIn(favoriteIds)), DateAddedKey, k)
  {
    SortByStable(Filter(catalogue, IdIn(favoriteIds)), DateAddedKey, true, k);
  }

  /** `sortFavoritesByDate(descending)`: oldest first, then reversed for "newest first". */
  function SortByDate(songs: seq<Song>, descending: bool): (r: seq<Song>)
    ensures multiset(r) == multiset(songs)
    ensures !descending ==> forall i, j :: 0 <= i < j < |r| ==> r[i].dateAdded <= r[j].dateAdded
    ensures descending ==> forall i, j :: 0 <= i < j < |r| ==> r[i].dateAdded >= r[j].dateAdded
  {
    var s := SortBy(songs, DateAddedKey, false);
    SortBySorted(songs, DateAddedKey, false);
    if !descending then
      DateOrdered(s, false);
      s
    else
      ReverseSorted(s, DateAddedKey, false);
      ReverseMultiset(s);
      DateOrdered(Reverse(s), true);
      Reverse(s)
  }

  /** `song.isFavorite = false` on a song the catalogue holds: every catalogue entry that is that song has the flag cleared. */
  function WithFlagCleared(catalogue: seq<Song>, song: Song): (r: seq<Song>)
    ensures |r| == |catalogue|
    ensures forall i :: 0 <= i < |r| ==> r[i].id == catalogue[i].id
    ensures forall i :: 0 <= i < |r| && catalogue[i] == song ==> !r[i].isFavorite
    ensures forall i :: 0 <= i < |r| && catalogue[i] != song ==> r[i] == catalogue[i]
  {
    if catalogue == [] then []
    else [if catalogue[0] == song then song.(isFavorite := false) else catalogue[0]] + WithFlagCleared(catalogue[1..], song)
  }

  /** Once the song's id is no longer a favourite, the cleared flag does not change what the favourites screen loads. */
  lemma {:induction false} ClearedFlagNotLoaded(catalogue: seq<Song>, song: Song, favoriteIds: seq<Long>)
    requires song.id !in favoriteIds
    ensures LoadedFavorites(WithFlagCleared(catalogue, song), favoriteIds) == LoadedFavorites(catalogue, favoriteIds)
  {
    ClearedFlagFiltered(catalogue, song, favoriteIds);
  }

  lemma {:induction false} ClearedFlagFiltered(catalogue: seq<Song>, song: Song, favoriteIds: seq<Long>)
    requires song.id !in favoriteIds
    ensures Filter(WithFlagCleared(catalogue, song), IdIn(favoriteIds)) == Filter(catalogue, IdIn(favoriteIds))
  {
    if catalogue != [] {
      var r := WithFlagCleared(catalogue, song);
      ClearedFlagFiltered(catalogue[1..], song, favoriteIds);
      assert r[1..] == WithFlagCleared(catalogue[1..], song);
      assert IdIn(favoriteIds)(r[0]) == IdIn(favoriteIds)(catalogue[0]);
      if catalogue[0] == song {
        assert !IdIn(favoriteIds)(catalogue[0]);
      } else {
        assert r[0] == catalogue[0];
      }
    }
  }

  /**
   * Removing a favourite: after `removeFavorite(id)` the reloaded list no longer shows a song
   * with that id, and shows every other song it showed before.
   */
  lemma DeleteHidesSong(p: PreferenceManager.Prefs, catalogue: seq<Song>, songId: Long)
    ensures var before := LoadedFavorites(catalogue, PreferenceManager.GetFavorites(p));
            var after := LoadedFavorites(catalogue, PreferenceManager.GetFavorites(PreferenceManager.WithFavoriteRemoved(p, songId)));
            forall s :: s in after <==> s in before && s.id != songId
  {
    var ids := PreferenceManager.GetFavorites(p);
    var rest := PreferenceManager.GetFavorites(PreferenceManager.WithFavoriteRemoved(p, songId));
    PreferenceManager.RemoveFavoriteDifference(p, songId);
    assert forall x :: x in rest <==> x in ids && x != songId by {
      forall x ensures x in rest <==> x in ids && x != songId {
        assert PreferenceManager.IsFavorite(PreferenceManager.WithFavoriteRemoved(p, songId), x) <==> PreferenceManager.IsFavorite(p, x) && x != songId;
      }
    }
    var before := LoadedFavorites(catalogue, ids);
    var after := LoadedFavorites(catalogue, rest);
    assert forall s :: s in after <==> s in catalogue && s.id in rest;
    assert forall s :: s in before <==> s in catalogue && s.id in ids;
  }

  /** The screen's list of songs. */
  class FavoritesFragment {
    var favoriteSongs: seq<Song>

    constructor ()
      ensures favoriteSongs == []
    {
      favoriteSongs := [];
    }

    /** `loadFavorites`: clear and refill from the catalogue and the stored favourites. */
    method LoadFavorites(catalogue: seq<Song>, prefs: PreferenceManager.Prefs)
      modifies this`favoriteSongs
      ensures favoriteSongs == LoadedFavorites(catalogue, PreferenceManager.GetFavorites(prefs))
    {
      var favoriteIds := PreferenceManager.GetFavorites(prefs);
      favoriteSongs := LoadedFavorites(catalogue, favoriteIds);
    }

    /** `playSong`: record the song as most recent and play the shown list from that position. */
    method PlaySong(position: int, store: PreferenceManager.Store) returns (call: ServiceCall)
      requires 0 <= position < |favoriteSongs|
      modifies store`prefs
      ensures store.prefs == PreferenceManager.WithRecentAdded(old(store.prefs), favoriteSongs[position].id)
      ensures call == StartPlayback(favoriteSongs, position)
    {
      var songToPlay := favoriteSongs[position];
      store.AddRecentSong(songToPlay.id);
      call := StartPlayback(favoriteSongs, position);
    }

    /** `shuffleFavorites`: nothing for an empty list; otherwise play a shuffled copy from the top and switch shuffle on. */
    method ShuffleFavorites(shuffled: seq<Song>) returns (calls: seq<ServiceCall>)
      requires multiset(shuffled) == multiset(favoriteSongs)
      ensures favoriteSongs == [] ==> calls == []
      ensures favoriteSongs != [] ==> calls == [StartPlayback(shuffled, 0), ToggleShuffle]
    {
      if favoriteSongs != [] {
        calls := [StartPlayback(shuffled, 0), ToggleShuffle];
      } else {
        calls := [];
      }
    }

    /** `sortFavoritesByName`: the same title sort as the recent screen's. */
    method SortFavoritesByName(ascending: bool)
      modifies this`favoriteSongs
      ensures favoriteSongs == RecentFragment.SortByName(old(favoriteSongs), ascending)
    {
      favoriteSongs := SortBy(favoriteSongs, RawTitleKey, false);
      if !ascending {
        favoriteSongs := Reverse(favoriteSongs);
      }
    }

    method SortFavoritesByDate(descending: bool)
      modifies this`favoriteSongs
      ensures favoriteSongs == SortByDate(old(favoriteSongs), descending)
    {
      favoriteSongs := SortBy(favoriteSongs, DateAddedKey, false);
      if descending {
        favoriteSongs := Reverse(favoriteSongs);
      }
    }

    /**
     * The "delete" menu action: clear the song's `isFavorite` flag (the song object is the
     * catalogue's own, so the catalogue sees the change), drop the id from the favourites and
     * reload from the catalogue.
     */
    method DeleteSong(position: int, catalogue: seq<Song>, store: PreferenceManager.Store) returns (catalogueAfter: seq<Song>)
      requires 0 <= position < |favoriteSongs|
      modifies this`favoriteSongs, store`prefs
      ensures catalogueAfter == WithFlagCleared(catalogue, old(favoriteSongs)[position])
      ensures store.prefs == PreferenceManager.WithFavoriteRemoved(old(store.prefs), old(favoriteSongs)[position].id)
      ensures favoriteSongs == LoadedFavorites(catalogueAfter, PreferenceManager.GetFavorites(store.prefs))
      ensures favoriteSongs == LoadedFavorites(catalogue, PreferenceManager.GetFavorites(store.prefs))
    {
      var song := favoriteSongs[position];
      catalogueAfter := WithFlagCleared(catalogue, song);
      store.RemoveFavorite(song.id);
      LoadFavorites(catalogueAfter, store.prefs);
      ghost var ids := PreferenceManager.GetFavorites(store.prefs);
      PreferenceManager.RemoveFavoriteDifference(old(store.prefs), song.id);
      assert !PreferenceManager.IsFavorite(store.prefs, song.id);
      ClearedFlagNotLoaded(catalogue, song, ids);
    }
  }
}
