/**
 * The recently played screen: the catalogue songs whose id is in the stored recent list,
 * most recent first, its four sort choices, playing, shuffling and removing an entry.
 */
module RecentFragment {
  import opened Seqs
  import opened Text
  import opened Ordering
  import opened Codec
  import opened Media
  import opened SongsFragment
  import PreferenceManager

  /** `recentSongIds.indexOf(song.id)` as a sort selector. */
  function RecencyKey(recentIds: seq<Long>): Song -> Key {
    (s: Song) => IntKey(IndexOf(recentIds, s.id))
  }

  /** The membership facts of a list that holds the same songs as `Filter(catalogue, IdIn(ids))`. */
  lemma SameSongsAsFilter(r: seq<Song>, catalogue: seq<Song>, ids: seq<Long>)
    requires multiset(r) == multiset(Filter(catalogue, IdIn(ids)))
    ensures forall s :: s in r <==> s in catalogue && s.id in ids
  {
    var f := Filter(catalogue, IdIn(ids));
    forall s ensures s in r <==> s in catalogue && s.id in ids {
      assert s in r <==> s in multiset(r);
      assert s in f <==> s in multiset(f);
      if s in catalogue && s.id in ids {
        var i :| 0 <= i < |catalogue| && catalogue[i] == s;
        assert IdIn(ids)(catalogue[i]);
      }
      if s in f {
        var i :| 0 <= i < |f| && f[i] == s;
        assert IdIn(ids)(f[i]);
      }
    }
  }

  /** A list sorted on `RecencyKey` has the positions of its ids in the recent list non-decreasing. */
  lemma RecencyOrdered(r: seq<Song>, recentIds: seq<Long>)
    requires SortedBy(r, RecencyKey(recentIds), false)
    ensures forall i, j :: 0 <= i < j < |r| ==> IndexOf(recentIds, r[i].id) <= IndexOf(recentIds, r[j].id)
  {
    forall i, j | 0 <= i < j < |r| ensures IndexOf(recentIds, r[i].id) <= IndexOf(recentIds, r[j].id) {
      assert !Before(RecencyKey(recentIds)(r[j]), RecencyKey(recentIds)(r[i]), false);
    }
  }

  /** The same list reversed has them non-increasing. */
  lemma RecencyReversed(r: seq<Song>, recentIds: seq<Long>)
    requires SortedBy(r, RecencyKey(recentIds), true)
    ensures forall i, j :: 0 <= i < j < |r| ==> IndexOf(recentIds, r[i].id) >= IndexOf(recentIds, r[j].id)
  {
    forall i, j | 0 <= i < j < |r| ensures IndexOf(recentIds, r[i].id) >= IndexOf(recentIds, r[j].id) {
      assert !Before(RecencyKey(recentIds)(r[j]), RecencyKey(recentIds)(r[i]), true);
    }
  }

  /** A list sorted on the raw title, in either direction, as `StrLt` orders titles. */
  lemma TitleOrdered(r: seq<Song>, desc: bool)
    requires SortedBy(r, RawTitleKey, desc)
    ensures !desc ==> forall i, j :: 0 <= i < j < |r| ==> !StrLt(r[j].title, r[i].title)
    ensures desc ==> forall i, j :: 0 <= i < j < |r| ==> !StrLt(r[i].title, r[j].title)
  {
    forall i, j | 0 <= i < j < |r| ensures !Before(RawTitleKey(r[j]), RawTitleKey(r[i]), desc) {
    }
  }

  /**
   * `loadRecentSongs`: the catalogue songs whose id is in the recent list (ids the catalogue
   * does not know are dropped), ordered by the position of their id in that list.
   */
  function LoadedRecent(catalogue: seq<Song>, recentIds: seq<Long>): (r: seq<Song>)
    ensures multiset(r) == multiset(Filter(catalogue, IdIn(recentIds)))
    ensures forall s :: s in r <==> s in catalogue && s.id in recentIds
    ensures forall i, j :: 0 <= i < j < |r| ==> IndexOf(recentIds, r[i].id) <= IndexOf(recentIds, r[j].id)
  {
    var f := Filter(catalogue, IdIn(recentIds));
    var r := SortBy(f, RecencyKey(recentIds), false);
    SortBySorted(f, RecencyKey(recentIds), false);
    RecencyOrdered(r, recentIds);
    SameSongsAsFilter(r, catalogue, recentIds);
    r
  }

  /** In a list ordered by recency whose ids are all recent, different ids are strictly ordered. */
  lemma StrictlyOrdered(r: seq<Song>, recentIds: seq<Long>)
    requires forall k :: 0 <= k < |r| ==> r[k].id in recentIds
    requires forall i, j :: 0 <= i < j < |r| ==> IndexOf(recentIds, r[i].id) <= IndexOf(recentIds, r[j].id)
    ensures forall i, j :: 0 <= i < j < |r| && r[i].id != r[j].id ==> IndexOf(recentIds, r[i].id) < IndexOf(recentIds, r[j].id)
  {
    forall i, j | 0 <= i < j < |r| && r[i].id != r[j].id ensures IndexOf(recentIds, r[i].id) < IndexOf(recentIds, r[j].id) {
      var ka, kb := IndexOf(recentIds, r[i].id), IndexOf(recentIds, r[j].id);
      assert recentIds[ka] == r[i].id && recentIds[kb] == r[j].id;
    }
  }

  /** Songs of different ids are shown strictly in the order their ids have in the recent list. */
  lemma LoadedRecentStrictOrder(catalogue: seq<Song>, recentIds: seq<Long>)
    ensures var r := LoadedRecent(catalogue, recentIds);
            forall i, j :: 0 <= i < j < |r| && r[i].id != r[j].id ==> IndexOf(recentIds, r[i].id) < IndexOf(recentIds, r[j].id)
  {
    var r := LoadedRecent(catalogue, recentIds);
    assert forall k :: 0 <= k < |r| ==> r[k] in r;
    StrictlyOrdered(r, recentIds);
  }

  /** `sortRecentByDate(descending)`: by position in the recent list, then reversed for "least recent". */
  function SortByRecency(songs: seq<Song>, recentIds: seq<Long>, descending: bool): (r: seq<Song>)
    ensures multiset(r) == multiset(songs)
    ensures descending ==> forall i, j :: 0 <= i < j < |r| ==> IndexOf(recentIds, r[i].id) <= IndexOf(recentIds, r[j].id)
    ensures !descending ==> forall i, j :: 0 <= i < j < |r| ==> IndexOf(recentIds, r[i].id) >= IndexOf(recentIds, r[j].id)
  {
    var key := RecencyKey(recentIds);
    var s := SortBy(songs, key, false);
    SortBySorted(songs, key, false);
    if descending then
      RecencyOrdered(s, recentIds);
      s
    else
      ReverseSorted(s, key, false);
      ReverseMultiset(s);
      RecencyReversed(Reverse(s), recentIds);
      Reverse(s)
  }

  /**
   * On the list just loaded, "most recent" changes nothing (the sort is stable and the list is
   * already in that order), so "least recent" is exactly the loaded list reversed.
   */
  lemma RecencySortsOfLoaded(catalogue: seq<Song>, recentIds: seq<Long>)
    ensures SortByRecency(LoadedRecent(catalogue, recentIds), recentIds, true) == LoadedRecent(catalogue, recentIds)
    ensures SortByRecency(LoadedRecent(catalogue, recentIds), recentIds, false) == Reverse(LoadedRecent(catalogue, recentIds))
  {
    var loaded := LoadedRecent(catalogue, recentIds);
    var f := Filter(catalogue, IdIn(recentIds));
    SortBySorted(f, RecencyKey(recentIds), false);
    SortBySortedIdentity(loaded, RecencyKey(recentIds), false);
  }

  /** `sortRecentByName(ascending)`: by raw title (case-sensitive), then reversed for Z-A. */
  function SortByName(songs: seq<Song>, ascending: bool): (r: seq<Song>)
    ensures multiset(r) == multiset(songs)
    ensures ascending ==> forall i, j :: 0 <= i < j < |r| ==> !StrLt(r[j].title, r[i].title)
    ensures !ascending ==> forall i, j :: 0 <= i < j < |r| ==> !StrLt(r[i].title, r[j].title)
  {
    var s := SortBy(songs, RawTitleKey, false);
    SortBySorted(songs, RawTitleKey, false);
    if ascending then
      TitleOrdered(s, false);
      s
    else
      ReverseSorted(s, RawTitleKey, false);
      ReverseMultiset(s);
      TitleOrdered(Reverse(s), true);
      Reverse(s)
  }

  /**
   * Songs with the same title: A-Z keeps them in the order they were loaded, while Z-A, being
   * A-Z reversed, lists them in the reverse of that order (unlike `sortByDescending`, which
   * would keep it).
   */
  lemma NameSortTies(songs: seq<Song>, k: Key)
    ensures WithKey(SortByName(songs, true), RawTitleKey, k) == WithKey(songs, RawTitleKey, k)
    ensures WithKey(SortByName(songs, false), RawTitleKey, k) == Reverse(WithKey(songs, RawTitleKey, k))
  {
    var s := SortBy(songs, RawTitleKey, false);
    SortByStable(songs, RawTitleKey, false, k);
    WithKeyReverse(s, RawTitleKey, k);
  }

  /**
   * Removing an entry: after `removeRecentSong(id)` the reloaded list no longer shows a song
   * with that id and shows every other song it showed before. The stored list never repeats
   * an id (`addRecentSong` keeps it so), which is what makes dropping the first occurrence enough.
   */
  lemma DeleteHidesSong(p: PreferenceManager.Prefs, catalogue: seq<Song>, songId: Long)
    requires NoDup(PreferenceManager.GetRecentSongs(p))
    ensures var before := LoadedRecent(catalogue, PreferenceManager.GetRecentSongs(p));
            var after := LoadedRecent(catalogue, PreferenceManager.GetRecentSongs(PreferenceManager.WithRecentRemoved(p, songId)));
            forall s :: s in after <==> s in before && s.id != songId
  {
    var ids := PreferenceManager.GetRecentSongs(p);
    var rest := RemoveFirst(ids, songId);
    PreferenceManager.RecentStored(p, rest);
    assert PreferenceManager.GetRecentSongs(PreferenceManager.WithRecentRemoved(p, songId)) == rest;
    RemoveFirstNoDup(ids, songId);
    forall x ensures x in rest <==> x in ids && x != songId {
      assert x in rest <==> x in multiset(rest);
      assert x in ids <==> x in multiset(ids);
    }
    LoadedDrop(catalogue, ids, rest, songId);
  }

  /** Loading with the ids minus one id shows the same songs minus those with that id. */
  lemma LoadedDrop(catalogue: seq<Song>, ids: seq<Long>, rest: seq<Long>, songId: Long)
    requires forall x :: x in rest <==> x in ids && x != songId
    ensures forall s :: s in LoadedRecent(catalogue, rest) <==> s in LoadedRecent(catalogue, ids) && s.id != songId
  {
  }

  /** The screen's list of songs. */
  class RecentFragment {
    var recentSongs: seq<Song>

    constructor ()
      ensures recentSongs == []
    {
      recentSongs := [];
    }

    /** `loadRecentSongs`: clear and refill from the catalogue and the stored recent ids. */
    method LoadRecentSongs(catalogue: seq<Song>, prefs: PreferenceManager.Prefs)
      modifies this`recentSongs
      ensures recentSongs == LoadedRecent(catalogue, PreferenceManager.GetRecentSongs(prefs))
    {
      var recentSongIds := PreferenceManager.GetRecentSongs(prefs);
      recentSongs := LoadedRecent(catalogue, recentSongIds);
    }

    /** `playSong`: record the song as most recent and play the shown list from that position. */
    method PlaySong(position: int, store: PreferenceManager.Store) returns (call: ServiceCall)
      requires 0 <= position < |recentSongs|
      modifies store`prefs
      ensures store.prefs == PreferenceManager.WithRecentAdded(old(store.prefs), recentSongs[position].id)
      ensures call == StartPlayback(recentSongs, position)
    {
      var songToPlay := recentSongs[position];
      store.AddRecentSong(songToPlay.id);
      call := StartPlayback(recentSongs, position);
    }

    /**
     * `shuffleRecentSongs`: nothing when the list is empty; otherwise play a shuffled copy from
     * the top and switch shuffle on. `shuffled` is the permutation the random shuffle produced.
     */
    method ShuffleRecentSongs(shuffled: seq<Song>) returns (calls: seq<ServiceCall>)
      requires multiset(shuffled) == multiset(recentSongs)
      ensures recentSongs == [] ==> calls == []
      ensures recentSongs != [] ==> calls == [StartPlayback(shuffled, 0), ToggleShuffle]
    {
      if recentSongs != [] {
        calls := [StartPlayback(shuffled, 0), ToggleShuffle];
      } else {
        calls := [];
      }
    }

    /** `sortRecentByDate`: reads the recent ids again and reorders the shown list in place. */
    method SortRecentByDate(descending: bool, prefs: PreferenceManager.Prefs)
      modifies this`recentSongs
      ensures recentSongs == SortByRecency(old(recentSongs), PreferenceManager.GetRecentSongs(prefs), descending)
    {
      var recentSongIds := PreferenceManager.GetRecentSongs(prefs);
      recentSongs := SortBy(recentSongs, RecencyKey(recentSongIds), false);
      if !descending {
        recentSongs := Reverse(recentSongs);
      }
    }

    method SortRecentByName(ascending: bool)
      modifies this`recentSongs
      ensures recentSongs == SortByName(old(recentSongs), ascending)
    {
      recentSongs := SortBy(recentSongs, RawTitleKey, false);
      if !ascending {
        recentSongs := Reverse(recentSongs);
      }
    }

    /** The "delete" menu action: drop the song's id from the recent list and reload. */
    method DeleteSong(position: int, catalogue: seq<Song>, store: PreferenceManager.Store)
      requires 0 <= position < |recentSongs|
      modifies this`recentSongs, store`prefs
      ensures store.prefs == PreferenceManager.WithRecentRemoved(old(store.prefs), old(recentSongs)[position].id)
      ensures recentSongs == LoadedRecent(catalogue, PreferenceManager.GetRecentSongs(store.prefs))
    {
      var song := recentSongs[position];
      store.RemoveRecentSong(song.id);
      LoadRecentSongs(catalogue, store.prefs);
    }
  }
}
