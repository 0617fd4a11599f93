/**
 * The playlists screen: the stored playlists, newest first, and the dialogs that create,
 * rename, delete and fill them, with playing one playlist and shuffling all of them.
 */
module PlaylistsFragment {
  import opened Wrappers
  import opened Seqs
  import opened Text
  import opened Ordering
  import opened Codec
  import opened Media
  import PreferenceManager

  // ---------------------------------------------------------------- the list

  function CreatedAtKey(p: Playlist): Key { IntKey(p.createdAt) }

  /** `getPlaylists().sortedByDescending { it.createdAt }`: the stored playlists, newest first. */
  function LoadedPlaylists(stored: seq<Playlist>): (r: seq<Playlist>)
    ensures multiset(r) == multiset(stored)
    ensures forall i, j :: 0 <= i < j < |r| ==> r[i].createdAt >= r[j].createdAt
  {
    var r := SortBy(stored, CreatedAtKey, true);
    SortBySorted(stored, CreatedAtKey, true);
    assert forall i, j :: 0 <= i < j < |r| ==> !Before(CreatedAtKey(r[j]), CreatedAtKey(r[i]), true);
    r
  }

  /** Playlists created in the same millisecond keep their stored order. */
  lemma LoadedPlaylistsTies(stored: seq<Playlist>, k: Key)
    ensures WithKey(LoadedPlaylists(stored), CreatedAtKey, k) == WithKey(stored, CreatedAtKey, k)
  {
    SortByStable(stored, CreatedAtKey, true, k);
  }

  /** `getPlaylistSongs(playlist)`: the catalogue songs whose id the playlist holds, in catalogue order. */
  function GetPlaylistSongs(catalogue: seq<Song>, playlist: Playlist): (r: seq<Song>)
    ensures forall s :: s in r <==> s in catalogue && s.id in playlist.songIds
    ensures multiset(r) <= multiset(catalogue)
    ensures IsSubsequence(r, catalogue)
  {
    var r := Filter(catalogue, IdIn(playlist.songIds));
    assert forall s :: s in r ==> IdIn(playlist.songIds)(s);
    FilterSubsequence(catalogue, IdIn(playlist.songIds));
    r
  }

  /**
   * The order of a playlist's ids and their repetitions play no part: two playlists holding
   * the same ids give the same songs.
   */
  lemma {:induction false} PlaylistOrderIgnored(catalogue: seq<Song>, a: Playlist, b: Playlist)
    requires forall x :: x in a.songIds <==> x in b.songIds
    ensures GetPlaylistSongs(catalogue, a) == GetPlaylistSongs(catalogue, b)
  {
    if catalogue != [] {
      PlaylistOrderIgnored(catalogue[1..], a, b);
    }
  }

  /** The songs of every playlist in turn, as the shuffle-all card gathers them. */
  function AllPlaylistSongs(catalogue: seq<Song>, playlists: seq<Playlist>): (r: seq<Song>)
    ensures forall s :: s in r <==> s in catalogue && exists i :: 0 <= i < |playlists| && s.id in playlists[i].songIds
    decreases |playlists|
  {
    if playlists == [] then []
    else
      var init := playlists[..|playlists| - 1];
      var last := playlists[|playlists| - 1];
      var r := AllPlaylistSongs(catalogue, init) + GetPlaylistSongs(catalogue, last);
      assert forall s :: s in r <==> s in catalogue && exists i :: 0 <= i < |playlists| && s.id in playlists[i].songIds by {
        forall s ensures s in r <==> s in catalogue && exists i :: 0 <= i < |playlists| && s.id in playlists[i].songIds {
          if s in catalogue && exists i :: 0 <= i < |playlists| && s.id in playlists[i].songIds {
            var i :| 0 <= i < |playlists| && s.id in playlists[i].songIds;
            if i < |playlists| - 1 {
              assert s.id in init[i].songIds;
            }
          }
          if s in AllPlaylistSongs(catalogue, init) {
            var i :| 0 <= i < |init| && s.id in init[i].songIds;
            assert s.id in playlists[i].songIds;
          }
          if s in GetPlaylistSongs(catalogue, last) {
            assert s.id in playlists[|playlists| - 1].songIds;
          }
        }
      }
      r
  }

  /** Gathering one playlist further appends that playlist's songs. */
  lemma AllPlaylistSongsSnoc(catalogue: seq<Song>, playlists: seq<Playlist>, i: int)
    requires 0 <= i < |playlists|
    ensures AllPlaylistSongs(catalogue, playlists[..i + 1]) ==
            AllPlaylistSongs(catalogue, playlists[..i]) + GetPlaylistSongs(catalogue, playlists[i])
  {
    assert playlists[..i + 1][..i] == playlists[..i];
  }

  /** A song in two playlists is queued twice by the shuffle-all card. */
  lemma SharedSongQueuedTwice(s: Song, a: Playlist, b: Playlist)
    requires s.id in a.songIds && s.id in b.songIds
    ensures AllPlaylistSongs([s], [a, b]) == [s, s]
  {
    assert [a, b][..1] == [a];
    assert [a][..0] == [];
    assert Filter([s], IdIn(a.songIds)) == [s] by {
      assert IdIn(a.songIds)(s);
      assert [s][1..] == [];
    }
    assert Filter([s], IdIn(b.songIds)) == [s] by {
      assert IdIn(b.songIds)(s);
      assert [s][1..] == [];
    }
    assert AllPlaylistSongs([s], [a]) == [s];
  }

  // ---------------------------------------------------------------- names

  /** What the name dialogs decide: the trimmed name, or the error they show. */
  datatype NameCheck = Accepted(name: string) | EmptyName | NameTaken

  /** Whether `other` blocks `name`: it is not the playlist being renamed and has that name ignoring case. */
  predicate Blocks(other: Playlist, name: string, renaming: Option<Playlist>) {
    (renaming.None? || other != renaming.value) && EqualsIgnoreCase(other.name, name)
  }

  /**
   * The checks of the create and rename dialogs: a blank input is refused, then a name some
   * other playlist already has (ignoring case); otherwise the trimmed input is the name.
   */
  function CheckName(playlists: seq<Playlist>, input: string, renaming: Option<Playlist>): (r: NameCheck)
    ensures r == EmptyName <==> IsBlank(input)
    ensures r == NameTaken <==> !IsBlank(input) && exists i :: 0 <= i < |playlists| && Blocks(playlists[i], Trim(input), renaming)
    ensures r.Accepted? ==> r.name == Trim(input) && r.name != [] &&
                            !IsWhitespace(r.name[0]) && !IsWhitespace(r.name[|r.name| - 1]) &&
                            forall i :: 0 <= i < |playlists| ==> !Blocks(playlists[i], r.name, renaming)
  {
    TrimEmptyIffBlank(input);
    TrimHasNoOuterWhitespace(input);
    var name := Trim(input);
    if name == [] then EmptyName
    else if exists i :: 0 <= i < |playlists| && Blocks(playlists[i], name, renaming) then NameTaken
    else Accepted(name)
  }

  /** No two playlists share a name, ignoring case: what the name checks aim to keep. */
  ghost predicate DistinctNames(playlists: seq<Playlist>) {
    forall i, j :: 0 <= i < j < |playlists| ==> !EqualsIgnoreCase(playlists[i].name, playlists[j].name)
  }

  lemma {:induction false} DistinctNamesAtMostOnce(playlists: seq<Playlist>)
    requires DistinctNames(playlists)
    ensures forall p :: multiset(playlists)[p] <= 1
  {
    if playlists != [] {
      var init := playlists[..|playlists| - 1];
      var last := playlists[|playlists| - 1];
      assert playlists == init + [last];
      assert DistinctNames(init) by {
        forall i, j | 0 <= i < j < |init| ensures !EqualsIgnoreCase(init[i].name, init[j].name) {
          assert init[i] == playlists[i] && init[j] == playlists[j];
        }
      }
      DistinctNamesAtMostOnce(init);
      assert last !in init;
    }
  }

  /** Reordering keeps names distinct, so the loaded list has them distinct when the stored one does. */
  lemma PermutationKeepsDistinctNames(a: seq<Playlist>, b: seq<Playlist>)
    requires multiset(a) == multiset(b) && DistinctNames(a)
    ensures DistinctNames(b)
  {
    DistinctNamesAtMostOnce(a);
    forall i, j | 0 <= i < j < |b| ensures !EqualsIgnoreCase(b[i].name, b[j].name) {
      PairCount(b, i, j);
      assert b[i] != b[j];
      assert b[i] in multiset(a) && b[j] in multiset(a);
      var ia :| 0 <= ia < |a| && a[ia] == b[i];
      var ja :| 0 <= ja < |a| && a[ja] == b[j];
      if ia > ja {
        assert !EqualsIgnoreCase(a[ja].name, a[ia].name);
      }
    }
  }

  /** A new, empty playlist as the create dialog builds it. */
  function NewPlaylist(id: Long, name: string, createdAt: Long): Playlist {
    Playlist(id, name, [], createdAt)
  }

  /** A name the create dialog accepts keeps the names distinct. */
  lemma CreateKeepsNamesDistinct(playlists: seq<Playlist>, input: string, id: Long, createdAt: Long)
    requires DistinctNames(playlists)
    requires CheckName(playlists, input, None).Accepted?
    ensures DistinctNames(playlists + [NewPlaylist(id, CheckName(playlists, input, None).name, createdAt)])
  {
    var name := CheckName(playlists, input, None).name;
    var r := playlists + [NewPlaylist(id, name, createdAt)];
    forall i, j | 0 <= i < j < |r| ensures !EqualsIgnoreCase(r[i].name, r[j].name) {
      if j == |playlists| {
        assert !Blocks(playlists[i], name, None);
      }
    }
  }

  /** The list with the playlist at `position` renamed, as `playlist.name = newName` leaves it. */
  function Renamed(playlists: seq<Playlist>, position: int, name: string): (r: seq<Playlist>)
    requires 0 <= position < |playlists|
    ensures |r| == |playlists|
    ensures r[position].name == name && r[position].id == playlists[position].id
    ensures r[position].songIds == playlists[position].songIds && r[position].createdAt == playlists[position].createdAt
    ensures forall i :: 0 <= i < |r| && i != position ==> r[i] == playlists[i]
  {
    playlists[position := playlists[position].(name := name)]
  }

  /** A name the rename dialog accepts keeps the names distinct. */
  lemma RenameKeepsNamesDistinct(playlists: seq<Playlist>, position: int, input: string)
    requires 0 <= position < |playlists|
    requires DistinctNames(playlists)
    requires CheckName(playlists, input, Some(playlists[position])).Accepted?
    ensures DistinctNames(Renamed(playlists, position, CheckName(playlists, input, Some(playlists[position])).name))
  {
    var name := CheckName(playlists, input, Some(playlists[position])).name;
    var r := Renamed(playlists, position, name);
    forall i, j | 0 <= i < j < |r| ensures !EqualsIgnoreCase(r[i].name, r[j].name) {
      if i == position || j == position {
        var other := if i == position then j else i;
        assert !Blocks(playlists[other], name, Some(playlists[position]));
        assert playlists[other] != playlists[position] by {
          if other < position {
            assert !EqualsIgnoreCase(playlists[other].name, playlists[position].name);
          } else {
            assert !EqualsIgnoreCase(playlists[position].name, playlists[other].name);
          }
        }
      }
    }
  }

  /** `removeAt(position)`. */
  function RemovedAt(playlists: seq<Playlist>, position: int): (r: seq<Playlist>)
    requires 0 <= position < |playlists|
    ensures |r| == |playlists| - 1
    ensures forall i :: 0 <= i < position ==> r[i] == playlists[i]
    ensures forall i :: position <= i < |r| ==> r[i] == playlists[i + 1]
  {
    playlists[..position] + playlists[position + 1..]
  }

  /** Deleting a playlist keeps the others' names distinct. */
  lemma DeleteKeepsNamesDistinct(playlists: seq<Playlist>, position: int)
    requires 0 <= position < |playlists| && DistinctNames(playlists)
    ensures DistinctNames(RemovedAt(playlists, position))
  {
    var r := RemovedAt(playlists, position);
    forall i, j | 0 <= i < j < |r| ensures !EqualsIgnoreCase(r[i].name, r[j].name) {
      var i' := if i < position then i else i + 1;
      var j' := if j < position then j else j + 1;
      assert r[i] == playlists[i'] && r[j] == playlists[j'];
    }
  }

  // ---------------------------------------------------------------- adding songs

  function NotIn(ids: seq<Long>): Long -> bool {
    (x: Long) => x !in ids
  }

  /**
   * `addSongsToPlaylist`'s id list: the existing ids, then the selected ids the playlist did
   * not already hold, in selection order.
   */
  function WithNewSongs(existing: seq<Long>, selected: seq<Long>): (r: seq<Long>)
    ensures |existing| <= |r| && r[..|existing|] == existing
    ensures forall x :: x in r <==> x in existing || x in selected
    ensures forall i :: |existing| <= i < |r| ==> r[i] !in existing && r[i] in selected
  {
    var added := Filter(selected, NotIn(existing));
    var r := existing + added;
    assert r[..|existing|] == existing;
    assert forall i :: |existing| <= i < |r| ==> r[i] == added[i - |existing|];
    assert forall x :: x in added ==> x !in existing by {
      forall x | x in added ensures x !in existing {
        var k :| 0 <= k < |added| && added[k] == x;
      }
    }
    assert forall x :: x in selected && x !in existing ==> x in added by {
      forall x | x in selected && x !in existing ensures x in added {
        var k :| 0 <= k < |selected| && selected[k] == x;
        assert NotIn(existing)(selected[k]);
      }
    }
    r
  }

  /** A playlist without repeated ids keeps none when the selection repeats none. */
  lemma WithNewSongsNoDup(existing: seq<Long>, selected: seq<Long>)
    requires NoDup(existing) && NoDup(selected)
    ensures NoDup(WithNewSongs(existing, selected))
  {
    var added := Filter(selected, NotIn(existing));
    FilterNoDup(selected, NotIn(existing));
    assert forall x :: x in existing ==> x !in added;
    NoDupAppend(existing, added);
  }

  /** A selection that repeats an id adds it twice: the filter only looks at the ids held before. */
  lemma WithNewSongsRepeatsSelection(x: Long)
    ensures WithNewSongs([], [x, x]) == [x, x]
  {
    assert Filter([x], NotIn([])) == [x] by { assert NotIn([])(x); }
    assert Filter([x, x], NotIn([])) == [x, x] by {
      assert [x, x][1..] == [x];
      assert NotIn([])(x);
    }
  }

  /** The list with the songs added to the playlist at `position`; nothing else changes. */
  function SongsAdded(playlists: seq<Playlist>, position: int, selected: seq<Long>): (r: seq<Playlist>)
    requires 0 <= position < |playlists|
    ensures |r| == |playlists|
    ensures r[position] == playlists[position].(songIds := WithNewSongs(playlists[position].songIds, selected))
    ensures forall i :: 0 <= i < |r| && i != position ==> r[i] == playlists[i]
    ensures forall i :: 0 <= i < |r| ==> r[i].name == playlists[i].name
  {
    playlists[position := playlists[position].(songIds := WithNewSongs(playlists[position].songIds, selected))]
  }

  /** Adding songs leaves the names alone, so it keeps them distinct. */
  lemma AddSongsKeepsNamesDistinct(playlists: seq<Playlist>, position: int, selected: seq<Long>)
    requires 0 <= position < |playlists| && DistinctNames(playlists)
    ensures DistinctNames(SongsAdded(playlists, position, selected))
  {
  }

  /**
   * Creating a playlist and then cancelling its first add-songs dialog stores the playlists
   * held before, possibly reordered. This holds when no playlist already has the new id (the id
   * is the clock reading); otherwise the position found is the older playlist's.
   */
  lemma CreateThenCancel(playlists: seq<Playlist>, n: Playlist)
    requires forall i :: 0 <= i < |playlists| ==> playlists[i].id != n.id
    ensures var loaded := LoadedPlaylists(playlists + [n]);
            var k := PreferenceManager.PlaylistIndex(loaded, n.id);
            0 <= k && loaded[k] == n && multiset(RemoveFirst(loaded, loaded[k])) == multiset(playlists)
  {
    var all := playlists + [n];
    var loaded := LoadedPlaylists(all);
    var k := PreferenceManager.PlaylistIndex(loaded, n.id);
    assert 0 <= k by {
      assert multiset(loaded) == multiset(all);
      assert n in multiset(loaded) by { assert n in multiset(all); }
      var j :| 0 <= j < |loaded| && loaded[j] == n;
    }
    assert loaded[k] == n by {
      assert multiset(loaded) == multiset(all);
      assert loaded[k] in multiset(all);
      assert loaded[k] !in playlists;
    }
    assert multiset(RemoveFirst(loaded, n)) == multiset(playlists) by {
      assert multiset(loaded) == multiset(all);
      RemoveFirstMultiset(loaded, n);
      assert multiset(all) - multiset{n} == multiset(playlists);
    }
  }

  // ---------------------------------------------------------------- the screen

  /** The screen's list of playlists. */
  class PlaylistsFragment {
    var playlists: seq<Playlist>

    constructor ()
      ensures playlists == []
    {
      playlists := [];
    }

    /** `loadPlaylists`, also what `onResume` and `refreshData` do. */
    method LoadPlaylists(prefs: PreferenceManager.Prefs)
      modifies this`playlists
      ensures playlists == LoadedPlaylists(PreferenceManager.GetPlaylists(prefs))
    {
      playlists := LoadedPlaylists(PreferenceManager.GetPlaylists(prefs));
    }

    /**
     * The create dialog's button. `id` and `createdAt` are the two clock readings. On success
     * the list shown is reloaded and the add-songs dialog opens at the new playlist's position,
     * which is always found.
     */
    method CreatePlaylist(input: string, id: Long, createdAt: Long, store: PreferenceManager.Store)
      returns (check: NameCheck, addSongsAt: Option<int>)
      modifies this`playlists, store`prefs
      ensures check == CheckName(old(playlists), input, None)
      ensures !check.Accepted? ==> playlists == old(playlists) && store.prefs == old(store.prefs) && addSongsAt == None
      ensures check.Accepted? ==>
                var saved := old(playlists) + [NewPlaylist(id, check.name, createdAt)];
                store.prefs == PreferenceManager.WithPlaylistsSaved(old(store.prefs), saved) &&
                playlists == LoadedPlaylists(saved) &&
                addSongsAt == Some(PreferenceManager.PlaylistIndex(playlists, id)) &&
                0 <= addSongsAt.value < |playlists| && playlists[addSongsAt.value].id == id
    {
      check := CheckName(playlists, input, None);
      if !check.Accepted? {
        return check, None;
      }
      var newPlaylist := NewPlaylist(id, check.name, createdAt);
      playlists := playlists + [newPlaylist];
      store.SavePlaylists(playlists);
      LoadPlaylists(store.prefs);
      assert newPlaylist in multiset(playlists);
      var newPosition := PreferenceManager.FindPlaylist(playlists, newPlaylist.id);
      if newPosition != -1 {
        addSongsAt := Some(newPosition);
      } else {
        assert false;
        addSongsAt := None;
      }
    }

    /** The rename dialog's button for the playlist at `position`. */
    method RenamePlaylist(position: int, input: string, store: PreferenceManager.Store) returns (check: NameCheck)
      requires 0 <= position < |playlists|
      modifies this`playlists, store`prefs
      ensures check == CheckName(old(playlists), input, Some(old(playlists)[position]))
      ensures !check.Accepted? ==> playlists == old(playlists) && store.prefs == old(store.prefs)
      ensures check.Accepted? ==>
                var saved := Renamed(old(playlists), position, check.name);
                store.prefs == PreferenceManager.WithPlaylistsSaved(old(store.prefs), saved) &&
                playlists == LoadedPlaylists(saved)
    {
      var playlist := playlists[position];
      check := CheckName(playlists, input, Some(playlist));
      if check.Accepted? {
        playlists := Renamed(playlists, position, check.name);
        store.SavePlaylists(playlists);
        LoadPlaylists(store.prefs);
      }
    }

    /** The delete dialog's button. */
    method DeletePlaylist(position: int, store: PreferenceManager.Store)
      requires 0 <= position < |playlists|
      modifies this`playlists, store`prefs
      ensures store.prefs == PreferenceManager.WithPlaylistsSaved(old(store.prefs), RemovedAt(old(playlists), position))
      ensures playlists == LoadedPlaylists(RemovedAt(old(playlists), position))
    {
      playlists := RemovedAt(playlists, position);
      store.SavePlaylists(playlists);
      LoadPlaylists(store.prefs);
    }

    /** `addSongsToPlaylist(position, songIds)`. */
    method AddSongsToPlaylist(position: int, songIds: seq<Long>, store: PreferenceManager.Store)
      requires 0 <= position < |playlists|
      modifies this`playlists, store`prefs
      ensures store.prefs == PreferenceManager.WithPlaylistsSaved(old(store.prefs), SongsAdded(old(playlists), position, songIds))
      ensures playlists == LoadedPlaylists(SongsAdded(old(playlists), position, songIds))
    {
      var playlist := playlists[position];
      var updatedSongIds := playlist.songIds;
      var newSongs := Filter(songIds, NotIn(updatedSongIds));
      updatedSongIds := updatedSongIds + newSongs;
      playlists := playlists[position := playlist.(songIds := updatedSongIds)];
      store.SavePlaylists(playlists);
      LoadPlaylists(store.prefs);
    }

    /**
     * The add-songs dialog's submit button: an empty selection changes nothing; otherwise the
     * songs are added, and the dialog opens again unless the playlist was just created.
     */
    method SubmitSelection(position: int, selected: seq<Long>, isNewPlaylist: bool, store: PreferenceManager.Store)
      returns (reopen: bool)
      requires 0 <= position < |playlists|
      modifies this`playlists, store`prefs
      ensures selected == [] ==> !reopen && playlists == old(playlists) && store.prefs == old(store.prefs)
      ensures selected != [] ==>
                reopen == !isNewPlaylist &&
                store.prefs == PreferenceManager.WithPlaylistsSaved(old(store.prefs), SongsAdded(old(playlists), position, selected)) &&
                playlists == LoadedPlaylists(SongsAdded(old(playlists), position, selected))
    {
      if selected != [] {
        AddSongsToPlaylist(position, selected, store);
        reopen := !isNewPlaylist;
      } else {
        reopen := false;
      }
    }

    /**
     * The add-songs dialog's cancel button, `playlist` being the one the dialog was opened for:
     * a new playlist still without songs is removed again.
     */
    method CancelAddSongs(playlist: Playlist, isNewPlaylist: bool, store: PreferenceManager.Store)
      modifies this`playlists, store`prefs
      ensures !(isNewPlaylist && playlist.songIds == []) ==> playlists == old(playlists) && store.prefs == old(store.prefs)
      ensures isNewPlaylist && playlist.songIds == [] ==>
                store.prefs == PreferenceManager.WithPlaylistsSaved(old(store.prefs), RemoveFirst(old(playlists), playlist)) &&
                playlists == LoadedPlaylists(RemoveFirst(old(playlists), playlist))
    {
      if isNewPlaylist && playlist.songIds == [] {
        playlists := RemoveFirst(playlists, playlist);
        store.SavePlaylists(playlists);
        LoadPlaylists(store.prefs);
      }
    }

    /** `playPlaylist`: plays the playlist's songs from the top, or nothing when it has none. */
    method PlayPlaylist(position: int, catalogue: seq<Song>) returns (calls: seq<ServiceCall>)
      requires 0 <= position < |playlists|
      ensures var songs := GetPlaylistSongs(catalogue, playlists[position]);
              (songs == [] ==> calls == []) && (songs != [] ==> calls == [StartPlayback(songs, 0)])
    {
      var playlistSongs := GetPlaylistSongs(catalogue, playlists[position]);
      if playlistSongs != [] {
        calls := [StartPlayback(playlistSongs, 0)];
      } else {
        calls := [];
      }
    }

    /**
     * `shuffleAllPlaylists`: gathers the songs of every playlist, then plays a shuffled copy
     * and switches shuffle on, or does nothing when there are none. `shuffled` is the
     * permutation the random shuffle produced.
     */
    method ShuffleAllPlaylists(catalogue: seq<Song>, shuffled: seq<Song>) returns (calls: seq<ServiceCall>)
      requires multiset(shuffled) == multiset(AllPlaylistSongs(catalogue, playlists))
      ensures AllPlaylistSongs(catalogue, playlists) == [] ==> calls == []
      ensures AllPlaylistSongs(catalogue, playlists) != [] ==> calls == [StartPlayback(shuffled, 0), ToggleShuffle]
    {
      var allPlaylistSongs: seq<Song> := [];
      var i := 0;
      while i < |playlists|
        invariant 0 <= i <= |playlists|
        invariant allPlaylistSongs == AllPlaylistSongs(catalogue, playlists[..i])
      {
        AllPlaylistSongsSnoc(catalogue, playlists, i);
        allPlaylistSongs := allPlaylistSongs + GetPlaylistSongs(catalogue, playlists[i]);
        i := i + 1;
      }
      assert playlists[..i] == playlists;
      if allPlaylistSongs != [] {
        calls := [StartPlayback(shuffled, 0), ToggleShuffle];
      } else {
        calls := [];
      }
    }
  }
}
