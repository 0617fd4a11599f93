/**
 * The screen of one playlist: its songs from the catalogue with their count and total
 * length, playing and shuffling them, and adding songs to, renaming, deleting the playlist.
 */
module PlaylistSongsFragment {
  import opened Wrappers
  import opened Seqs
  import opened Text
  import opened Codec
  import opened Media
  import PreferenceManager
  import opened PlaylistsFragment
  import SongsFragment

  const MILLIS_PER_MINUTE := 60000

  function DurationOf(s: Song): int { s.duration }

  /** `sumOf { it.duration }` on `Long`: the sum wraps around at 64 bits. */
  function TotalDuration(songs: seq<Song>): (r: Long)
    ensures (SumOf(songs, DurationOf) - r) % TWO_TO_THE_64 == 0
  {
    WrapLong(SumOf(songs, DurationOf))
  }

  /** `TimeUnit.MILLISECONDS.toMinutes(totalDuration)`: whole minutes, truncated toward zero. */
  function TotalMinutes(songs: seq<Song>): (r: int)
    ensures var t := TotalDuration(songs);
            (t >= 0 ==> r * MILLIS_PER_MINUTE <= t < (r + 1) * MILLIS_PER_MINUTE) &&
            (t < 0 ==> (r - 1) * MILLIS_PER_MINUTE < t <= r * MILLIS_PER_MINUTE)
  {
    TruncDiv(TotalDuration(songs), MILLIS_PER_MINUTE)
  }

  lemma {:induction false} SumOfNonNegative(songs: seq<Song>)
    requires forall i :: 0 <= i < |songs| ==> songs[i].duration >= 0
    ensures SumOf(songs, DurationOf) >= 0
  {
    if songs != [] {
      SumOfNonNegative(songs[1..]);
    }
  }

  /**
   * While the durations are not negative and their sum fits in a `Long`, the minutes shown
   * are the whole minutes of the real total.
   */
  lemma MinutesOfRealTotal(songs: seq<Song>)
    requires forall i :: 0 <= i < |songs| ==> songs[i].duration >= 0
    requires SumOf(songs, DurationOf) < 0x8000_0000_0000_0000
    ensures TotalMinutes(songs) == SumOf(songs, DurationOf) / MILLIS_PER_MINUTE
  {
    SumOfNonNegative(songs);
  }

  /** Durations whose sum passes the `Long` range wrap to a negative total, shown as negative minutes. */
  lemma OverflowShowsNegativeMinutes(a: Song, b: Song)
    requires a.duration == 0x7FFF_FFFF_FFFF_FFFF && b.duration == 1
    ensures TotalMinutes([a, b]) < 0
  {
    assert [a, b][1..] == [b];
    assert [b][1..] == [];
    assert SumOf([b], DurationOf) == 1 + SumOf([], DurationOf);
    assert SumOf([a, b], DurationOf) == DurationOf(a) + SumOf([b], DurationOf);
    assert TotalDuration([a, b]) == -0x8000_0000_0000_0000;
  }

  /** Whether `other` blocks `name` on the rename dialog here: another id with that name ignoring case. */
  predicate BlocksRename(other: Playlist, name: string, playlistId: Long) {
    other.id != playlistId && EqualsIgnoreCase(other.name, name)
  }

  /**
   * The rename dialog's checks on this screen: a blank input is refused, then a name another
   * stored playlist (by id) has ignoring case; otherwise the trimmed input is the name.
   */
  function CheckRename(stored: seq<Playlist>, input: string, playlistId: Long): (r: NameCheck)
    ensures r == EmptyName <==> IsBlank(input)
    ensures r == NameTaken <==> !IsBlank(input) && exists i :: 0 <= i < |stored| && BlocksRename(stored[i], Trim(input), playlistId)
    ensures r.Accepted? ==> r.name == Trim(input) && r.name != [] &&
                            forall i :: 0 <= i < |stored| ==> !BlocksRename(stored[i], r.name, playlistId)
  {
    TrimEmptyIffBlank(input);
    var name := Trim(input);
    if name == [] then EmptyName
    else if exists i :: 0 <= i < |stored| && BlocksRename(stored[i], name, playlistId) then NameTaken
    else Accepted(name)
  }

  /** The stored list with the first playlist of `p`'s id replaced by `p`, or unchanged when none has it. */
  function ReplaceById(stored: seq<Playlist>, p: Playlist): (r: seq<Playlist>)
    ensures |r| == |stored|
    ensures var k := PreferenceManager.PlaylistIndex(stored, p.id);
            forall i :: 0 <= i < |r| ==> r[i] == if i == k then p else stored[i]
  {
    var k := PreferenceManager.PlaylistIndex(stored, p.id);
    if k == -1 then stored else stored[k := p]
  }

  /** An accepted rename leaves no two stored playlists of different ids with the same name. */
  lemma RenameKeepsNamesDistinct(stored: seq<Playlist>, input: string, p: Playlist)
    requires DistinctNames(stored)
    requires CheckRename(stored, input, p.id).Accepted?
    requires forall i, j :: 0 <= i < j < |stored| ==> stored[i].id != stored[j].id
    ensures DistinctNames(ReplaceById(stored, p.(name := CheckRename(stored, input, p.id).name)))
  {
    var name := CheckRename(stored, input, p.id).name;
    var r := ReplaceById(stored, p.(name := name));
    var k := PreferenceManager.PlaylistIndex(stored, p.id);
    forall i, j | 0 <= i < j < |r| ensures !EqualsIgnoreCase(r[i].name, r[j].name) {
      if i == k || j == k {
        var other := if i == k then j else i;
        assert !BlocksRename(stored[other], name, p.id);
        assert stored[other].id != p.id;
      }
    }
  }

  /** The test `it.id != playlistId` that `removeAll { it.id == playlistId }` keeps by. */
  function OtherId(playlistId: Long): Playlist -> bool {
    (p: Playlist) => p.id != playlistId
  }

  /** `removeAll { it.id == playlist.id }`: every stored playlist of that id goes, the rest keep their relative order. */
  function WithoutId(stored: seq<Playlist>, playlistId: Long): (r: seq<Playlist>)
    ensures forall p :: p in r <==> p in stored && p.id != playlistId
    ensures multiset(r) <= multiset(stored)
  {
    var r := Filter(stored, OtherId(playlistId));
    assert forall p :: p in r ==> OtherId(playlistId)(p);
    r
  }

  /** `WithoutId` works element by element, so the playlists that stay keep their relative order. */
  lemma WithoutIdAppend(a: seq<Playlist>, b: seq<Playlist>, playlistId: Long)
    ensures WithoutId(a + b, playlistId) == WithoutId(a, playlistId) + WithoutId(b, playlistId)
  {
    FilterAppend(a, b, OtherId(playlistId));
  }

  /** With no stored playlist of that id, `removeAll` leaves the list exactly as it was. */
  lemma WithoutAbsentId(stored: seq<Playlist>, playlistId: Long)
    requires forall i :: 0 <= i < |stored| ==> stored[i].id != playlistId
    ensures WithoutId(stored, playlistId) == stored
  {
    FilterAll(stored, OtherId(playlistId));
  }

  /** The screen's playlist, its songs and the minutes shown. */
  class PlaylistSongsFragment {
    var currentPlaylist: Option<Playlist>
    var playlistSongs: seq<Song>
    var minutes: int

    /** The screen opened for `playlist` (the navigation argument), before it is set up. */
    constructor (playlist: Option<Playlist>)
      ensures currentPlaylist == playlist && playlistSongs == [] && minutes == 0
    {
      currentPlaylist := playlist;
      playlistSongs := [];
      minutes := 0;
    }

    /** `setupPlaylistSongs`: the catalogue songs of the playlist and their total length in minutes. */
    method SetupPlaylistSongs(playlist: Playlist, catalogue: seq<Song>)
      modifies this`playlistSongs, this`minutes
      ensures playlistSongs == GetPlaylistSongs(catalogue, playlist)
      ensures minutes == TotalMinutes(playlistSongs)
    {
      playlistSongs := GetPlaylistSongs(catalogue, playlist);
      var totalDuration := TotalDuration(playlistSongs);
      minutes := TruncDiv(totalDuration, MILLIS_PER_MINUTE);
    }

    /** `refreshData`, `onResume` and the playback broadcasts: set up again when there is a playlist. */
    method Refresh(catalogue: seq<Song>)
      modifies this`playlistSongs, this`minutes
      ensures currentPlaylist.Some? ==> playlistSongs == GetPlaylistSongs(catalogue, currentPlaylist.value) &&
                                        minutes == TotalMinutes(playlistSongs)
      ensures currentPlaylist.None? ==> playlistSongs == old(playlistSongs) && minutes == old(minutes)
    {
      if currentPlaylist.Some? {
        SetupPlaylistSongs(currentPlaylist.value, catalogue);
      }
    }

    /**
     * `addSongsToPlaylist`: the playlist on screen gets the new ids; the stored list has the
     * playlist of that id replaced by it, and is saved only when there is one.
     */
    method AddSongsToPlaylist(songIds: seq<Long>, store: PreferenceManager.Store)
      modifies this`currentPlaylist, store`prefs
      ensures old(currentPlaylist).None? ==> currentPlaylist == old(currentPlaylist) && store.prefs == old(store.prefs)
      ensures old(currentPlaylist).Some? ==>
                var p := old(currentPlaylist).value;
                var updated := p.(songIds := WithNewSongs(p.songIds, songIds));
                var stored := PreferenceManager.GetPlaylists(old(store.prefs));
                currentPlaylist == Some(updated) &&
                store.prefs == if PreferenceManager.PlaylistIndex(stored, p.id) == -1 then old(store.prefs)
                               else PreferenceManager.WithPlaylistsSaved(old(store.prefs), ReplaceById(stored, updated))
    {
      if currentPlaylist.Some? {
        var playlist := currentPlaylist.value;
        var updatedSongIds := playlist.songIds;
        var newSongs := Filter(songIds, NotIn(updatedSongIds));
        updatedSongIds := updatedSongIds + newSongs;
        playlist := playlist.(songIds := updatedSongIds);
        currentPlaylist := Some(playlist);
        var allPlaylists := PreferenceManager.GetPlaylists(store.prefs);
        var playlistIndex := PreferenceManager.FindPlaylist(allPlaylists, playlist.id);
        assert playlistIndex == PreferenceManager.PlaylistIndex(allPlaylists, old(currentPlaylist).value.id);
        if playlistIndex != -1 {
          assert allPlaylists[playlistIndex := playlist] == ReplaceById(allPlaylists, playlist);
          allPlaylists := allPlaylists[playlistIndex := playlist];
          store.SavePlaylists(allPlaylists);
        }
      }
    }

    /** The add-songs dialog's submit button: an empty selection changes nothing; otherwise add, then set up again. */
    method SubmitSelection(selected: seq<Long>, catalogue: seq<Song>, store: PreferenceManager.Store)
      modifies this`currentPlaylist, this`playlistSongs, this`minutes, store`prefs
      ensures selected == [] ==> currentPlaylist == old(currentPlaylist) && store.prefs == old(store.prefs) &&
                                 playlistSongs == old(playlistSongs) && minutes == old(minutes)
      ensures selected != [] && old(currentPlaylist).Some? ==>
                var p := old(currentPlaylist).value;
                var stored := PreferenceManager.GetPlaylists(old(store.prefs));
                currentPlaylist == Some(p.(songIds := WithNewSongs(p.songIds, selected))) &&
                store.prefs == (if PreferenceManager.PlaylistIndex(stored, p.id) == -1 then old(store.prefs)
                                else PreferenceManager.WithPlaylistsSaved(old(store.prefs), ReplaceById(stored, currentPlaylist.value))) &&
                playlistSongs == GetPlaylistSongs(catalogue, currentPlaylist.value) &&
                minutes == TotalMinutes(playlistSongs)
      ensures selected != [] && old(currentPlaylist).None? ==>
                currentPlaylist == old(currentPlaylist) && store.prefs == old(store.prefs) &&
                playlistSongs == old(playlistSongs) && minutes == old(minutes)
    {
      if selected != [] {
        AddSongsToPlaylist(selected, store);
        Refresh(catalogue);
      }
    }

    /**
     * The rename dialog's button. With no playlist the dialog never opens (`None`). An accepted
     * name renames the playlist on screen; the stored list is saved, and the screen set up
     * again, only when a stored playlist has its id.
     */
    method RenamePlaylist(input: string, catalogue: seq<Song>, store: PreferenceManager.Store) returns (check: Option<NameCheck>)
      modifies this`currentPlaylist, this`playlistSongs, this`minutes, store`prefs
      ensures old(currentPlaylist).None? ==> check == None && currentPlaylist == old(currentPlaylist) && store.prefs == old(store.prefs) &&
                                             playlistSongs == old(playlistSongs) && minutes == old(minutes)
      ensures old(currentPlaylist).Some? ==>
                var p := old(currentPlaylist).value;
                var stored := PreferenceManager.GetPlaylists(old(store.prefs));
                check == Some(CheckRename(stored, input, p.id)) &&
                (!check.value.Accepted? ==> currentPlaylist == old(currentPlaylist) && store.prefs == old(store.prefs) &&
                                            playlistSongs == old(playlistSongs) && minutes == old(minutes)) &&
                (check.value.Accepted? ==>
                   var renamed := p.(name := check.value.name);
                   currentPlaylist == Some(renamed) &&
                   (PreferenceManager.PlaylistIndex(stored, p.id) == -1 ==>
                      store.prefs == old(store.prefs) && playlistSongs == old(playlistSongs) && minutes == old(minutes)) &&
                   (PreferenceManager.PlaylistIndex(stored, p.id) != -1 ==>
                      store.prefs == PreferenceManager.WithPlaylistsSaved(old(store.prefs), ReplaceById(stored, renamed)) &&
                      playlistSongs == GetPlaylistSongs(catalogue, renamed) && minutes == TotalMinutes(playlistSongs)))
    {
      if currentPlaylist.None? {
        return None;
      }
      var playlist := currentPlaylist.value;
      var allPlaylists := PreferenceManager.GetPlaylists(store.prefs);
      var c := CheckRename(allPlaylists, input, playlist.id);
      check := Some(c);
      if c.Accepted? {
        playlist := playlist.(name := c.name);
        currentPlaylist := Some(playlist);
        SaveRenamed(playlist, catalogue, store);
      }
    }

    /** The rest of an accepted rename: replace the stored playlist of that id, save, and set up again. */
    method SaveRenamed(playlist: Playlist, catalogue: seq<Song>, store: PreferenceManager.Store)
      modifies this`playlistSongs, this`minutes, store`prefs
      ensures var stored := PreferenceManager.GetPlaylists(old(store.prefs));
              (PreferenceManager.PlaylistIndex(stored, playlist.id) == -1 ==>
                 store.prefs == old(store.prefs) && playlistSongs == old(playlistSongs) && minutes == old(minutes)) &&
              (PreferenceManager.PlaylistIndex(stored, playlist.id) != -1 ==>
                 store.prefs == PreferenceManager.WithPlaylistsSaved(old(store.prefs), ReplaceById(stored, playlist)) &&
                 playlistSongs == GetPlaylistSongs(catalogue, playlist) && minutes == TotalMinutes(playlistSongs))
    {
      var allPlaylists := PreferenceManager.GetPlaylists(store.prefs);
      var playlistIndex := PreferenceManager.FindPlaylist(allPlaylists, playlist.id);
      if playlistIndex != -1 {
        assert allPlaylists[playlistIndex := playlist] == ReplaceById(allPlaylists, playlist);
        allPlaylists := allPlaylists[playlistIndex := playlist];
        store.SavePlaylists(allPlaylists);
        SetupPlaylistSongs(playlist, catalogue);
      }
    }

    /** The delete dialog's button: every stored playlist with this id is removed and the rest saved. */
    method DeletePlaylist(store: PreferenceManager.Store)
      modifies store`prefs
      ensures currentPlaylist.None? ==> store.prefs == old(store.prefs)
      ensures currentPlaylist.Some? ==>
                store.prefs == PreferenceManager.WithPlaylistsSaved(old(store.prefs),
                                 WithoutId(PreferenceManager.GetPlaylists(old(store.prefs)), currentPlaylist.value.id))
    {
      if currentPlaylist.Some? {
        var allPlaylists := PreferenceManager.GetPlaylists(store.prefs);
        allPlaylists := WithoutId(allPlaylists, currentPlaylist.value.id);
        store.SavePlaylists(allPlaylists);
      }
    }

    /** The song menu's favourite toggle, then the screen set up again. */
    method ToggleFavorite(position: int, catalogue: seq<Song>, store: PreferenceManager.Store)
      requires 0 <= position < |playlistSongs|
      modifies store`prefs, this`playlistSongs, this`minutes
      ensures store.prefs == SongsFragment.Toggled(old(store.prefs), old(playlistSongs)[position].id)
      ensures currentPlaylist.Some? ==> playlistSongs == GetPlaylistSongs(catalogue, currentPlaylist.value) &&
                                        minutes == TotalMinutes(playlistSongs)
      ensures currentPlaylist.None? ==> playlistSongs == old(playlistSongs) && minutes == old(minutes)
    {
      var song := playlistSongs[position];
      if PreferenceManager.IsFavorite(store.prefs, song.id) {
        store.RemoveFavorite(song.id);
      } else {
        store.AddFavorite(song.id);
      }
      Refresh(catalogue);
    }

    /** `playPlaylist`: plays the songs from the top, or nothing when there are none. */
    method PlayPlaylist() returns (calls: seq<ServiceCall>)
      ensures playlistSongs == [] ==> calls == []
      ensures playlistSongs != [] ==> calls == [StartPlayback(playlistSongs, 0)]
    {
      if playlistSongs != [] {
        calls := [StartPlayback(playlistSongs, 0)];
      } else {
        calls := [];
      }
    }

    /** `shufflePlaylist`: plays a shuffled copy and switches shuffle on, or nothing when there are no songs. */
    method ShufflePlaylist(shuffled: seq<Song>) returns (calls: seq<ServiceCall>)
      requires multiset(shuffled) == multiset(playlistSongs)
      ensures playlistSongs == [] ==> calls == []
      ensures playlistSongs != [] ==> calls == [StartPlayback(shuffled, 0), ToggleShuffle]
    {
      if playlistSongs != [] {
        calls := [StartPlayback(shuffled, 0), ToggleShuffle];
      } else {
        calls := [];
      }
    }

    /** `openNowPlaying`: record the song as most recent and play the list from that position. */
    method OpenNowPlaying(position: int, store: PreferenceManager.Store) returns (call: ServiceCall)
      requires 0 <= position < |playlistSongs|
      modifies store`prefs
      ensures store.prefs == PreferenceManager.WithRecentAdded(old(store.prefs), playlistSongs[position].id)
      ensures call == StartPlayback(playlistSongs, position)
    {
      var songToPlay := playlistSongs[position];
      store.AddRecentSong(songToPlay.id);
      call := StartPlayback(playlistSongs, position);
    }
  }
}
