/** The app's model types: songs, playlists, the album/artist/genre groupings and the sort choice. */
module Media {
  import opened Wrappers
  import opened Codec

  /** A catalogue song; the nullable columns stay `Option`. */
  datatype Song = Song(
    id: Long,
    title: string,
    artist: Option<string>,
    albumId: Long,
    album: Option<string>,
    year: Option<string>,
    genre: Option<string>,
    uri: string,
    duration: Long,
    dateAdded: Long,
    path: Option<string>,
    isFavorite: bool)

  /** A user playlist: its songs are kept as ids. */
  datatype Playlist = Playlist(id: Long, name: string, songIds: seq<Long>, createdAt: Long)

  datatype Album = Album(name: string, artist: string, songCount: int, songs: seq<Song>, albumId: Long)

  datatype Artist = Artist(name: string, songCount: int, songs: seq<Song>)

  datatype Genre = Genre(name: string, songCount: int, songs: seq<Song>)

  /** The sort choices, in declaration order. */
  datatype SortType = NameAsc | NameDesc | DateAddedAsc | DateAddedDesc | Duration

  const SORT_TYPE_COUNT := 5

  function Ordinal(t: SortType): (r: int)
    ensures 0 <= r < SORT_TYPE_COUNT
  {
    match t
    case NameAsc => 0
    case NameDesc => 1
    case DateAddedAsc => 2
    case DateAddedDesc => 3
    case Duration => 4
  }

  /** `SortType.entries[i]`. */
  function FromOrdinal(i: int): (r: SortType)
    requires 0 <= i < SORT_TYPE_COUNT
    ensures Ordinal(r) == i
  {
    if i == 0 then NameAsc
    else if i == 1 then NameDesc
    else if i == 2 then DateAddedAsc
    else if i == 3 then DateAddedDesc
    else Duration
  }

  lemma FromOrdinalOfOrdinal(t: SortType)
    ensures FromOrdinal(Ordinal(t)) == t
  {
  }

  /** Requests the screens send to the playback service, which itself is not part of this model. */
  datatype ServiceCall = StartPlayback(queue: seq<Song>, position: int) | ToggleShuffle

  /** The ids of a list of songs, in order. */
  function Ids(songs: seq<Song>): (r: seq<Long>)
    ensures |r| == |songs|
    ensures forall i :: 0 <= i < |songs| ==> r[i] == songs[i].id
  {
    seq(|songs|, i requires 0 <= i < |songs| => songs[i].id)
  }

  /** The test `ids.contains(song.id)` with which the screens pick songs out of the catalogue. */
  function IdIn(ids: seq<Long>): Song -> bool {
    (s: Song) => s.id in ids
  }
}
