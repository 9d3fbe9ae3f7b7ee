/** The playback cursor (src/store/musicStore.ts): the loaded albums, the
    current album id and the index of the current song in it. */
module MusicStore {
  import opened Common
  import opened Catalog
  import MusicService

  /** `{ songid, songs }` of an album's `album_song`. */
  datatype Entry = Entry(songId: Id, song: MusicService.Song)

  /** The `Album` record: id, name and its linked songs. */
  datatype Album = Album(id: Id, name: string, entries: seq<Entry>)

  /** `currentSongIndex` is a JavaScript number: an integer, or NaN once
      `playNext` has taken a remainder by an empty album's length. */
  datatype Index = At(i: int) | NaN

  /** `albums.find(a => a.id === currentAlbumId)`: the first album with that
      id; none when the id is null. */
  function FindAlbum(albums: seq<Album>, id: Option<Id>): (r: Option<Album>)
    ensures r.Some? <==> id.Some? && exists k :: 0 <= k < |albums| && albums[k].id == id.value
    ensures r.Some? ==> exists k :: 0 <= k < |albums| && albums[k] == r.value && r.value.id == id.value
                                    && forall j :: 0 <= j < k ==> albums[j].id != id.value
  {
    if id.None? || albums == [] then None
    else if albums[0].id == id.value then Some(albums[0])
    else
      var r := FindAlbum(albums[1..], id);
      if r.Some? then
        var k :| 0 <= k < |albums[1..]| && albums[1..][k] == r.value && r.value.id == id.value
                 && forall j :: 0 <= j < k ==> albums[1..][j].id != id.value;
        assert albums[k + 1] == r.value;
        assert forall j :: 1 <= j < k + 1 ==> albums[j] == albums[1..][j - 1];
        r
      else
        assert forall k :: 1 <= k < |albums| ==> albums[k] == albums[1..][k - 1];
        None
  }

  /** JavaScript `%` for a positive divisor: the remainder takes the sign of
      the dividend. */
  function JsRem(a: int, n: int): (r: int)
    requires n > 0
    ensures a >= 0 ==> r == a % n
    ensures a < 0 ==> r == -((-a) % n)
    ensures -n < r < n && (r < 0 ==> a < 0)
  {
    if a >= 0 then a % n else -((-a) % n)
  }

  /** `(currentSongIndex + 1) % album.album_song.length` */
  function NextIndex(index: Index, length: nat): (r: Index)
    ensures length == 0 || index.NaN? <==> r.NaN?
    ensures index.At? && length > 0 ==> r == At(JsRem(index.i + 1, length))
  {
    match index
    case NaN => NaN
    case At(i) => if length == 0 then NaN else At(JsRem(i + 1, length))
  }

  /** The index `playPrevious` leaves: one less when positive, else as is. */
  function PreviousIndex(index: Index): (r: Index)
    ensures index.At? && index.i > 0 ==> r == At(index.i - 1)
    ensures !(index.At? && index.i > 0) ==> r == index
  {
    if index.At? && index.i > 0 then At(index.i - 1) else index
  }

  /** The song at `index` of `album`, if the index is a position of it. */
  function SongAt(album: Album, index: Index): (r: Option<MusicService.Song>)
    ensures r.Some? <==> index.At? && 0 <= index.i < |album.entries|
    ensures r.Some? ==> r.value == album.entries[index.i].song
  {
    if index.At? && 0 <= index.i < |album.entries| then Some(album.entries[index.i].song) else None
  }

  class MusicStore {
    var albums: seq<Album>
    var currentAlbumId: Option<Id>
    var currentSongIndex: Index

    constructor ()
      ensures albums == [] && currentAlbumId == None && currentSongIndex == At(0)
    {
      albums, currentAlbumId, currentSongIndex := [], None, At(0);
    }

    method SetAlbums(albums: seq<Album>)
      modifies this
      ensures this.albums == albums
      ensures currentAlbumId == old(currentAlbumId) && currentSongIndex == old(currentSongIndex)
    {
      this.albums := albums;
    }

    /** Selecting an album restarts it from its first song. */
    method SetCurrentAlbum(albumId: Id)
      modifies this
      ensures currentAlbumId == Some(albumId) && currentSongIndex == At(0)
      ensures albums == old(albums)
    {
      currentAlbumId, currentSongIndex := Some(albumId), At(0);
    }

    /** Any index is stored, without a bounds check. */
    method SetCurrentSongIndex(index: int)
      modifies this
      ensures currentSongIndex == At(index)
      ensures albums == old(albums) && currentAlbumId == old(currentAlbumId)
    {
      currentSongIndex := At(index);
    }

    method PlayNext()
      modifies this
      ensures albums == old(albums) && currentAlbumId == old(currentAlbumId)
      ensures var album := FindAlbum(albums, currentAlbumId);
        currentSongIndex == if album.None? then old(currentSongIndex)
                            else NextIndex(old(currentSongIndex), |album.value.entries|)
    {
      var album := FindAlbum(albums, currentAlbumId);
      if album.None? {
        return;
      }
      var length := |album.value.entries|;
      if currentSongIndex.NaN? || length == 0 {
        currentSongIndex := NaN;
      } else {
        currentSongIndex := At(JsRem(currentSongIndex.i + 1, length));
      }
    }

    method PlayPrevious()
      modifies this
      ensures albums == old(albums) && currentAlbumId == old(currentAlbumId)
      ensures currentSongIndex == PreviousIndex(old(currentSongIndex))
    {
      if currentSongIndex.At? && currentSongIndex.i > 0 {
        currentSongIndex := At(currentSongIndex.i - 1);
      }
    }

    /** `getCurrentSong`: None (null) when no album has the current id or the
        index is not a position of its songs. */
    function CurrentSong(): (r: Option<MusicService.Song>)
      reads this
      ensures r.Some? <==> FindAlbum(albums, currentAlbumId).Some?
                           && currentSongIndex.At? && 0 <= currentSongIndex.i < |FindAlbum(albums, currentAlbumId).value.entries|
      ensures r.Some? ==> r.value == FindAlbum(albums, currentAlbumId).value.entries[currentSongIndex.i].song
    {
      var album := FindAlbum(albums, currentAlbumId);
      if album.None? then None else SongAt(album.value, currentSongIndex)
    }
  }

  /** From a song of a non-empty album, `playNext` moves to the following
      song, and from the last one wraps to the first. */
  lemma NextIndexWraps(i: int, length: nat)
    requires 0 <= i < length
    ensures NextIndex(At(i), length) == At(if i + 1 == length then 0 else i + 1)
  {
  }

  /** `playNext` applied `k` times. */
  function Advance(index: Index, length: nat, k: nat): Index {
    if k == 0 then index else NextIndex(Advance(index, length, k - 1), length)
  }

  /** However many times `playNext` runs, a cursor that starts on a song of
      the album stays on one. */
  lemma {:induction false} AdvanceStaysInAlbum(i: int, length: nat, k: nat)
    requires 0 <= i < length
    ensures Advance(At(i), length, k).At? && 0 <= Advance(At(i), length, k).i < length
  {
    if k > 0 {
      AdvanceStaysInAlbum(i, length, k - 1);
      NextIndexWraps(Advance(At(i), length, k - 1).i, length);
    }
  }

  /** Before reaching the end, `k` calls of `playNext` move `k` songs on. */
  lemma {:induction false} AdvanceWithin(i: nat, length: nat, k: nat)
    requires i + k < length
    ensures Advance(At(i), length, k) == At(i + k)
  {
    if k > 0 {
      AdvanceWithin(i, length, k - 1);
      NextIndexWraps(i + k - 1, length);
    }
  }

  /** `a + b` calls are `a` calls followed by `b` calls. */
  lemma {:induction false} AdvanceAdd(index: Index, length: nat, a: nat, b: nat)
    ensures Advance(index, length, a + b) == Advance(Advance(index, length, a), length, b)
  {
    if b > 0 {
      AdvanceAdd(index, length, a, b - 1);
    }
  }

  /** A full round of `playNext` (one call per song) returns to the song it
      started from. */
  lemma FullRoundReturns(i: nat, length: nat)
    requires i < length
    ensures Advance(At(i), length, length) == At(i)
  {
    AdvanceAdd(At(i), length, length - i - 1, i + 1);
    AdvanceWithin(i, length, length - i - 1);
    assert Advance(At(length - 1), length, 1) == At(0) by {
      NextIndexWraps(length - 1, length);
    }
    AdvanceAdd(At(length - 1), length, 1, i);
    if i > 0 {
      AdvanceWithin(0, length, i);
    }
  }

  /** `playPrevious` then `playNext` returns to a song other than the first:
      the two are inverse on positive in-range indices. */
  lemma NextUndoesPrevious(i: int, length: nat)
    requires 0 < i < length
    ensures NextIndex(PreviousIndex(At(i)), length) == At(i)
  {
  }

  /** After `playNext` on a non-empty current album, starting in range, a
      current song exists. */
  lemma PlayNextKeepsASong(albums: seq<Album>, id: Option<Id>, i: int)
    requires FindAlbum(albums, id).Some?
    requires 0 <= i < |FindAlbum(albums, id).value.entries|
    ensures SongAt(FindAlbum(albums, id).value, NextIndex(At(i), |FindAlbum(albums, id).value.entries|)).Some?
  {
    NextIndexWraps(i, |FindAlbum(albums, id).value.entries|);
  }
}
