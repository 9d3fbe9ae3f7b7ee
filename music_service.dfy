/** Read side of the catalog (src/services/musicService.ts): what the
    fetchers make of the rows a query returns. Queries are parameters (a
    `Query` is the `{ data, error }` a query resolves to), and the result of
    `getPublicUrl(bucket, path)` is kept symbolic, as the pair it is
    computed from. */
module MusicService {
  import opened Common
  import opened Catalog

  /** `getPublicUrl(bucket, path).data.publicUrl`; None stands for a null
      path. */
  datatype Url = PublicUrl(bucket: Bucket, path: Option<string>)

  datatype Query<T> = QueryOk(data: T) | QueryError(message: string)

  /** A song row with its derived `musicUrl` and `coverUrl`. */
  datatype Song = Song(row: SongRow, musicUrl: Url, coverUrl: Url)

  /** `{ ...song, musicUrl, coverUrl }` */
  function WithUrls(row: SongRow): (s: Song)
    ensures s.row == row
    ensures s.musicUrl == PublicUrl(Music, Some(row.musicPath))
    ensures s.coverUrl == PublicUrl(MusicImages, Some(row.imagePath))
  {
    Song(row, PublicUrl(Music, Some(row.musicPath)), PublicUrl(MusicImages, Some(row.imagePath)))
  }

  /** `data.map(song => ({ ...song, musicUrl, coverUrl }))` */
  function AllWithUrls(rows: seq<SongRow>): (r: seq<Song>)
    ensures |r| == |rows|
    ensures forall i :: 0 <= i < |r| ==> r[i].row == rows[i]
  {
    seq(|rows|, i requires 0 <= i < |rows| => WithUrls(rows[i]))
  }

  /** `fetchAllSongs` rethrows a query error. */
  datatype Fetched<T> = Returned(value: T) | Thrown(message: string)

  function FetchAllSongs(q: Query<seq<SongRow>>): (r: Fetched<seq<Song>>)
    ensures q.QueryError? ==> r == Thrown(q.message)
    ensures q.QueryOk? ==> r.Returned? && |r.value| == |q.data|
    ensures q.QueryOk? ==> forall i :: 0 <= i < |q.data| ==>
      r.value[i].row == q.data[i] && r.value[i].musicUrl == PublicUrl(Music, Some(q.data[i].musicPath))
      && r.value[i].coverUrl == PublicUrl(MusicImages, Some(q.data[i].imagePath))
  {
    match q
    case QueryError(m) => Thrown(m)
    case QueryOk(rows) => Returned(AllWithUrls(rows))
  }

  // ---- albums ----

  /** The joined `songs` of an `album_song` row: an object or an array. */
  datatype Joined = Single(song: SongRow) | Many(songs: seq<SongRow>)

  /** `Array.isArray(songs) ? songs[0] : songs`; an empty array gives
      undefined, and reading its paths then throws (None). */
  function BaseSong(j: Joined): (r: Option<SongRow>)
    ensures j.Single? ==> r == Some(j.song)
    ensures j.Many? ==> (r.Some? <==> j.songs != []) && (r.Some? ==> r.value == j.songs[0])
  {
    match j
    case Single(s) => Some(s)
    case Many(ss) => if ss == [] then None else Some(ss[0])
  }

  /** A joined `album_song` row; `orderIndex` is None when the column is null
      or, for `fetchAllAlbums`, not selected. */
  datatype JoinedEntry = JoinedEntry(songId: Id, orderIndex: Option<int>, songs: Joined)

  /** An album row with its joined links, as the query returns it. */
  datatype AlbumData = AlbumData(id: Id, name: string, description: Option<string>, coverImage: Option<string>,
                                 entries: seq<JoinedEntry>)

  /** `{ songid, order_index, songs }` of a returned album. */
  datatype AlbumEntry = AlbumEntry(songId: Id, orderIndex: Option<int>, song: Song)

  datatype AlbumView = AlbumView(id: Id, name: string, description: Option<string>, coverImage: Option<string>,
                                 coverUrl: Url, entries: seq<AlbumEntry>)

  predicate EntryOf(e: AlbumEntry, j: JoinedEntry) {
    BaseSong(j.songs).Some? && e == AlbumEntry(j.songId, j.orderIndex, WithUrls(BaseSong(j.songs).value))
  }

  /** `album_song.map(...)`: None when some entry has an empty `songs` array. */
  function MapEntries(js: seq<JoinedEntry>): (r: Option<seq<AlbumEntry>>)
    ensures r.Some? <==> forall i :: 0 <= i < |js| ==> BaseSong(js[i].songs).Some?
    ensures r.Some? ==> |r.value| == |js| && forall i :: 0 <= i < |js| ==> EntryOf(r.value[i], js[i])
  {
    if js == [] then Some([])
    else
      var head := BaseSong(js[0].songs);
      var tail := MapEntries(js[1..]);
      if head.None? || tail.None? then
        (if head.Some? then
           var k :| 0 <= k < |js[1..]| && BaseSong(js[1..][k].songs).None?;
           assert BaseSong(js[k + 1].songs).None?;
           None
         else None)
      else
        var e := AlbumEntry(js[0].songId, js[0].orderIndex, WithUrls(head.value));
        assert forall i :: 1 <= i < |js| ==> EntryOf(([e] + tail.value)[i], js[i]) by {
          assert forall i :: 1 <= i < |js| ==> ([e] + tail.value)[i] == tail.value[i - 1] && js[i] == js[1..][i - 1];
        }
        Some([e] + tail.value)
  }

  function View(a: AlbumData, entries: seq<AlbumEntry>): AlbumView {
    AlbumView(a.id, a.name, a.description, a.coverImage, PublicUrl(MusicImages, a.coverImage), entries)
  }

  /** The albums of `fetchAllAlbums`, or None when one of them throws. */
  function ViewAll(albums: seq<AlbumData>): (r: Option<seq<AlbumView>>)
    ensures r.Some? <==> forall i :: 0 <= i < |albums| ==> MapEntries(albums[i].entries).Some?
    ensures r.Some? ==> |r.value| == |albums| && forall i :: 0 <= i < |albums| ==>
      r.value[i] == View(albums[i], MapEntries(albums[i].entries).value)
  {
    if forall i :: 0 <= i < |albums| ==> MapEntries(albums[i].entries).Some? then
      Some(seq(|albums|, i requires 0 <= i < |albums| && MapEntries(albums[i].entries).Some? =>
                           View(albums[i], MapEntries(albums[i].entries).value)))
    else None
  }

  /** `fetchAllAlbums`: any error, from the query or from an entry, yields []. */
  function FetchAllAlbums(q: Query<seq<AlbumData>>): (r: seq<AlbumView>)
    ensures q.QueryError? ==> r == []
    ensures q.QueryOk? && ViewAll(q.data).Some? ==> r == ViewAll(q.data).value && |r| == |q.data|
    ensures q.QueryOk? && ViewAll(q.data).None? ==> r == []
  {
    match q
    case QueryError(_) => []
    case QueryOk(albums) =>
      var v := ViewAll(albums);
      if v.Some? then v.value else []
  }

  /** The key `(a, b) => a.order_index - b.order_index` compares by: a null
      order_index counts as 0 in JavaScript subtraction. */
  function Key(e: AlbumEntry): int {
    e.orderIndex.GetOr(0)
  }

  predicate SortedByOrder(s: seq<AlbumEntry>) {
    forall p, q :: 0 <= p < q < |s| ==> Key(s[p]) <= Key(s[q])
  }

  /** During a pass: the keys of `s[..i + 1]` are in order once the entry at
      `j`, the one being moved, is left out. */
  predicate SortedAround(s: seq<AlbumEntry>, j: nat, i: nat)
    requires j <= i < |s|
  {
    forall p, q :: 0 <= p < q <= i && p != j && q != j ==> Key(s[p]) <= Key(s[q])
  }

  /** During a pass: the entry being moved is no larger than any entry after
      it in `s[..i + 1]`. */
  predicate BelowFollowing(s: seq<AlbumEntry>, j: nat, i: nat)
    requires j <= i < |s|
  {
    forall q :: j < q <= i ==> Key(s[j]) <= Key(s[q])
  }

  /** Swapping the moved entry with a larger left neighbour keeps both facts,
      one position further left. */
  lemma SwapStep(s: seq<AlbumEntry>, j: nat, i: nat)
    requires 0 < j <= i < |s|
    requires SortedAround(s, j, i) && BelowFollowing(s, j, i)
    requires Key(s[j - 1]) > Key(s[j])
    ensures var t := s[j - 1 := s[j]][j := s[j - 1]];
      SortedAround(t, j - 1, i) && BelowFollowing(t, j - 1, i)
  {
  }

  /** A pass ends with the prefix sorted: the moved entry has reached the
      front or an entry no larger than it. */
  lemma StepDone(s: seq<AlbumEntry>, j: nat, i: nat)
    requires j <= i < |s|
    requires SortedAround(s, j, i) && BelowFollowing(s, j, i)
    requires j == 0 || Key(s[j - 1]) <= Key(s[j])
    ensures SortedByOrder(s[..i + 1])
  {
  }

  /** One pass of the insertion sort: moves `a[i]` left past every larger
      key, so that the sorted prefix grows by one. */
  method InsertionStep(a: array<AlbumEntry>, i: nat)
    requires i < a.Length && SortedByOrder(a[..i])
    modifies a
    ensures SortedByOrder(a[..i + 1])
    ensures a[i + 1..] == old(a[i + 1..])
    ensures multiset(a[..]) == old(multiset(a[..]))
  {
    var j := i;
    assert SortedAround(a[..], j, i) by {
      assert forall p :: 0 <= p < i ==> a[..i][p] == a[p];
    }
    while j > 0 && Key(a[j - 1]) > Key(a[j])
      invariant 0 <= j <= i
      invariant SortedAround(a[..], j, i) && BelowFollowing(a[..], j, i)
      invariant a[i + 1..] == old(a[i + 1..])
      invariant multiset(a[..]) == old(multiset(a[..]))
    {
      ghost var before := a[..];
      SwapStep(before, j, i);
      a[j - 1], a[j] := a[j], a[j - 1];
      assert a[..] == before[j - 1 := before[j]][j := before[j - 1]];
      j := j - 1;
    }
    StepDone(a[..], j, i);
    assert a[..][..i + 1] == a[..i + 1];
  }

  /** `album_song.sort(...)`, in place: an insertion sort by adjacent swaps. */
  method SortByOrderIndex(a: array<AlbumEntry>)
    modifies a
    ensures SortedByOrder(a[..])
    ensures multiset(a[..]) == old(multiset(a[..]))
  {
    var i := 0;
    while i < a.Length
      invariant i <= a.Length
      invariant SortedByOrder(a[..i])
      invariant multiset(a[..]) == old(multiset(a[..]))
    {
      InsertionStep(a, i);
      i := i + 1;
    }
    assert a[..a.Length] == a[..];
  }

  /** `fetchAlbumById`: None on a query error (including no or several
      matching albums) and when an entry throws; otherwise the album with
      its entries sorted ascending by order_index. */
  method FetchAlbumById(q: Query<AlbumData>) returns (r: Option<AlbumView>)
    ensures q.QueryError? ==> r.None?
    ensures q.QueryOk? ==> (r.Some? <==> MapEntries(q.data.entries).Some?)
    ensures r.Some? ==>
      var mapped := MapEntries(q.data.entries).value;
      && r.value.id == q.data.id && r.value.name == q.data.name
      && r.value.description == q.data.description && r.value.coverImage == q.data.coverImage
      && r.value.coverUrl == PublicUrl(MusicImages, q.data.coverImage)
      && SortedByOrder(r.value.entries)
      && multiset(r.value.entries) == multiset(mapped)
  {
    if q.QueryError? {
      return None;
    }
    var mapped := MapEntries(q.data.entries);
    if mapped.None? {
      return None;
    }
    var entries := mapped.value;
    var a := new AlbumEntry[|entries|](i requires 0 <= i < |entries| => entries[i]);
    assert a[..] == entries;
    SortByOrderIndex(a);
    r := Some(View(q.data, a[..]));
  }

  /** `{ songid, songs }` of the favorites record. */
  datatype FavoriteEntry = FavoriteEntry(songId: Id, song: Song)

  /** `getFavoriteSongs` returns `[]` or, despite its declared array type, a
      single album-shaped record with id `favorites`. */
  datatype Favorites = NoFavorites | FavoritesAlbum(id: string, name: string, description: string,
                                                    entries: seq<FavoriteEntry>)

  function FavoriteEntries(rows: seq<SongRow>): (r: seq<FavoriteEntry>)
    ensures |r| == |rows|
    ensures forall i :: 0 <= i < |r| ==> r[i].songId == rows[i].id && r[i].song == WithUrls(rows[i])
  {
    seq(|rows|, i requires 0 <= i < |rows| => FavoriteEntry(rows[i].id, WithUrls(rows[i])))
  }

  /** `getFavoriteSongs`: with no ids the query result is never looked at. */
  function GetFavoriteSongs(favoriteSongIds: seq<Id>, q: Query<seq<SongRow>>): (r: Favorites)
    ensures favoriteSongIds == [] ==> r == NoFavorites
    ensures q.QueryError? ==> r == NoFavorites
    ensures favoriteSongIds != [] && q.QueryOk? ==>
      && r.FavoritesAlbum? && r.id == "favorites"
      && r.name == "Favorite Songs" && r.description == "All your favorite songs in one place"
      && |r.entries| == |q.data|
      && forall i :: 0 <= i < |q.data| ==>
           && r.entries[i].songId == q.data[i].id && r.entries[i].song.row == q.data[i]
           && r.entries[i].song.musicUrl == PublicUrl(Music, Some(q.data[i].musicPath))
           && r.entries[i].song.coverUrl == PublicUrl(MusicImages, Some(q.data[i].imagePath))
  {
    if |favoriteSongIds| == 0 then NoFavorites
    else match q
      case QueryError(_) => NoFavorites
      case QueryOk(rows) =>
        FavoritesAlbum("favorites", "Favorite Songs", "All your favorite songs in one place",
                       FavoriteEntries(rows))
  }

  /** `fetchSongById`: None on any error, including no or several rows. */
  function FetchSongById(q: Query<SongRow>): (r: Option<Song>)
    ensures r.None? <==> q.QueryError?
    ensures r.Some? ==> r.value.row == q.data
    ensures r.Some? ==> r.value.musicUrl == PublicUrl(Music, Some(q.data.musicPath))
    ensures r.Some? ==> r.value.coverUrl == PublicUrl(MusicImages, Some(q.data.imagePath))
  {
    match q
    case QueryError(_) => None
    case QueryOk(row) => Some(WithUrls(row))
  }
}
