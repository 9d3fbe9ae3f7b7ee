/** The hosted backend the dashboard talks to, reduced to what the modelled
    code relies on: four tables held as sets of rows, the two storage buckets
    held as a set of stored paths, and the log of external calls issued, in
    order. Every call takes a `fault` argument: None means the backend
    accepts the call and applies it; Some(message) means it answers with
    that error message and changes nothing. */
module Catalog {
  import opened Common

  type Id = nat

  /** A row of `favorites`. */
  datatype FavoriteRow = FavoriteRow(userId: string, songId: Id)

  /** A row of `album_song`; `orderIndex` is None for links inserted without
      one (the column is then null). */
  datatype AlbumSongRow = AlbumSongRow(songId: Id, albumId: Id, orderIndex: Option<int>)

  /** A row of `songs`. */
  datatype SongRow = SongRow(id: Id, title: string, artist: string, musicPath: string, imagePath: string)

  /** A row of `albums`; `description` and `cover-image` may be null. */
  datatype AlbumRow = AlbumRow(id: Id, name: string, description: Option<string>, coverImage: Option<string>)

  /** The storage buckets `music` and `music-images`. */
  datatype Bucket = Music | MusicImages

  datatype Blob = Blob(bucket: Bucket, path: string)

  /** An uploaded file; only its name matters to the modelled code. */
  datatype File = File(name: string)

  /** The external calls, as the backend receives them. */
  datatype Call =
    | DeleteFavoritesOfSong(songId: Id)
    | DeleteFavorite(userId: string, songId: Id)
    | InsertFavorite(userId: string, songId: Id)
    | DeleteLinksOfSong(songId: Id)
    | InsertLinks(links: seq<AlbumSongRow>)
    | DeleteSongRow(id: Id)
    | InsertSongRow(song: SongRow)
    | UpdateSongRow(id: Id, title: Option<string>, artist: Option<string>)
    | InsertAlbumRow(album: AlbumRow)
    | UpdateAlbumRow(id: Id, name: string, description: Option<string>, coverImage: Option<string>)
    | Upload(blob: Blob)
    | Remove(blob: Blob)

  /** A link row as the dashboard inserts it: `{ songid, albumid }`. */
  function Link(songId: Id, albumId: Id): AlbumSongRow {
    AlbumSongRow(songId, albumId, None)
  }

  /** One link row per album id, in the order of the ids. */
  function LinksFor(songId: Id, albumIds: seq<Id>): (r: seq<AlbumSongRow>)
    ensures |r| == |albumIds|
    ensures forall i :: 0 <= i < |r| ==> r[i] == Link(songId, albumIds[i])
  {
    if albumIds == [] then [] else [Link(songId, albumIds[0])] + LinksFor(songId, albumIds[1..])
  }

  function SongWithUpdates(row: SongRow, title: Option<string>, artist: Option<string>): SongRow {
    row.(title := title.GetOr(row.title), artist := artist.GetOr(row.artist))
  }

  function AlbumWithUpdates(row: AlbumRow, name: string, description: Option<string>, coverImage: Option<string>): AlbumRow {
    row.(name := name, description := description, coverImage := if coverImage.Some? then coverImage else row.coverImage)
  }

  class Backend {
    var favorites: set<FavoriteRow>
    var albumSongs: set<AlbumSongRow>
    var songs: set<SongRow>
    var albums: set<AlbumRow>
    var blobs: set<Blob>
    var calls: seq<Call>

    constructor (favorites: set<FavoriteRow>, albumSongs: set<AlbumSongRow>, songs: set<SongRow>,
                 albums: set<AlbumRow>, blobs: set<Blob>)
      ensures this.favorites == favorites && this.albumSongs == albumSongs && this.songs == songs
      ensures this.albums == albums && this.blobs == blobs && calls == []
    {
      this.favorites, this.albumSongs, this.songs := favorites, albumSongs, songs;
      this.albums, this.blobs, calls := albums, blobs, [];
    }

    /** `from('favorites').delete().eq('song_id', songId)` */
    method DeleteFavoritesOfSong(songId: Id, fault: Option<string>) returns (err: Option<string>)
      modifies this`favorites, this`calls
      ensures err == fault && calls == old(calls) + [Call.DeleteFavoritesOfSong(songId)]
      ensures favorites == if fault.None? then set x | x in old(favorites) && x.songId != songId else old(favorites)
    {
      calls := calls + [Call.DeleteFavoritesOfSong(songId)];
      err := fault;
      if fault.None? {
        favorites := set x | x in favorites && x.songId != songId;
      }
    }

    /** `from('favorites').delete().eq('user_id', userId).eq('song_id', songId)` */
    method DeleteFavorite(userId: string, songId: Id, fault: Option<string>) returns (err: Option<string>)
      modifies this`favorites, this`calls
      ensures err == fault && calls == old(calls) + [Call.DeleteFavorite(userId, songId)]
      ensures favorites == if fault.None? then old(favorites) - {FavoriteRow(userId, songId)} else old(favorites)
    {
      calls := calls + [Call.DeleteFavorite(userId, songId)];
      err := fault;
      if fault.None? {
        favorites := favorites - {FavoriteRow(userId, songId)};
      }
    }

    /** `from('favorites').insert({ user_id, song_id })` */
    method InsertFavorite(userId: string, songId: Id, fault: Option<string>) returns (err: Option<string>)
      modifies this`favorites, this`calls
      ensures err == fault && calls == old(calls) + [Call.InsertFavorite(userId, songId)]
      ensures favorites == if fault.None? then old(favorites) + {FavoriteRow(userId, songId)} else old(favorites)
    {
      calls := calls + [Call.InsertFavorite(userId, songId)];
      err := fault;
      if fault.None? {
        favorites := favorites + {FavoriteRow(userId, songId)};
      }
    }

    /** `from('album_song').delete().eq('songid', songId)` */
    method DeleteLinksOfSong(songId: Id, fault: Option<string>) returns (err: Option<string>)
      modifies this`albumSongs, this`calls
      ensures err == fault && calls == old(calls) + [Call.DeleteLinksOfSong(songId)]
      ensures albumSongs == if fault.None? then set x | x in old(albumSongs) && x.songId != songId else old(albumSongs)
    {
      calls := calls + [Call.DeleteLinksOfSong(songId)];
      err := fault;
      if fault.None? {
        albumSongs := set x | x in albumSongs && x.songId != songId;
      }
    }

    /** `from('album_song').insert(links)`: all rows or none. */
    method InsertLinks(links: seq<AlbumSongRow>, fault: Option<string>) returns (err: Option<string>)
      modifies this`albumSongs, this`calls
      ensures err == fault && calls == old(calls) + [Call.InsertLinks(links)]
      ensures albumSongs == if fault.None? then old(albumSongs) + set x | x in links else old(albumSongs)
    {
      calls := calls + [Call.InsertLinks(links)];
      err := fault;
      if fault.None? {
        albumSongs := albumSongs + set x | x in links;
      }
    }

    /** `from('songs').delete().eq('id', id)` */
    method DeleteSongRow(id: Id, fault: Option<string>) returns (err: Option<string>)
      modifies this`songs, this`calls
      ensures err == fault && calls == old(calls) + [Call.DeleteSongRow(id)]
      ensures songs == if fault.None? then set x | x in old(songs) && x.id != id else old(songs)
    {
      calls := calls + [Call.DeleteSongRow(id)];
      err := fault;
      if fault.None? {
        songs := set x | x in songs && x.id != id;
      }
    }

    /** `from('songs').insert(row).select().single()` */
    method InsertSongRow(row: SongRow, fault: Option<string>) returns (err: Option<string>)
      modifies this`songs, this`calls
      ensures err == fault && calls == old(calls) + [Call.InsertSongRow(row)]
      ensures songs == if fault.None? then old(songs) + {row} else old(songs)
    {
      calls := calls + [Call.InsertSongRow(row)];
      err := fault;
      if fault.None? {
        songs := songs + {row};
      }
    }

    /** `from('songs').update(updates).eq('id', id)`; a None field is absent
        from `updates` and keeps its value. */
    method UpdateSongRow(id: Id, title: Option<string>, artist: Option<string>, fault: Option<string>)
      returns (err: Option<string>)
      modifies this`songs, this`calls
      ensures err == fault && calls == old(calls) + [Call.UpdateSongRow(id, title, artist)]
      ensures songs == if fault.None?
        then set x | x in old(songs) :: if x.id == id then SongWithUpdates(x, title, artist) else x
        else old(songs)
    {
      calls := calls + [Call.UpdateSongRow(id, title, artist)];
      err := fault;
      if fault.None? {
        songs := set x | x in songs :: if x.id == id then SongWithUpdates(x, title, artist) else x;
      }
    }

    /** `from('albums').insert(row)` */
    method InsertAlbumRow(row: AlbumRow, fault: Option<string>) returns (err: Option<string>)
      modifies this`albums, this`calls
      ensures err == fault && calls == old(calls) + [Call.InsertAlbumRow(row)]
      ensures albums == if fault.None? then old(albums) + {row} else old(albums)
    {
      calls := calls + [Call.InsertAlbumRow(row)];
      err := fault;
      if fault.None? {
        albums := albums + {row};
      }
    }

    /** `from('albums').update(updateData).eq('id', id)`; `coverImage` None
        means `updateData` has no `cover-image` key. */
    method UpdateAlbumRow(id: Id, name: string, description: Option<string>, coverImage: Option<string>,
                          fault: Option<string>) returns (err: Option<string>)
      modifies this`albums, this`calls
      ensures err == fault && calls == old(calls) + [Call.UpdateAlbumRow(id, name, description, coverImage)]
      ensures albums == if fault.None?
        then set x | x in old(albums) :: if x.id == id then AlbumWithUpdates(x, name, description, coverImage) else x
        else old(albums)
    {
      calls := calls + [Call.UpdateAlbumRow(id, name, description, coverImage)];
      err := fault;
      if fault.None? {
        albums := set x | x in albums :: if x.id == id then AlbumWithUpdates(x, name, description, coverImage) else x;
      }
    }

    /** `storage.from(bucket).upload(path, file, { upsert: true })` */
    method Upload(blob: Blob, fault: Option<string>) returns (err: Option<string>)
      modifies this`blobs, this`calls
      ensures err == fault && calls == old(calls) + [Call.Upload(blob)]
      ensures blobs == if fault.None? then old(blobs) + {blob} else old(blobs)
    {
      calls := calls + [Call.Upload(blob)];
      err := fault;
      if fault.None? {
        blobs := blobs + {blob};
      }
    }

    /** `storage.from(bucket).remove([path])` */
    method Remove(blob: Blob, fault: Option<string>) returns (err: Option<string>)
      modifies this`blobs, this`calls
      ensures err == fault && calls == old(calls) + [Call.Remove(blob)]
      ensures blobs == if fault.None? then old(blobs) - {blob} else old(blobs)
    {
      calls := calls + [Call.Remove(blob)];
      err := fault;
      if fault.None? {
        blobs := blobs - {blob};
      }
    }
  }
}
