/** Cascading song deletion (`deleteSong` in src/utils/deleteSong.ts; the
    copy in src/utils/song.ts has the same text): favorites, then album
    links, then the song row, each step aborting the rest on error; then a
    best-effort removal of the cover and audio files whose failures become
    warnings. */
module DeleteSong {
  import opened Common
  import opened Catalog

  /** The backend's answer to each call `deleteSong` may issue. */
  datatype DeleteFaults = DeleteFaults(
    favorites: Option<string>, links: Option<string>, song: Option<string>,
    cover: Option<string>, audio: Option<string>)

  /** `{ success: true, warnings }` or `{ success: false, error }`;
      `warnings` is None (null) when no removal failed. */
  datatype DeleteResult = Deleted(warnings: Option<seq<string>>) | DeleteFailed(error: string)

  /** JavaScript truthiness of an optional path: undefined and '' are false. */
  predicate Truthy(p: Option<string>) { p.Some? && p.value != "" }

  /** The row deletes all succeed. */
  predicate RowsDeleted(f: DeleteFaults) {
    f.favorites.None? && f.links.None? && f.song.None?
  }

  /** The first row delete that fails, with its message. */
  function FirstRowError(f: DeleteFaults): (e: string)
    requires !RowsDeleted(f)
  {
    if f.favorites.Some? then f.favorites.value
    else if f.links.Some? then f.links.value
    else f.song.value
  }

  /** The row deletes issued: the chain stops at the first failing step. */
  function RowCalls(songId: Id, f: DeleteFaults): (r: seq<Call>)
    ensures 1 <= |r| <= 3 && r[0] == Call.DeleteFavoritesOfSong(songId)
    ensures |r| == 3 <==> f.favorites.None? && f.links.None?
    ensures |r| == 1 <==> f.favorites.Some?
    ensures |r| >= 2 ==> r[1] == Call.DeleteLinksOfSong(songId)
    ensures |r| == 3 ==> r[2] == Call.DeleteSongRow(songId)
  {
    [Call.DeleteFavoritesOfSong(songId)]
    + (if f.favorites.None? then [Call.DeleteLinksOfSong(songId)] else [])
    + (if f.favorites.None? && f.links.None? then [Call.DeleteSongRow(songId)] else [])
  }

  /** The blob removals issued: cover first, each only for a truthy path. */
  function RemovalCalls(coverPath: Option<string>, audioPath: Option<string>): (r: seq<Call>)
    ensures |r| <= 2
  {
    (if Truthy(coverPath) then [Remove(Blob(MusicImages, coverPath.value))] else [])
    + (if Truthy(audioPath) then [Remove(Blob(Music, audioPath.value))] else [])
  }

  /** One message per failed removal, cover before audio. */
  function RemovalWarnings(coverPath: Option<string>, audioPath: Option<string>, f: DeleteFaults): (r: seq<string>)
    ensures |r| <= |RemovalCalls(coverPath, audioPath)|
  {
    (if Truthy(coverPath) && f.cover.Some? then [f.cover.value] else [])
    + (if Truthy(audioPath) && f.audio.Some? then [f.audio.value] else [])
  }

  /** The blobs that are gone afterwards. */
  function RemovedBlobs(coverPath: Option<string>, audioPath: Option<string>, f: DeleteFaults): set<Blob> {
    (if Truthy(coverPath) && f.cover.None? then {Blob(MusicImages, coverPath.value)} else {})
    + (if Truthy(audioPath) && f.audio.None? then {Blob(Music, audioPath.value)} else {})
  }

  method DeleteSong(b: Backend, songId: Id, coverPath: Option<string>, audioPath: Option<string>, f: DeleteFaults)
    returns (r: DeleteResult)
    modifies b`favorites, b`albumSongs, b`songs, b`blobs, b`calls
    // the chain: which steps ran and the result
    ensures b.calls == old(b.calls) + RowCalls(songId, f)
                       + (if RowsDeleted(f) then RemovalCalls(coverPath, audioPath) else [])
    ensures r.DeleteFailed? <==> !RowsDeleted(f)
    ensures r.DeleteFailed? ==> r.error == FirstRowError(f)
    ensures r.Deleted? ==>
      var w := RemovalWarnings(coverPath, audioPath, f);
      r.warnings == if w == [] then None else Some(w)
    // which rows remain: the rows keyed by songId go at each step that ran
    // and succeeded, every other row stays
    ensures b.favorites == if f.favorites.None?
      then set x | x in old(b.favorites) && x.songId != songId else old(b.favorites)
    ensures b.albumSongs == if f.favorites.None? && f.links.None?
      then set x | x in old(b.albumSongs) && x.songId != songId else old(b.albumSongs)
    ensures b.songs == if RowsDeleted(f)
      then set x | x in old(b.songs) && x.id != songId else old(b.songs)
    // in particular: on success nothing references the song any more, and a
    // failed blob removal never turns success into failure
    ensures r.Deleted? ==>
      && (forall x :: x in b.favorites ==> x.songId != songId)
      && (forall x :: x in b.albumSongs ==> x.songId != songId)
      && (forall x :: x in b.songs ==> x.id != songId)
    ensures b.blobs == if RowsDeleted(f)
      then old(b.blobs) - RemovedBlobs(coverPath, audioPath, f) else old(b.blobs)
  {
    var err := b.DeleteFavoritesOfSong(songId, f.favorites);
    if err.Some? {
      return DeleteFailed(err.value);
    }
    err := b.DeleteLinksOfSong(songId, f.links);
    if err.Some? {
      return DeleteFailed(err.value);
    }
    err := b.DeleteSongRow(songId, f.song);
    if err.Some? {
      return DeleteFailed(err.value);
    }

    var errors: seq<string> := [];
    if Truthy(coverPath) {
      var coverErr := b.Remove(Blob(MusicImages, coverPath.value), f.cover);
      if coverErr.Some? {
        errors := errors + [coverErr.value];
      }
    }
    assert errors == if Truthy(coverPath) && f.cover.Some? then [f.cover.value] else [];
    if Truthy(audioPath) {
      var audioErr := b.Remove(Blob(Music, audioPath.value), f.audio);
      if audioErr.Some? {
        errors := errors + [audioErr.value];
      }
    }
    assert errors == RemovalWarnings(coverPath, audioPath, f);
    r := Deleted(if |errors| > 0 then Some(errors) else None);
  }
}
