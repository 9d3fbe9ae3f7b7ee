/** Song creation and editing (src/utils/song.ts): `sanitizeFilename`, the
    `addSong` chain (audio upload, cover upload, row insert, album links) and
    the `updateSong` chain (partial row update, then replacement of the
    song's album links). The `deleteSong` copy in this file is modelled by
    module DeleteSong. */
module Song {
  import opened Common
  import opened Catalog

  /** The characters `/[^\w.\-]/gi` leaves alone: ASCII letters, digits,
      '_', '.' and '-'. */
  predicate FilenameChar(c: char) {
    'a' <= c <= 'z' || 'A' <= c <= 'Z' || IsDigit(c) || c == '_' || c == '.' || c == '-'
  }

  /** `sanitizeFilename`: each other character becomes '_'. */
  function SanitizeFilename(name: string): (r: string)
    ensures |r| == |name|
    ensures forall i :: 0 <= i < |r| ==> FilenameChar(r[i])
    ensures forall i :: 0 <= i < |name| ==> r[i] == (if FilenameChar(name[i]) then name[i] else '_')
  {
    seq(|name|, i requires 0 <= i < |name| => if FilenameChar(name[i]) then name[i] else '_')
  }

  /** A name made only of allowed characters is left unchanged. */
  lemma SanitizeCleanName(name: string)
    requires forall i :: 0 <= i < |name| ==> FilenameChar(name[i])
    ensures SanitizeFilename(name) == name
  {
  }

  /** Sanitizing twice is sanitizing once. */
  lemma SanitizeIdempotent(name: string)
    ensures SanitizeFilename(SanitizeFilename(name)) == SanitizeFilename(name)
  {
    SanitizeCleanName(SanitizeFilename(name));
  }

  /** `tracks/<ts>_<sanitized name>` */
  function TrackPath(timestamp: nat, file: File): string {
    "tracks/" + NatToString(timestamp) + "_" + SanitizeFilename(file.name)
  }

  /** `covers/<ts>_<sanitized name>` */
  function CoverPath(timestamp: nat, file: File): string {
    "covers/" + NatToString(timestamp) + "_" + SanitizeFilename(file.name)
  }

  /** Both paths carry the same timestamp, followed by '_'. */
  lemma PathsShareTimestamp(timestamp: nat, songFile: File, coverFile: File)
    ensures var ts := NatToString(timestamp);
      && TrackPath(timestamp, songFile)[7..7 + |ts|] == ts
      && CoverPath(timestamp, coverFile)[7..7 + |ts|] == ts
      && TrackPath(timestamp, songFile)[7 + |ts|] == '_'
      && CoverPath(timestamp, coverFile)[7 + |ts|] == '_'
  {
  }

  /** The timestamp can be read back from a stored track path: the digits
      after `tracks/` are exactly `Date.now()` at upload. */
  lemma TrackPathTimestamp(timestamp: nat, songFile: File)
    ensures DigitsValue(LeadingDigits(TrackPath(timestamp, songFile)[7..])) == timestamp
  {
    var ts := NatToString(timestamp);
    var rest := "_" + SanitizeFilename(songFile.name);
    assert TrackPath(timestamp, songFile)[7..] == ts + rest;
    LeadingDigitsOf(ts, rest);
    NatToStringRoundTrip(timestamp);
  }

  /** The backend's answer to each call `addSong` may issue. */
  datatype AddFaults = AddFaults(audioUpload: Option<string>, coverUpload: Option<string>,
                                 insert: Option<string>, links: Option<string>)

  datatype AddResult = Added(song: SongRow) | AddFailed(error: string)

  /** `addSong`: `timestamp` is `Date.now()`, `newId` the id the backend
      gives the inserted row. */
  method AddSong(b: Backend, title: string, artist: string, songFile: File, coverFile: File,
                 albumIds: seq<Id>, timestamp: nat, newId: Id, f: AddFaults) returns (r: AddResult)
    modifies b`albumSongs, b`songs, b`blobs, b`calls
    ensures var track := Blob(Music, TrackPath(timestamp, songFile));
            var cover := Blob(MusicImages, CoverPath(timestamp, coverFile));
            var row := SongRow(newId, title, artist, track.path, cover.path);
            var links := LinksFor(newId, albumIds);
      // which steps ran, in order
      && b.calls == old(b.calls) + [Upload(track)]
           + (if f.audioUpload.None? then [Upload(cover)] else [])
           + (if f.audioUpload.None? && f.coverUpload.None? then [InsertSongRow(row)] else [])
           + (if f.audioUpload.None? && f.coverUpload.None? && f.insert.None? && albumIds != []
              then [InsertLinks(links)] else [])
      // the result
      && (r.Added? <==> f.audioUpload.None? && f.coverUpload.None? && f.insert.None?
                        && (albumIds == [] || f.links.None?))
      && (r.Added? ==> r.song == row)
      && (r.AddFailed? ==>
            r.error == (if f.audioUpload.Some? then f.audioUpload.value
                        else if f.coverUpload.Some? then f.coverUpload.value
                        else if f.insert.Some? then f.insert.value
                        else f.links.value))
      // the new state: nothing is rolled back after a later failure
      && b.blobs == old(b.blobs)
           + (if f.audioUpload.None? then {track} else {})
           + (if f.audioUpload.None? && f.coverUpload.None? then {cover} else {})
      && b.songs == old(b.songs)
           + (if f.audioUpload.None? && f.coverUpload.None? && f.insert.None? then {row} else {})
      && b.albumSongs == old(b.albumSongs)
           + (if f.audioUpload.None? && f.coverUpload.None? && f.insert.None? && f.links.None?
              then set x | x in links else {})
  {
    var track := Blob(Music, TrackPath(timestamp, songFile));
    var cover := Blob(MusicImages, CoverPath(timestamp, coverFile));

    var err := b.Upload(track, f.audioUpload);
    if err.Some? {
      return AddFailed(err.value);
    }
    err := b.Upload(cover, f.coverUpload);
    if err.Some? {
      return AddFailed(err.value);
    }
    var row := SongRow(newId, title, artist, track.path, cover.path);
    err := b.InsertSongRow(row, f.insert);
    if err.Some? {
      return AddFailed(err.value);
    }
    if |albumIds| > 0 {
      var links := LinksFor(row.id, albumIds);
      err := b.InsertLinks(links, f.links);
      if err.Some? {
        return AddFailed(err.value);
      }
    }
    r := Added(row);
  }

  /** The backend's answer to each call `updateSong` may issue. */
  datatype UpdateFaults = UpdateFaults(update: Option<string>, unlink: Option<string>, link: Option<string>)

  datatype UpdateResult = Updated | UpdateFailed(error: string)

  /** A form field as `if (title)` reads it: absent or empty means "not given". */
  function Given(field: Option<string>): (r: Option<string>)
    ensures r.Some? <==> field.Some? && field.value != ""
    ensures r.Some? ==> r == field
  {
    if field.Some? && field.value != "" then field else None
  }

  /** `updateSong`: only given fields are written and no update is issued when
      none is given; a non-empty album list replaces all of the song's links,
      an empty one leaves them alone. */
  method UpdateSong(b: Backend, id: Id, title: Option<string>, artist: Option<string>, albums: seq<Id>,
                    f: UpdateFaults) returns (r: UpdateResult)
    modifies b`albumSongs, b`songs, b`calls
    ensures var t, a := Given(title), Given(artist);
            var updates := t.Some? || a.Some?;
            var updated := !updates || f.update.None?;
      && b.calls == old(b.calls)
           + (if updates then [UpdateSongRow(id, t, a)] else [])
           + (if updated && albums != [] then [DeleteLinksOfSong(id)] else [])
           + (if updated && albums != [] && f.unlink.None? then [InsertLinks(LinksFor(id, albums))] else [])
      && (r.Updated? <==> updated && (albums == [] || (f.unlink.None? && f.link.None?)))
      && (r.UpdateFailed? ==>
            r.error == (if !updated then f.update.value else if f.unlink.Some? then f.unlink.value else f.link.value))
      && b.songs == (if updates && f.update.None?
           then set x | x in old(b.songs) :: if x.id == id then SongWithUpdates(x, t, a) else x
           else old(b.songs))
      && b.albumSongs == (
           if !updated || albums == [] || f.unlink.Some? then old(b.albumSongs)
           else (set x | x in old(b.albumSongs) && x.songId != id)
                + (if f.link.None? then set x | x in LinksFor(id, albums) else {}))
  {
    var t, a := Given(title), Given(artist);
    if t.Some? || a.Some? {
      var err := b.UpdateSongRow(id, t, a, f.update);
      if err.Some? {
        return UpdateFailed(err.value);
      }
    }
    if |albums| > 0 {
      var err := b.DeleteLinksOfSong(id, f.unlink);
      if err.Some? {
        return UpdateFailed(err.value);
      }
      err := b.InsertLinks(LinksFor(id, albums), f.link);
      if err.Some? {
        return UpdateFailed(err.value);
      }
    }
    r := Updated;
  }

  /** After a successful re-link the song is linked to exactly the given
      albums: every old link of the song is gone, and other songs' links are
      untouched. */
  lemma RelinkedExactly(old_links: set<AlbumSongRow>, id: Id, albums: seq<Id>, x: AlbumSongRow)
    ensures var now := (set y | y in old_links && y.songId != id) + (set y | y in LinksFor(id, albums));
      && (x in now && x.songId == id <==> x.orderIndex.None? && x.songId == id && x.albumId in albums)
      && (x.songId != id ==> (x in now <==> x in old_links))
  {
    var links := LinksFor(id, albums);
    if x.songId == id && x.orderIndex.None? && x.albumId in albums {
      var i :| 0 <= i < |albums| && albums[i] == x.albumId;
      assert links[i] == x;
    }
  }
}
