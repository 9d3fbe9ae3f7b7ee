/** The add-song form (src/app/addSong/page.tsx): the album selection it
    keeps, and the upload chain its submit handler runs. Unlike `addSong`
    in src/utils/song.ts, the handler uses the raw file names and always
    issues the link insert. */
module AddSongPage {
  import opened Common
  import opened Catalog
  import Song

  /** `toggleAlbum`: deselect an album that is selected (every copy of it),
      else select it at the end. */
  function ToggleAlbum(selected: seq<Id>, id: Id): (r: seq<Id>)
    ensures id in r <==> id !in selected
    ensures forall x :: x != id ==> (x in r <==> x in selected)
    ensures id !in selected ==> r == selected + [id]
    ensures id in selected ==> r == Without(selected, id)
  {
    if id in selected then Without(selected, id) else selected + [id]
  }

  /** Toggling never creates a duplicate selection. */
  lemma ToggleKeepsNoDuplicates(selected: seq<Id>, id: Id)
    requires NoDuplicates(selected)
    ensures NoDuplicates(ToggleAlbum(selected, id))
  {
    if id in selected {
      WithoutKeepsNoDuplicates(selected, id);
    } else {
      assert forall i :: 0 <= i < |selected| ==> selected[i] != id;
    }
  }

  /** Selecting an album and deselecting it again restores the selection. */
  lemma ToggleTwiceRestores(selected: seq<Id>, id: Id)
    requires id !in selected
    ensures ToggleAlbum(ToggleAlbum(selected, id), id) == selected
  {
    WithoutAppend(selected, [id], id);
    assert Without([id], id) == [];
    WithoutAbsent(selected, id);
    assert selected + [] == selected;
  }

  /** `tracks/<ts>_<name>`, the file name as given. */
  function RawTrackPath(timestamp: nat, file: File): string {
    "tracks/" + NatToString(timestamp) + "_" + file.name
  }

  /** `covers/<ts>_<name>`, the file name as given. */
  function RawCoverPath(timestamp: nat, file: File): string {
    "covers/" + NatToString(timestamp) + "_" + file.name
  }

  /** The page and `addSong` store a file at the same path exactly when its
      name needs no sanitizing. */
  lemma RawPathsAgreeWithAddSong(timestamp: nat, songFile: File, coverFile: File)
    ensures RawTrackPath(timestamp, songFile) == Song.TrackPath(timestamp, songFile)
            <==> Song.SanitizeFilename(songFile.name) == songFile.name
    ensures RawCoverPath(timestamp, coverFile) == Song.CoverPath(timestamp, coverFile)
            <==> Song.SanitizeFilename(coverFile.name) == coverFile.name
  {
    var track := "tracks/" + NatToString(timestamp) + "_";
    assert RawTrackPath(timestamp, songFile) == track + songFile.name;
    assert Song.TrackPath(timestamp, songFile) == track + Song.SanitizeFilename(songFile.name);
    if RawTrackPath(timestamp, songFile) == Song.TrackPath(timestamp, songFile) {
      assert (track + songFile.name)[|track|..] == songFile.name;
      assert (track + Song.SanitizeFilename(songFile.name))[|track|..] == Song.SanitizeFilename(songFile.name);
    }
    var cover := "covers/" + NatToString(timestamp) + "_";
    assert RawCoverPath(timestamp, coverFile) == cover + coverFile.name;
    assert Song.CoverPath(timestamp, coverFile) == cover + Song.SanitizeFilename(coverFile.name);
    if RawCoverPath(timestamp, coverFile) == Song.CoverPath(timestamp, coverFile) {
      assert (cover + coverFile.name)[|cover|..] == coverFile.name;
      assert (cover + Song.SanitizeFilename(coverFile.name))[|cover|..] == Song.SanitizeFilename(coverFile.name);
    }
  }

  /** The backend's answer to each call the handler may issue. */
  datatype UploadFaults = UploadFaults(audioUpload: Option<string>, coverUpload: Option<string>,
                                       insert: Option<string>, links: Option<string>)

  /** How a submit ends: the "Select files first!" alert, a logged error,
      or the "Song uploaded and linked to albums!" alert. */
  datatype Outcome = SelectFilesFirst | StepFailed(error: string) | UploadedAndLinked

  /** The form's fields, as one value. */
  datatype Fields = Fields(songFile: Option<File>, coverFile: Option<File>, title: string, artist: string,
                           selectedAlbumIds: seq<Id>)

  const EmptyForm := Fields(None, None, "", "", [])

  class AddSongForm {
    var songFile: Option<File>
    var coverFile: Option<File>
    var title: string
    var artist: string
    var selectedAlbumIds: seq<Id>

    function Snapshot(): Fields
      reads this
    {
      Fields(songFile, coverFile, title, artist, selectedAlbumIds)
    }

    constructor ()
      ensures Snapshot() == EmptyForm
    {
      songFile, coverFile, title, artist, selectedAlbumIds := None, None, "", "", [];
    }

    /** A checkbox change. */
    method Toggle(id: Id)
      modifies this
      ensures Snapshot() == old(Snapshot()).(selectedAlbumIds := ToggleAlbum(old(selectedAlbumIds), id))
    {
      selectedAlbumIds := ToggleAlbum(selectedAlbumIds, id);
    }

    /** `handleUpload`: `timestamp` is `Date.now()` and `newId` the id the
        backend gives the inserted row. Each failure returns at once, keeping
        the form as it was; only full success resets it. */
    method HandleUpload(b: Backend, timestamp: nat, newId: Id, f: UploadFaults) returns (o: Outcome)
      modifies this, b`songs, b`albumSongs, b`blobs, b`calls
      ensures old(songFile).None? || old(coverFile).None? ==>
        && o == SelectFilesFirst && Snapshot() == old(Snapshot())
        && b.calls == old(b.calls) && b.blobs == old(b.blobs) && b.songs == old(b.songs)
        && b.albumSongs == old(b.albumSongs)
      ensures old(songFile).Some? && old(coverFile).Some? ==>
        var track := Blob(Music, RawTrackPath(timestamp, old(songFile).value));
        var cover := Blob(MusicImages, RawCoverPath(timestamp, old(coverFile).value));
        var row := SongRow(newId, old(title), old(artist), track.path, cover.path);
        var links := LinksFor(newId, old(selectedAlbumIds));
        var uploaded := f.audioUpload.None? && f.coverUpload.None?;
        && b.calls == old(b.calls) + [Upload(track)]
             + (if f.audioUpload.None? then [Upload(cover)] else [])
             + (if uploaded then [InsertSongRow(row)] else [])
             + (if uploaded && f.insert.None? then [InsertLinks(links)] else [])
        && o == (if f.audioUpload.Some? then StepFailed(f.audioUpload.value)
                 else if f.coverUpload.Some? then StepFailed(f.coverUpload.value)
                 else if f.insert.Some? then StepFailed(f.insert.value)
                 else if f.links.Some? then StepFailed(f.links.value)
                 else UploadedAndLinked)
        && b.blobs == old(b.blobs) + (if f.audioUpload.None? then {track} else {})
                                   + (if uploaded then {cover} else {})
        && b.songs == old(b.songs) + (if uploaded && f.insert.None? then {row} else {})
        && b.albumSongs == old(b.albumSongs)
             + (if uploaded && f.insert.None? && f.links.None? then set x | x in links else {})
        && Snapshot() == (if o == UploadedAndLinked then EmptyForm else old(Snapshot()))
    {
      if songFile.None? || coverFile.None? {
        return SelectFilesFirst;
      }
      var track := Blob(Music, RawTrackPath(timestamp, songFile.value));
      var cover := Blob(MusicImages, RawCoverPath(timestamp, coverFile.value));

      var err := b.Upload(track, f.audioUpload);
      if err.Some? {
        return StepFailed(err.value);
      }
      err := b.Upload(cover, f.coverUpload);
      if err.Some? {
        return StepFailed(err.value);
      }
      var row := SongRow(newId, title, artist, track.path, cover.path);
      err := b.InsertSongRow(row, f.insert);
      if err.Some? {
        return StepFailed(err.value);
      }
      err := b.InsertLinks(LinksFor(row.id, selectedAlbumIds), f.links);
      if err.Some? {
        return StepFailed(err.value);
      }
      songFile, coverFile, title, artist, selectedAlbumIds := None, None, "", "", [];
      o := UploadedAndLinked;
    }
  }
}
