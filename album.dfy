/** Album creation and editing (src/utils/album.ts): `uploadCoverImage`
    stores the cover under `covers/album_covers/<ts>_<file name>` in the
    `music-images` bucket; `createAlbum` and `updateAlbum` chain that upload
    with a row insert or update and report a message. */
module Album {
  import opened Common
  import opened Catalog

  /** `{ name, description?, coverFile? }` */
  datatype AlbumPayload = AlbumPayload(name: string, description: Option<string>, coverFile: Option<File>)

  /** `AlbumMutationResult` */
  datatype MutationResult = MutationResult(success: bool, message: string, coverPath: Option<string>)

  datatype UploadResult = Uploaded(path: string) | UploadFailed(message: string)

  const StoragePrefix := "Storage error: "
  const DatabasePrefix := "Database error: "
  const UpdatePrefix := "Update error: "
  const CoverRequired := "Cover image is required."
  const UploadFallback := "Error uploading cover image"
  const Created := "Album created successfully!"
  const UpdatedMessage := "Album updated successfully!"

  /** `covers/album_covers/<ts>_<file name>`; the name is not sanitized. */
  function AlbumCoverPath(timestamp: nat, file: File): (p: string)
    ensures |p| > 21 + |file.name| && p[..20] == "covers/album_covers/"
    ensures p[20..|p| - |file.name|] == NatToString(timestamp) + "_"
    ensures p[|p| - |file.name|..] == file.name
  {
    "covers/album_covers/" + NatToString(timestamp) + "_" + file.name
  }

  /** `upload.message || 'Error uploading cover image'` */
  function UploadMessage(m: string): string {
    if m != "" then m else UploadFallback
  }

  /** `uploadCoverImage` */
  method UploadCoverImage(b: Backend, coverFile: File, timestamp: nat, fault: Option<string>)
    returns (r: UploadResult)
    modifies b`blobs, b`calls
    ensures var blob := Blob(MusicImages, AlbumCoverPath(timestamp, coverFile));
      && b.calls == old(b.calls) + [Upload(blob)]
      && (r.Uploaded? <==> fault.None?)
      && (r.Uploaded? ==> r.path == blob.path && b.blobs == old(b.blobs) + {blob})
      && (r.UploadFailed? ==> r.message == StoragePrefix + fault.value && b.blobs == old(b.blobs))
  {
    var path := AlbumCoverPath(timestamp, coverFile);
    var err := b.Upload(Blob(MusicImages, path), fault);
    if err.Some? {
      return UploadFailed(StoragePrefix + err.value);
    }
    r := Uploaded(path);
  }

  /** The fallback message of `createAlbum` and `updateAlbum` is never used:
      a failed upload always reports `Storage error: ...`. */
  lemma UploadFallbackUnused(fault: string)
    ensures UploadMessage(StoragePrefix + fault) == StoragePrefix + fault
  {
    assert |StoragePrefix + fault| > 0;
  }

  datatype CreateFaults = CreateFaults(upload: Option<string>, insert: Option<string>)

  /** `createAlbum`: `newId` is the id the backend gives the inserted row. */
  method CreateAlbum(b: Backend, payload: AlbumPayload, timestamp: nat, newId: Id, f: CreateFaults)
    returns (r: MutationResult)
    modifies b`albums, b`blobs, b`calls
    ensures payload.coverFile.None? ==>
      && r == MutationResult(false, CoverRequired, None)
      && b.calls == old(b.calls) && b.blobs == old(b.blobs) && b.albums == old(b.albums)
    ensures payload.coverFile.Some? ==>
      var path := AlbumCoverPath(timestamp, payload.coverFile.value);
      var row := AlbumRow(newId, payload.name, payload.description, Some(path));
      && b.calls == old(b.calls) + [Upload(Blob(MusicImages, path))]
                    + (if f.upload.None? then [InsertAlbumRow(row)] else [])
      && b.blobs == old(b.blobs) + (if f.upload.None? then {Blob(MusicImages, path)} else {})
      && b.albums == old(b.albums) + (if f.upload.None? && f.insert.None? then {row} else {})
      && r.success == (f.upload.None? && f.insert.None?)
      && r.message == (if f.upload.Some? then StoragePrefix + f.upload.value
                       else if f.insert.Some? then DatabasePrefix + f.insert.value
                       else Created)
      && r.coverPath == (if r.success then Some(path) else None)
  {
    if payload.coverFile.None? {
      return MutationResult(false, CoverRequired, None);
    }
    var upload := UploadCoverImage(b, payload.coverFile.value, timestamp, f.upload);
    if upload.UploadFailed? {
      UploadFallbackUnused(f.upload.value);
      return MutationResult(false, UploadMessage(upload.message), None);
    }
    var err := b.InsertAlbumRow(AlbumRow(newId, payload.name, payload.description, Some(upload.path)), f.insert);
    if err.Some? {
      return MutationResult(false, DatabasePrefix + err.value, None);
    }
    r := MutationResult(true, Created, Some(upload.path));
  }

  datatype UpdateFaults = UpdateFaults(upload: Option<string>, update: Option<string>)

  /** `updateAlbum`: name and description are always written, `cover-image`
      only after a new cover was uploaded. */
  method UpdateAlbum(b: Backend, id: Id, payload: AlbumPayload, timestamp: nat, f: UpdateFaults)
    returns (r: MutationResult)
    modifies b`albums, b`blobs, b`calls
    ensures var hasFile := payload.coverFile.Some?;
            var path := if hasFile then AlbumCoverPath(timestamp, payload.coverFile.value) else "";
            var uploaded := !hasFile || f.upload.None?;
            var cover := if hasFile then Some(path) else None;
      && b.calls == old(b.calls)
           + (if hasFile then [Upload(Blob(MusicImages, path))] else [])
           + (if uploaded then [UpdateAlbumRow(id, payload.name, payload.description, cover)] else [])
      && b.blobs == old(b.blobs) + (if hasFile && f.upload.None? then {Blob(MusicImages, path)} else {})
      && b.albums == (if uploaded && f.update.None?
           then set x | x in old(b.albums) :: if x.id == id then AlbumWithUpdates(x, payload.name, payload.description, cover) else x
           else old(b.albums))
      && r.success == (uploaded && f.update.None?)
      && r.message == (if !uploaded then StoragePrefix + f.upload.value
                       else if f.update.Some? then UpdatePrefix + f.update.value
                       else UpdatedMessage)
      && r.coverPath.None?
  {
    var cover: Option<string> := None;
    if payload.coverFile.Some? {
      var upload := UploadCoverImage(b, payload.coverFile.value, timestamp, f.upload);
      if upload.UploadFailed? {
        UploadFallbackUnused(f.upload.value);
        return MutationResult(false, UploadMessage(upload.message), None);
      }
      cover := Some(upload.path);
    }
    var err := b.UpdateAlbumRow(id, payload.name, payload.description, cover, f.update);
    if err.Some? {
      return MutationResult(false, UpdatePrefix + err.value, None);
    }
    r := MutationResult(true, UpdatedMessage, None);
  }
}
