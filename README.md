# eldersong-dashboard core, modelled in Dafny

eldersong-dashboard is the admin dashboard of a music catalog. Songs, albums,
album-song links (`album_song`) and favorites live in a hosted database.
Audio files and cover images live in two storage buckets, `music` and
`music-images`. This project models the logic the dashboard runs on top of
that backend, and proves properties of it:

- the cascading write chains:
  - `deleteSong`, `addSong` and `updateSong`;
  - `uploadCoverImage`, `createAlbum` and `updateAlbum`;
  - the add-song page's `handleUpload`;
- the read side of `musicService`, which attaches public URLs to song rows
  and sorts an album's songs by `order_index`;
- the drag-and-drop reorder of a song list;
- the client-side state stores:
  - the playback cursor (`musicStore`);
  - the favorites list (`favStore`);
  - the alert and loading flags (`alertStore`);
  - the profile update of `authStore`;
- the TTL session cache of `auth.ts`, kept in browser storage;
- the pure helpers:
  - `slugify` and `sanitizeFilename`;
  - the album route, cover and song-count label of the album grid;
  - `toggleAlbum`;
  - `renderMetadata`;
  - the profile name split;
  - `checkIfEmailIsVerified`.

The backend is the class `Catalog.Backend`. It holds:

- one set field per table;
- a set of stored blobs;
- a log `calls` of every request issued, in order.

Each backend method takes a fault argument. `None` means the request
succeeds, and `Some(message)` means it reports that error. The method applies
its effect only on success, and returns the fault as the error. Every chain
is therefore specified for all combinations of failures. Its contract states
which requests were issued, what the result or message is, and what each
table and bucket holds afterwards.

Other inputs from outside the code are parameters:

- `Date.now()` is `timestamp` or `now`;
- a fresh row id is `newId`;
- a query's `{ data, error }` is a `Query` value.

`getPublicUrl(bucket, path)` is kept symbolic, as the `Url` pair
`PublicUrl(bucket, path)`.

JavaScript semantics are written out where they matter:

- `%` truncates toward zero, and `% 0` gives NaN;
- `null - x` treats null as 0;
- `split(' ')` keeps empty pieces;
- `||` defaults and optional chaining are explicit.

Files:

- `common.dfy`: Option, decimal rendering and reading, `Without` (the `filter(x => x !== id)` idiom).
- `catalog.dfy`: table rows, buckets, the request log and the `Backend` class.
- `create_slug.dfy`: `slugify`.
- `song_reorder.dfy`: the drag-and-drop list and the song link.
- `delete_song.dfy`: `deleteSong`.
- `song.dfy`: `sanitizeFilename`, `addSong`, `updateSong`.
- `album.dfy`: `uploadCoverImage`, `createAlbum`, `updateAlbum`.
- `music_service.dfy`: the fetchers, including the in-place sort by `order_index`.
- `music_store.dfy`, `fav_store.dfy`, `alert_store.dfy`: the state stores.
- `auth_session.dfy`: the session cache.
- `auth_store.dfy`: the name split, the profile update and `checkIfEmailIsVerified`.
- `add_song_page.dfy`, `albums_page.dfy`, `users_page.dfy`: the logic of those pages.

`deleteSong` exists twice in the repository, in `src/utils/deleteSong.ts` and
in `src/utils/song.ts`. The two copies have the same text, and
`DeleteSong.DeleteSong` models both.

## Model

| member | source | states |
|---|---|---|
| Common.NatToString | src/app/albums/page.tsx:73 | `${n}` renders a number as at least one decimal digit, with no leading zero |
| Common.NatToStringRoundTrip | src/app/albums/page.tsx:73 | reading the decimal rendering back gives the number, so the rendering is injective |
| Common.LeadingDigitsOf | src/utils/song.ts:92 | a run of digits followed by a non-digit is read off exactly |
| Common.Without | src/store/favStore.ts:64 | `filter(id => id !== x)` removes every copy of x and keeps all other elements, adding none |
| Common.WithoutAppend | src/store/favStore.ts:64 | filtering distributes over concatenation |
| Common.WithoutAbsent | src/store/favStore.ts:64 | filtering out an absent value leaves the list unchanged |
| Common.WithoutKeepsNoDuplicates | src/app/addSong/page.tsx:29 | filtering a duplicate-free list keeps it duplicate-free |
| Catalog.LinksFor | src/utils/song.ts:125-128 | one `{ songid, albumid }` link per album id, in the order of the ids |
| Catalog.Backend.DeleteFavoritesOfSong | src/utils/deleteSong.ts:6-9 | the request is logged; on success every favorite of the song is gone and nothing else changes |
| Catalog.Backend.DeleteFavorite | src/store/favStore.ts:56-60 | on success exactly the (user, song) favorite row is removed |
| Catalog.Backend.InsertFavorite | src/store/favStore.ts:40-43 | on success the (user, song) row is added |
| Catalog.Backend.DeleteLinksOfSong | src/utils/deleteSong.ts:14-17 | on success every `album_song` row of the song is gone, the rows of other songs stay |
| Catalog.Backend.InsertLinks | src/utils/song.ts:130-132 | the insert is all or nothing: on success every link is added, on error none |
| Catalog.Backend.DeleteSongRow | src/utils/deleteSong.ts:22-25 | on success the song row with that id is gone |
| Catalog.Backend.InsertSongRow | src/utils/song.ts:110-119 | on success the new row is added |
| Catalog.Backend.UpdateSongRow | src/utils/song.ts:159-162 | on success only the given fields of the row with that id change |
| Catalog.Backend.InsertAlbumRow | src/utils/album.ts:49-53 | on success the album row is added |
| Catalog.Backend.UpdateAlbumRow | src/utils/album.ts:86-89 | on success the album with that id takes the new name and description, and the new cover only when one is given |
| Catalog.Backend.Upload | src/utils/album.ts:21-25 | on success the blob is stored |
| Catalog.Backend.Remove | src/utils/deleteSong.ts:33-35 | on success the blob is gone |
| CreateSlug.Slugify | src/utils/createSlug.ts:1-6 | a null title gives no slug (`undefined`, from the optional chain); otherwise the result is a slug: lower-case letters and digits in dash-separated groups, with no leading, trailing or doubled dash (where the dashes go: `CreateSlug.SlugOfGap`) |
| CreateSlug.SlugIsSlug | src/utils/createSlug.ts:3-5 | every slugified title satisfies the slug shape |
| CreateSlug.KeepsLettersAndDigits | src/utils/createSlug.ts:3-4 | the letters and digits of the title survive, in order and in lower case; nothing else but dashes remains |
| CreateSlug.NoLettersGivesEmpty | src/utils/createSlug.ts:4-5 | a title without ASCII letters or digits gives the empty slug |
| CreateSlug.CollapseOfSlug | src/utils/createSlug.ts:4 | collapsing non-alphanumeric runs leaves a string of slug characters and single dashes unchanged |
| CreateSlug.SlugOfGap | src/utils/createSlug.ts:3-5 | when two parts of a title each hold a letter or digit, a non-empty gap between them with none gives exactly one `-`: the slug of the whole is the first part's slug, `-`, then the second part's slug |
| CreateSlug.CollapseGap | src/utils/createSlug.ts:4-5 | on lower-cased text, collapsing then trimming turns such a gap into exactly one `-` between the two parts' results |
| CreateSlug.CollapseConcat | src/utils/createSlug.ts:4 | the run replacement splits after a letter or digit: the result for the whole is the result for the first part followed by the result for the rest |
| CreateSlug.CollapseOfGap | src/utils/createSlug.ts:4 | a non-empty run of non-alphanumeric characters before a letter, a digit or the end becomes one `-` |
| CreateSlug.TrimJoin | src/utils/createSlug.ts:5 | trimming the edge dashes of two dash-joined parts trims the outer edges only; the joining `-` stays |
| CreateSlug.LowerOfSlug | src/utils/createSlug.ts:3 | lowering a slug changes nothing |
| CreateSlug.SlugifyIdempotent | src/utils/createSlug.ts:1-6 | slugifying a slug changes nothing |
| SongReorder.Moved | src/components/SongReorder.tsx:33-35 | the list after the two splices has the same length |
| SongReorder.MovedLandsAtDestination | src/components/SongReorder.tsx:34-35 | the dragged song lands at the destination index |
| SongReorder.MovedPositions | src/components/SongReorder.tsx:34-35 | songs outside the source–destination range keep their places; those inside shift by one towards the source |
| SongReorder.MovedIsPermutation | src/components/SongReorder.tsx:33-35 | the reorder is a permutation of the list |
| SongReorder.MovedInPlace | src/components/SongReorder.tsx:34-35 | dropping a song where it was picked up leaves the list unchanged |
| SongReorder.SpliceOut | src/components/SongReorder.tsx:34 | `splice(i, 1)` on the array returns the element at i and leaves the list without it |
| SongReorder.SpliceIn | src/components/SongReorder.tsx:35 | `splice(j, 0, x)` on the array leaves the list with x inserted before j |
| SongReorder.SongList.constructor | src/components/SongReorder.tsx:21-22 | the list starts as the given songs, and nothing has been delivered yet |
| SongReorder.SongList.SyncInitialSongs | src/components/SongReorder.tsx:26-28 | a new song list from the parent replaces the local one |
| SongReorder.SongList.OnDragEnd | src/components/SongReorder.tsx:30-42 | a drop outside the list changes nothing; otherwise the list becomes the moved list (a destination past the end appends) and is handed to the callback when one is set |
| SongReorder.SongLink | src/components/SongReorder.tsx:70 | the link is `/songs/`, then the title with each whitespace run replaced, then `-` and the id; no whitespace remains before the id |
| SongReorder.DashWhitespaceHasNoWhitespace | src/components/SongReorder.tsx:70 | `replace(/\s+/g, '-')` leaves no whitespace |
| SongReorder.DashWhitespaceKeepsText | src/components/SongReorder.tsx:70 | apart from dashes, the replaced title is exactly the title's non-whitespace text, and it is no longer than the title |
| SongReorder.DashWhitespaceNoWhitespace | src/components/SongReorder.tsx:70 | a title without whitespace is used as it is |
| SongReorder.DashWhitespaceConcat | src/components/SongReorder.tsx:70 | `replace(/\s+/g, '-')` works piecewise on either side of a non-whitespace character |
| SongReorder.DashWhitespaceOfRun | src/components/SongReorder.tsx:70 | a whitespace run at the front, followed by non-whitespace, becomes exactly one `-` |
| SongReorder.DashWhitespaceRun | src/components/SongReorder.tsx:70 | each maximal whitespace run becomes exactly one `-`, and the text on either side is replaced on its own |
| DeleteSong.RowCalls | src/utils/deleteSong.ts:6-27 | the favorites delete always runs first; a failing favorites delete leaves it the only call; otherwise the links delete is second, and the song-row delete third exactly when the links delete succeeded |
| DeleteSong.DeleteSong | src/utils/deleteSong.ts:3-57 | the favorites, links and song-row deletes run in order and the first error aborts the rest with that error; on success no favorite, link or row references the song, each truthy path's blob is removed, and failed removals become warnings (null when there are none) without turning success into failure |
| Song.SanitizeFilename | src/utils/song.ts:19-21 | each character outside letters, digits, `_`, `.` and `-` becomes `_`, each allowed one is kept; the length is unchanged |
| Song.SanitizeCleanName | src/utils/song.ts:19-21 | a name made of allowed characters is unchanged |
| Song.SanitizeIdempotent | src/utils/song.ts:19-21 | sanitizing twice is sanitizing once |
| Song.PathsShareTimestamp | src/utils/song.ts:91-93 | the track and cover paths both carry the same timestamp, each followed by `_` |
| Song.TrackPathTimestamp | src/utils/song.ts:91-92 | the digits after `tracks/` read back as exactly the upload timestamp |
| Song.AddSong | src/utils/song.ts:83-144 | audio upload, cover upload, row insert, then links only for a non-empty album list; the first error is returned; nothing is rolled back; on success the new row is returned and the song is linked to every album |
| Song.Given | src/utils/song.ts:155-156 | `if (title)`: a field counts as given only when present and non-empty |
| Song.UpdateSong | src/utils/song.ts:146-194 | only given fields are written, and no update is issued when none is given; a non-empty album list replaces all the song's links, an empty one leaves them; the first error aborts |
| Song.RelinkedExactly | src/utils/song.ts:168-187 | after a successful re-link the song is linked to exactly the given albums, and other songs' links are untouched |
| Album.AlbumCoverPath | src/utils/album.ts:18-19 | the cover path is `covers/album_covers/`, then the timestamp and `_`, then the unsanitized file name |
| Album.UploadCoverImage | src/utils/album.ts:15-32 | one upload to `music-images`; success returns the path, failure returns `Storage error: ` plus the message |
| Album.UploadFallbackUnused | src/utils/album.ts:46 | the fallback `Error uploading cover image` is never shown, because an upload failure message is never empty |
| Album.CreateAlbum | src/utils/album.ts:34-64 | a missing cover gives `Cover image is required.` with no request; otherwise upload, then insert; each failure gives its prefixed message; success gives `Album created successfully!` and the cover path |
| Album.UpdateAlbum | src/utils/album.ts:66-96 | the cover is uploaded only when given, and a failed upload aborts; name and description are always written, the cover only after an upload; messages as in the source; no cover path is returned |
| MusicService.WithUrls | src/services/musicService.ts:10-14 | the row is kept, and the URLs are those of its music path in `music` and its image path in `music-images` |
| MusicService.AllWithUrls | src/services/musicService.ts:10-14 | one song per row, in order |
| MusicService.FetchAllSongs | src/services/musicService.ts:5-17 | a query error is rethrown; otherwise every row is returned in order with its two URLs |
| MusicService.BaseSong | src/services/musicService.ts:47-49 | an object is used as is; an array gives its first song, or nothing when it is empty |
| MusicService.MapEntries | src/services/musicService.ts:137-153 | the mapping succeeds exactly when every entry has a song, and then maps each entry to its id, order index and song with URLs |
| MusicService.ViewAll | src/services/musicService.ts:40-62 | all albums map exactly when every entry of every album has a song, each album keeping its fields and cover URL |
| MusicService.FetchAllAlbums | src/services/musicService.ts:19-69 | any error, from the query or from an entry, yields []; otherwise exactly the album views of `ViewAll`, one per row |
| MusicService.InsertionStep | src/services/musicService.ts:156 | one insertion pass extends the sorted prefix by one, leaves the entries after it untouched and keeps the array's contents |
| MusicService.SortByOrderIndex | src/services/musicService.ts:156 | the entries end up sorted by order index, with a null index counting as 0, and are a permutation of the input |
| MusicService.FetchAlbumById | src/services/musicService.ts:103-164 | None on a query error or a songless entry; otherwise the album's fields and cover URL, with its mapped entries sorted by order index, as a permutation |
| MusicService.FavoriteEntries | src/services/musicService.ts:86-93 | one `{ songid, songs }` entry per row, in order |
| MusicService.GetFavoriteSongs | src/services/musicService.ts:71-101 | no ids or a query error give []; otherwise the record with id `favorites`, name `Favorite Songs` and its fixed description, with one entry per returned row, in order: the row's id as `songid` and the row with the public URLs of its music and image paths |
| MusicService.FetchSongById | src/services/musicService.ts:166-187 | null exactly on a query error; otherwise the row with `musicUrl` from the `music` bucket and `coverUrl` from the `music-images` bucket, at the row's own paths |
| MusicStore.FindAlbum | src/store/musicStore.ts:31 | `find` returns the first album with the current id, and none when no album has it or the id is null |
| MusicStore.JsRem | src/store/musicStore.ts:35 | JavaScript `%`: the remainder of a non-negative dividend, and for a negative dividend the negated remainder of its magnitude, so the result takes the dividend's sign |
| MusicStore.NextIndex | src/store/musicStore.ts:34-35 | the index becomes NaN exactly when the album is empty or it was already NaN; otherwise it is `(i + 1) % length` with JavaScript's `%` |
| MusicStore.PreviousIndex | src/store/musicStore.ts:40-42 | a positive index goes down by one; any other index is kept |
| MusicStore.SongAt | src/store/musicStore.ts:49 | `album_song[i]?.songs ?? null`: a song exactly when i is a position of the album |
| MusicStore.MusicStore.constructor | src/store/musicStore.ts:18-20 | no albums, no current album, index 0 |
| MusicStore.MusicStore.SetAlbums | src/store/musicStore.ts:22 | only the albums change |
| MusicStore.MusicStore.SetCurrentAlbum | src/store/musicStore.ts:24-25 | selecting an album restarts it at index 0 |
| MusicStore.MusicStore.SetCurrentSongIndex | src/store/musicStore.ts:27 | any index is stored, with no bounds check |
| MusicStore.MusicStore.PlayNext | src/store/musicStore.ts:29-36 | with no current album nothing changes; otherwise the index advances modulo the album's length |
| MusicStore.MusicStore.PlayPrevious | src/store/musicStore.ts:38-43 | the index steps back by one, and never below 0 |
| MusicStore.MusicStore.CurrentSong | src/store/musicStore.ts:45-50 | a song exactly when the current album exists and the index is in range, and then the song at that index |
| MusicStore.NextIndexWraps | src/store/musicStore.ts:34-35 | from an in-range index, next moves to the following song and wraps from the last to the first |
| MusicStore.AdvanceStaysInAlbum | src/store/musicStore.ts:29-36 | however often next is played, a cursor that starts on a song stays on one |
| MusicStore.AdvanceWithin | src/store/musicStore.ts:34-35 | before the end, k calls move k songs on |
| MusicStore.AdvanceAdd | src/store/musicStore.ts:29-36 | a + b calls are a calls followed by b calls |
| MusicStore.FullRoundReturns | src/store/musicStore.ts:29-36 | as many calls of next as the album has songs return to the starting song |
| MusicStore.NextUndoesPrevious | src/store/musicStore.ts:34-42 | previous then next returns to any song but the first |
| MusicStore.PlayNextKeepsASong | src/store/musicStore.ts:45-50 | after next from an in-range index of a non-empty album, a current song exists |
| FavStore.SongIds | src/store/favStore.ts:24 | one song id per favorite row, in order |
| FavStore.FavStore.constructor | src/store/favStore.ts:13 | the list starts empty |
| FavStore.FavStore.FetchFavorites | src/store/favStore.ts:15-29 | on success the list becomes the song ids of the returned rows, in order; on error it is kept |
| FavStore.FavStore.AddToFavorites | src/store/favStore.ts:31-51 | the insert is issued; on success the row is added and the id appended, with no duplicate check |
| FavStore.FavStore.RemoveFromFavorites | src/store/favStore.ts:53-70 | the delete is issued; on success the row is gone and every copy of the id is dropped from the list |
| FavStore.RemoveUndoesAdd | src/store/favStore.ts:47-64 | removing a song just added gives the list without that song, and the original list when it was not a favorite |
| FavStore.AddKeepsDuplicates | src/store/favStore.ts:40-47 | adding a song that is already a favorite lists it twice |
| AlertStore.AlertStore.constructor | src/store/alertStore.ts:18-23 | hidden, `info`, empty message, 3000 ms, not loading |
| AlertStore.AlertStore.ShowAlert | src/store/alertStore.ts:25-27 | the alert becomes visible with the given type, message and duration (default 3000); loading is untouched |
| AlertStore.AlertStore.HideAlert | src/store/alertStore.ts:28 | only visibility changes |
| AlertStore.AlertStore.SetLoading | src/store/alertStore.ts:30-32 | only the loading flag changes |
| AuthSession.Classify | src/utils/auth.ts:17-32 | a missing or empty entry is missing; unparsable text is corrupt; an entry is expired exactly when its expiry is a number before now; otherwise it is valid |
| AuthSession.Fresh | src/utils/auth.ts:12-14 | the stored record keeps the session and expires at now + ttl·1000, with a default ttl of 3600 s |
| AuthSession.AfterRead | src/utils/auth.ts:23-30 | an expired or corrupt entry is removed; every other key stays |
| AuthSession.Storage.StoreSession | src/utils/auth.ts:12-15 | the session key now holds the fresh record |
| AuthSession.Storage.GetStoredSession | src/utils/auth.ts:17-32 | returns the session exactly when the entry is valid, and removes an expired or corrupt entry |
| AuthSession.Storage.Logout | src/utils/auth.ts:34-36 | the session key is removed, and nothing else |
| AuthSession.StoredSessionLifetime | src/utils/auth.ts:13-27 | a stored session reads back valid up to and including its deadline, and expired after it |
| AuthSession.ReadIsIdempotent | src/utils/auth.ts:17-32 | reading twice at the same time gives the same answer and storage |
| AuthSession.NoSessionAfterLogout | src/utils/auth.ts:34-36 | after logout a read returns nothing and removes nothing more |
| AuthStore.Split | src/store/authStore.ts:298 | `split` gives at least one piece, and no piece contains the separator |
| AuthStore.SplitJoin | src/store/authStore.ts:298 | joining the pieces with the separator gives the text back |
| AuthStore.SplitName | src/store/authStore.ts:298 | first and last name contain no space |
| AuthStore.SplitNameShape | src/store/authStore.ts:298 | a name with no space is all first name; otherwise it is first name, a space, last name, then dropped text that starts with a space |
| AuthStore.NoNameGivesEmptyParts | src/store/authStore.ts:298 | a missing or empty name sends empty first and last names |
| AuthStore.CheckIfEmailIsVerified | src/store/authStore.ts:52-55 | undefined when any level is missing; otherwise the stored `email_verified` flag |
| AuthStore.AuthStore.UpdateProfile | src/store/authStore.ts:294-318 | with no user nothing is sent; otherwise the split name and organization are sent, and the user is replaced only when the update succeeds and a refreshed user is returned |
| AddSongPage.ToggleAlbum | src/app/addSong/page.tsx:26-32 | the album is selected afterwards exactly when it was not before; a selected album is filtered out (every copy, the rest kept in order); a new selection is appended |
| AddSongPage.ToggleKeepsNoDuplicates | src/app/addSong/page.tsx:26-32 | toggling never creates a duplicate selection |
| AddSongPage.ToggleTwiceRestores | src/app/addSong/page.tsx:26-32 | selecting then deselecting an album restores the selection |
| AddSongPage.RawPathsAgreeWithAddSong | src/app/addSong/page.tsx:41-43 | the page stores a file at the same path as `addSong` exactly when its name needs no sanitizing |
| AddSongPage.AddSongForm.constructor | src/app/addSong/page.tsx:34-104 | the form starts empty |
| AddSongPage.AddSongForm.Toggle | src/app/addSong/page.tsx:26-32 | only the album selection changes, by the toggle |
| AddSongPage.AddSongForm.HandleUpload | src/app/addSong/page.tsx:34-104 | without both files, "Select files first!" and no request; otherwise the uploads, the row insert and the links insert (always issued) run in order and the first error aborts; only full success resets the form |
| AlbumsPage.AlbumRoute | src/app/albums/page.tsx:71-74 | the route is `/albums/`, then the slug of the name, then `-` and the id's digits |
| AlbumsPage.LastSegment | src/app/albums/page.tsx:72-74 | the detail page's `split('-').pop()` on the route's slug gives text with no dash |
| AlbumsPage.LastSegmentAfterDash | src/app/albums/page.tsx:73 | for `${slug}-${id}` with a dash-free tail, `split('-').pop()` gives exactly that tail |
| AlbumsPage.RouteIdRoundTrip | src/app/albums/page.tsx:72-74 | whatever the album name, the album page reads back exactly the id the route was built from |
| AlbumsPage.CoverImage | src/app/albums/page.tsx:63-65 | the album's own cover URL when `cover-image` is not null; otherwise the first song's cover, and nothing when there is no song |
| AlbumsPage.CardCoverIsAnImage | src/app/albums/page.tsx:63-65 | for fetched albums the card shows the album's cover path, or else the first song's image path, both in `music-images`; it fails only for a coverless album with no songs |
| AlbumsPage.CountLabel | src/app/albums/page.tsx:94-95 | the label is the count (0 when missing) followed by ` song` exactly when the count is 1, and ` songs` otherwise |
| AlbumsPage.CountLabelShowsCount | src/app/albums/page.tsx:94-95 | the number at the front of the label reads back as the song count |
| UsersPage.Truncate | src/app/users/page.tsx:25 | text of at most 80 characters is kept; longer text becomes its first 80 characters plus `...` |
| UsersPage.RenderMetadata | src/app/users/page.tsx:22-34 | `-` exactly for missing or key-less metadata; otherwise the truncated text, with the full text as the tooltip |
| UsersPage.ShownAgreesWithTitle | src/app/users/page.tsx:25-31 | the shown text agrees with the tooltip on its first 80 characters |
| UsersPage.EmailCell | src/app/users/page.tsx:89 | the email when it is non-empty, else `-` |

## Left out

- Network, storage and database I/O are the `Backend` class. A request's asynchrony, latency and partial failure inside one request are not modelled. A multi-row insert is all or nothing.
- `getPublicUrl` (`src/lib/storage.ts`) is not part of this model. Its result is kept as the symbolic pair `PublicUrl(bucket, path)`.
- `Date.now()` is a parameter. `JSON.stringify` and `JSON.parse` are not modelled: the users page takes the serialised metadata text as input, and the session cache takes the stored value as a classified `Stored` value.
- Song.SanitizeFilename: strings are sequences of Unicode characters, while JavaScript counts UTF-16 code units. Without the `u` flag the regular expression replaces each half of a surrogate pair, so a character outside the Basic Multilingual Plane (an emoji, say) becomes `__` in the source and `_` here. "Same length" counts characters, not code units.
- UsersPage.Truncate: the 80-character limit counts Unicode characters. The source's `.length` and `substring(0, 80)` count UTF-16 code units and may cut a surrogate pair in half; that case is not modelled.
- CreateSlug.Slugify: `toLowerCase` is modelled for ASCII letters only. Other characters are not letters here and become dashes; Unicode case mapping is not modelled.
- SongReorder.SongLink: `\s` is modelled as the ASCII whitespace characters only.
- MusicService.SortByOrderIndex: the result is stated as sorted and a permutation. Sort stability is not stated. A NaN comparison, such as one from a non-numeric `order_index`, is not modelled; a null index counts as 0.
- Nothing in the modelled code writes `order_index`: the `onOrderChange` callback's consumer is not part of this model.
- SongReorder.SongList.OnDragEnd requires the source index to be a position of the list. The drag-and-drop library supplies it.
- MusicStore.MusicStore.SetCurrentSongIndex takes an integer. Fractional and NaN arguments are not modelled, and `Index` carries NaN only as `playNext` produces it.
- AlbumsPage.CoverImage: for a coverless album with no songs the page throws while rendering. This is modelled as None.
- Album.UpdateAlbum writes `description` as given. That JSON drops an undefined key from the update is not modelled.
- Song.AddSong and AddSongPage.AddSongForm.HandleUpload: the `!songData` case, where an insert reports no error but returns no row, is folded into the insert fault.
- The session payload is opaque (`Session(payload)`). `email_verified` is an optional boolean.
- The sign-up, sign-in, OAuth, session-restore and sign-out flows of `src/store/authStore.ts`, `src/services/authService.ts`, `src/utils/user.ts` and `login` in `src/utils/auth.ts` are thin wrappers around the hosted auth API. They are not modelled.
- The users page loads its list via `res.users`. That loading is not modelled; only the cell rendering is.
- The add-album, add-user, user-edit and login pages, rendering, styling, navigation side effects, alerts as UI, timers and console logging are not modelled.
- The tables of `Backend` are sets of rows. Two identical favorite or link rows are one row here, where the database would hold two.
- MusicService.FetchAllAlbums: the query does not select `order_index`, so the source's entries carry none. The model's `AlbumEntry` has the field, and for this query it holds whatever the `JoinedEntry` carries (None when the column is not selected); no property depends on it.
- Concurrency between stores is not modelled. `favStore` reads its list before awaiting the request and writes it back after. An interleaved update can therefore be lost; the model runs each action atomically.
