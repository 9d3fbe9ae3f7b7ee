/** The album grid (src/app/albums/page.tsx): for each album that
    `fetchAllAlbums` returns, the route a click opens, the cover image of the
    card and its song-count label. */
module AlbumsPage {
  import opened Common
  import Catalog
  import CreateSlug
  import MusicService

  /** `/albums/${slugify(album.name)}-${album.id}` */
  function AlbumRoute(name: string, id: nat): (r: string)
    ensures var slug, digits := CreateSlug.Slugify(Some(name)).value, NatToString(id);
      && |r| == 9 + |slug| + |digits|
      && r[..8] == "/albums/"
      && r[8..|r| - |digits| - 1] == slug
      && r[|r| - |digits| - 1] == '-'
      && r[|r| - |digits|..] == digits
  {
    "/albums/" + CreateSlug.Slugify(Some(name)).value + "-" + NatToString(id)
  }

  /** `split('-').pop()`: the text after the last '-', as the album page
      reads the id back from the route. */
  function LastSegment(s: string): (r: string)
    ensures '-' !in r
  {
    if s == [] || s[|s| - 1] == '-' then [] else LastSegment(s[..|s| - 1]) + [s[|s| - 1]]
  }

  lemma {:induction false} LastSegmentAfterDash(prefix: string, tail: string)
    requires '-' !in tail
    ensures LastSegment(prefix + "-" + tail) == tail
  {
    var s := prefix + "-" + tail;
    if tail == [] {
      assert s[|s| - 1] == '-';
    } else {
      var init := tail[..|tail| - 1];
      assert s[..|s| - 1] == prefix + "-" + init;
      LastSegmentAfterDash(prefix, init);
      assert init + [tail[|tail| - 1]] == tail;
    }
  }

  /** Whatever the name (its slug may itself hold '-' and digits), the
      album page reads back exactly the id the route was built from. */
  lemma RouteIdRoundTrip(name: string, id: nat)
    ensures LastSegment(AlbumRoute(name, id)) == NatToString(id)
    ensures DigitsValue(LastSegment(AlbumRoute(name, id))) == id
  {
    var digits := NatToString(id);
    assert '-' !in digits by {
      assert forall i :: 0 <= i < |digits| ==> IsDigit(digits[i]);
    }
    LastSegmentAfterDash("/albums/" + CreateSlug.Slugify(Some(name)).value, digits);
    NatToStringRoundTrip(id);
  }

  /** The card image: the album's `cover_url` when `cover-image` is not null,
      else the first song's `coverUrl`; None when there is no first song, where
      reading `album_song[0].songs` throws. */
  function CoverImage(album: MusicService.AlbumView): (r: Option<MusicService.Url>)
    ensures album.coverImage.Some? ==> r == Some(album.coverUrl)
    ensures album.coverImage.None? ==>
      && (r.Some? <==> album.entries != [])
      && (r.Some? ==> r.value == album.entries[0].song.coverUrl)
  {
    if album.coverImage.Some? then Some(album.coverUrl)
    else if album.entries == [] then None
    else Some(album.entries[0].song.coverUrl)
  }

  /** For the albums `fetchAllAlbums` returns, the card shows an image of the
      `music-images` bucket: the album's own cover path, or else the first
      song's `image_path`; it fails only for a coverless album with no songs. */
  lemma CardCoverIsAnImage(q: MusicService.Query<seq<MusicService.AlbumData>>, k: nat)
    requires q.QueryOk? && k < |MusicService.FetchAllAlbums(q)|
    ensures var cover := CoverImage(MusicService.FetchAllAlbums(q)[k]);
      && (cover.None? <==> q.data[k].coverImage.None? && q.data[k].entries == [])
      && (cover.Some? && q.data[k].coverImage.Some? ==>
            cover.value == MusicService.PublicUrl(Catalog.MusicImages, q.data[k].coverImage))
      && (cover.Some? && q.data[k].coverImage.None? ==>
            cover.value == MusicService.PublicUrl(Catalog.MusicImages,
                                                  Some(MusicService.BaseSong(q.data[k].entries[0].songs).value.imagePath)))
  {
    var views := MusicService.ViewAll(q.data);
    assert views.Some?;
    var mapped := MusicService.MapEntries(q.data[k].entries);
    assert MusicService.FetchAllAlbums(q)[k] == MusicService.View(q.data[k], mapped.value);
    if q.data[k].entries != [] {
      assert MusicService.EntryOf(mapped.value[0], q.data[k].entries[0]);
    }
  }

  /** `${album.album_song?.length || 0} ${album.album_song?.length === 1 ? 'song' : 'songs'}`;
      `length` None is a missing `album_song`. */
  function CountLabel(length: Option<nat>): (r: string)
    ensures var n := length.GetOr(0);
      && |r| > |NatToString(n)|
      && r[..|NatToString(n)|] == NatToString(n)
      && (r[|NatToString(n)|..] == " song" <==> n == 1)
      && (r[|NatToString(n)|..] == " songs" <==> n != 1)
  {
    var n := length.GetOr(0);
    NatToString(n) + " " + (if n == 1 then "song" else "songs")
  }

  /** The number at the front of the label is the album's song count, 0 when
      the songs are missing. */
  lemma CountLabelShowsCount(length: Option<nat>)
    ensures DigitsValue(LeadingDigits(CountLabel(length))) == length.GetOr(0)
  {
    var n := length.GetOr(0);
    var rest := " " + (if n == 1 then "song" else "songs");
    assert CountLabel(length) == NatToString(n) + rest;
    LeadingDigitsOf(NatToString(n), rest);
    NatToStringRoundTrip(n);
  }
}
