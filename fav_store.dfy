/** The favorite-song list of the signed-in user (src/store/favStore.ts),
    kept beside the `favorites` table it mirrors. */
module FavStore {
  import opened Common
  import opened Catalog
  import MusicService

  /** `data.map(fav => fav.song_id)` */
  function SongIds(rows: seq<FavoriteRow>): (r: seq<Id>)
    ensures |r| == |rows|
    ensures forall i :: 0 <= i < |r| ==> r[i] == rows[i].songId
  {
    if rows == [] then [] else [rows[0].songId] + SongIds(rows[1..])
  }

  class FavStore {
    var favoriteSongIds: seq<Id>

    constructor ()
      ensures favoriteSongIds == []
    {
      favoriteSongIds := [];
    }

    /** `fetchFavorites`: `q` is what the `favorites` query for the user
        returns; an error is only logged. */
    method FetchFavorites(userId: string, q: MusicService.Query<seq<FavoriteRow>>)
      modifies this
      ensures favoriteSongIds == if q.QueryOk? then SongIds(q.data) else old(favoriteSongIds)
    {
      if q.QueryOk? {
        favoriteSongIds := SongIds(q.data);
      }
    }

    /** `addToFavorites`: no check that the song is already a favorite. */
    method AddToFavorites(b: Backend, userId: string, songId: Id, fault: Option<string>)
      modifies this, b`favorites, b`calls
      ensures b.calls == old(b.calls) + [InsertFavorite(userId, songId)]
      ensures b.favorites == if fault.None? then old(b.favorites) + {FavoriteRow(userId, songId)} else old(b.favorites)
      ensures favoriteSongIds == if fault.None? then old(favoriteSongIds) + [songId] else old(favoriteSongIds)
    {
      var ids := favoriteSongIds;
      var err := b.InsertFavorite(userId, songId, fault);
      if err.None? {
        favoriteSongIds := ids + [songId];
      }
    }

    /** `removeFromFavorites`: every copy of the id goes. */
    method RemoveFromFavorites(b: Backend, userId: string, songId: Id, fault: Option<string>)
      modifies this, b`favorites, b`calls
      ensures b.calls == old(b.calls) + [DeleteFavorite(userId, songId)]
      ensures b.favorites == if fault.None? then old(b.favorites) - {FavoriteRow(userId, songId)} else old(b.favorites)
      ensures favoriteSongIds == if fault.None? then Without(old(favoriteSongIds), songId) else old(favoriteSongIds)
    {
      var ids := favoriteSongIds;
      var err := b.DeleteFavorite(userId, songId, fault);
      if err.None? {
        favoriteSongIds := Without(ids, songId);
      }
    }
  }

  /** Removing a song just added leaves the list as removing it before the
      add would have, and restores the list when it was not a favorite. */
  lemma RemoveUndoesAdd(ids: seq<Id>, songId: Id)
    ensures Without(ids + [songId], songId) == Without(ids, songId)
    ensures songId !in ids ==> Without(ids + [songId], songId) == ids
  {
    WithoutAppend(ids, [songId], songId);
    assert Without([songId], songId) == [];
    if songId !in ids {
      WithoutAbsent(ids, songId);
    }
  }

  /** Adding a song that is already a favorite lists it twice: the store
      does not deduplicate. */
  lemma AddKeepsDuplicates(ids: seq<Id>, songId: Id)
    requires songId in ids
    ensures multiset(ids + [songId])[songId] >= 2
  {
    assert multiset(ids + [songId]) == multiset(ids) + multiset{songId};
  }
}
