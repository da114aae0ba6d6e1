/** The playlist store: playlists by id, the display order of their ids, and the load flag. */
module Playlists {
  import opened Common
  import opened Tracks

  datatype Playlist = Playlist(id: string, name: string, trackIds: seq<string>, createdAt: int)

  /** `trackIds.includes(t) ? trackIds : [...trackIds, t]`. */
  function WithTrack(ids: seq<string>, trackId: string): (r: seq<string>)
    ensures trackId in r
    ensures forall x :: x in r <==> x in ids || x == trackId
    ensures trackId in ids ==> r == ids
    ensures trackId !in ids ==> |r| == |ids| + 1 && r[..|ids|] == ids
  {
    if trackId in ids then ids else ids + [trackId]
  }

  /** Adding is idempotent and never creates a duplicate. */
  lemma WithTrackIdempotentNoDup(ids: seq<string>, trackId: string)
    ensures WithTrack(WithTrack(ids, trackId), trackId) == WithTrack(ids, trackId)
    ensures NoDup(ids) ==> NoDup(WithTrack(ids, trackId))
  {
  }

  /** What a stored snapshot held: nothing, unreadable text, or the parsed fields (each possibly missing). */
  datatype Persisted =
    | NothingStored
    | Unparsable
    | Parsed(playlists: Option<map<string, Playlist>>, order: Option<seq<string>>)

  class PlaylistStore {
    var playlists: map<string, Playlist>
    var order: seq<string>
    var loaded: bool

    /**
     * The shape every mutation keeps: each playlist is stored under its own id with distinct track
     * ids, and `order` lists exactly the stored ids, each once.
     */
    ghost predicate WellFormed()
      reads this
    {
      && (forall k :: k in playlists ==> playlists[k].id == k && NoDup(playlists[k].trackIds))
      && (forall k :: k in order <==> k in playlists)
      && NoDup(order)
    }

    /** `hasTrack(playlistId, trackId)`. */
    function HasTrack(playlistId: string, trackId: string): (r: bool)
      reads this
      ensures r ==> playlistId in playlists
    {
      playlistId in playlists && trackId in playlists[playlistId].trackIds
    }

    /** `getPlaylistTracks(playlistId)`: the playlist's ids through the catalog, in order, unknown ones dropped. */
    function GetPlaylistTracks(playlistId: string): (r: seq<Track>)
      reads this
      ensures playlistId !in playlists ==> r == []
      ensures playlistId in playlists ==> r == ResolveIds(playlists[playlistId].trackIds)
      ensures forall t :: t in r ==> HasTrack(playlistId, t.id) && GetTrack(t.id) == Some(t)
      ensures forall id :: HasTrack(playlistId, id) && id in TracksById ==> TracksById[id] in r
    {
      if playlistId !in playlists then []
      else
        var ids := playlists[playlistId].trackIds;
        assert forall id :: id in ids && id in TracksById ==> TracksById[id] in ResolveIds(ids) by {
          forall id | id in ids && id in TracksById ensures TracksById[id] in ResolveIds(ids) {
            ResolveIdsComplete(ids, id);
          }
        }
        ResolveIds(ids)
    }

    /** The store starts empty and not yet loaded. */
    constructor ()
      ensures playlists == map[] && order == [] && !loaded && WellFormed()
    {
      playlists := map[];
      order := [];
      loaded := false;
    }

    /**
     * `createPlaylist(name)`: store a new empty playlist under `id` and put `id` first in `order`.
     * The random id and the clock reading are parameters.
     */
    method CreatePlaylist(name: string, id: string, now: int) returns (r: string)
      modifies this
      ensures r == id
      ensures playlists == old(playlists)[id := Playlist(id, name, [], now)]
      ensures order == [id] + old(order) && loaded == old(loaded)
      ensures old(WellFormed()) && id !in old(playlists) ==> WellFormed()
    {
      playlists := playlists[id := Playlist(id, name, [], now)];
      order := [id] + order;
      r := id;
    }

    /** `addTrack(playlistId, trackId)`: append the id unless already there; unknown playlist: no change. */
    method AddTrack(playlistId: string, trackId: string)
      modifies this
      ensures playlistId !in old(playlists) ==> playlists == old(playlists)
      ensures playlistId in old(playlists) ==>
        playlists == old(playlists)[playlistId :=
          old(playlists)[playlistId].(trackIds := WithTrack(old(playlists)[playlistId].trackIds, trackId))]
      ensures HasTrack(playlistId, trackId) <==> playlistId in playlists
      ensures order == old(order) && loaded == old(loaded)
      ensures old(WellFormed()) ==> WellFormed()
    {
      if playlistId !in playlists {
        return;
      }
      var pl := playlists[playlistId];
      if trackId !in pl.trackIds {
        pl := pl.(trackIds := pl.trackIds + [trackId]);
      }
      playlists := playlists[playlistId := pl];
    }

    /** `removeTrack(playlistId, trackId)`: drop every occurrence, keep the rest in order. */
    method RemoveTrack(playlistId: string, trackId: string)
      modifies this
      ensures playlistId !in old(playlists) ==> playlists == old(playlists)
      ensures playlistId in old(playlists) ==>
        playlists == old(playlists)[playlistId :=
          old(playlists)[playlistId].(trackIds := Without(old(playlists)[playlistId].trackIds, trackId))]
      ensures !HasTrack(playlistId, trackId)
      ensures order == old(order) && loaded == old(loaded)
      ensures old(WellFormed()) ==> WellFormed()
    {
      if playlistId !in playlists {
        return;
      }
      var pl := playlists[playlistId];
      WithoutNoDup(pl.trackIds, trackId);
      pl := pl.(trackIds := Without(pl.trackIds, trackId));
      playlists := playlists[playlistId := pl];
    }

    /** `renamePlaylist(playlistId, name)`: only that playlist's name changes. */
    method RenamePlaylist(playlistId: string, name: string)
      modifies this
      ensures playlistId !in old(playlists) ==> playlists == old(playlists)
      ensures playlistId in old(playlists) ==>
        playlists == old(playlists)[playlistId := old(playlists)[playlistId].(name := name)]
      ensures order == old(order) && loaded == old(loaded)
      ensures old(WellFormed()) ==> WellFormed()
    {
      if playlistId !in playlists {
        return;
      }
      playlists := playlists[playlistId := playlists[playlistId].(name := name)];
    }

    /** `deletePlaylist(playlistId)`: remove it from the map and from `order`; others untouched. */
    method DeletePlaylist(playlistId: string)
      modifies this
      ensures playlistId !in old(playlists) ==> playlists == old(playlists) && order == old(order)
      ensures playlistId in old(playlists) ==>
        playlists == old(playlists) - {playlistId} && order == Without(old(order), playlistId)
      ensures playlistId !in playlists
      ensures playlistId in old(playlists) ==> playlistId !in order
      ensures loaded == old(loaded)
      ensures old(WellFormed()) ==> WellFormed()
    {
      if playlistId !in playlists {
        return;
      }
      WithoutNoDup(order, playlistId);
      playlists := playlists - {playlistId};
      order := Without(order, playlistId);
    }

    /**
     * The start-up load: a parsed snapshot replaces both fields (missing ones read as empty);
     * whatever was stored, `loaded` ends up true.
     */
    method Load(stored: Persisted)
      modifies this
      ensures loaded
      ensures stored.Parsed? ==>
        playlists == stored.playlists.GetOr(map[]) && order == stored.order.GetOr([])
      ensures !stored.Parsed? ==> playlists == old(playlists) && order == old(order)
    {
      if stored.Parsed? {
        playlists := stored.playlists.GetOr(map[]);
        order := stored.order.GetOr([]);
      }
      loaded := true;
    }
  }
}
