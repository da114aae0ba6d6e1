/** The favorites store: the set of favorite track ids (kept in insertion order, as a JavaScript `Set` is). */
module Favorites {
  import opened Common
  import opened Tracks

  /** The set after `toggleFavorite(id)`: a member is deleted, a non-member is added at the end. */
  function Toggled(favorites: seq<string>, id: string): (r: seq<string>)
    ensures id in r <==> id !in favorites
    ensures forall x :: x != id ==> (x in r <==> x in favorites)
    ensures NoDup(favorites) ==> NoDup(r)
    ensures Without(r, id) == Without(favorites, id)
    ensures id !in favorites ==> r[|r| - 1] == id
  {
    WithoutNoDup(favorites, id);
    if id in favorites then
      WithoutAbsent(Without(favorites, id), id);
      Without(favorites, id)
    else
      WithoutConcat(favorites, [id], id);
      assert Without([id], id) == [];
      favorites + [id]
  }

  /** Toggling the same id twice gives back the same members; from a non-member it restores the exact sequence. */
  lemma ToggleTwice(favorites: seq<string>, id: string)
    ensures forall x :: x in Toggled(Toggled(favorites, id), id) <==> x in favorites
    ensures id !in favorites ==> Toggled(Toggled(favorites, id), id) == favorites
  {
    if id !in favorites {
      WithoutConcat(favorites, [id], id);
      WithoutAbsent(favorites, id);
      assert Without([id], id) == [];
    }
  }

  /** What storage held at start-up: nothing, unreadable text, or a parsed array of ids. */
  datatype Persisted = NothingStored | Unparsable | Parsed(ids: seq<string>)

  class FavoritesStore {
    var favorites: seq<string>
    var loaded: bool

    /** A set holds each member once. */
    ghost predicate Valid()
      reads this
    {
      NoDup(favorites)
    }

    constructor ()
      ensures Valid() && favorites == [] && !loaded
    {
      favorites := [];
      loaded := false;
    }

    /** `isFavorite(id)`. */
    function IsFavorite(id: string): (r: bool)
      reads this
      ensures r <==> IndexOf(favorites, id) < |favorites|
    {
      id in favorites
    }

    /** `toggleFavorite(id)`. */
    method ToggleFavorite(id: string)
      requires Valid()
      modifies this
      ensures Valid() && favorites == Toggled(old(favorites), id) && loaded == old(loaded)
      ensures IsFavorite(id) <==> !old(IsFavorite(id))
      ensures forall x :: x != id ==> (IsFavorite(x) <==> old(IsFavorite(x)))
    {
      favorites := Toggled(favorites, id);
    }

    /** `getAll()`: the catalog tracks of the favorite ids, in set order, unknown ids dropped. */
    function GetAll(): (r: seq<Track>)
      reads this
      ensures forall t :: t in r ==> IsFavorite(t.id) && GetTrack(t.id) == Some(t)
      ensures forall id :: IsFavorite(id) && id in TracksById ==> TracksById[id] in r
      ensures AllKnown(favorites) ==> |r| == |favorites|
      ensures r == ResolveIds(favorites)
    {
      assert forall id :: id in favorites && id in TracksById ==> TracksById[id] in ResolveIds(favorites) by {
        forall id | id in favorites && id in TracksById ensures TracksById[id] in ResolveIds(favorites) {
          ResolveIdsComplete(favorites, id);
        }
      }
      ResolveIdsAllKnown(favorites);
      ResolveIds(favorites)
    }

    /** The start-up load: a parsed array replaces the set (`new Set(arr)`); `loaded` ends up true regardless. */
    method Load(stored: Persisted)
      modifies this
      ensures loaded
      ensures stored.Parsed? ==> favorites == Dedup(stored.ids) && Valid()
      ensures stored.Parsed? ==> forall x :: IsFavorite(x) <==> x in stored.ids
      ensures !stored.Parsed? ==> favorites == old(favorites)
    {
      if stored.Parsed? {
        favorites := Dedup(stored.ids);
      }
      loaded := true;
    }
  }
}
