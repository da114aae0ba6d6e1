/** The static track catalog: nine tracks keyed by id, four curated lists, and lookups over them. */
module Tracks {
  import opened Common

  /**
   * A media reference as the app hands it around: a bundled asset (what `require(path)` yields,
   * a numeric module handle, identified here by its path), a bare URL string, or an object `{ uri }`.
   */
  datatype Asset = Bundled(path: string) | Url(url: string) | UriObject(uri: string)

  datatype Track = Track(id: string, title: string, artist: string, artwork: Asset, uri: Asset)

  /** An entry of a curated list: its own id and the track it refers to. */
  datatype ListItem = ListItem(id: string, trackId: string)

  const T1: Track := Track("T1", "SICK OF YOU", "FRANK",
    Bundled("../assets/images/Sick3.jpg"),
    Bundled("../assets/Music/FRANK - Sick Of Yourself (Official Music Video).mp3"))
  const T2: Track := Track("T2", "DAYONE", "PUN",
    Bundled("../assets/images/day4.jpg"),
    Bundled("../assets/Music/PUN - DAY ONE.mp3"))
  const T3: Track := Track("T3", "อยากกอดเธอ นานๆ", "BLVCKHEART",
    Bundled("../assets/images/อยากกอด.jpeg"),
    Bundled("../assets/Music/track1.mp3"))
  const T4: Track := Track("T4", "Look After You", "The Fray",
    Bundled("../assets/images/LookAfter you.jpg"),
    Bundled("../assets/Music/Look After You - Sped Up (Tiktok Version).mp3"))
  const T5: Track := Track("T5", "Numb", "Linkin Park",
    Bundled("../assets/images/numb.jpg"),
    Bundled("../assets/Music/Numb (Official Music Video) [4K UPGRADE] – Linkin Park.mp3"))
  const T6: Track := Track("T6", "The Scientist", "Coldplay",
    Bundled("../assets/images/TheScientist.jpg"),
    Bundled("../assets/Music/Coldplay - The Scientist (Official 4K Video).mp3"))
  const T7: Track := Track("T7", "Shape of You", "Ed Sheeran",
    Bundled("../assets/images/Shape-of-You-.jpg"),
    Bundled("../assets/Music/Ed Sheeran - Shape of You (Official Music Video).mp3"))
  const T8: Track := Track("T8", "Someone You Loved", "Lewis Capaldi",
    Bundled("../assets/images/Someone.jpg"),
    Bundled("../assets/Music/Lewis Capaldi - Someone You Loved.mp3"))
  const T9: Track := Track("T9", "Blinding Lights", "The Weeknd",
    Bundled("../assets/images/Weeknd.jpg"),
    Bundled("../assets/Music/The Weeknd - Blinding Lights (Official Audio).mp3"))

  /** `TRACKS_BY_ID`. */
  const TracksById: map<string, Track> := map[
    "T1" := T1, "T2" := T2, "T3" := T3, "T4" := T4, "T5" := T5,
    "T6" := T6, "T7" := T7, "T8" := T8, "T9" := T9]

  /** `TRACKS = Object.values(TRACKS_BY_ID)`: the values in key insertion order. */
  const AllTracks: seq<Track> := [T1, T2, T3, T4, T5, T6, T7, T8, T9]

  /** The keys of `TRACKS_BY_ID` in insertion order. */
  const CatalogKeys: seq<string> := ["T1", "T2", "T3", "T4", "T5", "T6", "T7", "T8", "T9"]

  /** `LISTS`. */
  const Albums: seq<ListItem> := [ListItem("A1", "T1"), ListItem("A2", "T2"), ListItem("A3", "T3")]
  const Stations: seq<ListItem> := [ListItem("S1", "T4"), ListItem("S2", "T5"), ListItem("S3", "T6")]
  const LastList: seq<ListItem> := [ListItem("L1", "T7"), ListItem("L2", "T8"), ListItem("L3", "T9")]
  const QuickPicks: seq<ListItem> := [ListItem("Q1", "T2"), ListItem("Q2", "T5"), ListItem("Q3", "T8")]
  const Lists: seq<seq<ListItem>> := [Albums, Stations, LastList, QuickPicks]

  function TrackIds(ts: seq<Track>): seq<string> {
    seq(|ts|, i requires 0 <= i < |ts| => ts[i].id)
  }

  /** Every key names a track whose own id is that key. */
  lemma CatalogKeysAreIds()
    ensures TracksById.Keys == set k | k in CatalogKeys
    ensures forall k :: k in TracksById ==> TracksById[k].id == k
  {
  }

  /** `TRACKS` lists the table's values in key order, each id once. */
  lemma AllTracksInKeyOrder()
    ensures |AllTracks| == |CatalogKeys| == 9
    ensures forall i :: 0 <= i < 9 ==> CatalogKeys[i] in TracksById && AllTracks[i] == TracksById[CatalogKeys[i]]
    ensures TrackIds(AllTracks) == CatalogKeys
    ensures NoDup(TrackIds(AllTracks))
  {
  }

  /** Every list refers only to catalog tracks, and list-item ids are distinct within each list. */
  lemma ListsAreWellFormed()
    ensures forall l :: 0 <= l < |Lists| ==>
      (forall i :: 0 <= i < |Lists[l]| ==> Lists[l][i].trackId in TracksById)
    ensures forall l :: 0 <= l < |Lists| ==>
      (forall i, j :: 0 <= i < j < |Lists[l]| ==> Lists[l][i].id != Lists[l][j].id)
  {
  }

  /** `getTrack(id)`: the table entry, or `undefined`. */
  function GetTrack(id: string): (r: Option<Track>)
    ensures r.Some? <==> id in TracksById
    ensures r.Some? ==> r.value == TracksById[id] && r.value.id == id
  {
    if id in TracksById then Some(TracksById[id]) else None
  }

  /**
   * One element of `mapListToTracks`: the list item's id plus the spread catalog fields,
   * which are all missing when the track id is not in the table (spreading `undefined`).
   */
  datatype ListedTrack = ListedTrack(listItemId: string, track: Option<Track>)

  /** `mapListToTracks(items)`. */
  function MapListToTracks(items: seq<ListItem>): (r: seq<ListedTrack>)
    ensures |r| == |items|
    ensures forall i :: 0 <= i < |r| ==>
      r[i].listItemId == items[i].id && r[i].track == GetTrack(items[i].trackId)
  {
    seq(|items|, i requires 0 <= i < |items| => ListedTrack(items[i].id, GetTrack(items[i].trackId)))
  }

  /** On the app's own lists every entry resolves to the catalog track it names. */
  lemma ListsResolve(l: nat, i: nat)
    requires l < |Lists| && i < |Lists[l]|
    ensures MapListToTracks(Lists[l])[i].track.Some?
    ensures MapListToTracks(Lists[l])[i].track.value.id == Lists[l][i].trackId
  {
    ListsAreWellFormed();
  }

  /** `ids.map(id => TRACKS_BY_ID[id]).filter(Boolean)`: unknown ids dropped, order kept. */
  function ResolveIds(ids: seq<string>): (r: seq<Track>)
    ensures |r| <= |ids|
    ensures forall t :: t in r ==> t.id in ids && t.id in TracksById && TracksById[t.id] == t
    decreases |ids|
  {
    if ids == [] then []
    else (if ids[0] in TracksById then [TracksById[ids[0]]] else []) + ResolveIds(ids[1..])
  }

  /** A single id resolves to its catalog track, or to nothing when it is unknown. */
  lemma ResolveIdsSingle(id: string)
    ensures ResolveIds([id]) == if id in TracksById then [TracksById[id]] else []
  {
    assert [id][1..] == [];
  }

  /** Resolving distributes over concatenation: the kept tracks follow the order of their ids. */
  lemma {:induction false} ResolveIdsConcat(a: seq<string>, b: seq<string>)
    ensures ResolveIds(a + b) == ResolveIds(a) + ResolveIds(b)
    decreases |a|
  {
    if a == [] {
      assert a + b == b;
    } else {
      assert (a + b)[0] == a[0];
      assert (a + b)[1..] == a[1..] + b;
      ResolveIdsConcat(a[1..], b);
    }
  }

  /** Every known id of the input is resolved to its catalog track. */
  lemma {:induction false} ResolveIdsComplete(ids: seq<string>, id: string)
    requires id in ids && id in TracksById
    ensures TracksById[id] in ResolveIds(ids)
    decreases |ids|
  {
    if ids[0] != id {
      ResolveIdsComplete(ids[1..], id);
    }
  }

  /** Every id names a catalog track. */
  predicate AllKnown(ids: seq<string>) {
    forall i :: 0 <= i < |ids| ==> ids[i] in TracksById
  }

  /** When every id is known nothing is dropped: the result is the ids' tracks, position by position. */
  lemma {:induction false} ResolveIdsAllKnown(ids: seq<string>)
    ensures AllKnown(ids) ==> |ResolveIds(ids)| == |ids|
    ensures AllKnown(ids) ==> forall i :: 0 <= i < |ids| ==> ResolveIds(ids)[i] == TracksById[ids[i]]
    decreases |ids|
  {
    if ids != [] && AllKnown(ids) {
      ResolveIdsAllKnown(ids[1..]);
      var r := ResolveIds(ids);
      forall i | 0 <= i < |ids| ensures r[i] == TracksById[ids[i]] {
        if i > 0 {
          assert r[i] == ResolveIds(ids[1..])[i - 1];
        }
      }
    }
  }
}
