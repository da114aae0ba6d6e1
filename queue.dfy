/** The queue screen: moving one entry, fixing up the current index, the "up next" list, clearing. */
module QueueScreen {
  import opened Common
  import opened Tracks
  import opened Playback

  /** Where the entry now at position `k` was before the entry at `from` moved to `to`. */
  function SourcePos(from: int, to: int, k: int): int {
    if k == to then from
    else if from < to && from <= k < to then k + 1
    else if to < from && to < k <= from then k - 1
    else k
  }

  /** Reference definition of a move: position by position, the entry that lands there. */
  function Moved<T>(q: seq<T>, from: nat, to: nat): (r: seq<T>)
    requires from < |q| && to < |q|
  {
    seq(|q|, k requires 0 <= k < |q| => q[SourcePos(from, to, k)])
  }

  /** `q` with the entry at `i` taken out. */
  function RemoveAt<T>(q: seq<T>, i: nat): seq<T>
    requires i < |q|
  {
    q[..i] + q[i + 1..]
  }

  /**
   * The copy-and-splice of `handleReorder`: take the entry at `fromIndex` out, then insert it
   * at `toIndex` of what is left.
   */
  method MoveEntry<T>(queue: seq<T>, fromIndex: nat, toIndex: nat) returns (newQueue: seq<T>)
    requires fromIndex < |queue| && toIndex < |queue|
    ensures newQueue == Moved(queue, fromIndex, toIndex)
    ensures |newQueue| == |queue| && newQueue[toIndex] == queue[fromIndex]
  {
    newQueue := queue;
    var moved := newQueue[fromIndex];
    newQueue := newQueue[..fromIndex] + newQueue[fromIndex + 1..];
    newQueue := newQueue[..toIndex] + [moved] + newQueue[toIndex..];
    SpliceIsMove(queue, fromIndex, toIndex);
  }

  /** The two splices build exactly the reference move. */
  lemma SpliceIsMove<T>(q: seq<T>, from: nat, to: nat)
    requires from < |q| && to < |q|
    ensures RemoveAt(q, from)[..to] + [q[from]] + RemoveAt(q, from)[to..] == Moved(q, from, to)
  {
    var rest := RemoveAt(q, from);
    var r := rest[..to] + [q[from]] + rest[to..];
    assert |r| == |q|;
    forall k | 0 <= k < |q| ensures r[k] == Moved(q, from, to)[k] {
      if k < to {
        assert r[k] == rest[k];
      } else if k > to {
        assert r[k] == rest[k - 1];
      }
    }
  }

  /** A move is a permutation: same length, same multiset of entries. */
  lemma MovedIsPermutation<T>(q: seq<T>, from: nat, to: nat)
    requires from < |q| && to < |q|
    ensures |Moved(q, from, to)| == |q|
    ensures multiset(Moved(q, from, to)) == multiset(q)
  {
    SpliceIsMove(q, from, to);
    var rest := RemoveAt(q, from);
    calc {
      multiset(Moved(q, from, to));
      multiset(rest[..to] + [q[from]] + rest[to..]);
      multiset(rest[..to]) + multiset{q[from]} + multiset(rest[to..]);
      { assert rest == rest[..to] + rest[to..]; }
      multiset(rest) + multiset{q[from]};
      multiset(q[..from]) + multiset(q[from + 1..]) + multiset{q[from]};
      { assert q == q[..from] + [q[from]] + q[from + 1..]; }
      multiset(q);
    }
  }

  /** The other entries keep their relative order: removing the moved entry from both sides agrees. */
  lemma MovedKeepsOthersInOrder<T>(q: seq<T>, from: nat, to: nat)
    requires from < |q| && to < |q|
    ensures RemoveAt(Moved(q, from, to), to) == RemoveAt(q, from)
  {
    SpliceIsMove(q, from, to);
    var rest := RemoveAt(q, from);
    var r := Moved(q, from, to);
    assert r[..to] == rest[..to];
    assert r[to + 1..] == rest[to..];
    assert rest == rest[..to] + rest[to..];
  }

  /** The `let newIndex` fix-up of `handleReorder`. */
  function NewIndex(fromIndex: int, toIndex: int, index: int): (ni: int)
    ensures fromIndex == index ==> ni == toIndex
    ensures fromIndex != index ==> index - 1 <= ni <= index + 1
    ensures (fromIndex < index && toIndex < index) || (fromIndex > index && toIndex > index) ==> ni == index
  {
    if fromIndex == index then toIndex
    else if fromIndex < index && toIndex >= index then index - 1
    else if fromIndex > index && toIndex <= index then index + 1
    else index
  }

  /** The fixed-up index stays in range and still points at the entry that was current. */
  lemma NewIndexTracksCurrent(len: nat, fromIndex: nat, toIndex: nat, index: nat)
    requires fromIndex < len && toIndex < len && index < len
    ensures 0 <= NewIndex(fromIndex, toIndex, index) < len
    ensures SourcePos(fromIndex, toIndex, NewIndex(fromIndex, toIndex, index)) == index
  {
  }

  /** Hence the new queue holds the current track at the new index. */
  lemma MovedKeepsCurrent<T>(q: seq<T>, fromIndex: nat, toIndex: nat, index: nat)
    requires fromIndex < |q| && toIndex < |q| && index < |q|
    ensures 0 <= NewIndex(fromIndex, toIndex, index) < |q|
    ensures Moved(q, fromIndex, toIndex)[NewIndex(fromIndex, toIndex, index)] == q[index]
  {
    NewIndexTracksCurrent(|q|, fromIndex, toIndex, index);
  }

  /** The arrows on the screen move an upcoming entry one step among the upcoming entries. */
  predicate OfferedMove(len: int, index: int, fromIndex: int, toIndex: int) {
    && index + 1 <= fromIndex < len
    && ((toIndex == fromIndex - 1 && fromIndex > index + 1)
        || (toIndex == fromIndex + 1 && fromIndex < len - 1))
  }

  /** Every move the screen offers stays in range and leaves the current index where it is. */
  lemma OfferedMoveKeepsIndex(len: int, index: int, fromIndex: int, toIndex: int)
    requires 0 <= index && OfferedMove(len, index, fromIndex, toIndex)
    ensures 0 <= fromIndex < len && 0 <= toIndex < len && fromIndex != toIndex
    ensures NewIndex(fromIndex, toIndex, index) == index
  {
  }

  /**
   * `handleReorder(fromIndex, toIndex)`: nothing for a move onto itself; otherwise the queue is
   * replaced by the moved copy at the fixed-up index, which reloads the current track.
   */
  method HandleReorder(s: Session, fromIndex: int, toIndex: int, created: Option<Status>)
    requires s.Valid()
    requires 0 <= fromIndex < |s.queue| && 0 <= toIndex < |s.queue|
    modifies s
    ensures s.Valid()
    ensures fromIndex == toIndex ==>
      s.queue == old(s.queue) && s.index == old(s.index) && s.currentTrack == old(s.currentTrack) && s.sound == old(s.sound)
      && s.polling == old(s.polling)
      && s.isPlaying == old(s.isPlaying) && s.position == old(s.position) && s.duration == old(s.duration)
    ensures fromIndex != toIndex ==>
      s.queue == Moved(old(s.queue), fromIndex, toIndex) && s.index == NewIndex(fromIndex, toIndex, old(s.index))
    ensures fromIndex != toIndex && 0 <= old(s.index) < |old(s.queue)| ==>
      s.OnList() && s.Loaded(old(s.queue)[old(s.index)], created, old(s.isPlaying))
    ensures !(0 <= old(s.index) < |old(s.queue)|) ==>
      s.currentTrack == old(s.currentTrack) && s.sound == old(s.sound) && s.polling == old(s.polling)
      && s.isPlaying == old(s.isPlaying) && s.position == old(s.position) && s.duration == old(s.duration)
  {
    if fromIndex == toIndex {
      return;
    }
    var newQueue := MoveEntry(s.queue, fromIndex, toIndex);
    var newIndex := NewIndex(fromIndex, toIndex, s.index);
    if 0 <= s.index < |s.queue| {
      MovedKeepsCurrent(s.queue, fromIndex, toIndex, s.index);
    }
    s.SetQueue(newQueue, newIndex, created);
  }

  /**
   * A reorder that leaves playback alone: the same move and index fix-up, with the current track,
   * its sound and the mirrored status untouched. Settled on the list before, settled after.
   */
  method ReorderKeepingPlayback(s: Session, fromIndex: int, toIndex: int)
    requires s.Valid()
    requires 0 <= fromIndex < |s.queue| && 0 <= toIndex < |s.queue|
    modifies s
    ensures s.Valid()
    ensures s.queue == Moved(old(s.queue), fromIndex, toIndex) && s.index == NewIndex(fromIndex, toIndex, old(s.index))
    ensures s.currentTrack == old(s.currentTrack) && s.sound == old(s.sound) && s.polling == old(s.polling)
    ensures s.isPlaying == old(s.isPlaying) && s.position == old(s.position) && s.duration == old(s.duration)
    ensures old(s.OnList()) ==> s.OnList()
  {
    var newQueue := MoveEntry(s.queue, fromIndex, toIndex);
    var newIndex := NewIndex(fromIndex, toIndex, s.index);
    if 0 <= s.index < |s.queue| {
      MovedKeepsCurrent(s.queue, fromIndex, toIndex, s.index);
    }
    s.queue := newQueue;
    s.index := newIndex;
  }

  /** `clearQueue`: `setQueue([], 0)`; `[][0]` does not exist, so the current track keeps playing. */
  method ClearQueue(s: Session, created: Option<Status>)
    requires s.Valid()
    modifies s
    ensures s.Valid() && s.queue == [] && s.index == 0
    ensures s.currentTrack == old(s.currentTrack) && s.sound == old(s.sound) && s.polling == old(s.polling)
    ensures s.isPlaying == old(s.isPlaying) && s.position == old(s.position) && s.duration == old(s.duration)
    ensures ActiveList(s.queue) == AllTracks
  {
    s.SetQueue([], 0, created);
  }

  /** `arr.slice(start)` for a whole-number `start` (a negative start counts from the end). */
  function SliceFrom<T>(s: seq<T>, start: int): (r: seq<T>)
    ensures |r| == (if start >= 0 then Max(0, |s| - start) else if -start <= |s| then -start else |s|)
    ensures r == s[|s| - |r|..]
  {
    if start >= |s| then []
    else if start >= 0 then s[start..]
    else s[Max(0, |s| + start)..]
  }

  /** The "up next" rows: each entry after the current one, with its actual index in the queue. */
  function Upcoming(queue: seq<Track>, index: int): (rows: seq<(Track, int)>)
    ensures -1 <= index ==> |rows| == Max(0, |queue| - index - 1)
    ensures -1 <= index ==> forall i :: 0 <= i < |rows| ==>
      0 <= index + 1 + i < |queue| && rows[i] == (queue[index + 1 + i], index + 1 + i)
  {
    var up := SliceFrom(queue, index + 1);
    seq(|up|, i requires 0 <= i < |up| => (up[i], index + 1 + i))
  }

  /** The count shown in the "up next" heading. */
  function UpcomingCount(queue: seq<Track>, index: int): (count: int)
    ensures count >= 0 <==> index < |queue|
    ensures -1 <= index < |queue| ==> count == |SliceFrom(queue, index + 1)|
  {
    |queue| - index - 1
  }

  /** With the index on the queue the heading's count is the number of rows shown. */
  lemma UpcomingCountMatchesRows(queue: seq<Track>, index: int)
    requires 0 <= index < |queue|
    ensures UpcomingCount(queue, index) == |Upcoming(queue, index)|
  {
  }
}
