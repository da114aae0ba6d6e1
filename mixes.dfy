/** The daily-mixes screen: the shuffled catalog cut into at most three mixes, and playing a mix. */
module Mixes {
  import opened Common
  import opened Tracks
  import opened Playback

  /** Reference chunking: consecutive pieces of `size` entries, the last one possibly shorter. */
  function Chunks<T>(arr: seq<T>, size: nat): seq<seq<T>>
    requires size > 0
    decreases |arr|
  {
    if arr == [] then []
    else if |arr| <= size then [arr]
    else [arr[..size]] + Chunks(arr[size..], size)
  }

  /** `cs` cuts `arr` into non-empty pieces of at most `size`, all but the last exactly `size`. */
  ghost predicate IsChunking<T>(cs: seq<seq<T>>, arr: seq<T>, size: nat) {
    && Flatten(cs) == arr
    && (forall k :: 0 <= k < |cs| ==> 0 < |cs[k]| <= size)
    && (forall k :: 0 <= k < |cs| - 1 ==> |cs[k]| == size)
  }

  lemma {:induction false} FlattenAppend<T>(a: seq<seq<T>>, b: seq<seq<T>>)
    ensures Flatten(a + b) == Flatten(a) + Flatten(b)
    decreases |a|
  {
    if a == [] {
      assert a + b == b;
    } else {
      assert (a + b)[1..] == a[1..] + b;
      FlattenAppend(a[1..], b);
    }
  }

  /** The reference chunking has the promised shape and gives back the input when concatenated. */
  lemma {:induction false} ChunksIsChunking<T>(arr: seq<T>, size: nat)
    requires size > 0
    ensures IsChunking(Chunks(arr, size), arr, size)
    decreases |arr|
  {
    if |arr| > size {
      ChunksIsChunking(arr[size..], size);
      assert arr == arr[..size] + arr[size..];
    } else if arr != [] {
      assert arr + [] == arr;
    }
  }

  /** The shape determines the chunking: any chunking of `arr` by `size` is the reference one. */
  lemma {:induction false} ChunkingIsUnique<T>(cs: seq<seq<T>>, arr: seq<T>, size: nat)
    requires size > 0 && IsChunking(cs, arr, size)
    ensures cs == Chunks(arr, size)
    decreases |cs|
  {
    if cs == [] {
    } else if |cs| == 1 {
      assert cs[1..] == [];
      assert Flatten(cs) == cs[0] + Flatten(cs[1..]);
      assert arr == cs[0];
    } else {
      var rest := cs[1..];
      assert Flatten(cs) == cs[0] + Flatten(rest);
      assert |cs[0]| == size;
      assert IsChunking(rest, arr[size..], size) by {
        assert arr[size..] == Flatten(rest);
      }
      ChunkingIsUnique(rest, arr[size..], size);
      assert |Flatten(rest)| > 0 by {
        assert Flatten(rest) == rest[0] + Flatten(rest[1..]);
      }
      assert arr[..size] == cs[0];
    }
  }

  /** Appending one entry to the last piece adds it at the end of the concatenation. */
  lemma FlattenGrowLast<T>(acc: seq<seq<T>>, x: T)
    requires acc != []
    ensures Flatten(acc[|acc| - 1 := acc[|acc| - 1] + [x]]) == Flatten(acc) + [x]
  {
    var n := |acc|;
    assert acc == acc[..n - 1] + [acc[n - 1]];
    assert acc[n - 1 := acc[n - 1] + [x]] == acc[..n - 1] + [acc[n - 1] + [x]];
    FlattenAppend(acc[..n - 1], [acc[n - 1]]);
    FlattenAppend(acc[..n - 1], [acc[n - 1] + [x]]);
    assert Flatten([acc[n - 1]]) == acc[n - 1] + [];
    assert Flatten([acc[n - 1] + [x]]) == acc[n - 1] + [x] + [];
  }

  /** The accumulator after the first `|prefix|` steps: a chunking of them whose size is fixed by the count. */
  ghost predicate ChunkAcc<T>(acc: seq<seq<T>>, prefix: seq<T>, size: nat) {
    && IsChunking(acc, prefix, size)
    && (acc == [] <==> prefix == [])
    && (acc != [] ==> |prefix| == (|acc| - 1) * size + |acc[|acc| - 1]|)
  }

  /** Slot `Math.floor(i / size)` is the last piece while it has room, and the next one once it is full. */
  lemma ChunkSlot<T>(acc: seq<seq<T>>, prefix: seq<T>, size: nat)
    requires size > 0 && ChunkAcc(acc, prefix, size)
    ensures |prefix| / size == (if acc == [] || |acc[|acc| - 1]| == size then |acc| else |acc| - 1)
  {
    if acc == [] {
      DivModUnique(0, 0, 0, size);
    } else if |acc[|acc| - 1]| == size {
      DivModUnique(|prefix|, |acc|, 0, size);
    } else {
      DivModUnique(|prefix|, |acc| - 1, |acc[|acc| - 1]|, size);
    }
  }

  /** One step of the reduce: push `x` onto slot `|prefix| / size`, opening it if missing. */
  function PushAt<T>(acc: seq<seq<T>>, idx: nat, x: T): (r: seq<seq<T>>)
    requires idx <= |acc|
    ensures |r| == if idx == |acc| then |acc| + 1 else |acc|
    ensures r[idx] == (if idx < |acc| then acc[idx] else []) + [x]
    ensures forall k :: 0 <= k < |acc| && k != idx ==> r[k] == acc[k]
  {
    var slots := if idx == |acc| then acc + [[]] else acc;
    slots[idx := slots[idx] + [x]]
  }

  /** Pushing onto a full last piece opens a new piece holding just `x`. */
  lemma PushNewPiece<T>(acc: seq<seq<T>>, prefix: seq<T>, x: T, size: nat)
    requires size > 0 && ChunkAcc(acc, prefix, size) && acc != [] && |acc[|acc| - 1]| == size
    ensures ChunkAcc(acc + [[x]], prefix + [x], size)
  {
    var next := acc + [[x]];
    var n := |acc|;
    FlattenAppend(acc, [[x]]);
    assert Flatten([[x]]) == [x] + [];
    assert (n - 1) * size + size == n * size;
    assert |prefix + [x]| == (|next| - 1) * size + |next[|next| - 1]|;
    forall k | 0 <= k < |next| ensures 0 < |next[k]| <= size {
      if k < n {
        assert next[k] == acc[k];
      }
    }
    forall k | 0 <= k < |next| - 1 ensures |next[k]| == size {
      assert next[k] == acc[k];
    }
  }

  /** Pushing onto a last piece with room grows that piece by `x`. */
  lemma PushGrowLast<T>(acc: seq<seq<T>>, prefix: seq<T>, x: T, size: nat)
    requires size > 0 && ChunkAcc(acc, prefix, size) && acc != [] && |acc[|acc| - 1]| < size
    ensures ChunkAcc(acc[|acc| - 1 := acc[|acc| - 1] + [x]], prefix + [x], size)
  {
    FlattenGrowLast(acc, x);
  }

  /** The reduce step keeps the accumulator invariant. */
  lemma ChunkPush<T>(acc: seq<seq<T>>, prefix: seq<T>, x: T, size: nat)
    requires size > 0 && ChunkAcc(acc, prefix, size)
    ensures |prefix| / size <= |acc|
    ensures ChunkAcc(PushAt(acc, |prefix| / size, x), prefix + [x], size)
  {
    ChunkSlot(acc, prefix, size);
    var idx := |prefix| / size;
    if idx == |acc| {
      var slots := acc + [[]];
      assert PushAt(acc, idx, x) == slots[idx := slots[idx] + [x]];
      assert slots[idx] + [x] == [x];
      assert PushAt(acc, idx, x) == acc + [[x]];
      if acc == [] {
        assert acc + [[x]] == [[x]];
        assert Flatten([[x]]) == [x] + [];
      } else {
        PushNewPiece(acc, prefix, x, size);
      }
    } else {
      PushGrowLast(acc, prefix, x, size);
    }
  }

  /**
   * `chunk(arr, size)`: the `reduce` that pushes entry `i` onto accumulator slot
   * `Math.floor(i / size)`, creating the slot when it is missing.
   */
  method Chunk<T>(arr: seq<T>, size: nat) returns (acc: seq<seq<T>>)
    requires size > 0
    ensures acc == Chunks(arr, size)
  {
    acc := [];
    var i := 0;
    while i < |arr|
      invariant 0 <= i <= |arr|
      invariant ChunkAcc(acc, arr[..i], size)
    {
      var idx := i / size;
      ChunkPush(acc, arr[..i], arr[i], size);
      if idx == |acc| {
        acc := acc + [[]];
      }
      acc := acc[idx := acc[idx] + [arr[i]]];
      assert arr[..i + 1] == arr[..i] + [arr[i]];
      i := i + 1;
    }
    assert arr[..i] == arr;
    ChunkingIsUnique(acc, arr, size);
  }

  /** At most `m` pieces when the input fits in `m` pieces of `size`. */
  lemma {:induction false} ChunksCountBound<T>(arr: seq<T>, size: nat, m: nat)
    requires size > 0 && |arr| <= m * size
    ensures |Chunks(arr, size)| <= m
    decreases |arr|
  {
    if |arr| > size {
      assert m * size == (m - 1) * size + size;
      assert m >= 2 by {
        if m <= 1 {
          assert false;
        }
      }
      ChunksCountBound(arr[size..], size, m - 1);
    }
  }

  /** `Math.max(3, Math.ceil(n / 3))`. */
  function MixSize(n: nat): (size: nat)
    ensures size >= 3 && 3 * size >= n
    ensures size == 3 || 3 * (size - 1) < n
  {
    Max(3, (n + 2) / 3)
  }

  /** `chunk(shuffled, MixSize(TRACKS.length)).slice(0, 3)`. */
  function MixGroups(shuffled: seq<Track>): (groups: seq<seq<Track>>)
    ensures |groups| <= 3
    ensures forall k :: 0 <= k < |groups| ==> 0 < |groups[k]| <= MixSize(|AllTracks|)
    ensures forall k :: 0 <= k < |groups| - 1 ==> |groups[k]| == MixSize(|AllTracks|)
  {
    var cs := Chunks(shuffled, MixSize(|AllTracks|));
    ChunksIsChunking(shuffled, MixSize(|AllTracks|));
    if |cs| <= 3 then cs else cs[..3]
  }

  /**
   * For any shuffle of the catalog nothing is cut off by `slice(0, 3)`: the mixes, concatenated,
   * are the shuffled catalog, so every catalog track is in exactly one mix.
   */
  lemma MixGroupsCoverShuffle(shuffled: seq<Track>)
    requires multiset(shuffled) == multiset(AllTracks)
    ensures |MixGroups(shuffled)| <= 3
    ensures MixGroups(shuffled) == Chunks(shuffled, MixSize(|AllTracks|))
    ensures Flatten(MixGroups(shuffled)) == shuffled
    ensures multiset(Flatten(MixGroups(shuffled))) == multiset(AllTracks)
  {
    assert |shuffled| == |multiset(shuffled)| == |multiset(AllTracks)| == |AllTracks|;
    ChunksCountBound(shuffled, MixSize(|AllTracks|), 3);
    ChunksIsChunking(shuffled, MixSize(|AllTracks|));
  }

  /** With the nine catalog tracks there are three mixes of three. */
  lemma NineTracksMakeThreeMixes(shuffled: seq<Track>)
    requires |shuffled| == 9
    ensures |MixGroups(shuffled)| == 3
    ensures forall i :: 0 <= i < 3 ==> |MixGroups(shuffled)[i]| == 3
  {
    assert MixSize(|AllTracks|) == 3;
    var rest := shuffled[3..];
    assert Chunks(shuffled, 3) == [shuffled[..3]] + Chunks(rest, 3);
    assert Chunks(rest, 3) == [rest[..3]] + Chunks(rest[3..], 3);
    assert Chunks(rest[3..], 3) == [rest[3..]];
  }

  type Palette = (string, string)

  const Palettes: seq<Palette> := [("#4ECDC4", "#1A535C"), ("#9D4EDD", "#3A0CA3"), ("#FF6B6B", "#E85D75")]

  datatype Mix = Mix(id: string, name: string, color: Palette, tracks: seq<Track>)

  /** Mix `i`: id `mix<i>`, name `Daily Mix <i+1>`, palette `i mod 3`, the `i`-th group. */
  function BuildMixes(shuffled: seq<Track>): (mixes: seq<Mix>)
    ensures |mixes| == |MixGroups(shuffled)| <= 3
    ensures forall i :: 0 <= i < |mixes| ==>
      mixes[i].tracks == MixGroups(shuffled)[i] && mixes[i].color == Palettes[i % 3]
      && mixes[i].id == "mix" + NatToString(i) && mixes[i].name == "Daily Mix " + NatToString(i + 1)
  {
    var groups := MixGroups(shuffled);
    seq(|groups|, i requires 0 <= i < |groups| =>
      Mix("mix" + NatToString(i), "Daily Mix " + NatToString(i + 1), Palettes[i % |Palettes|], groups[i]))
  }

  /** Distinct mixes have distinct ids and distinct names. */
  lemma MixIdsDistinct(shuffled: seq<Track>, i: nat, j: nat)
    requires i < j < |BuildMixes(shuffled)|
    ensures BuildMixes(shuffled)[i].id != BuildMixes(shuffled)[j].id
    ensures BuildMixes(shuffled)[i].name != BuildMixes(shuffled)[j].name
  {
    var mixes := BuildMixes(shuffled);
    if mixes[i].id == mixes[j].id {
      assert NatToString(i) == mixes[i].id[3..];
      assert NatToString(j) == mixes[j].id[3..];
      NatToStringInjective(i, j);
    }
    if mixes[i].name == mixes[j].name {
      assert NatToString(i + 1) == mixes[i].name[10..];
      assert NatToString(j + 1) == mixes[j].name[10..];
      NatToStringInjective(i + 1, j + 1);
    }
  }

  /**
   * `handlePlay(mix)` as written: `setQueue(mix.tracks, 0)`, then the `play` of the same render,
   * whose `queue` is still the one from before `setQueue`. It looks the first track up in that old
   * list (the catalog when the old queue was empty) and sets the index to where it found it, or,
   * when the old list lacks it, replaces the freshly set queue by that single track.
   */
  method HandlePlayAsWritten(s: Session, mix: Mix, created: Option<Status>, createdAgain: Option<Status>)
    requires s.Valid()
    modifies s
    ensures s.Valid()
    ensures |mix.tracks| > 0 && FindIndex(ActiveList(old(s.queue)), mix.tracks[0].id) >= 0 ==>
      s.queue == mix.tracks && s.index == FindIndex(ActiveList(old(s.queue)), mix.tracks[0].id)
    ensures |mix.tracks| > 0 && FindIndex(ActiveList(old(s.queue)), mix.tracks[0].id) < 0 ==>
      s.queue == [mix.tracks[0]] && s.index == 0
    ensures |mix.tracks| > 0 ==>
      s.currentTrack.Some? && s.currentTrack.value.id == mix.tracks[0].id
      && s.sound == Some(Sound(ToSource(s.currentTrack.value.uri), true, 0)) && s.polling
  {
    var captured := s.queue;
    s.SetQueue(mix.tracks, 0, created);
    if |mix.tracks| > 0 {
      s.PlayTrackIn(captured, mix.tracks[0], createdAgain);
    } else {
      s.Play(None, createdAgain);
    }
  }

  /**
   * The stale lookup at work: from an empty queue, a mix starting T5, T1, T9 is queued with the index
   * left at T5's catalog position 4, past the mix's end; `next` then goes to position 2 (T9),
   * skipping T1.
   */
  lemma StaleHandlePlayLeavesMix()
    ensures FindIndex(ActiveList([]), T5.id) == 4
    ensures 4 >= |[T5, T1, T9]|
    ensures NextIndex(4, |[T5, T1, T9]|) == 2 && [T5, T1, T9][2] == T9
  {
    assert AllTracks[4] == T5;
    assert FindIndex(AllTracks[4..], "T5") == 0;
    assert FindIndex(AllTracks[3..], "T5") == 1;
    assert FindIndex(AllTracks[2..], "T5") == 2;
    assert FindIndex(AllTracks[1..], "T5") == 3;
  }

  /**
   * `handlePlay(mix)` as intended: queue the mix and start its first track. For a non-empty mix the
   * queue is the mix, the index 0 and its first track current, so `next` moves on to its second.
   */
  method HandlePlay(s: Session, mix: Mix, created: Option<Status>, createdAgain: Option<Status>)
    requires s.Valid()
    modifies s
    ensures s.Valid()
    ensures |mix.tracks| > 0 ==>
      s.queue == mix.tracks && s.index == 0 && s.currentTrack == Some(mix.tracks[0]) && s.OnList()
    ensures |mix.tracks| > 0 ==>
      s.sound == Some(Sound(ToSource(mix.tracks[0].uri), true, 0)) && s.polling
    ensures |mix.tracks| > 1 ==> NextIndex(s.index, |ActiveList(s.queue)|) == 1
  {
    s.SetQueue(mix.tracks, 0, created);
    if |mix.tracks| > 0 {
      s.Play(Some(mix.tracks[0]), createdAgain);
    } else {
      s.Play(None, createdAgain);
    }
  }
}
