/**
 * The audio playback session: the queue, the current index, the current track, the one engine
 * sound it holds, and the mirrored engine status (`isPlaying`, `position`, `duration`).
 *
 * The media engine is abstract: a held sound is the source it was created from, whether it is
 * playing, and its playback position. Each operation runs to completion before the next starts.
 */
module Playback {
  import opened Common
  import opened Tracks

  /** `toSource`: a bundled handle passes through, a URL string becomes `{ uri }`, anything else passes through. */
  function ToSource(input: Asset): (r: Asset)
    ensures !r.Url?
    ensures input.Url? ==> r == UriObject(input.url)
    ensures !input.Url? ==> r == input
  {
    match input
    case Bundled(_) => input
    case Url(s) => UriObject(s)
    case UriObject(_) => input
  }

  /** The engine accepts what `toSource` produced: converting again changes nothing. */
  lemma ToSourceIdempotent(input: Asset)
    ensures ToSource(ToSource(input)) == ToSource(input)
  {
  }

  /** A playback status as the engine reports it; missing numeric fields are `None`. */
  datatype Status = Status(isLoaded: bool, isPlaying: bool, positionMillis: Option<int>, durationMillis: Option<int>)

  /** `handleStatus` copies a status only when it is present and loaded. */
  predicate Applies(st: Option<Status>) { st.Some? && st.value.isLoaded }

  /** The engine-side state of the one held sound. */
  datatype Sound = Sound(source: Asset, playing: bool, positionMs: int)

  /** `playAsync`. */
  function Resumed(s: Sound): Sound { s.(playing := true) }

  /** `pauseAsync`. */
  function Paused(s: Sound): Sound { s.(playing := false) }

  /** `setPositionAsync(ms)`. */
  function Seeked(s: Sound, ms: int): Sound { s.(positionMs := ms) }

  /** Pausing is idempotent and keeps the source and position; resuming undoes it. */
  lemma PauseIdempotent(s: Sound)
    ensures Paused(Paused(s)) == Paused(s)
    ensures Paused(s).source == s.source && Paused(s).positionMs == s.positionMs
    ensures s.playing ==> Resumed(Paused(s)) == s
  {
  }

  /** `queue.length ? queue : TRACKS`: the list next/previous/play work on. */
  function ActiveList(queue: seq<Track>): (list: seq<Track>)
    ensures |list| > 0
  {
    if |queue| > 0 then queue else AllTracks
  }

  /** JavaScript's `a % n` for `n > 0`: truncating, so the remainder has the sign of `a`. */
  function JsRem(a: int, n: int): (r: int)
    requires n > 0
    ensures a >= 0 ==> 0 <= r < n && r == a % n
    ensures a < 0 ==> -n < r <= 0
    ensures a < 0 ==> r == (if a % n == 0 then 0 else a % n - n)
  {
    if a >= 0 then a % n
    else
      var q, t := (-a) / n, (-a) % n;
      if t == 0 then
        DivModUnique(a, -q, 0, n);
        -t
      else
        DivModUnique(a, -q - 1, n - t, n);
        -t
  }

  /** `(index + 1) % list.length`. */
  function NextIndex(index: int, len: nat): (ni: int)
    requires len > 0
    ensures index >= -1 ==> 0 <= ni < len
    ensures 0 <= index < len - 1 ==> ni == index + 1
    ensures index == len - 1 ==> ni == 0
  {
    if 0 <= index < len - 1 then
      DivModUnique(index + 1, 0, index + 1, len);
      JsRem(index + 1, len)
    else if index == len - 1 then
      DivModUnique(index + 1, 1, 0, len);
      JsRem(index + 1, len)
    else
      JsRem(index + 1, len)
  }

  /** `(index - 1 + list.length) % list.length`. */
  function PrevIndex(index: int, len: nat): (pi: int)
    requires len > 0
    ensures index >= 1 - len ==> 0 <= pi < len
    ensures 0 < index <= len ==> pi == index - 1
    ensures index == 0 ==> pi == len - 1
  {
    if 0 < index <= len then
      DivModUnique(index - 1 + len, 1, index - 1, len);
      JsRem(index - 1 + len, len)
    else if index == 0 then
      DivModUnique(len - 1, 0, len - 1, len);
      JsRem(index - 1 + len, len)
    else
      JsRem(index - 1 + len, len)
  }

  /** Stepping back then forward (or forward then back) returns to the same in-range index. */
  lemma {:induction false} NextPrevInverse(index: int, len: nat)
    requires 0 <= index < len
    ensures NextIndex(PrevIndex(index, len), len) == index
    ensures PrevIndex(NextIndex(index, len), len) == index
  {
    if index == 0 {
      assert PrevIndex(index, len) == len - 1;
    }
    if index == len - 1 {
      assert NextIndex(index, len) == 0;
    }
  }

  /** The index reached after pressing next `k` times from `index`. */
  function NextTimes(index: int, len: nat, k: nat): int
    requires len > 0
    decreases k
  {
    if k == 0 then index else NextIndex(NextTimes(index, len, k - 1), len)
  }

  /** One press of next from `x mod len` lands on `(x + 1) mod len`. */
  lemma NextIndexOfMod(x: nat, len: nat)
    requires len > 0
    ensures NextIndex(x % len, len) == (x + 1) % len
  {
    var q, r := x / len, x % len;
    assert x == q * len + r;
    if r == len - 1 {
      assert x + 1 == (q + 1) * len + 0;
      DivModUnique(x + 1, q + 1, 0, len);
    } else {
      assert x + 1 == q * len + (r + 1);
      DivModUnique(x + 1, q, r + 1, len);
    }
  }

  /** From an in-range index, `k` presses of next land on `(index + k) mod len`. */
  lemma {:induction false} NextTimesWraps(index: int, len: nat, k: nat)
    requires 0 <= index < len
    ensures NextTimes(index, len, k) == (index + k) % len
    decreases k
  {
    if k == 0 {
      DivModUnique(index, 0, index, len);
    } else {
      NextTimesWraps(index, len, k - 1);
      NextIndexOfMod(index + k - 1, len);
    }
  }

  /** Pressing next as many times as the list is long comes back to the starting index. */
  lemma NextFullCycle(index: int, len: nat)
    requires 0 <= index < len
    ensures NextTimes(index, len, len) == index
  {
    NextTimesWraps(index, len, len);
    DivModUnique(index + len, 1, index, len);
  }

  /** `list.findIndex(t => t.id === id)`: the first position with that id, or -1. */
  function FindIndex(list: seq<Track>, id: string): (i: int)
    ensures -1 <= i < |list|
    ensures i >= 0 ==> list[i].id == id && forall j :: 0 <= j < i ==> list[j].id != id
    ensures i == -1 <==> forall j :: 0 <= j < |list| ==> list[j].id != id
    decreases |list|
  {
    if list == [] then -1
    else if list[0].id == id then 0
    else
      var k := FindIndex(list[1..], id);
      if k < 0 then -1 else k + 1
  }

  /** The session (the `AudioProvider`'s refs and state). */
  class Session {
    var currentTrack: Option<Track>
    var isPlaying: bool
    var position: int
    var duration: int
    /** The volume is fixed: it is never changed after the provider starts. */
    const volume: int := 1
    var queue: seq<Track>
    var index: int
    /** `soundRef.current`. */
    var sound: Option<Sound>
    /** `pollRef.current !== null`. */
    var polling: bool
    /** Engine handles created and not yet released. */
    ghost var liveHandles: nat

    /** At most one engine handle is alive, exactly when a sound is held; polling only runs with a sound. */
    ghost predicate Valid()
      reads this
    {
      && liveHandles == (if sound.Some? then 1 else 0)
      && (polling ==> sound.Some?)
    }

    /** The index points into the active list. */
    ghost predicate IndexInRange()
      reads this
    {
      0 <= index < |ActiveList(queue)|
    }

    /** Settled on the list: the current track is the active list's entry at the index. */
    ghost predicate OnList()
      reads this
    {
      IndexInRange() && currentTrack == Some(ActiveList(queue)[index])
    }

    /**
     * Just loaded `track`: it is current, one new sound plays it from 0 with polling on, and the
     * mirror is seeded from the creation status `created`. When that status is missing or not
     * loaded, position and duration are 0 and the playing flag keeps its earlier value `wasPlaying`.
     */
    ghost predicate Loaded(track: Track, created: Option<Status>, wasPlaying: bool)
      reads this
    {
      && currentTrack == Some(track)
      && sound == Some(Sound(ToSource(track.uri), true, 0))
      && polling && liveHandles == 1
      && (Applies(created) ==>
            isPlaying == created.value.isPlaying
            && position == created.value.positionMillis.GetOr(0) && duration == created.value.durationMillis.GetOr(0))
      && (!Applies(created) ==> isPlaying == wasPlaying && position == 0 && duration == 0)
    }

    constructor ()
      ensures Valid() && liveHandles == 0
      ensures currentTrack == None && !isPlaying && position == 0 && duration == 0
      ensures queue == [] && index == 0 && sound == None && !polling
    {
      currentTrack := None;
      isPlaying := false;
      position := 0;
      duration := 0;
      queue := [];
      index := 0;
      sound := None;
      polling := false;
      liveHandles := 0;
    }

    /** `handleStatus(st)`: ignore a null or unloaded status, else mirror it (missing numbers read as 0). */
    method HandleStatus(st: Option<Status>)
      modifies this
      ensures Applies(st) ==>
        isPlaying == st.value.isPlaying
        && position == st.value.positionMillis.GetOr(0) && duration == st.value.durationMillis.GetOr(0)
      ensures !Applies(st) ==> isPlaying == old(isPlaying) && position == old(position) && duration == old(duration)
      ensures currentTrack == old(currentTrack) && queue == old(queue) && index == old(index)
      ensures sound == old(sound) && polling == old(polling) && liveHandles == old(liveHandles)
    {
      if st.None? || !st.value.isLoaded {
        return;
      }
      isPlaying := st.value.isPlaying;
      position := st.value.positionMillis.GetOr(0);
      duration := st.value.durationMillis.GetOr(0);
    }

    /** `unload`: stop polling and release the held sound, if any. */
    method Unload()
      requires Valid()
      modifies this
      ensures Valid() && sound == None && !polling && liveHandles == 0
      ensures currentTrack == old(currentTrack) && queue == old(queue) && index == old(index)
      ensures isPlaying == old(isPlaying) && position == old(position) && duration == old(duration)
    {
      polling := false;
      if sound.Some? {
        sound := None;
        liveHandles := liveHandles - 1;
      }
    }

    /** `Audio.Sound.createAsync(source, { shouldPlay: true, volume })`: only legal with no sound held. */
    method CreateSound(source: Asset)
      requires Valid() && sound == None
      modifies this
      ensures Valid() && sound == Some(Sound(source, true, 0)) && liveHandles == 1
      ensures polling == old(polling)
      ensures currentTrack == old(currentTrack) && queue == old(queue) && index == old(index)
      ensures isPlaying == old(isPlaying) && position == old(position) && duration == old(duration)
    {
      sound := Some(Sound(source, true, 0));
      liveHandles := liveHandles + 1;
    }

    /**
     * `loadAndPlay(track)`: make `track` current with position and duration reset, release the old
     * sound, create the new one (seeding the mirror from the status `created` it reports), start
     * polling and play. `created` is the engine's answer to the creation request.
     */
    method LoadAndPlay(track: Track, created: Option<Status>)
      requires Valid()
      modifies this
      ensures Valid() && Loaded(track, created, old(isPlaying))
      ensures queue == old(queue) && index == old(index)
    {
      currentTrack := Some(track);
      position := 0;
      duration := 0;
      Unload();
      CreateSound(ToSource(track.uri));
      HandleStatus(created);
      polling := true;
      sound := Some(Resumed(sound.value));
    }

    /**
     * `loadAndPlay(list[i])` where the entry does not exist: the track fields are cleared, the old
     * sound is released, and reading the missing track's `uri` then throws before anything is created.
     */
    method LoadMissing()
      requires Valid()
      modifies this
      ensures Valid() && sound == None && !polling && liveHandles == 0
      ensures currentTrack == None && position == 0 && duration == 0 && isPlaying == old(isPlaying)
      ensures queue == old(queue) && index == old(index)
    {
      currentTrack := None;
      position := 0;
      duration := 0;
      Unload();
    }

    /** `setQueue(tracks, startIndex)`: store both verbatim; load `tracks[startIndex]` only if it exists. */
    method SetQueue(tracks: seq<Track>, startIndex: int, created: Option<Status>)
      requires Valid()
      modifies this
      ensures Valid() && queue == tracks && index == startIndex
      ensures 0 <= startIndex < |tracks| ==> Loaded(tracks[startIndex], created, old(isPlaying)) && OnList()
      ensures !(0 <= startIndex < |tracks|) ==>
        currentTrack == old(currentTrack) && sound == old(sound) && polling == old(polling)
        && isPlaying == old(isPlaying) && position == old(position) && duration == old(duration)
    {
      queue := tracks;
      index := startIndex;
      if 0 <= startIndex < |tracks| {
        LoadAndPlay(tracks[startIndex], created);
      }
    }

    /**
     * The `play(track)` branch as run by a closure whose `queue` is `captured`: jump to the track's
     * first occurrence (by id) in that list, or else replace the queue by `[track]`. Only the index
     * is set in the first case; the queue itself stays what it is now.
     */
    method PlayTrackIn(captured: seq<Track>, track: Track, created: Option<Status>)
      requires Valid()
      modifies this
      ensures Valid()
      ensures currentTrack.Some? && currentTrack.value.id == track.id
      ensures FindIndex(ActiveList(captured), track.id) >= 0 ==>
        queue == old(queue) && index == FindIndex(ActiveList(captured), track.id)
        && Loaded(ActiveList(captured)[index], created, old(isPlaying))
      ensures FindIndex(ActiveList(captured), track.id) < 0 ==>
        queue == [track] && index == 0 && Loaded(track, created, old(isPlaying)) && OnList()
      ensures captured == old(queue) ==> OnList()
    {
      var list := ActiveList(captured);
      var i := FindIndex(list, track.id);
      if i >= 0 {
        index := i;
        LoadAndPlay(list[i], created);
      } else {
        SetQueue([track], 0, created);
      }
    }

    /**
     * `play(track?)`. With a track: jump to its first occurrence (by id) in the active list, or else
     * replace the queue by `[track]`. Without one: resume the held sound, or reload the current track.
     */
    method Play(track: Option<Track>, created: Option<Status>)
      requires Valid()
      modifies this
      ensures Valid()
      ensures track.Some? ==> currentTrack.Some? && currentTrack.value.id == track.value.id && OnList()
      ensures track.Some? && FindIndex(ActiveList(old(queue)), track.value.id) >= 0 ==>
        queue == old(queue) && index == FindIndex(ActiveList(old(queue)), track.value.id)
        && Loaded(ActiveList(old(queue))[index], created, old(isPlaying))
      ensures track.Some? && FindIndex(ActiveList(old(queue)), track.value.id) < 0 ==>
        queue == [track.value] && index == 0 && Loaded(track.value, created, old(isPlaying))
      ensures track.None? && old(sound).Some? ==>
        sound == Some(Resumed(old(sound).value)) && polling && currentTrack == old(currentTrack)
        && isPlaying == old(isPlaying) && position == old(position) && duration == old(duration)
      ensures track.None? && old(sound).None? && old(currentTrack).Some? ==>
        Loaded(old(currentTrack).value, created, old(isPlaying))
      ensures track.None? && old(sound).None? && old(currentTrack).None? ==>
        sound == None && currentTrack == None && polling == old(polling)
        && isPlaying == old(isPlaying) && position == old(position) && duration == old(duration)
      ensures track.None? ==> queue == old(queue) && index == old(index)
    {
      if track.Some? {
        PlayTrackIn(queue, track.value, created);
        return;
      }
      if sound.Some? {
        sound := Some(Resumed(sound.value));
        polling := true;
      } else if currentTrack.Some? {
        LoadAndPlay(currentTrack.value, created);
      }
    }

    /** `pause`: pause the held sound; nothing when none is held. The mirror waits for the next status. */
    method Pause()
      requires Valid()
      modifies this
      ensures Valid()
      ensures sound == (if old(sound).Some? then Some(Paused(old(sound).value)) else None)
      ensures polling == old(polling) && currentTrack == old(currentTrack) && queue == old(queue) && index == old(index)
      ensures isPlaying == old(isPlaying) && position == old(position) && duration == old(duration)
    {
      if sound.Some? {
        sound := Some(Paused(sound.value));
      }
    }

    /**
     * `toggle`: with no sound, reload the current track if there is one; with a sound, pause it when
     * the engine reports it playing and resume it (restarting polling) otherwise.
     */
    method Toggle(created: Option<Status>)
      requires Valid()
      modifies this
      ensures Valid() && queue == old(queue) && index == old(index)
      ensures old(sound).None? && old(currentTrack).Some? ==>
        Loaded(old(currentTrack).value, created, old(isPlaying))
      ensures old(sound).None? && old(currentTrack).None? ==>
        sound == None && currentTrack == None && polling == old(polling)
        && isPlaying == old(isPlaying) && position == old(position) && duration == old(duration)
      ensures old(sound).Some? ==>
        sound == Some(if old(sound).value.playing then Paused(old(sound).value) else Resumed(old(sound).value))
        && currentTrack == old(currentTrack)
        && isPlaying == old(isPlaying) && position == old(position) && duration == old(duration)
      ensures old(sound).Some? && old(sound).value.playing ==> polling == old(polling)
      ensures old(sound).Some? && !old(sound).value.playing ==> polling
    {
      if sound.None? {
        if currentTrack.Some? {
          LoadAndPlay(currentTrack.value, created);
        }
        return;
      }
      if sound.value.playing {
        sound := Some(Paused(sound.value));
      } else {
        sound := Some(Resumed(sound.value));
        polling := true;
      }
    }

    /** `seekTo(ms)`: ask the held sound to jump to `ms`; nothing when none is held. */
    method SeekTo(ms: int)
      requires Valid()
      modifies this
      ensures Valid()
      ensures sound == (if old(sound).Some? then Some(Seeked(old(sound).value, ms)) else None)
      ensures polling == old(polling) && currentTrack == old(currentTrack) && queue == old(queue) && index == old(index)
      ensures isPlaying == old(isPlaying) && position == old(position) && duration == old(duration)
    {
      if sound.Some? {
        sound := Some(Seeked(sound.value, ms));
      }
    }

    /** `next`: step the index forward modulo the active list's length and load that entry. */
    method Next(created: Option<Status>)
      requires Valid()
      modifies this
      ensures Valid() && queue == old(queue)
      ensures index == NextIndex(old(index), |ActiveList(old(queue))|)
      ensures old(index) >= -1 ==> 0 <= index < |ActiveList(queue)|
      ensures old(index) == |ActiveList(old(queue))| - 1 ==> index == 0
      ensures 0 <= index < |ActiveList(queue)| ==>
        Loaded(ActiveList(queue)[index], created, old(isPlaying)) && OnList()
      ensures !(0 <= index < |ActiveList(queue)|) ==>
        currentTrack == None && sound == None && !polling
        && position == 0 && duration == 0 && isPlaying == old(isPlaying)
    {
      var list := ActiveList(queue);
      var ni := NextIndex(index, |list|);
      index := ni;
      if 0 <= ni < |list| {
        LoadAndPlay(list[ni], created);
      } else {
        LoadMissing();
      }
    }

    /**
     * `previous`: past the first 3 seconds with a sound held, restart it; otherwise step the index
     * back modulo the active list's length and load that entry.
     */
    method Previous(created: Option<Status>)
      requires Valid()
      modifies this
      ensures Valid() && queue == old(queue)
      ensures old(position) > 3000 && old(sound).Some? ==>
        index == old(index) && sound == Some(Seeked(old(sound).value, 0))
        && currentTrack == old(currentTrack) && polling == old(polling)
        && isPlaying == old(isPlaying) && position == old(position) && duration == old(duration)
      ensures !(old(position) > 3000 && old(sound).Some?) ==>
        index == PrevIndex(old(index), |ActiveList(old(queue))|)
      ensures !(old(position) > 3000 && old(sound).Some?) && old(index) >= 1 - |ActiveList(old(queue))| ==>
        0 <= index < |ActiveList(queue)|
      ensures !(old(position) > 3000 && old(sound).Some?) && 0 <= index < |ActiveList(queue)| ==>
        Loaded(ActiveList(queue)[index], created, old(isPlaying)) && OnList()
      ensures !(old(position) > 3000 && old(sound).Some?) && old(index) == 0 ==>
        index == |ActiveList(queue)| - 1
      ensures !(old(position) > 3000 && old(sound).Some?) && !(0 <= index < |ActiveList(queue)|) ==>
        currentTrack == None && sound == None && !polling
        && position == 0 && duration == 0 && isPlaying == old(isPlaying)
    {
      if position > 3000 && sound.Some? {
        sound := Some(Seeked(sound.value, 0));
        return;
      }
      var list := ActiveList(queue);
      var pi := PrevIndex(index, |list|);
      index := pi;
      if 0 <= pi < |list| {
        LoadAndPlay(list[pi], created);
      } else {
        LoadMissing();
      }
    }
  }
}
