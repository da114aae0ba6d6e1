/** The now-playing screen: the `m:ss` clock text and the rules choosing what the screen shows and plays. */
module NowPlaying {
  import opened Common
  import opened Tracks
  import opened Playback

  /** `Math.max(0, Math.floor((ms ?? 0) / 1000))`. */
  function TotalSeconds(ms: Option<int>): (total: nat)
    ensures ms.GetOr(0) >= 0 ==> total * 1000 <= ms.GetOr(0) < total * 1000 + 1000
    ensures ms.GetOr(0) < 1000 ==> total == 0
  {
    Max(0, ms.GetOr(0) / 1000)
  }

  /** `String(n).padStart(2, '0')` for a number below 100. */
  function Pad2(n: nat): (s: string)
    requires n < 100
    ensures |s| == 2 && AllDigits(s) && DigitsValue(s) == n
  {
    NatToStringRoundTrip(n);
    var d := NatToString(n);
    if |d| < 2 then
      assert DigitsValue("0" + d) == DigitsValue(d) by {
        assert ("0" + d)[..1] == "0";
      }
      "0" + d
    else d
  }

  /** `fmt(ms)`: whole minutes (uncapped), a colon, then two-digit seconds. */
  function Fmt(ms: Option<int>): (r: string)
    ensures |r| >= 4 && r[|r| - 3] == ':'
    ensures |r| > 4 ==> r[0] != '0'
  {
    var total := TotalSeconds(ms);
    NatToString(total / 60) + ":" + Pad2(total % 60)
  }

  /** Reference reading of an `m:ss` text: minutes, a colon, two digits below 60. */
  function ClockValue(s: string): Option<nat> {
    if |s| >= 4 && s[|s| - 3] == ':' && AllDigits(s[..|s| - 3]) && AllDigits(s[|s| - 2..])
       && DigitsValue(s[|s| - 2..]) < 60
    then Some(DigitsValue(s[..|s| - 3]) * 60 + DigitsValue(s[|s| - 2..]))
    else None
  }

  /** The clock text reads back as the whole seconds of `ms` (negative or missing counts as zero). */
  lemma FmtRoundTrip(ms: Option<int>)
    ensures ClockValue(Fmt(ms)) == Some(TotalSeconds(ms))
  {
    var total := TotalSeconds(ms);
    var m, s := NatToString(total / 60), Pad2(total % 60);
    var r := Fmt(ms);
    assert r == m + ":" + s;
    assert r[..|r| - 3] == m;
    assert r[|r| - 2..] == s;
    NatToStringRoundTrip(total / 60);
  }

  /** Negative or missing times show as `0:00`; minutes are not capped at 59. */
  lemma FmtExamples()
    ensures Fmt(Some(-1500)) == "0:00" && Fmt(None) == "0:00"
    ensures Fmt(Some(3600000)) == "60:00"
    ensures Fmt(Some(61999)) == "1:01"
  {
    assert NatToString(60) == NatToString(6) + [DigitChar(0)];
  }

  /** The route's `id` parameter, `'T1'` when absent. */
  function WantedId(param: Option<string>): (id: string)
    ensures param.None? ==> id == "T1"
    ensures param.Some? ==> id == param.value
  {
    param.GetOr("T1")
  }

  /** `getTrack(wantedId)`. */
  function RouteTrack(param: Option<string>): (t: Option<Track>)
    ensures t.Some? <==> WantedId(param) in TracksById
    ensures t.Some? ==> t.value.id == WantedId(param)
  {
    GetTrack(WantedId(param))
  }

  /** `currentTrack ?? routeTrack`: the playing track wins over the route's. */
  function Display(currentTrack: Option<Track>, routeTrack: Option<Track>): (shown: Option<Track>)
    ensures shown.Some? <==> currentTrack.Some? || routeTrack.Some?
    ensures currentTrack.Some? ==> shown == currentTrack
    ensures currentTrack.None? ==> shown == routeTrack
  {
    if currentTrack.Some? then currentTrack else routeTrack
  }

  /** The on-enter effect plays the route's track unless that track is already current. */
  function ShouldPlayOnEnter(routeTrack: Option<Track>, currentTrack: Option<Track>): (play: bool)
    ensures play ==> routeTrack.Some?
    ensures routeTrack.Some? ==> (!play <==> currentTrack.Some? && currentTrack.value.id == routeTrack.value.id)
  {
    routeTrack.Some? && (currentTrack.None? || currentTrack.value.id != routeTrack.value.id)
  }

  /** The slider's value: the drag value while scrubbing with one, else the engine position. */
  function ProgressMs(scrubbing: bool, dragMs: Option<int>, position: int): (p: int)
    ensures p == position || (scrubbing && dragMs == Some(p))
    ensures !scrubbing || dragMs.None? ==> p == position
    ensures scrubbing && dragMs.Some? ==> p == dragMs.value
  {
    if scrubbing && dragMs.Some? then dragMs.value else position
  }

  /** The slider's maximum `Math.max(duration, 1)`: never below 1, the duration once it is known. */
  function SliderMax(duration: int): (m: int)
    ensures m >= 1 && m >= duration
    ensures duration >= 1 ==> m == duration
    ensures duration < 1 ==> m == 1
  {
    Max(duration, 1)
  }

  /** Opening the screen without an id aims at the first catalog track. */
  lemma DefaultRoute()
    ensures RouteTrack(None) == Some(T1)
  {
  }

  /**
   * Entering the screen: play the route's track when it exists and is not already current.
   * Afterwards the screen shows a track with the route's id.
   */
  method EnterScreen(s: Session, param: Option<string>, created: Option<Status>)
    requires s.Valid()
    modifies s
    ensures s.Valid()
    ensures RouteTrack(param).Some? ==>
      Display(s.currentTrack, RouteTrack(param)).Some?
      && Display(s.currentTrack, RouteTrack(param)).value.id == WantedId(param)
    ensures !ShouldPlayOnEnter(RouteTrack(param), old(s.currentTrack)) ==>
      s.currentTrack == old(s.currentTrack) && s.sound == old(s.sound) && s.queue == old(s.queue) && s.index == old(s.index)
    ensures !ShouldPlayOnEnter(RouteTrack(param), old(s.currentTrack)) ==>
      s.polling == old(s.polling) && s.isPlaying == old(s.isPlaying) && s.position == old(s.position) && s.duration == old(s.duration)
    ensures ShouldPlayOnEnter(RouteTrack(param), old(s.currentTrack)) ==>
      s.OnList() && s.currentTrack.Some? && s.currentTrack.value.id == WantedId(param)
      && s.Loaded(s.currentTrack.value, created, old(s.isPlaying))
  {
    var routeTrack := RouteTrack(param);
    if ShouldPlayOnEnter(routeTrack, s.currentTrack) {
      s.Play(routeTrack, created);
    }
  }
}
