/** The sleep timer: an optional expiry instant, and the remaining time split for display. */
module SleepTimer {
  import opened Common

  /** Milliseconds in a minute and in a second. */
  const MinuteMs: int := 60000
  const SecondMs: int := 1000

  datatype Remaining = Remaining(minutes: int, seconds: int, ms: int)

  /**
   * The value `useSleepRemaining` returns at clock reading `now`: nothing when no timer is set
   * (an expiry of 0 is falsy and reads as unset too); otherwise the time left, never negative,
   * as whole minutes, the seconds beyond them, and the raw milliseconds.
   */
  function RemainingAt(expiresAt: Option<int>, now: int): (r: Option<Remaining>)
    ensures r.None? <==> expiresAt.None? || expiresAt.value == 0
    ensures r.Some? ==> r.value.ms == Max(0, expiresAt.value - now)
    ensures r.Some? ==> r.value.minutes >= 0 && 0 <= r.value.seconds <= 59
    ensures r.Some? ==>
      r.value.minutes * MinuteMs + r.value.seconds * SecondMs <= r.value.ms
      < r.value.minutes * MinuteMs + r.value.seconds * SecondMs + SecondMs
  {
    if expiresAt.None? || expiresAt.value == 0 then None
    else
      var ms := Max(0, expiresAt.value - now);
      Some(Remaining(ms / MinuteMs, (ms % MinuteMs) / SecondMs, ms))
  }

  /** Once the expiry has passed the display shows zero, not nothing: the store itself stops nothing. */
  lemma ExpiredShowsZero(expiresAt: int, now: int)
    requires expiresAt != 0 && now >= expiresAt
    ensures RemainingAt(Some(expiresAt), now) == Some(Remaining(0, 0, 0))
  {
  }

  /** At the clock reading `setTimer(m)` used, the remaining time is exactly `m` minutes and no seconds. */
  lemma FreshTimerShowsWholeMinutes(minutes: nat, now: int)
    requires minutes > 0 && now + minutes * MinuteMs != 0
    ensures RemainingAt(Some(now + minutes * MinuteMs), now) == Some(Remaining(minutes, 0, minutes * MinuteMs))
  {
    DivModUnique(minutes * MinuteMs, minutes, 0, MinuteMs);
  }

  class SleepTimerStore {
    var expiresAt: Option<int>

    /** No timer at start. */
    constructor ()
      ensures expiresAt == None
    {
      expiresAt := None;
    }

    /** `setTimer(minutes)` at clock reading `now`. */
    method SetTimer(minutes: int, now: int)
      modifies this
      ensures expiresAt == Some(now + minutes * MinuteMs)
    {
      expiresAt := Some(now + minutes * MinuteMs);
    }

    /** `clear()`. */
    method Clear()
      modifies this
      ensures expiresAt == None && RemainingAt(expiresAt, 0) == None
    {
      expiresAt := None;
    }
  }
}
