/** PTPWRd/dep/timer.c: interval timers driven by a monotone millisecond counter. */
module Timer {
  import opened CTypes

  /** `interval == 0` means stopped. */
  datatype IntervalTimer = IntervalTimer(tStart: uint64, interval: int32)

  predicate Armed(t: IntervalTimer) {
    t.interval != 0
  }

  /** The instant at which the timer fires; a negative interval wraps around. */
  function Deadline(t: IntervalTimer): uint64 {
    ToUint64(t.tStart + ToUint64(t.interval))
  }

  predicate IsExpired(t: IntervalTimer, now: uint64) {
    Armed(t) && Deadline(t) <= now
  }

  /** State of a timer after it has been polled at `now`: a timer that fired counts from `now`. */
  function Polled(t: IntervalTimer, now: uint64): IntervalTimer {
    if IsExpired(t, now) then t.(tStart := now) else t
  }

  method TimerStart(timers: array<IntervalTimer>, i: nat, interval: int32, now: uint64)
    requires i < timers.Length
    modifies timers
    ensures timers[..] == old(timers[..])[i := IntervalTimer(now, interval)]
  {
    timers[i] := timers[i].(tStart := now);
    timers[i] := timers[i].(interval := interval);
  }

  method TimerStop(timers: array<IntervalTimer>, i: nat)
    requires i < timers.Length
    modifies timers
    ensures timers[..] == old(timers[..])[i := IntervalTimer(old(timers[i]).tStart, 0)]
  {
    timers[i] := timers[i].(interval := 0);
  }

  /** The catch-up code of the source always ends with the start time at `now`. */
  method TimerExpired(timers: array<IntervalTimer>, i: nat, now: uint64) returns (expired: bool)
    requires i < timers.Length
    modifies timers
    ensures expired == IsExpired(old(timers[i]), now)
    ensures timers[..] == old(timers[..])[i := Polled(old(timers[i]), now)]
  {
    var tExpire := ToUint64(timers[i].tStart + ToUint64(timers[i].interval));
    if timers[i].interval != 0 && now >= tExpire {
      timers[i] := timers[i].(tStart := ToUint64(timers[i].tStart + ToUint64(timers[i].interval)));
      if timers[i].tStart < now {
        timers[i] := timers[i].(tStart := now);
      }
      return true;
    }
    return false;
  }

  /** A timer that fired at `now` fires again exactly one full interval later: late polls
      never cause a burst of catch-up expiries. */
  lemma NoBurst(t: IntervalTimer, now: uint64, later: uint64)
    requires 0 < t.interval && IsExpired(t, now) && now + t.interval < TWO64
    ensures IsExpired(Polled(t, now), later) <==> now + t.interval <= later
  {
    assert ToUint64(t.interval) == t.interval;
  }
}
