/** The haptic-feedback hook: a `vibrate` callback that buzzes the device for
    `duration` milliseconds unless the previous buzz was less than `debounceMs` ago. */
module Haptic {
  import opened Wrappers

  const DefaultDuration: int := 50
  const DefaultDebounceMs: int := 150

  /** One call of `vibrate`: the clock reading, whether `navigator` has `vibrate`, and
      whether `navigator.vibrate` throws. */
  datatype Attempt = Attempt(now: int, supported: bool, throws: bool)

  /** A call of `vibrate` from `lastTrigger`: whether it reports a buzz, and the new
      `lastTrigger`. */
  function Step(last: int, debounceMs: int, a: Attempt): (bool, int) {
    if a.now - last < debounceMs then (false, last)
    else if a.supported && !a.throws then (true, a.now)
    else (false, last)
  }

  /** The clock readings of the calls that buzzed, in order. */
  function Fired(last: int, debounceMs: int, attempts: seq<Attempt>): seq<int>
    decreases |attempts|
  {
    if attempts == [] then []
    else
      var (ok, next) := Step(last, debounceMs, attempts[0]);
      (if ok then [attempts[0].now] else []) + Fired(next, debounceMs, attempts[1..])
  }

  /** Every buzz is at least `debounceMs` after the one before it, and the first at
      least `debounceMs` after the starting `lastTrigger`; each is the reading of a call
      on a device that supports vibration, and there are no more buzzes than calls. */
  lemma {:induction false} FiredSpaced(last: int, debounceMs: int, attempts: seq<Attempt>)
    ensures var f := Fired(last, debounceMs, attempts);
      && |f| <= |attempts|
      && (f != [] ==> f[0] - last >= debounceMs)
      && (forall i :: 0 < i < |f| ==> f[i] - f[i - 1] >= debounceMs)
      && (forall i :: 0 <= i < |f| ==> exists k :: 0 <= k < |attempts| && attempts[k].now == f[i]
                                                   && attempts[k].supported && !attempts[k].throws)
    decreases |attempts|
  {
    if attempts != [] {
      var (ok, next) := Step(last, debounceMs, attempts[0]);
      var rest := Fired(next, debounceMs, attempts[1..]);
      FiredSpaced(next, debounceMs, attempts[1..]);
      var f := Fired(last, debounceMs, attempts);
      assert f == (if ok then [attempts[0].now] else []) + rest;
      forall i | 0 <= i < |f|
        ensures exists k :: 0 <= k < |attempts| && attempts[k].now == f[i]
                            && attempts[k].supported && !attempts[k].throws
      {
        if ok && i == 0 {
          assert attempts[0].now == f[i];
        } else {
          var j := if ok then i - 1 else i;
          assert f[i] == rest[j];
          var k :| 0 <= k < |attempts[1..]| && attempts[1..][k].now == rest[j]
                   && attempts[1..][k].supported && !attempts[1..][k].throws;
          assert attempts[k + 1] == attempts[1..][k];
        }
      }
    }
  }

  /** With a non-negative window, any two buzzes are at least `debounceMs` apart: no
      window shorter than `debounceMs` holds two of them. */
  lemma {:induction false} FiredApart(last: int, debounceMs: int, attempts: seq<Attempt>, i: int, j: int)
    requires debounceMs >= 0
    requires 0 <= i < j < |Fired(last, debounceMs, attempts)|
    ensures Fired(last, debounceMs, attempts)[j] - Fired(last, debounceMs, attempts)[i] >= debounceMs
    decreases j - i
  {
    FiredSpaced(last, debounceMs, attempts);
    if i + 1 < j {
      FiredApart(last, debounceMs, attempts, i + 1, j);
    }
  }

  /** The hook's state: its two options and the `lastTrigger` ref, which starts at 0. */
  class HapticFeedback {
    const duration: int
    const debounceMs: int
    var lastTrigger: int

    /** `const { duration = 50, debounceMs = 150 } = options`. */
    constructor(duration: Option<int>, debounceMs: Option<int>)
      ensures this.duration == if duration.Some? then duration.value else DefaultDuration
      ensures this.debounceMs == if debounceMs.Some? then debounceMs.value else DefaultDebounceMs
      ensures lastTrigger == 0
    {
      this.duration := if duration.Some? then duration.value else DefaultDuration;
      this.debounceMs := if debounceMs.Some? then debounceMs.value else DefaultDebounceMs;
      lastTrigger := 0;
    }

    /** `vibrate()`: reports whether the device buzzed, and moves `lastTrigger` to the
        clock reading exactly when it did. */
    method Vibrate(now: int, supported: bool, throws: bool) returns (ok: bool)
      modifies this
      ensures (ok, lastTrigger) == Step(old(lastTrigger), debounceMs, Attempt(now, supported, throws))
      ensures ok ==> now - old(lastTrigger) >= debounceMs && supported
    {
      if now - lastTrigger < debounceMs {
        return false;
      }
      if supported {
        if throws {
          return false;
        }
        lastTrigger := now;
        return true;
      }
      return false;
    }
  }
}
