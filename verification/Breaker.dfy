/** The displacement breaker: a sliding window of the claim attempts that met a live session, kept in place. */
module Breaker {

  const WINDOW_MS := 60000
  const THRESHOLD := 3

  predicate Ordered(times: seq<int>) {
    forall i, j | 0 <= i < j < |times| :: times[i] <= times[j]
  }

  /** How many leading entries have left the window. */
  function Stale(times: seq<int>, cutoff: int): (n: nat)
    ensures n <= |times| && (forall i | 0 <= i < n :: times[i] < cutoff) && (n < |times| ==> times[n] >= cutoff)
  {
    if times == [] || times[0] >= cutoff then 0 else 1 + Stale(times[1..], cutoff)
  }

  /** What one attempt at `now` leaves of the window `kept` so far. */
  function Kept(kept: seq<int>, now: int): seq<int> {
    (kept + [now])[Stale(kept + [now], now - WINDOW_MS)..]
  }

  /** The window after all the attempts of a log. */
  function Window(log: seq<int>): seq<int> {
    if log == [] then [] else Kept(Window(log[..|log| - 1]), log[|log| - 1])
  }

  /** The attempt is let through. */
  predicate Passes(log: seq<int>, i: nat)
    requires i < |log|
  {
    |Window(log[..i + 1])| <= THRESHOLD
  }

  /** The window is the log from entry `n` on. */
  ghost predicate StartsAt(log: seq<int>, n: nat) {
    n <= |log| && Window(log) == log[n..] && (log != [] ==> n < |log| && log[n] >= log[|log| - 1] - WINDOW_MS)
    && forall i | 0 <= i < n :: log[i] < log[|log| - 1] - WINDOW_MS
  }

  lemma WindowGrows(log: seq<int>, now: int)
    ensures Window(log + [now]) == Kept(Window(log), now) && (log + [now])[..|log| + 1] == log + [now]
  {
    hide Kept, Stale;
    var all := log + [now];
    assert all[..|all| - 1] == log && all[|all| - 1] == now;
  }

  /** How one more attempt moves the start of the window. */
  lemma StaleFrom(log: seq<int>, m: nat, cutoff: int)
    requires m < |log| && log[|log| - 1] >= cutoff && forall i | 0 <= i < m :: log[i] < cutoff
    ensures var d := Stale(log[m..], cutoff); m + d < |log| && log[m + d] >= cutoff && forall i | 0 <= i < m + d :: log[i] < cutoff
  {
    var part := log[m..];
    var d := Stale(part, cutoff);
    assert part[|part| - 1] == log[|log| - 1];
    forall i | 0 <= i < m + d ensures log[i] < cutoff { if i >= m { assert log[i] == part[i - m]; } }
  }

  lemma WindowMoves(front: seq<int>, now: int, m: nat)
    requires m <= |front| && Window(front) == front[m..]
    ensures var log := front + [now]; var d := Stale(log[m..], now - WINDOW_MS); m + d <= |log| && Window(log) == log[m + d..]
  {
    hide Window, Stale;
    var log := front + [now];
    WindowGrows(front, now);
    assert front[m..] + [now] == log[m..];
    var d := Stale(log[m..], now - WINDOW_MS);
    assert log[m..][d..] == log[m + d..];
  }

  lemma StartMoves(front: seq<int>, now: int, m: nat) returns (n: nat)
    requires StartsAt(front, m) && (front != [] ==> front[|front| - 1] <= now)
    ensures StartsAt(front + [now], n)
  {
    hide Window, Stale;
    var log, cutoff := front + [now], now - WINDOW_MS;
    WindowMoves(front, now, m);
    forall i | 0 <= i < m ensures log[i] < cutoff { assert log[i] == front[i]; }
    StaleFrom(log, m, cutoff);
    n := m + Stale(log[m..], cutoff);
  }

  /** The window forgets nothing that matters: it is the part of the log that is no more than a window
      older than the last attempt. */
  lemma {:induction false} WindowIsRecentLog(log: seq<int>) returns (n: nat)
    requires Ordered(log)
    ensures StartsAt(log, n)
    decreases |log|
  {
    if log == [] {
      n := 0;
    } else {
      hide StartsAt;
      var front, now := log[..|log| - 1], log[|log| - 1];
      var m := WindowIsRecentLog(front);
      assert front + [now] == log;
      n := StartMoves(front, now, m);
    }
  }

  /** An attempt is let through exactly when the fourth attempt counting back from it, itself included, is
      more than a window older: no four attempts of which the last goes through lie within one closed
      window, and nothing else is refused.  Refused and repeated attempts count as well. */
  lemma PassesIffNoFourInAWindow(log: seq<int>, l: nat)
    requires Ordered(log) && l < |log|
    ensures Passes(log, l) <==> l < 3 || log[l] - log[l - 3] > 60000
  {
    var seen := log[..l + 1];
    var n := WindowIsRecentLog(seen);
    assert |Window(seen)| == l + 1 - n;
    if l >= THRESHOLD { assert seen[l - THRESHOLD] == log[l - THRESHOLD] && seen[l] == log[l] && (n <= l ==> seen[n] == log[n]); }
  }

  class DisplacementHistory {
    var history: seq<int>
    ghost var log: seq<int>

    ghost predicate Valid()
      reads this
    {
      history == Window(log)
    }

    constructor ()
      ensures Valid() && log == []
    {
      history, log := [], [];
    }

    /** Appends the attempt, shifts out what has left the window, and trips above the threshold. */
    method RecordAndCheck(now: int) returns (tripped: bool)
      requires Valid()
      modifies this
      ensures Valid() && log == old(log) + [now]
      ensures !tripped <==> Passes(log, |old(log)|)
    {
      ghost var kept := history;
      history := history + [now];
      var cutoff := now - WINDOW_MS;
      ghost var d := 0;
      while |history| > 0 && history[0] < cutoff
        invariant d <= |kept| + 1 && history == (kept + [now])[d..]
        invariant forall i | 0 <= i < d :: (kept + [now])[i] < cutoff
        invariant log == old(log)
        decreases |history|
      {
        assert history[1..] == (kept + [now])[d + 1..];
        history := history[1..];
        d := d + 1;
      }
      assert d == Stale(kept + [now], cutoff);
      WindowGrows(log, now);
      log := log + [now];
      tripped := |history| > THRESHOLD;
    }
  }
}
