/** The health monitor's timed loops, on a clock of integer nanoseconds. */
module HealthMonitor {
  import opened Clock
  import opened Wrappers

  const TIMEOUT := 3 * SECOND
  const PROBES := 3

  /** One connectivity check, from start to end, and the answers of its probes as they came. */
  datatype Check = Check(start: int, end: int, ok: bool, answers: seq<bool>)

  /** Three hosts are asked, and the first success decides. */
  predicate Decided(c: Check) {
    && |c.answers| <= 3 && (c.ok ==> |c.answers| > 0 && c.answers[|c.answers| - 1])
    && (forall i | 0 <= i < |c.answers| - 1 :: !c.answers[i])
    && (!c.ok ==> c.answers == [false, false, false])
  }

  /** What Run has come to: an outage, a shutdown, or still waiting for a tick it will take at `next`. */
  datatype Outcome = Reconnect | Stopped | Running(next: int)

  /** Every check started after t failed. */
  ghost predicate FailAfter(h: seq<Check>, t: int) {
    forall i | 0 <= i < |h| :: h[i].start > t ==> !h[i].ok
  }

  /** When check i starts if it follows the one before at once. */
  function Seam(h: seq<Check>, k: nat, begin: int, i: nat): int
    requires k <= i <= |h|
  {
    if i == k then begin else h[i - 1].end
  }

  /** From check k on, failing checks back to back cover [begin, end] without a gap. */
  ghost predicate Tiled(h: seq<Check>, k: nat, begin: int, end: int) {
    && k <= |h| && end == Seam(h, k, begin, |h|)
    && forall i | k <= i < |h| :: !h[i].ok && h[i].start == Seam(h, k, begin, i)
  }

  /** A failed check, and then nothing but failing checks for the whole failure window. */
  ghost predicate Outage(h: seq<Check>, k: nat, end: int, window: int) {
    var begin := end - Max(window, 0);
    0 < k && Tiled(h, k, begin, end) && !h[k - 1].ok && h[k - 1].end <= begin
  }

  lemma NoTiles(h: seq<Check>, begin: int)
    ensures Tiled(h, |h|, begin, begin)
  {
  }

  lemma OneTileMore(h: seq<Check>, k: nat, begin: int, c: Check)
    requires Tiled(h, k, begin, c.start) && !c.ok
    ensures Tiled(h + [c], k, begin, c.end)
  {
  }

  /** Whenever everything fails after t, the check started at `start` comes soon enough. */
  ghost predicate Due(h: seq<Check>, since: int, start: int, interval: int) {
    forall t | since <= t && FailAfter(h, t) :: start <= t + Max(interval, 3 * SECOND)
  }

  lemma PrefixFails(h: seq<Check>, g: seq<Check>, t: int)
    requires h <= g && FailAfter(g, t)
    ensures FailAfter(h, t)
  {
  }

  class Monitor {
    const interval: int
    const window: int
    const metrics: bool
    var now: int
    var cancelled: bool
    /** When the context was cancelled. */
    ghost var cut: Option<int>
    ghost var history: seq<Check>
    ghost var rounds: seq<Round>

    constructor (interval: int, window: int, metrics: bool, now: int)
      ensures !cancelled && cut == None
      ensures this.interval == interval && this.window == window && this.now == now && history == [] && rounds == []
    {
      this.interval, this.window, this.metrics, this.now := interval, window, metrics, now;
      cancelled, cut, history, rounds := false, None, [], [];
    }

    ghost predicate Marked()
      reads this
    {
      (cancelled <==> cut.Some?) && (cut.Some? ==> cut.value <= now)
    }

    /** Time has passed; a cancellation in between is marked, an earlier one stays. */
    twostate predicate Later()
      reads this
    {
      Marked() && old(now) <= now && (if old(cancelled) then cut == old(cut) else cut.Some? ==> old(now) <= cut.value)
    }

    /** Time passes; the context may be cancelled meanwhile, and stays so. */
    method Elapse(low: int, high: int)
      requires 0 <= low <= high
      requires Marked()
      modifies `now, `cancelled, `cut
      ensures low <= now - old(now) <= high && Later() && (!old(cancelled) && cancelled ==> cut == Some(now))
    {
      var d: int :| low <= d <= high;
      now := now + d;
      var cancels: bool := *;
      if cancels && !cancelled { cancelled, cut := true, Some(now); }
    }

    /** Three probes, the first success decides; all end by the timeout. A check takes at least a nanosecond. */
    method CheckConnectivity(timeout: int) returns (ok: bool)
      requires 0 < timeout
      requires Marked()
      modifies `now, `cancelled, `cut, `history
      ensures |history| == |old(history)| + 1 && old(history) <= history
      ensures var c := history[|old(history)|]; c == Check(old(now), now, ok, c.answers) && Decided(c)
      ensures old(now) < now <= old(now) + timeout
      ensures Later()
    {
      var start, i := now, 0;
      ok := false;
      ghost var answers: seq<bool> := [];
      while i < PROBES && !ok
        invariant if i == 0 then now == start && !ok else start < now <= start + timeout
        invariant 0 <= i <= 3 && history == old(history) && Later()
        invariant |answers| == i && (ok ==> i > 0 && answers[i - 1])
        invariant forall j | 0 <= j < (if ok then i - 1 else i) :: !answers[j]
      {
        Elapse(if i == 0 then 1 else 0, start + timeout - now);
        ok, i := *, i + 1;
        answers := answers + [ok];
      }
      history := history + [Check(start, now, ok, answers)];
    }

    /** An error only after failing checks covered the whole window; without one, and without a
        shutdown, the last check succeeded. The time left in the window is what the loop uses up. */
    method PerformRapidChecks() returns (down: bool)
      requires Marked()
      modifies `now, `cancelled, `cut, `history
      ensures old(history) <= history && Later()
      ensures down ==> Tiled(history, |old(history)|, old(now), now) && now == old(now) + Max(window, 0)
      ensures cut.Some? ==> forall i | |old(history)| <= i < |history| :: history[i].start <= cut.value
      ensures !down && !cancelled ==>
        && |history| > |old(history)| && history[|history| - 1].ok
        && old(now) <= history[|history| - 1].start
        && history[|history| - 1].end == now <= history[|history| - 1].start + 3 * SECOND
    {
      hide Tiled, Decided;
      var failureStart, t := now, TIMEOUT;
      NoTiles(history, now);
      while true
        invariant 0 < t <= TIMEOUT && failureStart <= now <= failureStart + Max(window, 0)
        invariant old(history) <= history && Later()
        invariant Tiled(history, |old(history)|, failureStart, now)
        invariant forall i | |old(history)| <= i < |history| ::
          history[i].start <= now && (cut.Some? ==> history[i].start <= cut.value)
        decreases failureStart + window - now
      {
        if cancelled { return false; }
        var remaining := window - (now - failureStart);
        if remaining <= 0 { break; }
        if remaining < t { t := remaining; }
        ghost var h := history;
        var ok := CheckConnectivity(t);
        if ok { return false; }
        assert history == h + [history[|h|]];
        OneTileMore(h, |old(history)|, failureStart, history[|h|]);
        if now - failureStart >= window { break; }
      }
      down := true;
    }

    method PerformCheck() returns (down: bool)
      requires Marked()
      modifies `now, `cancelled, `cut, `history
      ensures old(history) <= history && now > old(now) && Later()
      ensures down ==>
        && !old(cancelled) && now <= old(now) + 3 * SECOND + Max(window, 0)
        && Outage(history, |old(history)| + 1, now, window)
      ensures cut.Some? ==> forall i | |old(history)| < i < |history| :: history[i].start <= cut.value
      ensures !down && !cancelled ==>
        && |history| > |old(history)| && history[|history| - 1].ok
        && old(now) <= history[|history| - 1].start
        && now <= history[|history| - 1].start + 3 * SECOND
    {
      var start := now;
      var ok := CheckConnectivity(TIMEOUT);
      if metrics { Elapse(0, start + TIMEOUT - now); }
      if cancelled { return false; }
      if ok { return false; }
      down := PerformRapidChecks();
    }

    /** The tick and the context race; a tie goes either way. */
    method Await(next: int) returns (stop: bool)
      requires Marked() && now <= next
      modifies `now, `cancelled, `cut
      ensures Later() && now <= next && (stop ==> cancelled)
      ensures !stop ==> now == next && (cut.Some? && cut.value < next ==> old(now) == next)
    {
      if !cancelled { Elapse(0, next - now); }
      var tie: bool := *;
      stop := cancelled && (now < next || tie);
      if !stop { now := next; }
    }

    /** Every run of the loop, cut off after any number of ticks. If every check started after t
        fails, Run has returned for a reconnect by t + max(Interval, Timeout) + Timeout +
        FailureWindow, or it is not yet that late; and it returns for a reconnect only when the
        checks of a full failure window all failed. */
    method Run(ticks: nat) returns (r: Outcome)
      requires interval > 0 && history == [] && rounds == [] && Marked()
      modifies this
      ensures r == Reconnect ==> exists k :: Outage(history, k, now, window)
      ensures r == Reconnect ==> forall t | old(now) <= t && FailAfter(history, t) ::
        now <= t + Max(interval, 3 * SECOND) + 3 * SECOND + Max(window, 0)
      ensures r.Running? && !cancelled ==> now <= r.next && Due(history, old(now), r.next, interval)
      ensures r.Running? ==> now >= old(now) + ticks
      ensures r.Stopped? ==> cancelled
      ensures rounds != [] && rounds[0].start == old(now) && Logged(rounds, interval, cut, now)
      ensures r.Running? ==>
        && old(now) <= rounds[|rounds| - 1].start
        && r.next == Max(rounds[|rounds| - 1].end, TickAfter(old(now), interval, rounds[|rounds| - 1].start))
    {
      hide Tiled, Outage, Due, FailAfter, Logged, TickAfter;
      var epoch, n := now, 0;
      ghost var before := history;
      var down := PerformCheck();
      rounds := [Round(epoch, now)];
      FirstRound(rounds[0], interval, cut);
      if down {
        OutageInTime(before, history, epoch, epoch, now, interval, window);
        return Reconnect;
      }
      var next := Max(now, TickAfter(epoch, interval, epoch));
      if !cancelled { DueAgain(before, history, epoch, epoch, epoch, now, interval); }
      while n < ticks
        invariant n <= ticks && epoch + n <= now <= next
        invariant !cancelled ==> Due(history, epoch, next, interval)
        invariant Marked() && rounds != [] && rounds[0].start == epoch
        invariant Logged(rounds, interval, cut, now) && epoch <= rounds[|rounds| - 1].start
        invariant now == rounds[|rounds| - 1].end
        invariant next == Max(now, TickAfter(epoch, interval, rounds[|rounds| - 1].start))
      {
        ghost var waited, was := now, cut;
        var stop := Await(next);
        LoggedLater(rounds, interval, was, cut, waited, now);
        if stop { return Stopped; }
        ghost var h := history;
        was := cut;
        down := PerformCheck();
        LoggedRound(rounds, interval, was, cut, next, Round(next, now));
        rounds := rounds + [Round(next, now)];
        if down {
          OutageInTime(h, history, epoch, next, now, interval, window);
          return Reconnect;
        }
        if !cancelled { DueAgain(h, history, epoch, epoch, next, now, interval); }
        next := Max(now, TickAfter(epoch, interval, next));
        n := n + 1;
      }
      r := Running(next);
    }
  }

  /** After a check that ended well, the next one is due again. */
  lemma DueAgain(h: seq<Check>, g: seq<Check>, since: int, epoch: int, start: int, now: int, interval: int)
    requires interval > 0 && epoch <= start && h <= g && |h| < |g|
    requires g[|g| - 1].ok && start <= g[|g| - 1].start && now <= g[|g| - 1].start + 3 * SECOND
    ensures Due(g, since, Max(now, TickAfter(epoch, interval, start)), interval)
  {
  }

  lemma OutageInTime(h: seq<Check>, g: seq<Check>, since: int, start: int, now: int, interval: int, window: int)
    requires h <= g && (start == since || Due(h, since, start, interval))
    requires interval > 0 && now <= start + 3 * SECOND + Max(window, 0)
    ensures forall t | since <= t && FailAfter(g, t) ::
        now <= t + Max(interval, 3 * SECOND) + 3 * SECOND + Max(window, 0)
  {
    forall t | since <= t && FailAfter(g, t)
        ensures now <= t + Max(interval, 3 * SECOND) + 3 * SECOND + Max(window, 0) {
      PrefixFails(h, g, t);
    }
  }
}
