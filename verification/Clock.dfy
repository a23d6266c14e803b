/** Time as integer nanoseconds, and Go's ticker, which keeps at most one tick waiting. */
module Clock {
  import opened Wrappers

  const SECOND := 1_000_000_000
  const MINUTE := 60 * SECOND
  const HOUR := 60 * MINUTE

  function Max(a: int, b: int): (m: int)
    ensures a <= m && b <= m && (m == a || m == b)
  {
    if a < b then b else a
  }

  /** The ticker's first tick after time r, for a ticker made at `epoch`. */
  function TickAfter(epoch: int, interval: int, r: int): int
    requires interval > 0 && epoch <= r
  {
    epoch + ((r - epoch) / interval + 1) * interval
  }

  /** It comes within an interval, a whole number of intervals after the epoch. */
  lemma TickBounds(epoch: int, interval: int, r: int)
    requires interval > 0 && epoch <= r
    ensures r < TickAfter(epoch, interval, r) <= r + interval
    ensures exists n: nat :: TickAfter(epoch, interval, r) == epoch + n * interval
  {
    var n: nat := (r - epoch) / interval + 1;
    assert TickAfter(epoch, interval, r) == epoch + n * interval;
  }

  // ---- Loops that wait for a ticker ----

  /** The rounds of the loop: each begins at the ticker's next tick, or at once if that is past. */
  datatype Round = Round(start: int, end: int)

  predicate OnTick(rounds: seq<Round>, i: nat, interval: int)
    requires interval > 0 && 0 < i < |rounds|
  {
    && rounds[0].start <= rounds[i - 1].start
    && rounds[i].start == Max(rounds[i - 1].end, TickAfter(rounds[0].start, interval, rounds[i - 1].start))
  }

  ghost predicate Ticking(rounds: seq<Round>, interval: int)
    requires interval > 0
  {
    forall i | 0 < i < |rounds| :: OnTick(rounds, i, interval)
  }

  lemma TickingMore(rounds: seq<Round>, r: Round, interval: int)
    requires interval > 0 && Ticking(rounds, interval) && rounds != []
    requires rounds[0].start <= rounds[|rounds| - 1].start
    requires r.start
          == Max(rounds[|rounds| - 1].end, TickAfter(rounds[0].start, interval, rounds[|rounds| - 1].start))
    ensures Ticking(rounds + [r], interval)
  {
    assert OnTick(rounds + [r], |rounds|, interval);
    forall i | 0 < i < |rounds| ensures OnTick(rounds + [r], i, interval) { assert OnTick(rounds, i, interval); }
  }

  /** Once the context is cancelled a round begins only at a tick that was already due. */
  ghost predicate Heeding(rounds: seq<Round>, cut: Option<int>) {
    forall i | 0 < i < |rounds| :: cut.Some? && rounds[i].start > cut.value ==> rounds[i].start == rounds[i - 1].end
  }

  /** The rounds so far, up to `now`. */
  ghost predicate Logged(rounds: seq<Round>, interval: int, cut: Option<int>, now: int)
    requires interval > 0
  {
    && rounds != [] && Ticking(rounds, interval) && Heeding(rounds, cut)
    && rounds[0].start <= rounds[|rounds| - 1].start && (forall i | 0 <= i < |rounds| :: rounds[i].start <= now)
  }

  lemma FirstRound(r: Round, interval: int, cut: Option<int>)
    requires interval > 0 && r.start <= r.end
    ensures Logged([r], interval, cut, r.end)
  {
  }

  /** A cancellation after `now` is heeded by the rounds before. */
  lemma LoggedLater(rounds: seq<Round>, interval: int, was: Option<int>, cut: Option<int>, now: int, later: int)
    requires interval > 0 && Logged(rounds, interval, was, now)
    requires if was.Some? then cut == was else cut.Some? ==> now <= cut.value
    requires now <= later
    ensures Logged(rounds, interval, cut, later)
  {
  }

  lemma LoggedMore(rounds: seq<Round>, interval: int, cut: Option<int>, now: int, r: Round)
    requires interval > 0 && Logged(rounds, interval, cut, now) && now <= r.start <= r.end
    requires r.start
          == Max(rounds[|rounds| - 1].end, TickAfter(rounds[0].start, interval, rounds[|rounds| - 1].start))
    requires cut.Some? && r.start > cut.value ==> r.start == rounds[|rounds| - 1].end
    ensures Logged(rounds + [r], interval, cut, r.start)
  {
    TickingMore(rounds, r, interval);
    var rs := rounds + [r];
    forall i | 0 <= i < |rs| ensures rs[i].start <= r.start {}
  }

  /** A round more, and what may have happened during it. */
  lemma LoggedRound(rounds: seq<Round>, interval: int, was: Option<int>, cut: Option<int>, before: int, r: Round)
    requires interval > 0 && Logged(rounds, interval, was, before) && before <= r.start <= r.end
    requires r.start
          == Max(rounds[|rounds| - 1].end, TickAfter(rounds[0].start, interval, rounds[|rounds| - 1].start))
    requires was.Some? && r.start > was.value ==> r.start == rounds[|rounds| - 1].end
    requires if was.Some? then cut == was else cut.Some? ==> r.start <= cut.value
    ensures Logged(rounds + [r], interval, cut, r.end)
  {
    LoggedMore(rounds, interval, was, before, r);
    LoggedLater(rounds + [r], interval, was, cut, r.start, r.end);
  }
}
