/** The forwarded port's lease: binds with retries against a deadline, renewals at ticks. */
module PortLease {
  import opened Clock
  import opened Wrappers

  const BIND_DURATION := 20 * MINUTE
  const RETRY_INTERVAL := 15 * SECOND
  /** The HTTP client's timeout: no attempt takes longer. */
  const ATTEMPT := 3 * SECOND

  datatype Reply = Accepted | ApiError | Lost
  /** A payload signed by the API, as it parses. */
  datatype Payload = Payload(port: nat, expiry: int)

  /** A request for a signature, or to bind the port with one; and how it went. */
  datatype Request = Sign | Bind(payload: Payload)
  /** A bind that succeeded. */
  datatype Lease = Lease(at: int, payload: Payload)
  datatype Attempt = Attempt(request: Request, start: int, end: int, reply: Reply)
  datatype Outcome = Done | Refused | Expiring | Cancelled
  datatype Waking = Retry | TooLate | ShutDown
  datatype RunOutcome = Failed | Stopped | Running(next: int)

  /** Only a lost attempt is repeated, a retry interval later and not past the deadline. */
  predicate Follows(a: seq<Attempt>, i: nat, deadline: int)
    requires i + 1 < |a|
  {
    a[i].reply == Lost && a[i + 1].start == a[i].end + 15 * SECOND && a[i + 1].start <= deadline
  }

  /** The attempts one retry loop makes, all of the same request: one at once, whatever the
      deadline, then those the deadline allows. */
  ghost predicate Schedule(a: seq<Attempt>, request: Request, start: int, deadline: int) {
    && a != [] && a[0].start == start
    && (forall i | 0 <= i < |a| :: a[i].request == request && a[i].start <= a[i].end <= a[i].start + 3 * SECOND)
    && forall i | 0 <= i < |a| - 1 :: Follows(a, i, deadline)
  }

  lemma LongerSchedule(a: seq<Attempt>, b: Attempt, start: int, deadline: int)
    requires if a == [] then b.start == start
             else Schedule(a, b.request, start, deadline) && a[|a| - 1].reply == Lost
                  && b.start == a[|a| - 1].end + 15 * SECOND && b.start <= deadline
    requires b.start <= b.end <= b.start + 3 * SECOND
    ensures Schedule(a + [b], b.request, start, deadline)
  {
    var c := a + [b];
    forall i | 0 <= i < |c| - 1 ensures Follows(c, i, deadline) {
      if i + 1 < |a| { assert Follows(a, i, deadline); }
    }
  }

  /** No attempt but the first begins after the context was cancelled. */
  ghost predicate Prompt(a: seq<Attempt>, cut: Option<int>, now: int) {
    forall i | 0 <= i < |a| :: a[i].start <= now && (i > 0 && cut.Some? ==> a[i].start <= cut.value)
  }

  lemma NothingPrompt(cut: Option<int>, now: int)
    ensures Prompt([], cut, now)
  {
  }

  lemma PromptLater(a: seq<Attempt>, was: Option<int>, cut: Option<int>, now: int, later: int)
    requires Prompt(a, was, now) && now <= later
    requires if was.Some? then cut == was else cut.Some? ==> now <= cut.value
    ensures Prompt(a, cut, later)
  {
  }

  lemma PromptMore(a: seq<Attempt>, was: Option<int>, cut: Option<int>, now: int, b: Attempt)
    requires Prompt(a, was, b.start) && b.start <= now && (was.Some? && a != [] ==> b.start <= was.value)
    requires if was.Some? then cut == was else cut.Some? ==> b.start <= cut.value
    ensures Prompt(a + [b], cut, now)
  {
  }

  /** Before an attempt: the first at once, another a retry interval after one that was lost. */
  ghost predicate Trying(a: seq<Attempt>, request: Request, start: int, deadline: int, cut: Option<int>, now: int) {
    if a == [] then now == start
    else && Schedule(a, request, start, deadline) && a[|a| - 1].reply == Lost
         && now == a[|a| - 1].end + 15 * SECOND && now <= deadline
         && Prompt(a, cut, now) && (cut.Some? ==> now <= cut.value)
  }

  lemma NothingTried(request: Request, start: int, deadline: int, cut: Option<int>)
    ensures Trying([], request, start, deadline, cut, start)
  {
  }

  lemma Tried(a: seq<Attempt>, b: Attempt, start: int, deadline: int, was: Option<int>, cut: Option<int>)
    requires Trying(a, b.request, start, deadline, was, b.start) && b.start <= b.end <= b.start + 3 * SECOND
    requires if was.Some? then cut == was else cut.Some? ==> b.start <= cut.value
    ensures Schedule(a + [b], b.request, start, deadline) && Prompt(a + [b], cut, b.end)
    ensures b.start <= Max(start, deadline)
  {
    LongerSchedule(a, b, start, deadline);
    if a == [] { NothingPrompt(was, b.start); }
    PromptMore(a, was, cut, b.end, b);
  }

  lemma TriesOn(a: seq<Attempt>, request: Request, start: int, deadline: int,
      was: Option<int>, cut: Option<int>, now: int)
    requires a != [] && Schedule(a, request, start, deadline) && Prompt(a, was, a[|a| - 1].end)
    requires a[|a| - 1].reply == Lost && now == a[|a| - 1].end + 15 * SECOND <= deadline
    requires if was.Some? then cut == was else cut.Some? ==> a[|a| - 1].end <= cut.value
    requires cut.Some? ==> now <= cut.value
    ensures Trying(a, request, start, deadline, cut, now)
  {
    PromptLater(a, was, cut, a[|a| - 1].end, now);
  }

  // ---- Signatures ----

  /** At a tick the signature is renewed when it expires within the safety margin. */
  predicate Renews(safetyHours: int, expiresAt: int, now: int) { safetyHours * HOUR > expiresAt - now }

  /** A keepalive bind: made at a tick, for a lease bound earlier, with the payload it has. */
  datatype Keepalive = Keepalive(tick: int, bindTime: int, payload: Payload, tries: seq<Attempt>)

  ghost predicate Possible(k: Keepalive, safetyHours: int) {
    && k.bindTime <= k.tick && !Renews(safetyHours, k.payload.expiry, k.tick)
    && Schedule(k.tries, Bind(k.payload), k.tick, k.bindTime + 20 * MINUTE)
  }

  /** No attempt to bind is over later than the signature it presents expires. */
  ghost predicate Unexpired(tries: seq<Attempt>) {
    forall i | 0 <= i < |tries| :: tries[i].request.Bind? && tries[i].end < tries[i].request.payload.expiry
  }

  lemma KeepaliveIsPossible(k: Keepalive, safetyHours: int)
    requires k.bindTime <= k.tick && !Renews(safetyHours, k.payload.expiry, k.tick)
    requires Schedule(k.tries, Bind(k.payload), k.tick, k.bindTime + 20 * MINUTE)
    ensures Possible(k, safetyHours)
  {
  }

  lemma MarginCovers(k: Keepalive, safetyHours: int)
    requires Possible(k, safetyHours) && safetyHours >= 1
    ensures Unexpired(k.tries)
  {
    forall i | 0 <= i < |k.tries| ensures k.tries[i].end < k.tries[i].request.payload.expiry {
      if i > 0 { assert Follows(k.tries, i - 1, k.bindTime + 20 * MINUTE); }
    }
  }

  /** The margin protects every keepalive bind with all its retries exactly when it is at least an hour. */
  lemma MarginIff(safetyHours: int)
    ensures (forall k | Possible(k, safetyHours) :: Unexpired(k.tries)) <==> safetyHours >= 1
  {
    if safetyHours >= 1 {
      forall k | Possible(k, safetyHours) ensures Unexpired(k.tries) { MarginCovers(k, safetyHours); }
    } else {
      var k := Keepalive(0, 0, Payload(1, 0), [Attempt(Bind(Payload(1, 0)), 0, 1, Accepted)]);
      assert Possible(k, safetyHours) && k.tries[0].end >= k.payload.expiry;
    }
  }

  // ---- Leases ----

  /** Successful binds no more than `bound` apart. */
  ghost predicate Spaced(leases: seq<Lease>, bound: int) {
    forall i, j | 0 <= i && j == i + 1 && j < |leases| :: leases[j].at - leases[i].at <= bound
  }

  lemma NothingSpaced(bound: int)
    ensures Spaced([], bound)
  {
  }

  lemma SpacedMore(leases: seq<Lease>, l: Lease, bound: int)
    requires Spaced(leases, bound) && (leases != [] ==> l.at - leases[|leases| - 1].at <= bound)
    ensures Spaced(leases + [l], bound)
  {
  }

  ghost predicate AllSigned(leases: seq<Lease>, signed: seq<Payload>) {
    forall i | 0 <= i < |leases| :: leases[i].payload in signed
  }

  lemma NothingSigned(signed: seq<Payload>)
    ensures AllSigned([], signed)
  {
  }

  lemma SignedMore(leases: seq<Lease>, signed: seq<Payload>, after: seq<Lease>, known: seq<Payload>)
    requires AllSigned(leases, signed) && signed <= known
    requires after == leases || (known != [] && |after| == |leases| + 1 && leases <= after
                                 && after[|leases|].payload == known[|known| - 1])
    ensures AllSigned(after, known)
  {
  }

  class Manager {
    const bindInterval: int
    const safetyHours: int
    var now: int
    var cancelled: bool
    var port: nat
    var payload: Payload
    var expiresAt: int
    var bindTime: int
    /** When the context was cancelled. */
    ghost var cut: Option<int>
    /** Until when each retry loop so far was to repeat its request. */
    ghost var deadlines: seq<int>
    /** The ticks, after the making of the ticker, and how the first acquisition and they went. */
    ghost var rounds: seq<Round>
    ghost var results: seq<bool>
    /** The binds that succeeded, the payloads signed so far, and the keepalive binds made. */
    ghost var leases: seq<Lease>
    ghost var signed: seq<Payload>
    ghost var kept: seq<Keepalive>

    constructor (bindInterval: int, safetyHours: int, now: int)
      ensures this.bindInterval == bindInterval && this.safetyHours == safetyHours && this.now == now
      ensures leases == [] && signed == [] && kept == [] && deadlines == [] && rounds == [] && results == []
      ensures !cancelled && cut == None
    {
      this.bindInterval, this.safetyHours, this.now := bindInterval, safetyHours, now;
      cancelled, port, payload, expiresAt, bindTime := false, 0, Payload(0, 0), 0, 0;
      cut, deadlines, rounds, results, leases, signed, kept := None, [], [], [], [], [], [];
    }

    ghost predicate Marked()
      reads `now, `cancelled, `cut
    {
      (cancelled <==> cut.Some?) && (cut.Some? ==> cut.value <= now)
    }

    /** Time has passed; a cancellation in between is marked, an earlier one stays. */
    twostate predicate Later()
      reads `now, `cancelled, `cut
    {
      Marked() && old(now) <= now && (if old(cancelled) then cut == old(cut) else cut.Some? ==> old(now) <= cut.value)
    }

    method Elapse(low: int, high: int)
      requires 0 <= low <= high && Marked()
      modifies `now, `cancelled, `cut
      ensures low <= now - old(now) <= high && Later() && (!old(cancelled) && cancelled ==> cut == Some(now))
    {
      var d: int :| low <= d <= high;
      now := now + d;
      var cancels: bool := *;
      if cancels && !cancelled { cancelled, cut := true, Some(now); }
    }

    /** What is recorded of the last payload signed is what it says. */
    ghost predicate Recorded()
      reads `signed, `payload, `port, `expiresAt
    {
      && signed != [] && payload == signed[|signed| - 1]
      && port == payload.port && port != 0 && expiresAt == payload.expiry
    }

    /** One attempt; an accepted bind is a lease, an accepted request for a signature a payload. */
    method Try(request: Request) returns (answer: Reply, reply: Payload, ghost a: Attempt)
      requires Marked()
      modifies `now, `cancelled, `cut, `bindTime, `leases, `signed
      ensures Later() && a == Attempt(request, old(now), now, answer) && now <= old(now) + 3 * SECOND
      ensures if request.Bind? && answer == Accepted
              then bindTime == now && leases == old(leases) + [Lease(now, request.payload)]
              else bindTime == old(bindTime) && leases == old(leases)
      ensures signed == old(signed) + if request.Sign? && answer == Accepted then [reply] else []
    {
      ghost var start := now;
      Elapse(0, ATTEMPT);
      answer, reply := *, *;
      a := Attempt(request, start, now, answer);
      if answer == Accepted {
        if request.Bind? {
          bindTime := now;
          leases := leases + [Lease(now, request.payload)];
        } else {
          signed := signed + [reply];
        }
      }
    }

    lemma WhenRecorded()
      requires Recorded()
      ensures signed != [] && payload == signed[|signed| - 1]
    {
    }

    /** Repeats a request until it is accepted, refused by the API, too late or cancelled. The
        deadline is the last bind's and is checked between attempts only: one attempt is always
        made, and one begun in time may end after it. */
    method RetryWithDeadline(request: Request) returns (r: Outcome, reply: Payload, ghost tries: seq<Attempt>)
      requires Marked()
      modifies `now, `cancelled, `cut, `deadlines, `bindTime, `leases, `signed
      ensures Later() && now <= Max(old(now), old(bindTime) + 20 * MINUTE) + 3 * SECOND
      ensures deadlines == old(deadlines) + [old(bindTime) + 20 * MINUTE]
      ensures Prompt(tries, cut, now)
      ensures Schedule(tries, request, old(now), old(bindTime) + 20 * MINUTE)
      ensures r == Done <==> tries[|tries| - 1].reply == Accepted
      ensures r == Refused <==> tries[|tries| - 1].reply == ApiError
      ensures r == Expiring ==> now >= old(bindTime) + 20 * MINUTE
      ensures r == Cancelled ==> cancelled
      ensures request.Bind? && r == Done ==> bindTime == now && leases == old(leases) + [Lease(now, request.payload)]
      ensures request.Sign? || r != Done ==> bindTime == old(bindTime) && leases == old(leases)
      ensures signed == old(signed) + if request.Sign? && r == Done then [reply] else []
    {
      hide Schedule, Prompt, Trying;
      var deadline := bindTime + BIND_DURATION;
      deadlines := deadlines + [deadline];
      tries, reply := [], *;
      NothingTried(request, now, deadline, cut);
      while true
        invariant Later() && deadlines == old(deadlines) + [deadline]
        invariant Trying(tries, request, old(now), deadline, cut, now)
        invariant bindTime == old(bindTime) && leases == old(leases) && signed == old(signed)
        decreases deadline - now
      {
        ghost var was, last := cut, Attempt(request, 0, 0, Lost);
        var answer;
        answer, reply, last := Try(request);
        Tried(tries, last, old(now), deadline, was, cut);
        tries := tries + [last];
        if answer == Accepted { return Done, reply, tries; }
        if answer == ApiError { return Refused, reply, tries; }
        was := cut;
        ghost var asked := now;
        var woken := Wait(deadline);
        PromptLater(tries, was, cut, asked, now);
        if woken == ShutDown { return Cancelled, reply, tries; }
        if woken == TooLate { return Expiring, reply, tries; }
        TriesOn(tries, request, old(now), deadline, was, cut, now);
      }
    }

    /** The retry timer, the deadline and the context race; a tie goes either way. */
    method Wait(deadline: int) returns (w: Waking)
      requires Marked()
      modifies `now, `cancelled, `cut
      ensures Later() && now <= Max(old(now), deadline)
      ensures w == Retry ==> now == old(now) + 15 * SECOND <= deadline && (cut.Some? ==> cut.value == now)
      ensures w == TooLate ==> now == Max(old(now), deadline)
      ensures w == ShutDown ==> cancelled
    {
      var retry, late := now + RETRY_INTERVAL, Max(now, deadline);
      var first := if retry < late then retry else late;
      if !cancelled { Elapse(0, first - now); }
      var tie: bool := *;
      if cancelled && (now < first || tie) { return ShutDown; }
      now := first;
      tie := *;
      w := if retry < late || (retry == late && tie) then Retry else TooLate;
    }

    /** A signature, then a bind with it; the deadline for both is the last bind's. */
    method AcquirePort() returns (ok: bool)
      requires Marked()
      modifies `now, `cancelled, `cut, `deadlines, `bindTime, `leases, `signed, `port, `payload, `expiresAt
      ensures Later() && old(deadlines) <= deadlines
      ensures forall i | |old(deadlines)| <= i < |deadlines| :: deadlines[i] == old(bindTime) + 20 * MINUTE
      ensures now <= Max(old(now), old(bindTime) + 20 * MINUTE) + 6 * SECOND
      ensures old(signed) <= signed && (ok ==> Recorded() && signed == old(signed) + [payload])
      ensures ok ==> deadlines != old(deadlines)
      ensures if ok then bindTime == now && leases == old(leases) + [Lease(now, payload)]
              else bindTime == old(bindTime) && leases == old(leases)
    {
      var tokenFresh: bool := *;
      if !tokenFresh { return false; }
      var r, resp, _ := RetryWithDeadline(Sign);
      if r != Done { return false; }
      var parses: bool := *;
      if !parses || resp.port == 0 { return false; }
      port, payload, expiresAt := resp.port, resp, resp.expiry;
      var b, _, _ := RetryWithDeadline(Bind(resp));
      ok := b == Done;
    }

    /** The keepalive binds were all possible ones: signatures outside the margin, unexpired if
        the margin is at least an hour. */
    ghost predicate KeptWell()
      reads `kept
    {
      && (forall i | 0 <= i < |kept| :: Possible(kept[i], safetyHours))
      && (safetyHours >= 1 ==> forall i | 0 <= i < |kept| :: Unexpired(kept[i].tries))
    }

    /** What a tick does: renew the signature inside the margin, else bind again with the old one. */
    method OnTick() returns (ok: bool)
      requires bindTime <= now && KeptWell() && Recorded() && Marked()
      modifies `now, `cancelled, `cut, `deadlines, `bindTime, `leases, `signed, `port, `payload, `expiresAt, `kept
      ensures Later() && old(deadlines) <= deadlines
      ensures forall i | |old(deadlines)| <= i < |deadlines| :: deadlines[i] == old(bindTime) + 20 * MINUTE
      ensures KeptWell() && now <= Max(old(now), old(bindTime) + 20 * MINUTE) + 6 * SECOND
      ensures old(signed) <= signed && (ok ==> Recorded())
      ensures if safetyHours * HOUR > old(payload.expiry) - old(now)
              then kept == old(kept) && (ok ==> signed == old(signed) + [payload])
              else |kept| == |old(kept)| + 1 && old(kept) <= kept
                   && payload == old(payload) && signed == old(signed)
                   && kept[|old(kept)|].payload == payload && kept[|old(kept)|].tick == old(now)
      ensures if ok then bindTime == now && leases == old(leases) + [Lease(now, payload)]
              else bindTime == old(bindTime) && leases == old(leases)
    {
      hide Possible, Unexpired, Schedule;
      var tick := now;
      ghost var bound := bindTime;
      if Renews(safetyHours, expiresAt, now) {
        ok := AcquirePort();
      } else {
        var b, _, tries := RetryWithDeadline(Bind(payload));
        ok := b == Done;
        ghost var k := Keepalive(tick, bound, payload, tries);
        KeepaliveIsPossible(k, safetyHours);
        if safetyHours >= 1 { MarginCovers(k, safetyHours); }
        kept := kept + [k];
      }
    }

    /** Every lease was bound with a payload that had been signed. */
    ghost predicate Covered()
      reads `leases, `signed
    {
      AllSigned(leases, signed)
    }

    /** How far apart successful binds may be: an interval, or the time a bind lasts, and the two
        attempts that may end after it. */
    function Bound(): int { Max(bindInterval, 20 * MINUTE) + 6 * SECOND }

    /** What holds from the first bind on, made at `epoch`. */
    ghost predicate Lasting(epoch: int)
      requires bindInterval > 0
      reads this
    {
      && Marked() && KeptWell() && Covered()
      && leases != [] && leases[0].at == epoch && Spaced(leases, Bound()) && now <= leases[|leases| - 1].at + Bound()
      && Logged(rounds, bindInterval, cut, now) && rounds[0].start == epoch
      && results != [] && forall i | 0 <= i < |results| - 1 :: results[i]
    }

    /** Between ticks. */
    ghost predicate Waiting(epoch: int, next: int)
      requires bindInterval > 0
      reads this
    {
      && Lasting(epoch) && Recorded() && results[|results| - 1]
      && leases[|leases| - 1] == Lease(bindTime, payload)
      && epoch <= now <= next <= bindTime + bindInterval && bindTime <= now
      && epoch <= rounds[|rounds| - 1].start && now == rounds[|rounds| - 1].end
      && next == Max(now, TickAfter(epoch, bindInterval, rounds[|rounds| - 1].start))
    }

    /** The tick and the context race; a tie goes either way. */
    method Await(next: int) returns (stop: bool)
      requires Marked() && now <= next
      modifies `now, `cancelled, `cut
      ensures Later() && now <= next && (stop ==> cancelled)
      ensures !stop ==> now == next && (cut.Some? && cut.value < next ==> old(now) == next)
    {
      if !cancelled { Elapse(0, next - now); }
      var tie: bool := *;
      stop := cancelled && (now < next || tie);
      if !stop { now := next; }
    }

    /** The next tick, unless the context is cancelled before. */
    method Beat(epoch: int, next: int) returns (over: Option<RunOutcome>, later: int)
      requires bindInterval > 0 && Waiting(epoch, next)
      modifies this
      ensures Lasting(epoch) && old(deadlines) <= deadlines
      ensures over.None? ==> Waiting(epoch, later) && later > next
      ensures over.Some? ==> over.value in {Failed, Stopped} && (over.value == Failed <==> !results[|results| - 1])
      ensures over == Some(Stopped) ==> cancelled && Recorded() && leases[|leases| - 1].payload == payload
    {
      hide KeptWell, Spaced, TickAfter, Logged, AllSigned, Recorded;
      ghost var waited, was := now, cut;
      var stop := Await(next);
      LoggedLater(rounds, bindInterval, was, cut, waited, now);
      if stop { return Some(Stopped), next; }
      was := cut;
      ghost var before, known := leases, signed;
      var ok := OnTick();
      results := results + [ok];
      LoggedRound(rounds, bindInterval, was, cut, next, Round(next, now));
      rounds := rounds + [Round(next, now)];
      if ok { WhenRecorded(); }
      SignedMore(before, known, leases, signed);
      if !ok { return Some(Failed), next; }
      SpacedMore(before, Lease(now, payload), Bound());
      TickBounds(epoch, bindInterval, next);
      over, later := None, Max(now, TickAfter(epoch, bindInterval, next));
    }

    /** The first acquisition, with a minute for its retries, and the ticker. */
    method Begin() returns (ok: bool, next: int)
      requires bindInterval > 0 && leases == [] && signed == [] && kept == [] && deadlines == [] && Marked()
      modifies this
      ensures results == [ok] && now <= old(now) + MINUTE + 6 * SECOND
      ensures deadlines != [] ==> deadlines[0] == old(now) + MINUTE
      ensures if ok then Waiting(now, next) && next > old(now) && deadlines != []
              else leases == [] && KeptWell() && Covered()
    {
      hide KeptWell, Spaced, TickAfter, Logged, AllSigned;
      KeptNothing();
      NothingSigned([]);
      bindTime := now - BIND_DURATION + MINUTE;
      ok := AcquirePort();
      results, next := [ok], now;
      NothingSigned(signed);
      if !ok { return; }
      NothingSpaced(Bound());
      SpacedMore([], Lease(now, payload), Bound());
      SignedMore([], [], leases, signed);
      TickBounds(now, bindInterval, now);
      next := TickAfter(now, bindInterval, now);
      rounds := [Round(now, now)];
      FirstRound(rounds[0], bindInterval, cut);
    }

    /** Every run, cut off after any number of ticks. The first bind succeeds or Run has failed
        within a minute and six seconds; successful binds then follow one another, and the end
        of Run the last of them, within max(BindInterval, 20 min) and six seconds. */
    method Run(ticks: nat) returns (r: RunOutcome)
      requires bindInterval > 0 && leases == [] && signed == [] && kept == [] && deadlines == [] && Marked()
      modifies this
      ensures leases == [] ==> r == Failed && now <= old(now) + MINUTE + 6 * SECOND
      ensures leases != [] ==>
        && leases[0].at <= old(now) + MINUTE + 6 * SECOND
        && Spaced(leases, Max(bindInterval, 20 * MINUTE) + 6 * SECOND)
        && now <= leases[|leases| - 1].at + Max(bindInterval, 20 * MINUTE) + 6 * SECOND
      ensures r.Running? ==> r.next > old(now) + ticks
      ensures r.Running? ==> now <= r.next <= leases[|leases| - 1].at + bindInterval
      ensures r == Stopped ==> cancelled
      ensures r != Failed ==> Recorded() && leases[|leases| - 1].payload == payload
      ensures KeptWell() && Covered()
      ensures deadlines != [] ==> deadlines[0] == old(now) + MINUTE
      ensures results != [] && (r == Failed <==> !results[|results| - 1])
      ensures forall i | 0 <= i < |results| - 1 :: results[i]
      ensures leases != [] ==> Logged(rounds, bindInterval, cut, now) && rounds[0].start == leases[0].at
      ensures r.Running? ==>
        && rounds[0].start <= rounds[|rounds| - 1].start
        && r.next == Max(now, TickAfter(rounds[0].start, bindInterval, rounds[|rounds| - 1].start))
    {
      hide KeptWell, Spaced, TickAfter, Logged, AllSigned, Recorded;
      var ok, next := Begin();
      if !ok { return Failed; }
      var epoch, n := now, 0;
      while n < ticks
        invariant n <= ticks && next > old(now) + n && Waiting(epoch, next)
        invariant epoch <= old(now) + MINUTE + 6 * SECOND
        invariant deadlines != [] && deadlines[0] == old(now) + MINUTE
      {
        var over;
        over, next := Beat(epoch, next);
        if over.Some? { return over.value; }
        n := n + 1;
      }
      r := Running(next);
    }

    lemma KeptNothing()
      ensures kept == [] ==> KeptWell()
    {
    }
  }
}
