/** The pacing of connection attempts and service periods, as a property of what was tried,
    waited for and served. */
module Backoff {
  import opened Wrappers

  const FIRST_DELAY := 5
  const MAX_DELAY := 60
  const BAN := 3600

  datatype Failure = Fatal | RateLimited | Reconnect | TokenRejected | Other

  datatype Outcome = Done | Failed(why: Failure)

  /** What services have come to: a shutdown, an error that asks for a reconnection, another. */
  datatype Finding = Shutdown | Reconnecting | Broken

  /** `SetUp` is the end of initialize, `Served` the look at the parent context, and then at the
      error, right after the services have ended. */
  datatype Event =
    | Tried(result: Outcome)
    | Slept(seconds: nat)
    | SatOutBan(seconds: nat)
    | WaitedForWan
    | SetUp
    | Served(finding: Finding)

  function Pow2(k: nat): nat { if k == 0 then 1 else 2 * Pow2(k - 1) }

  function Delay(k: nat): nat {
    if 5 * Pow2(k) > 60 then 60 else 5 * Pow2(k)
  }

  /** How many backoff sleeps there were since the delay was last reset: by a wait for the WAN,
      and by every new retry loop. */
  function SinceReset(es: seq<Event>): nat {
    if es == [] then 0
    else match es[|es| - 1]
      case WaitedForWan => 0
      case SetUp => 0
      case Served(_) => 0
      case Slept(_) => SinceReset(es[..|es| - 1]) + 1
      case _ => SinceReset(es[..|es| - 1])
  }

  /** What may come next: the end of initialize or services after success, nothing after a fatal
      failure, the ban after a rate limit and another pause after any other failure, an attempt
      after a pause; and after services the end of the run if the parent context was cancelled,
      else a wait for the WAN. */
  predicate MayFollow(last: Option<Event>, e: Event) {
    match last
    case None => e.Tried?
    case Some(Tried(Done)) => e.SetUp? || e.Served?
    case Some(Tried(Failed(why))) =>
      why != Fatal && if why == RateLimited then e.SatOutBan? else e.Slept? || e.WaitedForWan?
    case Some(Served(finding)) => finding.Reconnecting? && e.WaitedForWan?
    case Some(_) => e.Tried?
  }

  function Last(es: seq<Event>): Option<Event> { if es == [] then None else Some(es[|es| - 1]) }

  lemma LastIs(es: seq<Event>, e: Event)
    requires Last(es) == Some(e)
    ensures forall d :: Last(es) == Some(d) <==> d == e
  {
  }

  /** Pauses have the length their place demands. */
  predicate InStep(es: seq<Event>, i: nat)
    requires i < |es|
  {
    && MayFollow(Last(es[..i]), es[i])
    && (es[i].Slept? ==> es[i].seconds == Delay(SinceReset(es[..i])))
    && (es[i].SatOutBan? ==> es[i].seconds == 3600)
  }

  predicate Paced(es: seq<Event>) { forall i | 0 <= i < |es| :: InStep(es, i) }

  function Attempts(es: seq<Event>): nat {
    if es == [] then 0 else Attempts(es[..|es| - 1]) + if es[|es| - 1].Tried? then 1 else 0
  }

  function Rounds(es: seq<Event>): nat {
    if es == [] then 0 else Rounds(es[..|es| - 1]) + if es[|es| - 1].Served? then 1 else 0
  }

  /** Doubling with a cap computes the capped power. */
  lemma {:induction false} DelayDoubles(k: nat)
    ensures Delay(k + 1) == if 2 * Delay(k) > 60 then 60 else 2 * Delay(k)
    ensures 5 <= Delay(k) <= 60 && Delay(0) == 5
  {
    if k > 0 { DelayDoubles(k - 1); }
    assert Pow2(k + 1) == 2 * Pow2(k) && Pow2(k) >= 1;
  }

  lemma Snoc(es: seq<Event>, e: Event)
    ensures SinceReset(es + [e]) == match e
                                    case WaitedForWan => 0
                                    case SetUp => 0
                                    case Served(_) => 0
                                    case Slept(_) => SinceReset(es) + 1
                                    case _ => SinceReset(es)
    ensures Attempts(es + [e]) == Attempts(es) + if e.Tried? then 1 else 0
    ensures Rounds(es + [e]) == Rounds(es) + if e.Served? then 1 else 0
    ensures Last(es + [e]) == Some(e)
  {
    assert (es + [e])[..|es|] == es;
  }

  /** An event that fits its place keeps a run paced. */
  lemma PacedMore(es: seq<Event>, e: Event)
    requires Paced(es) && MayFollow(Last(es), e)
    requires (e.Slept? ==> e.seconds == Delay(SinceReset(es))) && (e.SatOutBan? ==> e.seconds == 3600)
    ensures Paced(es + [e])
  {
    hide SinceReset, Delay, MayFollow, Last;
    var g := es + [e];
    forall i | 0 <= i < |g| ensures InStep(g, i) {
      assert g[..i] == es[..i];
      if i < |es| { assert InStep(es, i) && g[i] == es[i]; } else { assert es[..i] == es; }
    }
  }

  /** What one retry loop adds: attempts and pauses, the run staying paced. */
  ghost predicate Stretch(was: seq<Event>, es: seq<Event>) {
    && was <= es && Paced(es) && Rounds(es) == Rounds(was) && Attempts(es) >= Attempts(was)
    && (es == was || !es[|es| - 1].Served?)
  }

  lemma StretchNone(es: seq<Event>)
    requires Paced(es)
    ensures Stretch(es, es)
  {
  }

  lemma StretchPaced(was: seq<Event>, es: seq<Event>)
    requires Stretch(was, es)
    ensures was <= es && Paced(es) && Rounds(es) == Rounds(was) && Attempts(es) >= Attempts(was)
    ensures es == was || !es[|es| - 1].Served?
  {
  }

  lemma StretchTwice(a: seq<Event>, b: seq<Event>, c: seq<Event>)
    requires Stretch(a, b) && Stretch(b, c)
    ensures Stretch(a, c)
  {
  }

  lemma StretchMore(was: seq<Event>, es: seq<Event>, e: Event)
    requires Stretch(was, es) && MayFollow(Last(es), e) && !e.Served?
    requires (e.Slept? ==> e.seconds == Delay(SinceReset(es))) && (e.SatOutBan? ==> e.seconds == 3600)
    ensures Stretch(was, es + [e]) && Last(es + [e]) == Some(e)
  {
    PacedMore(es, e);
    Snoc(es, e);
  }

  lemma StretchEnd(was: seq<Event>, es: seq<Event>)
    requires Stretch(was, es) && MayFollow(Last(was), Tried(Done))
    ensures Last(es).Some? ==> !Last(es).value.Served?
  {
  }

  /** A retry loop begins with an attempt. */
  lemma AttemptNext(was: seq<Event>, es: seq<Event>)
    requires Stretch(was, es) && MayFollow(Last(was), Tried(Done))
    ensures was <= es && (es != was ==> es[|was|].Tried?)
  {
    if es != was { assert InStep(es, |was|) && es[..|was|] == was; }
  }

  /** What follows services with the given first error: a shutdown or an error that does not ask
      for a reconnection is the end; otherwise a wait for the WAN and an attempt follow. */
  predicate Continues(was: seq<Event>, es: seq<Event>, err: Option<Failure>, attempts: nat) {
    && was < es && es[|was|].Served?
    && match es[|was|].finding
       case Shutdown => |es| == |was| + 1
       case Reconnecting =>
         && err == Some(Reconnect) && |es| > |was| + 1 && es[|was| + 1] == WaitedForWan
         && (attempts > 0 ==> |es| > |was| + 2 && es[|was| + 2].Tried?)
       case Broken => err != Some(Reconnect) && |es| == |was| + 1
  }

  lemma ServicesWereLast(was: seq<Event>, f: Finding, err: Option<Failure>, attempts: nat)
    requires !f.Reconnecting? && (f.Broken? ==> err != Some(Reconnect))
    ensures Continues(was, was + [Served(f)], err, attempts)
  {
  }

  lemma RunGoesOn(was: seq<Event>, es: seq<Event>, attempts: nat)
    requires was + [Served(Reconnecting)] + [WaitedForWan] <= es
    requires attempts > 0 ==> |es| > |was| + 2 && es[|was| + 2].Tried?
    ensures Continues(was, es, Some(Reconnect), attempts)
  {
    var start := was + [Served(Reconnecting)] + [WaitedForWan];
    assert es[|was|] == start[|was|] && es[|was| + 1] == start[|was| + 1];
    assert was == start[..|was|];
  }

  /** What a run has come to after n service periods. */
  ghost predicate Grown(was: seq<Event>, es: seq<Event>, n: nat) {
    was <= es && Paced(es) && Rounds(es) == Rounds(was) + n && Attempts(es) >= Attempts(was)
  }

  lemma GrownNone(es: seq<Event>)
    requires Paced(es)
    ensures Grown(es, es, 0)
  {
  }

  lemma GrownBy(was: seq<Event>, es: seq<Event>, n: nat, fs: seq<Event>)
    requires Grown(was, es, n) && Stretch(es, fs)
    ensures Grown(was, fs, n)
  {
  }

  lemma GrownServed(was: seq<Event>, es: seq<Event>, n: nat, f: Finding)
    requires Grown(was, es, n) && Last(es) == Some(Tried(Done))
    ensures Grown(was, es + [Served(f)], n + 1) && Last(es + [Served(f)]) == Some(Served(f))
  {
    PacedMore(es, Served(f));
    Snoc(es, Served(f));
  }

  lemma GrownWan(was: seq<Event>, es: seq<Event>, n: nat)
    requires Grown(was, es, n) && Last(es) == Some(Served(Reconnecting))
    ensures var fs := es + [WaitedForWan];
      && Grown(was, fs, n) && Paced(fs) && Last(fs) == Some(WaitedForWan)
      && MayFollow(Last(fs), Tried(Done)) && SinceReset(fs) == 0
  {
    PacedMore(es, WaitedForWan);
    Snoc(es, WaitedForWan);
  }

  lemma GrownAttempts(was: seq<Event>, es: seq<Event>, n: nat)
    requires Grown(was, es, n)
    ensures Attempts(es) >= Attempts(was)
  {
  }

  lemma GrownEnds(was: seq<Event>, es: seq<Event>, n: nat)
    requires Grown(was, es, n)
    ensures was <= es && Paced(es) && Rounds(es) == Rounds(was) + n
    ensures forall i | 0 <= i < |es| - 1 :: es[i] != Served(Shutdown)
  {
    forall i | 0 <= i < |es| - 1 ensures es[i] != Served(Shutdown) { CancelledIsLast(es, i); }
  }

  /** In a paced run nothing comes after services that were found cancelled. */
  lemma CancelledIsLast(es: seq<Event>, i: nat)
    requires Paced(es) && i + 1 < |es|
    ensures es[i] != Served(Shutdown)
  {
    assert InStep(es, i + 1) && es[..i + 1][i] == es[i];
  }
}
