/** The services of a connection as an interleaving: the goroutines of one errgroup, the main
    goroutine that starts them and waits for all of them, and a pia0 that may vanish. */
module Services {
  import opened Wrappers
  import opened Netfilter
  import opened Routing
  import opened Sequences
  import opened PolicySteps
  import opened Backoff

  /** Where the main goroutine stands: on its way to a connection, in Wait, or past its last one. */
  datatype Main = Connecting | Waiting | Stopped(clean: bool)

  /** Where the port-forward goroutine stands. */
  datatype Forward =
    | Off
    | Starting                                // about to add its gateway's rule
    | Building                                // about to build its HTTP client
    | Acquiring                               // asking for a port and binding it
    | Announcing(port: nat)                   // about to open the port
    | Keeping                                 // waiting for a tick
    | Unrouting(why: Option<Failure>)         // about to remove its gateway's rule
    | Closing(why: Option<Failure>)           // about to close its port
    | Returned(why: Option<Failure>)

  datatype Other = Monitor | Cacher | Syncer

  /** Where everybody stands.  `working` are the other goroutines still running, `err` is the
      group's first error, `leaked` says the gateway's rule was left behind, and `steps` counts. */
  datatype Threads = Threads(main: Main, parent: bool, group: bool, err: Option<Failure>, forward: Forward,
                             working: set<Other>, gateway: Option<Addr>, leaked: bool, steps: nat)

  /** What they share. */
  datatype Net = Net(view: View, link: bool, port: Option<nat>)

  /** `base` holds the lookups that were there when the services started. */
  datatype State = State(at: Threads, net: Net, base: seq<Addr>)

  datatype Step =
    | Pass | Cancel | Vanish
    | Clear | Guard(a: Addr) | Look(a: Addr) | Launch(forwarding: bool, to: Option<Addr>) | GiveUp | WaitEnds
    | AddRoute(ok: bool) | Build(ok: bool) | Acquire(got: Option<nat>) | Announce | Renew | Bind(ok: bool)
    | Shutdown | Unroute | ClosePort
    | Outage | Finish(o: Other)

  predicate Idle(f: Forward) { f.Off? || f.Returned? }

  /** The goroutine has a rule at priority 75 that is its to remove. */
  predicate Owns(f: Forward) {
    f.Building? || f.Acquiring? || f.Announcing? || f.Keeping? || f.Unrouting?
  }

  predicate AllReturned(x: Threads) { Idle(x.forward) && x.working == {} }

  /** `Clear` is RemovePIARoutes, on the way to a connection and in the cleanup of a clean exit. */
  predicate CanTake(x: Threads, step: Step) {
    match step
    case Pass => true
    case Cancel => true
    case Vanish => true
    case Clear => x.main.Connecting? || x.main == Stopped(true)
    case Guard(_) => x.main.Connecting?
    case Look(_) => x.main.Connecting?
    case Launch(_, _) => x.main.Connecting?
    case GiveUp => x.main.Connecting?
    case WaitEnds => x.main.Waiting? && AllReturned(x)
    case AddRoute(ok) => x.forward.Starting? && (ok ==> x.gateway.Some?)
    case Build(_) => x.forward.Building?
    case Acquire(got) => x.forward.Acquiring? && got != Some(0)
    case Announce => x.forward.Announcing?
    case Renew => x.forward.Keeping?
    case Bind(_) => x.forward.Keeping?
    case Shutdown => x.forward.Keeping? && x.group
    case Unroute => x.forward.Unrouting?
    case ClosePort => x.forward.Closing?
    case Outage => Monitor in x.working
    case Finish(o) => o in x.working && x.group
  }

  /** The kernel refuses an equal rule, and there is no rule without a gateway. */
  predicate Enabled(s: State, step: Step) {
    && CanTake(s.at, step)
    && (step.Guard? ==> step.a !in s.net.view.guards)
    && (step.Look? ==> step.a !in s.net.view.pia)
    && (step.AddRoute? ==> step.ok == (s.at.gateway.Some? && s.at.gateway.value !in s.net.view.pia))
  }

  /** errgroup: the first error is kept and cancels the group. */
  function Raise(x: Threads, why: Option<Failure>): Threads {
    if why.Some? && x.err.None? then x.(err := why, group := true) else x
  }

  function Return(x: Threads, why: Option<Failure>): Threads { Raise(x.(forward := Returned(why)), why) }

  /** How the threads move, but for the counting. */
  function Moved(x: Threads, step: Step): Threads
    requires CanTake(x, step)
  {
    match step
    case Cancel => x.(parent := true, group := true)
    case Launch(forwarding, to) =>
      x.(main := Waiting, group := x.parent, err := None, forward := if forwarding then Starting else Off,
         working := {Monitor, Cacher, Syncer}, gateway := to, leaked := false)
    case GiveUp => x.(main := Stopped(false))
    case WaitEnds =>
      x.(main := if x.parent then Stopped(true) else if x.err == Some(Reconnect) then Connecting else Stopped(false))
    case AddRoute(ok) => if ok then x.(forward := Building) else Return(x, Some(Failure.Other))
    case Build(ok) => if ok then x.(forward := Acquiring) else Return(x.(leaked := true), Some(Failure.Other))
    case Acquire(got) => x.(forward := if got.Some? then Announcing(got.value) else Unrouting(Some(Reconnect)))
    case Announce => x.(forward := Keeping)
    case Renew => x.(forward := Acquiring)
    case Bind(ok) => if ok then x else x.(forward := Unrouting(Some(Reconnect)))
    case Shutdown => x.(forward := Unrouting(None))
    case Unroute => x.(forward := Closing(x.forward.why))
    case ClosePort => Return(x, x.forward.why)
    case Outage => Raise(x.(working := x.working - {Monitor}), Some(Reconnect))
    case Finish(o) => x.(working := x.working - {o})
    case _ => x
  }

  function Move(x: Threads, step: Step): Threads
    requires CanTake(x, step)
  {
    Moved(x, step).(steps := x.steps + 1)
  }

  function Change(x: Threads, n: Net, step: Step): Net
    requires CanTake(x, step)
  {
    match step
    case Vanish => n.(link := false)
    case Clear => n.(view := n.view.(pia := [], guards := []))
    case Guard(a) => n.(view := n.view.(guards := n.view.guards + [a]))
    case Look(a) => n.(view := n.view.(pia := n.view.pia + [a]))
    case AddRoute(ok) => if ok then n.(view := n.view.(pia := n.view.pia + [x.gateway.value])) else n
    case Announce => n.(port := if x.forward.port <= MAX_PORT then Some(x.forward.port) else None)
    case Unroute =>
      if x.gateway.Some? then n.(view := n.view.(pia := Without(n.view.pia, x.gateway.value))) else n
    case ClosePort => n.(port := None)
    case _ => n
  }

  function Next(s: State, step: Step): State
    requires Enabled(s, step)
  {
    State(Move(s.at, step), Change(s.at, s.net, step), if step.Launch? then s.net.view.pia else s.base)
  }

  function Idling(): Threads { Threads(Connecting, false, false, None, Off, {}, None, false, 0) }

  // ---- Invariant ----

  /** Outside of Wait all goroutines have returned.  In it the group is cancelled exactly if it
      has an error or its parent is cancelled, and the monitor ends no other way. */
  predicate Fits(x: Threads) {
    && (x.forward.Announcing? ==> x.forward.port > 0)
    && (x.leaked ==> x.forward.Returned?)
    && (!x.main.Waiting? ==> AllReturned(x))
    && (x.main.Waiting? ==> (x.group <==> x.err.Some? || x.parent) && (Monitor !in x.working ==> x.group))
  }

  /** While the goroutine owns its gateway's rule the lookups are those of the start and its own. */
  predicate RouteFits(x: Threads, view: View, base: seq<Addr>) {
    if Owns(x.forward) || x.leaked
    then x.gateway.Some? && x.gateway.value !in base && view.pia == base + [x.gateway.value]
    else view.pia == base
  }

  predicate PortFits(f: Forward, port: Option<nat>) {
    Idle(f) || f.Starting? || f.Building? ==> port == None
  }

  predicate Inv(s: State) {
    && Fits(s.at) && PortFits(s.at.forward, s.net.port)
    && (s.at.main.Waiting? ==> RouteFits(s.at, s.net.view, s.base))
  }

  lemma MoveFits(x: Threads, step: Step)
    requires Fits(x) && CanTake(x, step)
    ensures Fits(Move(x, step))
  {
  }

  lemma PortKept(x: Threads, n: Net, step: Step)
    requires Fits(x) && PortFits(x.forward, n.port) && CanTake(x, step)
    ensures PortFits(Move(x, step).forward, Change(x, n, step).port)
  {
    hide Without;
  }

  lemma RouteKept(s: State, step: Step)
    requires Inv(s) && Enabled(s, step) && s.at.main.Waiting? && !step.WaitEnds?
    ensures RouteFits(Move(s.at, step), Change(s.at, s.net, step).view, s.base)
  {
    hide Without;
    if step.Unroute? {
      var pia, g := s.base, s.at.gateway.value;
      WithoutMiddle(pia, g, []);
      assert pia + [g] + [] == pia + [g] && pia + [] == pia;
    }
  }

  lemma WhoWaits(x: Threads, step: Step)
    requires Fits(x) && CanTake(x, step)
    ensures Move(x, step).main.Waiting? <==> step.Launch? || (x.main.Waiting? && !step.WaitEnds?)
  {
  }

  lemma ParentIs(x: Threads, step: Step)
    requires CanTake(x, step)
    ensures Move(x, step).parent == (x.parent || step.Cancel?)
  {
  }

  lemma StepKeepsInv(s: State, step: Step)
    requires Inv(s) && Enabled(s, step)
    ensures Inv(Next(s, step))
  {
    MoveFits(s.at, step);
    PortKept(s.at, s.net, step);
    WhoWaits(s.at, step);
    if s.at.main.Waiting? && !step.WaitEnds? && !step.Launch? {
      RouteKept(s, step);
    } else if step.Launch? {
      assert RouteFits(Move(s.at, step), s.net.view, s.net.view.pia);
    }
  }

  lemma Launched(x: Threads, view: View, forwarding: bool, to: Option<Addr>)
    requires Fits(x) && x.main.Connecting?
    ensures var y := Move(x, Launch(forwarding, to));
      && Fits(y) && RouteFits(y, view, view.pia) && PortFits(y.forward, None)
      && y.main.Waiting? && y.parent == x.parent && y.gateway == to && y.steps == x.steps + 1
      && Started(y, forwarding, to)
  {
  }

  lemma GatewayStays(x: Threads, step: Step)
    requires CanTake(x, step) && !step.Launch?
    ensures Move(x, step).gateway == x.gateway
  {
  }

  lemma ReturnedIdle(x: Threads)
    requires Fits(x) && !x.main.Waiting?
    ensures AllReturned(x) && Idle(x.forward)
  {
  }

  lemma Resumed(x: Threads, parent: bool)
    requires Fits(x) && x.main.Connecting?
    ensures Fits(x.(parent := parent))
  {
  }

  /** What is left when Wait ends, and what it hands to the main goroutine. */
  lemma Ending(s: State)
    requires Inv(s) && s.at.main.Waiting? && AllReturned(s.at)
    ensures CanTake(s.at, WaitEnds) && s.net.port == None
    ensures if s.at.leaked then s.at.gateway.Some? && s.net.view.pia == s.base + [s.at.gateway.value]
            else s.net.view.pia == s.base
    ensures var y := Move(s.at, WaitEnds);
      && Fits(y) && AllReturned(y) && y.err == s.at.err && y.leaked == s.at.leaked && y.steps == s.at.steps + 1
      && (y.main.Connecting? <==> !s.at.parent && s.at.err == Some(Reconnect)) && (s.at.err.None? ==> s.at.parent)
  {
  }

  ghost predicate Runs(trace: seq<State>, steps: seq<Step>) {
    && |trace| == |steps| + 1
    && forall i | 0 <= i < |steps| :: Enabled(trace[i], steps[i]) && trace[i + 1] == Next(trace[i], steps[i])
  }

  lemma {:induction false} RunInv(trace: seq<State>, steps: seq<Step>, i: nat)
    requires Runs(trace, steps) && Inv(trace[0]) && i < |trace|
    ensures Inv(trace[i])
  {
    hide Inv, Next, Enabled;
    if i > 0 {
      RunInv(trace, steps, i - 1);
      StepKeepsInv(trace[i - 1], steps[i - 1]);
    }
  }

  /** Over every interleaving: whenever priorities 75 and 76 are cleared the port-forward
      goroutine has returned and its port is closed,
        and that is never after giving up; when Wait ends its rule is gone, unless its
      HTTP client could not be built; and Wait ends without an error only after a cancellation. */
  lemma EveryInterleaving(trace: seq<State>, steps: seq<Step>, i: nat)
    requires Runs(trace, steps) && trace[0].at == Idling() && trace[0].net.port == None && i < |steps|
    ensures var s := trace[i];
      && (steps[i].Clear? ==>
            && Idle(s.at.forward) && s.net.port == None && GiveUp !in steps[..i]
            && trace[i + 1].net.view == s.net.view.(pia := [], guards := []))
      && (steps[i].WaitEnds? ==>
            && s.net.port == None && (!s.at.leaked ==> s.net.view.pia == s.base)
            && (s.at.leaked ==> s.at.gateway.Some? && s.net.view.pia == s.base + [s.at.gateway.value])
            && (s.at.err.None? ==> s.at.parent))
  {
    RunInv(trace, steps, i);
    GivenUp(trace, steps, i);
  }

  lemma {:induction false} GivenUp(trace: seq<State>, steps: seq<Step>, i: nat)
    requires |trace| == |steps| + 1 && Runs(trace, steps) && i < |trace|
    ensures GiveUp in steps[..i] ==> trace[i].at.main == Stopped(false)
  {
    hide Runs, CanTake, Move;
    if i > 0 {
      GivenUp(trace, steps, i - 1);
      OneStep(trace, steps, i - 1);
      MainMoves(trace[i - 1].at, steps[i - 1]);
      assert steps[..i] == steps[..i - 1] + [steps[i - 1]];
    }
  }

  lemma MainMoves(x: Threads, step: Step)
    requires CanTake(x, step)
    ensures step.GiveUp? || x.main == Stopped(false) ==> Move(x, step).main == Stopped(false)
  {
  }

  /** Since the services were last started the HTTP client of the port-forward goroutine could
      not be built. */
  ghost predicate BuildFailed(steps: seq<Step>, i: nat) {
    exists j | 0 <= j < i && j < |steps| :: steps[j] == Build(false) && NoLaunch(steps, j + 1, i)
  }

  predicate NoLaunch(steps: seq<Step>, from: nat, to: nat) {
    forall k | from <= k < to && k < |steps| :: !steps[k].Launch?
  }

  lemma FailedSince(steps: seq<Step>, i: nat)
    requires i < |steps|
    ensures BuildFailed(steps, i + 1) <==> steps[i] == Build(false) || (!steps[i].Launch? && BuildFailed(steps, i))
  {
    if steps[i] == Build(false) { assert NoLaunch(steps, i + 1, i + 1); }
    if !steps[i].Launch? && BuildFailed(steps, i) {
      var j :| 0 <= j < i && steps[j] == Build(false) && NoLaunch(steps, j + 1, i);
      assert NoLaunch(steps, j + 1, i + 1);
    }
    if BuildFailed(steps, i + 1) && steps[i] != Build(false) {
      var j :| 0 <= j < i + 1 && steps[j] == Build(false) && NoLaunch(steps, j + 1, i + 1);
      assert NoLaunch(steps, j + 1, i);
    }
  }

  lemma NotYetFailed(steps: seq<Step>)
    ensures !BuildFailed(steps, 0)
  {
  }

  lemma {:induction false} LeakedSince(trace: seq<State>, steps: seq<Step>, i: nat)
    requires |trace| == |steps| + 1 && Runs(trace, steps) && !trace[0].at.leaked && i < |trace|
    ensures trace[i].at.leaked <==> BuildFailed(steps, i)
  {
    hide Runs, BuildFailed, Move, CanTake;
    if i == 0 {
      NotYetFailed(steps);
    } else {
      LeakedSince(trace, steps, i - 1);
      OneStep(trace, steps, i - 1);
      FailedSince(steps, i - 1);
      LeakMoves(trace[i - 1].at, steps[i - 1]);
    }
  }

  lemma OneStep(trace: seq<State>, steps: seq<Step>, i: nat)
    requires Runs(trace, steps) && i < |steps|
    ensures |trace| == |steps| + 1
    ensures CanTake(trace[i].at, steps[i]) && trace[i + 1].at == Move(trace[i].at, steps[i])
  {
    assert Enabled(trace[i], steps[i]);
  }

  lemma LeakMoves(x: Threads, step: Step)
    requires CanTake(x, step)
    ensures Move(x, step).leaked <==> step == Build(false) || (!step.Launch? && x.leaked)
  {
  }

  /** Over every interleaving: Wait ends with the gateway's rule left behind if and only if its
      HTTP client could not be built since the services were started. */
  lemma LeakIff(trace: seq<State>, steps: seq<Step>, i: nat)
    requires Runs(trace, steps) && trace[0].at == Idling() && trace[0].net.port == None
    requires i < |steps| && steps[i].WaitEnds?
    ensures trace[i].net.view.pia != trace[i].base <==> BuildFailed(steps, i)
  {
    RunInv(trace, steps, i);
    LeakedSince(trace, steps, i);
    assert Enabled(trace[i], steps[i]);
  }

  // ---- Why Wait ends ----

  /** A bind or a signature fails for good. */
  predicate GivesUp(step: Step) { step == Acquire(None) || step == Bind(false) }

  ghost predicate GaveUp(steps: seq<Step>, from: nat, i: nat) {
    exists k | from <= k < i && k < |steps| :: GivesUp(steps[k])
  }

  /** A goroutine returns an error that asks for a reconnection: the monitor after an outage, or
      port forwarding, at last, after it has given up. */
  ghost predicate AsksReconnect(steps: seq<Step>, from: nat, j: nat)
    requires j < |steps|
  {
    steps[j].Outage? || (steps[j].ClosePort? && GaveUp(steps, from, j))
  }

  /** A goroutine returns an error that does not: port forwarding could not start. */
  predicate Breaks(step: Step) { step == AddRoute(false) || step == Build(false) }

  /** No goroutine has returned an error. */
  ghost predicate Calm(steps: seq<Step>, from: nat, i: nat) {
    forall j | from <= j < i && j < |steps| :: !AsksReconnect(steps, from, j) && !Breaks(steps[j])
  }

  ghost predicate ReconnectFirst(steps: seq<Step>, from: nat, i: nat) {
    exists j | from <= j < i && j < |steps| :: AsksReconnect(steps, from, j) && Calm(steps, from, j)
  }

  ghost predicate BreaksFirst(steps: seq<Step>, from: nat, i: nat) {
    exists j | from <= j < i && j < |steps| :: Breaks(steps[j]) && Calm(steps, from, j)
  }

  /** The error of the goroutine that was first to return one. */
  ghost function FirstError(steps: seq<Step>, from: nat, i: nat): (e: Option<Failure>)
    ensures e == None <==> !ReconnectFirst(steps, from, i) && !BreaksFirst(steps, from, i)
  {
    if ReconnectFirst(steps, from, i) then Some(Reconnect)
    else if BreaksFirst(steps, from, i) then Some(Failure.Other)
    else None
  }

  /** One step more. */
  lemma SinceMore(steps: seq<Step>, from: nat, i: nat)
    requires from <= i < |steps|
    ensures GaveUp(steps, from, i + 1) <==> GaveUp(steps, from, i) || GivesUp(steps[i])
    ensures Calm(steps, from, i + 1)
       <==> Calm(steps, from, i) && !AsksReconnect(steps, from, i) && !Breaks(steps[i])
    ensures ReconnectFirst(steps, from, i + 1)
       <==> ReconnectFirst(steps, from, i) || (AsksReconnect(steps, from, i) && Calm(steps, from, i))
    ensures BreaksFirst(steps, from, i + 1)
       <==> BreaksFirst(steps, from, i) || (Breaks(steps[i]) && Calm(steps, from, i))
  {
    hide AsksReconnect, Breaks, GivesUp;
    if Calm(steps, from, i + 1) {
      forall j | from <= j < i ensures !AsksReconnect(steps, from, j) && !Breaks(steps[j]) {}
      assert !AsksReconnect(steps, from, i);
    }
  }

  lemma {:induction false} CalmIff(steps: seq<Step>, from: nat, i: nat)
    requires from <= i <= |steps|
    ensures Calm(steps, from, i) <==> FirstError(steps, from, i) == None
    decreases i
  {
    if i > from {
      hide Calm, ReconnectFirst, BreaksFirst, AsksReconnect, GaveUp;
      CalmIff(steps, from, i - 1);
      SinceMore(steps, from, i - 1);
    }
  }

  lemma OneFirst(steps: seq<Step>, from: nat, i: nat)
    ensures !ReconnectFirst(steps, from, i) || !BreaksFirst(steps, from, i)
  {
  }

  /** The threads after services were started, as the steps since then explain them. */
  predicate Explains(x: Threads, gaveUp: bool, err: Option<Failure>) {
    && x.err == err
    && (x.forward.Unrouting? || x.forward.Closing? ==> x.forward.why == if gaveUp then Some(Reconnect) else None)
    && (gaveUp ==> x.forward.Unrouting? || x.forward.Closing? || x.forward.Returned?)
  }

  lemma ExplainsMore(x: Threads, step: Step, gaveUp: bool, err: Option<Failure>)
    requires CanTake(x, step) && !step.Launch? && Explains(x, gaveUp, err)
    ensures Explains(Move(x, step), gaveUp || GivesUp(step),
                     if err.Some? then err
                     else if step.Outage? || (step.ClosePort? && gaveUp) then Some(Reconnect)
                     else if Breaks(step) then Some(Failure.Other)
                     else None)
  {
  }

  /** Over every interleaving the group's error is that of the goroutine first to return one. */
  lemma {:induction false} Explained(trace: seq<State>, steps: seq<Step>, from: nat, i: nat)
    requires |trace| == |steps| + 1 && Runs(trace, steps) && from <= i <= |steps|
    requires Explains(trace[from].at, false, None) && NoLaunch(steps, from, i)
    ensures Explains(trace[i].at, GaveUp(steps, from, i), FirstError(steps, from, i))
    decreases i
  {
    hide Runs, Explains, CanTake, Move;
    if i > from {
      hide Calm, ReconnectFirst, BreaksFirst, GaveUp;
      assert !steps[i - 1].Launch? && NoLaunch(steps, from, i - 1);
      Explained(trace, steps, from, i - 1);
      OneStep(trace, steps, i - 1);
      SinceMore(steps, from, i - 1);
      CalmIff(steps, from, i - 1);
      ExplainsMore(trace[i - 1].at, steps[i - 1], GaveUp(steps, from, i - 1), FirstError(steps, from, i - 1));
    }
  }

  /** Services that have just been started. */
  predicate Started(x: Threads, forwarding: bool, to: Option<Addr>) {
    && x.main.Waiting? && x.err == None && !x.leaked && x.forward == (if forwarding then Starting else Off)
    && x.working == {Monitor, Cacher, Syncer} && x.gateway == to
  }

  /** What the goroutines did from their start to the end of Wait, and what it left. */
  ghost predicate Served(run: seq<State>, steps: seq<Step>, forwarding: bool, to: Option<Addr>) {
    && Runs(run, steps) && Started(run[0].at, forwarding, to)
    && forall i | 0 <= i < |steps| :: !steps[i].Launch? && !steps[i].WaitEnds?
  }

  lemma ServedNothing(s: State, forwarding: bool, to: Option<Addr>)
    requires Started(s.at, forwarding, to)
    ensures Served([s], [], forwarding, to)
  {
  }

  lemma ServedMore(run: seq<State>, steps: seq<Step>, forwarding: bool, to: Option<Addr>, step: Step)
    requires Served(run, steps, forwarding, to) && Enabled(run[|steps|], step) && !step.Launch? && !step.WaitEnds?
    ensures Served(run + [Next(run[|steps|], step)], steps + [step], forwarding, to)
  {
  }

  /** The error and the leak of such services, from their steps alone. */
  lemma ServedWhy(run: seq<State>, steps: seq<Step>, forwarding: bool, to: Option<Addr>)
    requires Served(run, steps, forwarding, to)
    ensures |run| == |steps| + 1
    ensures run[|steps|].at.err == FirstError(steps, 0, |steps|)
    ensures run[|steps|].at.leaked <==> Build(false) in steps
  {
    Explained(run, steps, 0, |steps|);
    LeakedSince(run, steps, |steps|);
    if Build(false) in steps {
      var j :| 0 <= j < |steps| && steps[j] == Build(false);
      assert NoLaunch(steps, j + 1, |steps|);
    }
  }

  /** The services that run at i were started by the step before `from`. */
  predicate StartedAt(steps: seq<Step>, from: nat, i: nat) {
    0 < from <= i <= |steps| && steps[from - 1].Launch? && NoLaunch(steps, from, i)
  }

  lemma {:induction false} WasStarted(trace: seq<State>, steps: seq<Step>, i: nat)
    requires Runs(trace, steps) && Inv(trace[0]) && !trace[0].at.main.Waiting? && i < |trace|
    ensures trace[i].at.main.Waiting? ==> exists from :: StartedAt(steps, from, i)
  {
    if i > 0 {
      hide Inv, Enabled, Next, CanTake, Move;
      WasStarted(trace, steps, i - 1);
      RunInv(trace, steps, i - 1);
      OneStep(trace, steps, i - 1);
      FitsInv(trace[i - 1]);
      WhoWaits(trace[i - 1].at, steps[i - 1]);
      if steps[i - 1].Launch? {
        assert StartedAt(steps, i, i);
      } else if trace[i - 1].at.main.Waiting? {
        var from :| StartedAt(steps, from, i - 1);
        assert StartedAt(steps, from, i);
      }
    }
  }

  lemma FitsInv(s: State)
    requires Inv(s)
    ensures Fits(s.at)
  {
  }

  ghost predicate Cancelled(steps: seq<Step>, i: nat) { exists j | 0 <= j < i && j < |steps| :: steps[j].Cancel? }

  lemma {:induction false} ParentSince(trace: seq<State>, steps: seq<Step>, i: nat)
    requires |trace| == |steps| + 1 && Runs(trace, steps) && !trace[0].at.parent && i < |trace|
    ensures trace[i].at.parent <==> Cancelled(steps, i)
  {
    if i > 0 {
      hide Runs, CanTake, Move;
      ParentSince(trace, steps, i - 1);
      OneStep(trace, steps, i - 1);
      ParentIs(trace[i - 1].at, steps[i - 1]);
    }
  }

  /** Over every interleaving, from the steps alone: Wait ends services that some Launch started;
      what follows is the clean end exactly after a cancellation, and otherwise a reconnection
      exactly if the goroutine first to return an error returned one that asks for it. */
  lemma WaitDecides(trace: seq<State>, steps: seq<Step>, from: nat, i: nat)
    requires Runs(trace, steps) && trace[0].at == Idling() && trace[0].net.port == None
    requires i < |steps| && steps[i].WaitEnds?
    ensures exists f :: StartedAt(steps, f, i)
    ensures StartedAt(steps, from, i) ==>
      && (trace[i].at.err == Some(Reconnect) <==> ReconnectFirst(steps, from, i))
      && (trace[i].at.err == Some(Failure.Other) <==> BreaksFirst(steps, from, i))
      && (trace[i].at.err == None <==> Calm(steps, from, i))
      && (trace[i + 1].at.main == if Cancelled(steps, i) then Stopped(true)
                                  else if ReconnectFirst(steps, from, i) then Connecting else Stopped(false))
      && (Enabled(trace[i + 1], Clear) <==> Cancelled(steps, i) || ReconnectFirst(steps, from, i))
  {
    hide Calm, ReconnectFirst, BreaksFirst, GaveUp, Cancelled;
    WasStarted(trace, steps, i);
    OneStep(trace, steps, i);
    ParentSince(trace, steps, i);
    if StartedAt(steps, from, i) {
      OneStep(trace, steps, from - 1);
      Explained(trace, steps, from, i);
      CalmIff(steps, from, i);
      OneFirst(steps, from, i);
    }
  }

  // ---- The order of the steps ----

  /** The port-forward goroutine's own steps, and the launch it begins with. */
  predicate Forwards(step: Step) {
    || step.Launch? || step.AddRoute? || step.Build? || step.Acquire? || step.Announce? || step.Renew? || step.Bind?
    || step.Shutdown? || step.Unroute? || step.ClosePort?
  }

  function LastForward(steps: seq<Step>): Option<Step> {
    if steps == [] then None
    else if Forwards(steps[|steps| - 1]) then Some(steps[|steps| - 1])
    else LastForward(steps[..|steps| - 1])
  }

  /** Route, client, port, announcement; then renewals and binds until it gives up or is shut
      down; and then its route goes before its port is closed. */
  predicate MayFollow(last: Option<Step>, step: Step) {
    match step
    case AddRoute(_) => last.Some? && last.value.Launch? && last.value.forwarding
    case Build(_) => last == Some(AddRoute(true))
    case Acquire(_) => last == Some(Build(true)) || last == Some(Renew)
    case Announce => last.Some? && last.value.Acquire? && last.value.got.Some?
    case Renew => last == Some(Announce) || last == Some(Bind(true))
    case Bind(_) => last == Some(Announce) || last == Some(Bind(true))
    case Shutdown => last == Some(Announce) || last == Some(Bind(true))
    case Unroute => last == Some(Acquire(None)) || last == Some(Bind(false)) || last == Some(Step.Shutdown)
    case ClosePort => last == Some(Unroute)
    case _ => true
  }

  predicate Stands(f: Forward, last: Option<Step>) {
    match f
    case Off => last.None? || (last.value.Launch? && !last.value.forwarding)
    case Starting => MayFollow(last, AddRoute(true))
    case Building => last == Some(AddRoute(true))
    case Acquiring => MayFollow(last, Acquire(None))
    case Announcing(port) => last == Some(Acquire(Some(port)))
    case Keeping => MayFollow(last, Renew)
    case Unrouting(_) => MayFollow(last, Unroute)
    case Closing(_) => last == Some(Unroute)
    case Returned(_) => last in [Some(AddRoute(false)), Some(Build(false)), Some(ClosePort)]
  }

  lemma StandsMore(x: Threads, step: Step, last: Option<Step>)
    requires CanTake(x, step) && Stands(x.forward, last)
    ensures MayFollow(last, step) && Stands(Move(x, step).forward, if Forwards(step) then Some(step) else last)
  {
    if Forwards(step) {
      StandsThen(x, step);
    } else {
      hide MayFollow, Stands;
      OthersMoves(x, step);
    }
  }

  lemma OthersMoves(x: Threads, step: Step)
    requires CanTake(x, step) && !Forwards(step)
    ensures Move(x, step).forward == x.forward && forall last :: MayFollow(last, step)
  {
  }

  lemma StandsThen(x: Threads, step: Step)
    requires CanTake(x, step) && Forwards(step)
    ensures Stands(Move(x, step).forward, Some(step))
  {
  }

  lemma LastForwardMore(steps: seq<Step>, step: Step)
    ensures LastForward(steps + [step]) == if Forwards(step) then Some(step) else LastForward(steps)
  {
    assert (steps + [step])[..|steps|] == steps;
  }

  lemma {:induction false} RunStands(trace: seq<State>, steps: seq<Step>, i: nat)
    requires Runs(trace, steps) && trace[0].at.forward == Off && i < |trace|
    ensures Stands(trace[i].at.forward, LastForward(steps[..i]))
  {
    if i > 0 {
      hide Stands, LastForward, CanTake, Move;
      RunStands(trace, steps, i - 1);
      OneStep(trace, steps, i - 1);
      StandsMore(trace[i - 1].at, steps[i - 1], LastForward(steps[..i - 1]));
      LastForwardMore(steps[..i - 1], steps[i - 1]);
      assert steps[..i] == steps[..i - 1] + [steps[i - 1]];
    }
  }

  /** Over every interleaving the port-forward goroutine's steps follow each other in this order,
      and what it announces is the port it has just acquired. */
  lemma InOrder(trace: seq<State>, steps: seq<Step>, i: nat)
    requires Runs(trace, steps) && trace[0].at == Idling() && i < |steps|
    ensures MayFollow(LastForward(steps[..i]), steps[i])
    ensures steps[i].Announce? ==>
      var port := LastForward(steps[..i]).value.got.value;
      trace[i + 1].net.port == if port <= 65535 then Some(port) else None
  {
    hide LastForward;
    RunStands(trace, steps, i);
    OneStep(trace, steps, i);
    StandsMore(trace[i].at, steps[i], LastForward(steps[..i]));
  }

  // ---- Every goroutine returns once, and all of them in the end ----

  ghost predicate HasReturned(steps: seq<Step>, from: nat, i: nat, o: Other) {
    exists k | from <= k < i && k < |steps| :: steps[k] == Finish(o) || (o == Monitor && steps[k] == Outage)
  }

  lemma {:induction false} StillWorking(trace: seq<State>, steps: seq<Step>, from: nat, i: nat, o: Other)
    requires |trace| == |steps| + 1 && Runs(trace, steps) && from <= i <= |steps|
    requires trace[from].at.working == {Monitor, Cacher, Syncer} && NoLaunch(steps, from, i)
    ensures o in trace[i].at.working <==> !HasReturned(steps, from, i, o)
    decreases i
  {
    hide Runs, CanTake, Move, HasReturned;
    if i == from {
      NotYetReturned(steps, from, o);
    } else {
      StillWorking(trace, steps, from, i - 1, o);
      OneStep(trace, steps, i - 1);
      WorkingMoves(trace[i - 1].at, steps[i - 1]);
      ReturnedMore(steps, from, i - 1, o);
    }
  }

  lemma NotYetReturned(steps: seq<Step>, from: nat, o: Other)
    ensures !HasReturned(steps, from, from, o)
  {
  }

  lemma ReturnedMore(steps: seq<Step>, from: nat, i: nat, o: Other)
    requires from <= i < |steps|
    ensures HasReturned(steps, from, i + 1, o)
       <==> HasReturned(steps, from, i, o) || steps[i] == Finish(o) || (o == Monitor && steps[i] == Outage)
  {
  }

  lemma WorkingMoves(x: Threads, step: Step)
    requires CanTake(x, step) && !step.Launch?
    ensures Move(x, step).working
         == x.working - (if step.Finish? then {step.o} else if step.Outage? then {Monitor} else {})
  {
  }

  lemma AllWorking(x: Threads, step: Step)
    requires CanTake(x, step) && step.Launch?
    ensures Move(x, step).working == {Monitor, Cacher, Syncer}
  {
  }

  /** Over every interleaving the monitor may report an outage until it has returned, and any of
      the others returns once, after the group is cancelled. */
  lemma ReturnOnce(trace: seq<State>, steps: seq<Step>, from: nat, i: nat, o: Other)
    requires Runs(trace, steps) && StartedAt(steps, from, i)
    ensures Enabled(trace[i], Outage) <==> !HasReturned(steps, from, i, Monitor)
    ensures Enabled(trace[i], Finish(o)) <==> !HasReturned(steps, from, i, o) && trace[i].at.group
  {
    hide Runs, HasReturned, Move;
    OneStep(trace, steps, from - 1);
    AllWorking(trace[from - 1].at, steps[from - 1]);
    StillWorking(trace, steps, from, i, Monitor);
    StillWorking(trace, steps, from, i, o);
  }

  /** How many of its steps the port-forward goroutine needs to return. */
  function StepsLeft(f: Forward): nat {
    match f
    case Off => 0
    case Returned(_) => 0
    case Closing(_) => 1
    case Unrouting(_) => 2
    case Keeping => 3
    case Acquiring => 3
    case Announcing(_) => 4
    case Building => 4
    case Starting => 5
  }

  /** A step that brings the services nearer to their end. */
  predicate Ends(step: Step) {
    || step.AddRoute? || step == Build(true) || step == Acquire(None) || step.Announce? || step.Shutdown?
    || step.Unroute? || step.ClosePort? || step.Finish? || step.WaitEnds?
  }

  lemma NextEnd(s: State) returns (step: Step)
    requires Inv(s) && s.at.main.Waiting? && s.at.group
    ensures Enabled(s, step) && Ends(step)
    ensures var t := Next(s, step).at;
      if AllReturned(s.at) then !t.main.Waiting?
      else t.main.Waiting? && t.group
           && StepsLeft(t.forward) + |t.working| < StepsLeft(s.at.forward) + |s.at.working|
  {
    var x := s.at;
    if x.working != {} {
      var o :| o in x.working;
      step := Finish(o);
      assert Move(x, step).working == x.working - {o};
    } else {
      step := match x.forward
        case Starting => AddRoute(x.gateway.Some? && x.gateway.value !in s.net.view.pia)
        case Building => Build(true)
        case Acquiring => Acquire(None)
        case Announcing(_) => Announce
        case Keeping => Step.Shutdown
        case Unrouting(_) => Unroute
        case Closing(_) => ClosePort
        case _ => WaitEnds;
    }
  }

  /** Once the group is cancelled, steps of the goroutines end the services: nobody is ever stuck. */
  lemma {:induction false} ComeToEnd(s: State) returns (trace: seq<State>, steps: seq<Step>)
    requires Inv(s) && s.at.main.Waiting? && s.at.group
    ensures Runs(trace, steps) && trace[0] == s && !trace[|steps|].at.main.Waiting?
    ensures |steps| <= StepsLeft(s.at.forward) + |s.at.working| + 1 && forall i | 0 <= i < |steps| :: Ends(steps[i])
    decreases StepsLeft(s.at.forward) + |s.at.working|
  {
    hide Inv, Enabled, Next, Ends, AllReturned;
    var step := NextEnd(s);
    var t := Next(s, step);
    trace, steps := [s, t], [step];
    if !AllReturned(s.at) {
      StepKeepsInv(s, step);
      var more, rest := ComeToEnd(t);
      trace, steps := [s] + more, [step] + rest;
    }
  }
}
