/** The port syncer: a mailbox of one port, notifiers that never wait, and a consumer that
    syncs the port it took last, as an interleaving of atomic steps. */
module PortSync {
  import opened Wrappers

  type Thread = nat

  /** Which of the two ways to pass the port on are configured. */
  datatype Config = Config(client: bool, script: bool)

  datatype Way = Client | Script

  /** Where a notifier stands in NotifyPort. */
  datatype Notifier = Resting | Draining(port: int) | Sending(port: int)

  /** Where an activation of handleNewPort stands: at its select, in trySync, waiting for the
      activation it called, or about to return. */
  datatype Point = Selecting | Syncing | Scripting | Calling | Returned

  /** An activation of handleNewPort; `serial` numbers the ports taken from the mailbox. */
  datatype Frame = Frame(port: int, serial: nat, clientOK: bool, scriptOK: bool, at: Point)

  datatype Attempt = Attempt(serial: nat, port: int, way: Way, ok: bool)

  datatype State = State(box: Option<int>, notifiers: map<Thread, Notifier>, stack: seq<Frame>, cancelled: bool,
                         notified: Option<int>, taken: Option<int>, serial: nat, log: seq<Attempt>)

  datatype Step =
    | Notify(t: Thread, port: int) | Drain(t: Thread) | Send(t: Thread) | Cancel
    | Take | Fire | SyncClient(ok: bool) | RunScript(ok: bool) | Leave | Return

  function Init(threads: set<Thread>): State {
    State(None, map t | t in threads :: Resting, [], false, None, None, 0, [])
  }

  predicate At(s: State, p: Point) { s.stack != [] && s.stack[|s.stack| - 1].at == p }

  function Top(s: State): Frame
    requires s.stack != []
  {
    s.stack[|s.stack| - 1]
  }

  function SetTop(s: State, f: Frame): (t: State)
    requires s.stack != []
    ensures t == t.(log := s.log)
  {
    s.(stack := s.stack[..|s.stack| - 1] + [f])
  }

  predicate Enabled(s: State, step: Step) {
    match step
    case Notify(t, _) => t in s.notifiers && s.notifiers[t].Resting?
    case Drain(t) => t in s.notifiers && s.notifiers[t].Draining?
    case Send(t) => t in s.notifiers && s.notifiers[t].Sending? && s.box.None?  // a full channel blocks
    case Cancel => true
    case Take => s.box.Some? && (s.stack == [] || At(s, Selecting))
    case Fire => At(s, Selecting)
    case SyncClient(_) => At(s, Syncing)
    case RunScript(_) => At(s, Scripting)
    case Leave => s.cancelled && At(s, Selecting)
    case Return => At(s, Returned)
  }

  function Taken(c: Config, s: State): Frame
    requires s.box.Some?
  {
    Frame(s.box.value, s.serial + 1, !c.client, !c.script, Selecting)
  }

  /** trySync passes the port on each configured way that has not succeeded yet. */
  function AfterClient(c: Config, f: Frame, ok: bool): Frame {
    f.(clientOK := if c.client && !f.clientOK then ok else f.clientOK, at := Scripting)
  }

  function AfterScript(c: Config, f: Frame, ok: bool): Frame {
    var done := if c.script && !f.scriptOK then ok else f.scriptOK;
    f.(scriptOK := done, at := if f.clientOK && done then Returned else Selecting)
  }

  /** The steps other than Take, Return and those that end an activation. */
  function Plain(c: Config, s: State, step: Step): State
    requires Enabled(s, step) && !step.Take? && !step.Return? && !step.Leave?
  {
    match step
    case Notify(t, port) => s.(notifiers := s.notifiers[t := Draining(port)])
    case Drain(t) => s.(notifiers := s.notifiers[t := Sending(s.notifiers[t].port)], box := None)
    case Send(t) =>
      s.(notifiers := s.notifiers[t := Resting], box := Some(s.notifiers[t].port),
        notified := Some(s.notifiers[t].port))
    case Cancel => s.(cancelled := true)
    case Fire => SetTop(s, Top(s).(at := Syncing))
    case SyncClient(ok) =>
      var f := Top(s);
      SetTop(s, AfterClient(c, f, ok))
        .(log := if c.client && !f.clientOK then s.log + [Attempt(f.serial, f.port, Client, ok)] else s.log)
    case RunScript(ok) =>
      var f := Top(s);
      SetTop(s, AfterScript(c, f, ok))
        .(log := if c.script && !f.scriptOK then s.log + [Attempt(f.serial, f.port, Script, ok)] else s.log)
  }

  /** A port that arrives during an activation is handled by a nested one, and a return returns
      from all of them. */
  function Next(c: Config, s: State, step: Step): State
    requires Enabled(s, step)
  {
    match step
    case Take =>
      var below := if s.stack == [] then [] else SetTop(s, Top(s).(at := Calling)).stack;
      s.(stack := below + [Taken(c, s)], box := None, taken := s.box, serial := s.serial + 1)
    case Leave => SetTop(s, Top(s).(at := Returned))
    case Return =>
      var below := s.stack[..|s.stack| - 1];
      if below == [] then s.(stack := below) else SetTop(s.(stack := below), below[|below| - 1].(at := Returned))
    case _ => Plain(c, s, step)
  }

  // ---- The latest-value loop ----

  /** One job at most: a new port replaces it, and it is dropped when synced or cancelled. */
  function LoopNext(c: Config, s: State, step: Step): State
    requires Enabled(s, step)
  {
    match step
    case Take => s.(stack := [Taken(c, s)], box := None, taken := s.box, serial := s.serial + 1)
    case Leave => s.(stack := [])
    case Return => s
    case RunScript(_) => var t := Plain(c, s, step); if At(t, Returned) then t.(stack := []) else t
    case _ => Plain(c, s, step)
  }

  /** What the loop sees of the recursion: the innermost activation while it has work left. */
  function Job(s: State): State {
    s.(stack := if s.stack == [] || At(s, Returned) then [] else [Top(s)])
  }

  /** Only the innermost activation is running. */
  ghost predicate Nested(s: State) {
    && (forall i | 0 <= i < |s.stack| - 1 :: s.stack[i].at == Calling)
    && !At(s, Calling)
  }

  lemma NestedKept(c: Config, s: State, step: Step)
    requires Nested(s) && Enabled(s, step)
    ensures Nested(Next(c, s, step))
  {
  }

  /** The steps of the running activation. */
  lemma TopRefines(c: Config, s: State, step: Step)
    requires Enabled(s, step) && (step.Fire? || step.SyncClient? || step.RunScript?)
    ensures Enabled(Job(s), step) && Job(Next(c, s, step)) == LoopNext(c, Job(s), step)
  {
  }

  /** Every step of the recursive handler is a step of the loop; its returns are none. */
  lemma RefinesLoop(c: Config, s: State, step: Step)
    requires Nested(s) && Enabled(s, step)
    ensures step.Return? ==> Job(Next(c, s, step)) == Job(s)
    ensures !step.Return? ==> Enabled(Job(s), step) && Job(Next(c, s, step)) == LoopNext(c, Job(s), step)
  {
    if step.Fire? || step.SyncClient? || step.RunScript? { TopRefines(c, s, step); }
  }

  // ---- What the syncer guarantees ----

  /** With a single notifier, its send finds the mailbox empty; and unless it has just drained
      it, the mailbox holds the last port notified or, empty, the consumer has taken it. */
  ghost predicate Mailbox(s: State, t: Thread) {
    && s.notifiers.Keys == {t}
    && if s.notifiers[t].Sending? then s.box.None?
       else s.notified.Some? ==> s.box == s.notified || (s.box.None? && s.taken == s.notified)
  }

  /** The log says that this taking's port was passed on the given way. */
  predicate Passed(log: seq<Attempt>, serial: nat, port: int, w: Way) { Attempt(serial, port, w, true) in log }

  predicate FullySynced(c: Config, s: State) {
    s.taken.Some? ==>
      && (c.client ==> Passed(s.log, s.serial, s.taken.value, Client))
      && (c.script ==> Passed(s.log, s.serial, s.taken.value, Script))
  }

  /** No attempt follows a success of the same way for the same taking. */
  ghost predicate NoRepeat(log: seq<Attempt>) {
    forall i, j | 0 <= i < j < |log| ::
      !(log[i].ok && log[i].serial == log[j].serial && log[i].way == log[j].way)
  }

  /** The log's entries belong to takings so far, those of the last one to its port. */
  ghost predicate Dated(log: seq<Attempt>, serial: nat, taken: Option<int>) {
    forall a | a in log :: a.serial <= serial && (a.serial == serial ==> taken == Some(a.port))
  }

  /** A running activation is for the port taken last, and its flags say what succeeded. */
  predicate FrameFits(c: Config, f: Frame, log: seq<Attempt>, serial: nat, taken: Option<int>) {
    && f.serial == serial && taken == Some(f.port)
    && (f.clientOK <==> !c.client || Passed(log, serial, f.port, Client))
    && (f.scriptOK <==> !c.script || Passed(log, serial, f.port, Script))
  }

  ghost predicate Working(c: Config, s: State) {
    && (s.taken.None? ==> s.stack == [])
    && Dated(s.log, s.serial, s.taken) && NoRepeat(s.log)
    && if s.stack == [] || At(s, Returned) then s.cancelled || FullySynced(c, s)
       else FrameFits(c, Top(s), s.log, s.serial, s.taken)
  }

  ghost predicate Inv(c: Config, s: State, t: Thread) {
    Nested(s) && Mailbox(s, t) && Working(c, s)
  }

  /** One more attempt on a way that has not succeeded yet. */
  lemma LogMore(log: seq<Attempt>, a: Attempt, taken: Option<int>)
    requires NoRepeat(log) && Dated(log, a.serial, taken) && taken == Some(a.port)
    requires !Passed(log, a.serial, a.port, a.way)
    ensures NoRepeat(log + [a]) && Dated(log + [a], a.serial, taken)
    ensures forall w :: Passed(log + [a], a.serial, a.port, w) <==>
        (w == a.way && a.ok) || Passed(log, a.serial, a.port, w)
  {
    var g := log + [a];
    forall i, j | 0 <= i < j < |g| ensures !(g[i].ok && g[i].serial == g[j].serial && g[i].way == g[j].way) {
      assert g[i] == log[i] && g[i] in log;
    }
  }

  /** The two steps that log. */
  lemma AttemptKeepsWork(c: Config, s: State, step: Step)
    requires Working(c, s) && Enabled(s, step) && (step.SyncClient? || step.RunScript?)
    ensures Working(c, Next(c, s, step))
  {
    hide NoRepeat, Dated, Passed;
    var f := Top(s);
    if step.SyncClient? && c.client && !f.clientOK {
      LogMore(s.log, Attempt(f.serial, f.port, Client, step.ok), s.taken);
    }
    if step.RunScript? && c.script && !f.scriptOK {
      LogMore(s.log, Attempt(f.serial, f.port, Script, step.ok), s.taken);
    }
  }

  lemma NewTaking(log: seq<Attempt>, serial: nat, taken: Option<int>, next: nat, port: int)
    requires Dated(log, serial, taken) && next > serial
    ensures Dated(log, next, Some(port))
    ensures forall w :: !Passed(log, next, port, w)
  {
  }

  /** The steps that begin and end activations. */
  lemma ActivationKeepsWork(c: Config, s: State, step: Step)
    requires Working(c, s) && Enabled(s, step) && (step.Take? || step.Leave? || step.Return?)
    ensures Working(c, Next(c, s, step))
  {
    hide NoRepeat, Dated, Passed;
    if step.Take? { NewTaking(s.log, s.serial, s.taken, s.serial + 1, s.box.value); }
  }

  /** The flags always say what succeeded for the port taken last, and nothing that succeeded
      is repeated. */
  lemma StepKeepsWork(c: Config, s: State, step: Step)
    requires Working(c, s) && Enabled(s, step)
    ensures Working(c, Next(c, s, step))
  {
    hide NoRepeat, Dated, Passed;
    match step {
      case SyncClient(_) => AttemptKeepsWork(c, s, step);
      case RunScript(_) => AttemptKeepsWork(c, s, step);
      case Take => ActivationKeepsWork(c, s, step);
      case Leave => ActivationKeepsWork(c, s, step);
      case Return => ActivationKeepsWork(c, s, step);
      case _ =>
    }
  }

  lemma StepKeepsInv(c: Config, s: State, t: Thread, step: Step)
    requires Inv(c, s, t) && Enabled(s, step)
    ensures Inv(c, Next(c, s, step), t)
  {
    hide Working;
    StepKeepsWork(c, s, step);
    NestedKept(c, s, step);
  }

  ghost predicate Runs(c: Config, trace: seq<State>, steps: seq<Step>) {
    && |trace| == |steps| + 1
    && forall i | 0 <= i < |steps| :: Enabled(trace[i], steps[i]) && trace[i + 1] == Next(c, trace[i], steps[i])
  }

  lemma {:induction false} RunInv(c: Config, t: Thread, trace: seq<State>, steps: seq<Step>, i: nat)
    requires Runs(c, trace, steps) && trace[0] == Init({t}) && i < |trace|
    ensures Inv(c, trace[i], t)
  {
    if i > 0 {
      RunInv(c, t, trace, steps, i - 1);
      StepKeepsInv(c, trace[i - 1], t, steps[i - 1]);
    }
  }

  /** Over every interleaving of one notifier with the syncer: a notifier never waits; between
      notifications the latest port is in the mailbox or taken; whenever the syncer rests with an
      empty mailbox and was not shut down, the port notified last has been passed on every
      configured way; and no way is tried again for a taking once it succeeded. */
  lemma EveryInterleaving(c: Config, t: Thread, trace: seq<State>, steps: seq<Step>, i: nat)
    requires Runs(c, trace, steps) && trace[0] == Init({t}) && i < |trace|
    ensures var s := trace[i];
      && t in s.notifiers
      && (s.notifiers[t].Sending? ==> Enabled(s, Send(t)))
      && (s.notifiers[t].Resting? && s.notified.Some? ==> s.box == s.notified || (s.box.None? && s.taken == s.notified))
      && (s.stack == [] && s.box.None? && Cancel !in steps[..i] && s.notifiers[t].Resting? && s.notified.Some? ==>
            s.taken == s.notified && FullySynced(c, s))
      && NoRepeat(s.log)
  {
    RunInv(c, t, trace, steps, i);
    OnlyCancelled(c, trace, steps, i);
  }

  lemma {:induction false} OnlyCancelled(c: Config, trace: seq<State>, steps: seq<Step>, i: nat)
    requires Runs(c, trace, steps) && !trace[0].cancelled && i < |trace|
    ensures trace[i].cancelled ==> Cancel in steps[..i]
  {
    if i > 0 {
      OnlyCancelled(c, trace, steps, i - 1);
      CancelMoves(c, trace[i - 1], steps[i - 1]);
      assert steps[..i] == steps[..i - 1] + [steps[i - 1]];
    }
  }

  lemma CancelMoves(c: Config, s: State, step: Step)
    requires Enabled(s, step)
    ensures Next(c, s, step).cancelled == (s.cancelled || step.Cancel?)
  {
  }

  // ---- The order of its steps, and progress ----

  predicate Own(step: Step) { !step.Notify? && !step.Drain? && !step.Send? && !step.Cancel? }

  function LastOwn(steps: seq<Step>): Option<Step> {
    if steps == [] then None
    else if Own(steps[|steps| - 1]) then Some(steps[|steps| - 1])
    else LastOwn(steps[..|steps| - 1])
  }

  /** The handler looks for a new port and for the shutdown before every round of attempts, and
      a round is the client and then the script. */
  predicate MayFollow(last: Option<Step>, step: Step) {
    match step
    case Take => last.None? || last.value.Take? || last.value.RunScript? || last.value.Return?
    case Fire => last.Some? && (last.value.Take? || last.value.RunScript?)
    case Leave => last.Some? && (last.value.Take? || last.value.RunScript?)
    case SyncClient(_) => last == Some(Fire)
    case RunScript(_) => last.Some? && last.value.SyncClient?
    case Return => last.Some? && (last.value.RunScript? || last.value.Leave? || last.value.Return?)
    case _ => true
  }

  /** Where the running activation stands tells what the syncer did last. */
  predicate Stands(s: State, last: Option<Step>) {
    if s.stack == [] then last.None? || last.value.Return?
    else match Top(s).at
      case Selecting => MayFollow(last, Fire)
      case Syncing => last == Some(Fire)
      case Scripting => last.Some? && last.value.SyncClient?
      case Returned => MayFollow(last, Return)
      case Calling => false
  }

  lemma StandsMore(c: Config, s: State, step: Step, last: Option<Step>)
    requires Stands(s, last) && Enabled(s, step)
    ensures MayFollow(last, step) && Stands(Next(c, s, step), if Own(step) then Some(step) else last)
  {
  }

  lemma LastOwnMore(steps: seq<Step>, step: Step)
    ensures LastOwn(steps + [step]) == if Own(step) then Some(step) else LastOwn(steps)
  {
    assert (steps + [step])[..|steps|] == steps;
  }

  lemma {:induction false} RunStands(c: Config, threads: set<Thread>, trace: seq<State>, steps: seq<Step>, i: nat)
    requires Runs(c, trace, steps) && trace[0] == Init(threads) && i < |trace|
    ensures Stands(trace[i], LastOwn(steps[..i]))
  {
    if i > 0 {
      hide Stands, LastOwn, Next, Enabled;
      RunStands(c, threads, trace, steps, i - 1);
      StandsMore(c, trace[i - 1], steps[i - 1], LastOwn(steps[..i - 1]));
      LastOwnMore(steps[..i - 1], steps[i - 1]);
      assert steps[..i] == steps[..i - 1] + [steps[i - 1]];
    }
  }

  /** Over every interleaving the syncer's own steps follow each other in this order. */
  lemma InOrder(c: Config, threads: set<Thread>, trace: seq<State>, steps: seq<Step>, i: nat)
    requires Runs(c, trace, steps) && trace[0] == Init(threads) && i < |steps|
    ensures MayFollow(LastOwn(steps[..i]), steps[i])
  {
    RunStands(c, threads, trace, steps, i);
    StandsMore(c, trace[i], steps[i], LastOwn(steps[..i]));
  }

  /** How many of its steps the running activation needs if what it tries succeeds: a round that
      has failed on the client is followed by another. */
  function StepsLeft(s: State): nat {
    if s.stack == [] then 0
    else match Top(s).at
      case Selecting => 3
      case Syncing => 2
      case Scripting => if Top(s).clientOK then 1 else 4
      case _ => 0
  }

  /** If what is configured succeeds, the syncer comes to rest by its own steps: the rest of a
      round, another at most, and the returns from all activations; the port is then passed on
      every way. */
  lemma {:induction false} ComesToRest(c: Config, s: State, t: Thread) returns (trace: seq<State>, steps: seq<Step>)
    requires Inv(c, s, t)
    ensures |trace| == |steps| + 1 && Runs(c, trace, steps) && trace[0] == s && trace[|steps|].stack == []
    ensures forall i | 0 <= i < |steps| :: steps[i] in [Fire, SyncClient(true), RunScript(true), Return]
    ensures |steps| <= |s.stack| + StepsLeft(s) <= |s.stack| + 4
    ensures var e := trace[|steps|]; e.taken == s.taken && e.box == s.box && (s.cancelled || FullySynced(c, e))
    decreases |s.stack|, StepsLeft(s)
  {
    hide Inv, Enabled, Next, Runs, FullySynced;
    RestedIsSynced(c, s, t);
    if s.stack == [] {
      NothingRuns(c, s);
      return [s], [];
    }
    var step := match Top(s).at
      case Selecting => Fire
      case Syncing => SyncClient(true)
      case Scripting => RunScript(true)
      case _ => Return;
    OwnStep(c, s, t, step);
    StepKeepsInv(c, s, t, step);
    var more, rest := ComesToRest(c, Next(c, s, step), t);
    RunsMore(c, s, step, more, rest);
    trace, steps := [s] + more, [step] + rest;
  }

  lemma RestedIsSynced(c: Config, s: State, t: Thread)
    requires Inv(c, s, t)
    ensures s.stack == [] ==> s.cancelled || FullySynced(c, s)
    ensures s.stack != [] ==> Top(s).at != Calling
  {
    hide NoRepeat, Dated, FullySynced;
  }

  lemma NothingRuns(c: Config, s: State)
    ensures Runs(c, [s], [])
  {
  }

  lemma RunsMore(c: Config, s: State, step: Step, trace: seq<State>, steps: seq<Step>)
    requires Enabled(s, step) && |trace| == |steps| + 1 && Runs(c, trace, steps) && trace[0] == Next(c, s, step)
    ensures Runs(c, [s] + trace, [step] + steps)
  {
    hide Enabled, Next;
    var more, rest := [s] + trace, [step] + steps;
    forall i | 0 <= i < |rest| ensures Enabled(more[i], rest[i]) && more[i + 1] == Next(c, more[i], rest[i]) {
      if i > 0 { assert more[i] == trace[i - 1] && rest[i] == steps[i - 1] && more[i + 1] == trace[i]; }
    }
  }

  lemma OwnStep(c: Config, s: State, t: Thread, step: Step)
    requires Inv(c, s, t) && s.stack != []
    requires match Top(s).at
             case Selecting => step == Fire
             case Syncing => step == SyncClient(true)
             case Scripting => step == RunScript(true)
             case _ => step == Return
    ensures Enabled(s, step)
    ensures var n := Next(c, s, step);
      && n.taken == s.taken && n.box == s.box && n.cancelled == s.cancelled
      && match Top(s).at
         case Selecting => |n.stack| == |s.stack| && StepsLeft(n) == 2
         case Syncing => |n.stack| == |s.stack| && StepsLeft(n) == 1
         case Scripting => |n.stack| == |s.stack| && StepsLeft(n) == StepsLeft(s) - 1
         case _ => |n.stack| == |s.stack| - 1 && StepsLeft(n) == 0
  {
    hide NoRepeat, Dated;
  }

  /** Two notifiers can both drain before either sends: the second then waits for the syncer. */
  lemma TwoNotifiersMayBlock(c: Config, port: int) returns (trace: seq<State>, steps: seq<Step>)
    ensures Runs(c, trace, steps) && trace[0] == Init({0, 1})
    ensures var s := trace[|steps|];
      1 in s.notifiers && s.notifiers[1].Sending? && !Enabled(s, Send(1))
  {
    var s0 := Init({0, 1});
    var s1 := Next(c, s0, Notify(0, port));
    var s2 := Next(c, s1, Notify(1, port));
    var s3 := Next(c, s2, Drain(0));
    var s4 := Next(c, s3, Drain(1));
    var s5 := Next(c, s4, Send(0));
    trace, steps := [s0, s1, s2, s3, s4, s5], [Notify(0, port), Notify(1, port), Drain(0), Drain(1), Send(0)];
  }
}
