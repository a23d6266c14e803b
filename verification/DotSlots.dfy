/** The DoT proxy's upstream slots as a state machine: workers that hold the upstream's mutex
    and closers that do not, each taking one atomic step at a time. */
module DotSlots {
  import opened Wrappers

  type Conn = nat
  type Thread = nat

  const ATTEMPTS := 2

  /** Where a worker stands in forwardDoT. */
  datatype Stage =
    | Idle
    | Loading(attempt: nat)              // holds the mutex, about to load the slot
    | Dialing(attempt: nat)              // the slot was nil
    | Dialed(attempt: nat, c: Conn)      // dialled, about to store
    | Using(attempt: nat, c: Conn)       // writing the query or reading the answer
    | Failed(attempt: nat, c: Conn)      // I/O failed, about to clear the slot
    | Dropping(attempt: nat, c: Conn, took: bool)  // slot cleared, about to close; `took` if it still held c
    | Leaving                            // about to release the mutex

  datatype Worker = Worker(up: nat, stage: Stage)

  /** Where a CloseUpstreams call stands: about to swap slot u, or about to close what it swapped out. */
  datatype Closer = Resting | Swapping(up: nat) | Closing(up: nat, c: Conn)

  datatype State = State(slots: seq<Option<Conn>>, holders: seq<Option<Thread>>, workers: map<Thread, Worker>,
                         closers: map<Thread, Closer>, open: set<Conn>, next: Conn)

  datatype Step =
    | Lock(w: Thread, up: nat) | Load(w: Thread) | DialFails(w: Thread) | DialSucceeds(w: Thread) | Store(w: Thread)
    | IoSucceeds(w: Thread) | IoFails(w: Thread) | StoreNil(w: Thread) | CloseOwn(w: Thread) | Unlock(w: Thread)
    | CloseStarts(k: Thread) | Swap(k: Thread) | CloseSwapped(k: Thread)

  function Set(s: State, w: Thread, stage: Stage): State
    requires w in s.workers
  {
    s.(workers := s.workers[w := s.workers[w].(stage := stage)])
  }

  predicate WorkerEnabled(s: State, w: Thread, step: Step)
    requires w in s.workers && |s.slots| == |s.holders|
  {
    var x := s.workers[w];
    match step
    case Lock(_, u) => x.stage.Idle? && u < |s.slots| && s.holders[u].None?
    case Load(_) => x.stage.Loading? && x.up < |s.slots|
    case DialFails(_) => x.stage.Dialing?
    case DialSucceeds(_) => x.stage.Dialing?
    case Store(_) => x.stage.Dialed? && x.up < |s.slots|
    case IoSucceeds(_) => x.stage.Using?
    case IoFails(_) => x.stage.Using?
    case StoreNil(_) => x.stage.Failed? && x.up < |s.slots|
    case CloseOwn(_) => x.stage.Dropping?
    case Unlock(_) => x.stage.Leaving? && x.up < |s.slots|
    case _ => false
  }

  predicate Enabled(s: State, step: Step) {
    && |s.slots| == |s.holders|
    && match step
       case CloseStarts(k) => k in s.closers && s.closers[k].Resting?
       case Swap(k) => k in s.closers && s.closers[k].Swapping? && s.closers[k].up <= |s.slots|
       case CloseSwapped(k) => k in s.closers && s.closers[k].Closing?
       case _ => step.w in s.workers && WorkerEnabled(s, step.w, step)
  }

  function WorkerStep(s: State, w: Thread, step: Step): State
    requires w in s.workers && |s.slots| == |s.holders| && WorkerEnabled(s, w, step)
  {
    var x := s.workers[w];
    match step
    case Lock(_, u) => s.(workers := s.workers[w := Worker(u, Loading(0))], holders := s.holders[u := Some(w)])
    case Load(_) =>
      (match s.slots[x.up]
       case None => Set(s, w, Dialing(x.stage.attempt))
       case Some(c) => Set(s, w, Using(x.stage.attempt, c)))
    case DialFails(_) => Set(s, w, Leaving)
    case DialSucceeds(_) =>
      Set(s, w, Dialed(x.stage.attempt, s.next)).(open := s.open + {s.next}, next := s.next + 1)
    case Store(_) => Set(s, w, Using(x.stage.attempt, x.stage.c)).(slots := s.slots[x.up := Some(x.stage.c)])
    case IoSucceeds(_) => Set(s, w, Leaving)
    case IoFails(_) => Set(s, w, Failed(x.stage.attempt, x.stage.c))
    case StoreNil(_) =>
      Set(s, w, Dropping(x.stage.attempt, x.stage.c, s.slots[x.up] == Some(x.stage.c))).(slots := s.slots[x.up := None])
    case CloseOwn(_) =>
      Set(s, w, if x.stage.attempt + 1 < ATTEMPTS then Loading(x.stage.attempt + 1) else Leaving)
        .(open := s.open - {x.stage.c})
    case Unlock(_) => Set(s, w, Idle).(holders := s.holders[x.up := None])
  }

  function Next(s: State, step: Step): State
    requires Enabled(s, step)
  {
    match step
    case CloseStarts(k) => s.(closers := s.closers[k := Swapping(0)])
    case Swap(k) =>
      var u := s.closers[k].up;
      if u == |s.slots| then s.(closers := s.closers[k := Resting])
      else
        (match s.slots[u]
         case None => s.(closers := s.closers[k := Swapping(u + 1)])
         case Some(c) => s.(closers := s.closers[k := Closing(u, c)], slots := s.slots[u := None]))
    case CloseSwapped(k) =>
      var x := s.closers[k];
      s.(closers := s.closers[k := Swapping(x.up + 1)], open := s.open - {x.c})
    case _ => WorkerStep(s, step.w, step)
  }

  // ---- Who answers for a connection ----

  datatype Owner = Slot(up: nat) | Dialer(w: Thread) | Dropper(w: Thread) | Swapper(k: Thread)

  /** The slot that holds c, or the one thread about to store or close it. */
  predicate Owns(s: State, o: Owner, c: Conn) {
    match o
    case Slot(u) => u < |s.slots| && s.slots[u] == Some(c)
    case Dialer(w) => w in s.workers && s.workers[w].stage.Dialed? && s.workers[w].stage.c == c
    case Dropper(w) =>
      w in s.workers && s.workers[w].stage.Dropping? && s.workers[w].stage.c == c && s.workers[w].stage.took
    case Swapper(k) => k in s.closers && s.closers[k].Closing? && s.closers[k].c == c
  }

  /** A thread's use of a slot: what the mutex guarantees it about the slot's content. */
  predicate WorkerFits(s: State, w: Thread)
    requires w in s.workers && |s.slots| == |s.holders|
  {
    var x := s.workers[w];
    x.stage != Idle ==>
      && x.up < |s.slots| && s.holders[x.up] == Some(w)
      && (x.stage.Dialing? || x.stage.Dialed? || x.stage.Dropping? ==> s.slots[x.up] == None)
      && (x.stage.Using? || x.stage.Failed? ==> s.slots[x.up] in {None, Some(x.stage.c)} && x.stage.c < s.next)
      && (x.stage.Dialed? || x.stage.Dropping? ==> x.stage.c < s.next)
  }

  /** What holds of slots, mutexes and thread positions. */
  ghost predicate Shape(s: State) {
    && |s.slots| == |s.holders|
    && (forall w | w in s.workers :: WorkerFits(s, w))
    && (forall u | 0 <= u < |s.holders| && s.holders[u].Some? ::
          s.holders[u].value in s.workers && s.workers[s.holders[u].value].up == u &&
            s.workers[s.holders[u].value].stage != Idle)
    && (forall k | k in s.closers :: s.closers[k].Swapping? ==> s.closers[k].up <= |s.slots|)
    && (forall k | k in s.closers :: s.closers[k].Closing? ==> s.closers[k].up < |s.slots|)
    && (forall c | c in s.open :: c < s.next)
  }

  /** A worker carries c: it uses it or is about to drop it. */
  predicate Carries(s: State, w: Thread, c: Conn) {
    && w in s.workers
    && (s.workers[w].stage.Using? || s.workers[w].stage.Failed? || s.workers[w].stage.Dropping?)
    && s.workers[w].stage.c == c
  }

  /** Then c belongs to its slot, to whoever swapped it out, or to itself. */
  predicate MayCarry(s: State, w: Thread, o: Owner, c: Conn) {
    Carries(s, w, c) ==> o == Slot(s.workers[w].up) || o.Swapper? || o == Dropper(w)
  }

  /** What a slot, a dialler or a dropper answers for is open. */
  ghost predicate OwnedOpen(s: State) {
    forall o: Owner, c: Conn | Owns(s, o, c) :: c < s.next && (!o.Swapper? ==> c in s.open)
  }

  /** At most one owner, for open and closed connections alike. */
  ghost predicate OneOwner(s: State) {
    forall o: Owner, p: Owner, c: Conn | Owns(s, o, c) && Owns(s, p, c) :: o == p
  }

  ghost predicate Carrying(s: State) {
    forall w: Thread, o: Owner, c: Conn | Owns(s, o, c) :: MayCarry(s, w, o, c)
  }

  /** At least one owner for every open connection: none is lost. */
  ghost predicate NoneLost(s: State) {
    forall c | c in s.open :: exists o :: Owns(s, o, c)
  }

  ghost predicate Inv(s: State) {
    Shape(s) && OwnedOpen(s) && OneOwner(s) && Carrying(s) && NoneLost(s)
  }

  function Init(n: nat, workers: set<Thread>, closers: set<Thread>): State {
    State(seq(n, _ => None), seq(n, _ => None), map w | w in workers :: Worker(0, Idle),
          map k | k in closers :: Resting, {}, 0)
  }

  lemma InitInv(n: nat, workers: set<Thread>, closers: set<Thread>)
    ensures Inv(Init(n, workers, closers))
  {
  }

  lemma WorkerStepInv(s: State, w: Thread, step: Step)
    requires Inv(s) && w in s.workers && WorkerEnabled(s, w, step)
    ensures Inv(WorkerStep(s, w, step))
  {
    match step {
      case Lock(_, _) => PureStep(s, w, step);
      case Load(_) => PureStep(s, w, step);
      case DialFails(_) => PureStep(s, w, step);
      case IoSucceeds(_) => PureStep(s, w, step);
      case IoFails(_) => PureStep(s, w, step);
      case Unlock(_) => PureStep(s, w, step);
      case DialSucceeds(_) => DialStep(s, w, step);
      case Store(_) => StoreStep(s, w, step);
      case StoreNil(_) => StoreNilStep(s, w, step);
      case CloseOwn(_) => CloseOwnStep(s, w, step);
    }
  }

  predicate Pure(step: Step) {
    step.Lock? || step.Load? || step.DialFails? || step.IoSucceeds? || step.IoFails? || step.Unlock?
  }

  /** Steps that open, move and close nothing: every owner stays. */
  lemma PureStep(s: State, w: Thread, step: Step)
    requires Inv(s) && w in s.workers && WorkerEnabled(s, w, step) && Pure(step)
    ensures Inv(WorkerStep(s, w, step))
  {
    assert |s.slots| == |s.holders|;
    hide Shape, Owns, MayCarry, WorkerStep, WorkerEnabled;
    PureShape(s, w, step);
    PureOwners(s, w, step);
    PureCarrying(s, w, step);
    StillOwned(s, WorkerStep(s, w, step));
  }

  /** The thread is about to store or to close a connection of its own. */
  predicate Holding(x: Stage) { x.Dialed? || x.Dropping? }

  lemma PureMoves(s: State, w: Thread, step: Step)
    requires |s.slots| == |s.holders| && w in s.workers && WorkerEnabled(s, w, step) && Pure(step)
    ensures var t := WorkerStep(s, w, step);
      && (t.slots, t.closers, t.open, t.next) == (s.slots, s.closers, s.open, s.next)
      && w in t.workers && t.workers == s.workers[w := t.workers[w]]
      && !Holding(s.workers[w].stage) && !Holding(t.workers[w].stage)
  {
  }

  lemma PureOwners(s: State, w: Thread, step: Step)
    requires |s.slots| == |s.holders| && w in s.workers && WorkerEnabled(s, w, step) && Pure(step)
    ensures var t := WorkerStep(s, w, step);
      && t.open == s.open && t.next == s.next
      && forall o: Owner, c: Conn :: Owns(t, o, c) <==> Owns(s, o, c)
  {
    hide WorkerStep, WorkerEnabled;
    PureMoves(s, w, step);
  }

  lemma PureCarrying(s: State, w: Thread, step: Step)
    requires Shape(s) && Carrying(s) && OneOwner(s) && w in s.workers && WorkerEnabled(s, w, step) && Pure(step)
    ensures Carrying(WorkerStep(s, w, step))
  {
    var t := WorkerStep(s, w, step);
    PureOwners(s, w, step);
    forall v: Thread, o: Owner, c: Conn | Owns(t, o, c) ensures MayCarry(t, v, o, c) {
      assert MayCarry(s, v, o, c);
      if v == w && step.Load? && Carries(t, v, c) { assert Owns(s, Slot(s.workers[w].up), c); }
    }
  }

  lemma StillOwned(s: State, t: State)
    requires NoneLost(s) && t.open == s.open
    requires forall o: Owner, c: Conn :: Owns(t, o, c) <==> Owns(s, o, c)
    ensures NoneLost(t)
  {
  }

  lemma PureShape(s: State, w: Thread, step: Step)
    requires Shape(s) && OwnedOpen(s) && w in s.workers && WorkerEnabled(s, w, step) && Pure(step)
    ensures Shape(WorkerStep(s, w, step))
  {
    var t := WorkerStep(s, w, step);
    if step.Load? && s.slots[s.workers[w].up].Some? {
      assert Owns(s, Slot(s.workers[w].up), s.slots[s.workers[w].up].value);
    }
    forall x | x in t.workers ensures WorkerFits(t, x) { assert WorkerFits(s, x); }
  }

  lemma DialStep(s: State, w: Thread, step: Step)
    requires Inv(s) && w in s.workers && WorkerEnabled(s, w, step) && step.DialSucceeds?
    ensures Inv(WorkerStep(s, w, step))
  {
    var t := WorkerStep(s, w, step);
    forall x | x in t.workers ensures WorkerFits(t, x) { assert WorkerFits(s, x); }
    forall o: Owner, c: Conn ensures Owns(t, o, c) <==> Owns(s, o, c) || (o == Dialer(w) && c == s.next) {
    }
    forall v: Thread, o: Owner, c: Conn | Owns(t, o, c) ensures MayCarry(t, v, o, c) {
      if Owns(s, o, c) { assert MayCarry(s, v, o, c); } else if v in s.workers { assert WorkerFits(s, v); }
    }
    assert Owns(t, Dialer(w), s.next);
    forall c | c in t.open ensures exists o :: Owns(t, o, c) {
      if c != s.next { var o :| Owns(s, o, c); assert Owns(t, o, c); }
    }
  }

  lemma StoreStep(s: State, w: Thread, step: Step)
    requires Inv(s) && w in s.workers && WorkerEnabled(s, w, step) && step.Store?
    ensures Inv(WorkerStep(s, w, step))
  {
    var t, u, c0 := WorkerStep(s, w, step), s.workers[w].up, s.workers[w].stage.c;
    assert Owns(s, Dialer(w), c0);
    forall x | x in t.workers ensures WorkerFits(t, x) { assert WorkerFits(s, x) && WorkerFits(s, w); }
    forall o: Owner, c: Conn
      ensures Owns(t, o, c) <==> (o == Slot(u) && c == c0) || (o != Dialer(w) && Owns(s, o, c))
    {
      assert WorkerFits(s, w);
    }
    forall v: Thread, o: Owner, c: Conn | Owns(t, o, c) ensures MayCarry(t, v, o, c) {
      if Owns(s, o, c) { assert MayCarry(s, v, o, c); }
      assert MayCarry(s, v, Dialer(w), c0);
    }
    forall c | c in t.open ensures exists o :: Owns(t, o, c) {
      var o :| Owns(s, o, c);
      if o == Dialer(w) { assert Owns(t, Slot(u), c); } else { assert Owns(t, o, c); }
    }
  }

  /** Only the slot's own connection can be in it: the mutex keeps others from storing. */
  lemma StoreNilStep(s: State, w: Thread, step: Step)
    requires Inv(s) && w in s.workers && WorkerEnabled(s, w, step) && step.StoreNil?
    ensures Inv(WorkerStep(s, w, step))
  {
    var t, u, c0 := WorkerStep(s, w, step), s.workers[w].up, s.workers[w].stage.c;
    assert WorkerFits(s, w);
    StoreNilShape(s, w, step);
    forall o: Owner, c: Conn
      ensures Owns(t, o, c) <==> (o == Dropper(w) && c == c0 && Owns(s, Slot(u), c)) || (o != Slot(u) && Owns(s, o, c))
    {
    }
    StoreNilCarrying(s, w, step);
    forall c | c in t.open ensures exists o :: Owns(t, o, c) {
      var o :| Owns(s, o, c);
      if o == Slot(u) { assert Owns(t, Dropper(w), c); } else { assert Owns(t, o, c); }
    }
  }

  lemma StoreNilShape(s: State, w: Thread, step: Step)
    requires Shape(s) && w in s.workers && WorkerEnabled(s, w, step) && step.StoreNil?
    ensures Shape(WorkerStep(s, w, step))
  {
    var t := WorkerStep(s, w, step);
    forall x | x in t.workers ensures WorkerFits(t, x) { assert WorkerFits(s, x) && WorkerFits(s, w); }
  }

  lemma StoreNilCarrying(s: State, w: Thread, step: Step)
    requires Inv(s) && w in s.workers && WorkerEnabled(s, w, step) && step.StoreNil?
    ensures Carrying(WorkerStep(s, w, step))
  {
    var t, u := WorkerStep(s, w, step), s.workers[w].up;
    forall v: Thread, o: Owner, c: Conn | Owns(t, o, c) ensures MayCarry(t, v, o, c) {
      assert WorkerFits(s, w);
      if o == Dropper(w) {
        assert Owns(s, Slot(u), c) && MayCarry(s, v, Slot(u), c);
        assert v in s.workers ==> WorkerFits(s, v);
      } else {
        assert Owns(s, o, c) && MayCarry(s, v, o, c);
      }
    }
  }

  lemma CloseOwnStep(s: State, w: Thread, step: Step)
    requires Inv(s) && w in s.workers && WorkerEnabled(s, w, step) && step.CloseOwn?
    ensures Inv(WorkerStep(s, w, step))
  {
    var t, c0 := WorkerStep(s, w, step), s.workers[w].stage.c;
    forall x | x in t.workers ensures WorkerFits(t, x) { assert WorkerFits(s, x); }
    forall o: Owner, c: Conn ensures Owns(t, o, c) <==> o != Dropper(w) && Owns(s, o, c) {
    }
    forall v: Thread, o: Owner, c: Conn | Owns(t, o, c)
      ensures MayCarry(t, v, o, c) && c < t.next && (!o.Swapper? ==> c in t.open)
    {
      assert MayCarry(s, v, o, c) && MayCarry(s, w, o, c) && WorkerFits(s, w);
    }
    assert OwnedOpen(t) by {
      forall o: Owner, c: Conn | Owns(t, o, c) ensures c < t.next && (!o.Swapper? ==> c in t.open) {
        assert MayCarry(t, w, o, c);
      }
    }
    forall c | c in t.open ensures exists o :: Owns(t, o, c) {
      var o :| Owns(s, o, c);
      assert Owns(t, o, c);
    }
  }

  lemma SwapInv(s: State, k: Thread)
    requires Inv(s) && Enabled(s, Swap(k))
    ensures Inv(Next(s, Swap(k)))
  {
    var t, u := Next(s, Swap(k)), s.closers[k].up;
    forall x | x in t.workers ensures WorkerFits(t, x) { assert WorkerFits(s, x); }
    if u < |s.slots| && s.slots[u].Some? {
      forall o: Owner, c: Conn
        ensures Owns(t, o, c) <==> (o == Swapper(k) && Owns(s, Slot(u), c)) || (o != Slot(u) && Owns(s, o, c))
      {
      }
      forall v: Thread, o: Owner, c: Conn | Owns(t, o, c) ensures MayCarry(t, v, o, c) {
        if o != Swapper(k) { assert MayCarry(s, v, o, c); }
      }
      forall c | c in t.open ensures exists o :: Owns(t, o, c) {
        var o :| Owns(s, o, c);
        if o == Slot(u) { assert Owns(t, Swapper(k), c); } else { assert Owns(t, o, c); }
      }
    } else {
      SameOwners(s, t);
    }
  }

  lemma SameOwners(s: State, t: State)
    requires Inv(s) && t.slots == s.slots && t.workers == s.workers && t.open == s.open && t.next == s.next
    requires t.closers.Keys == s.closers.Keys
    requires forall k | k in s.closers ::
        t.closers[k] == s.closers[k] || (!t.closers[k].Closing? && !s.closers[k].Closing?)
    ensures OwnedOpen(t) && OneOwner(t) && Carrying(t) && NoneLost(t)
  {
    forall o: Owner, c: Conn ensures Owns(t, o, c) <==> Owns(s, o, c) {
    }
    forall v: Thread, o: Owner, c: Conn | Owns(t, o, c) ensures MayCarry(t, v, o, c) { assert MayCarry(s, v, o, c); }
    StillOwned(s, t);
  }

  lemma CloseSwappedInv(s: State, k: Thread)
    requires Inv(s) && Enabled(s, CloseSwapped(k))
    ensures Inv(Next(s, CloseSwapped(k)))
  {
    var t, c0 := Next(s, CloseSwapped(k)), s.closers[k].c;
    assert Owns(s, Swapper(k), c0);
    forall x | x in t.workers ensures WorkerFits(t, x) { assert WorkerFits(s, x); }
    forall o: Owner, c: Conn ensures Owns(t, o, c) <==> o != Swapper(k) && Owns(s, o, c) {
    }
    forall v: Thread, o: Owner, c: Conn | Owns(t, o, c) ensures MayCarry(t, v, o, c) { assert MayCarry(s, v, o, c); }
    forall c | c in t.open ensures exists o :: Owns(t, o, c) {
      var o :| Owns(s, o, c);
      assert Owns(t, o, c);
    }
  }

  /** Every step of every thread keeps the invariant. */
  lemma NextInv(s: State, step: Step)
    requires Inv(s) && Enabled(s, step)
    ensures Inv(Next(s, step))
  {
    match step {
      case CloseStarts(k) =>
        var t := Next(s, step);
        forall x | x in t.workers ensures WorkerFits(t, x) { assert WorkerFits(s, x); }
        SameOwners(s, t);
      case Swap(k) => SwapInv(s, k);
      case CloseSwapped(k) => CloseSwappedInv(s, k);
      case _ => WorkerStepInv(s, step.w, step);
    }
  }

  // ---- Interleavings ----

  /** A run: each step enabled where it is taken. */
  ghost predicate Runs(trace: seq<State>, steps: seq<Step>) {
    && |trace| == |steps| + 1
    && forall i | 0 <= i < |steps| :: Enabled(trace[i], steps[i]) && trace[i + 1] == Next(trace[i], steps[i])
  }

  lemma {:induction false} RunInv(trace: seq<State>, steps: seq<Step>, i: nat)
    requires Runs(trace, steps) && Inv(trace[0]) && i < |trace|
    ensures Inv(trace[i])
  {
    if i > 0 {
      RunInv(trace, steps, i - 1);
      NextInv(trace[i - 1], steps[i - 1]);
    }
  }

  predicate Quiet(s: State) {
    (forall w | w in s.workers :: s.workers[w].stage == Idle) && (forall k | k in s.closers :: s.closers[k].Resting?)
  }

  /** Over every interleaving from the start: a slot never holds a connection closed locally; an
      open connection has exactly one owner, its slot or the thread about to store or close it;
      and when all threads are idle the open connections are exactly those in the slots. */
  lemma EveryInterleaving(n: nat, workers: set<Thread>, closers: set<Thread>,
      trace: seq<State>, steps: seq<Step>, i: nat)
    requires Runs(trace, steps) && trace[0] == Init(n, workers, closers) && i < |trace|
    ensures var s := trace[i];
      && (forall u | 0 <= u < |s.slots| && s.slots[u].Some? :: s.slots[u].value in s.open)
      && (forall c | c in s.open :: exists o :: Owns(s, o, c) && forall p | Owns(s, p, c) :: p == o)
      && (forall u, v | 0 <= u < v < |s.slots| && s.slots[u].Some? :: s.slots[u] != s.slots[v])
      && (Quiet(s) ==> forall c :: c in s.open <==> exists u :: 0 <= u < |s.slots| && s.slots[u] == Some(c))
  {
    InitInv(n, workers, closers);
    RunInv(trace, steps, i);
    var s := trace[i];
    forall u | 0 <= u < |s.slots| && s.slots[u].Some? ensures s.slots[u].value in s.open {
      assert Owns(s, Slot(u), s.slots[u].value);
    }
    forall u, v | 0 <= u < v < |s.slots| && s.slots[u].Some? ensures s.slots[u] != s.slots[v] {
      assert Owns(s, Slot(u), s.slots[u].value);
      if s.slots[u] == s.slots[v] { assert Owns(s, Slot(v), s.slots[u].value); }
    }
    forall c | c in s.open ensures exists o :: Owns(s, o, c) && forall p | Owns(s, p, c) :: p == o {
      var o :| Owns(s, o, c);
    }
    if Quiet(s) {
      forall c ensures c in s.open <==> exists u :: 0 <= u < |s.slots| && s.slots[u] == Some(c) {
        if c in s.open {
          var o :| Owns(s, o, c);
          assert o.Slot?;
        }
      }
    }
  }

  // ---- Retries and progress ----

  /** A worker's own step. */
  predicate By(step: Step, w: Thread) {
    !step.CloseStarts? && !step.Swap? && !step.CloseSwapped? && step.w == w
  }

  /** How often the worker has loaded the slot since it last took the mutex. */
  function Loads(steps: seq<Step>, w: Thread): nat {
    if steps == [] then 0
    else
      var last, before := steps[|steps| - 1], steps[..|steps| - 1];
      if !By(last, w) then Loads(before, w)
      else if last.Lock? then 0
      else Loads(before, w) + if last.Load? then 1 else 0
  }

  function LastOf(steps: seq<Step>, w: Thread): Option<Step> {
    if steps == [] then None
    else if By(steps[|steps| - 1], w) then Some(steps[|steps| - 1])
    else LastOf(steps[..|steps| - 1], w)
  }

  /** It gives up the mutex with an answer, without a connection, or after two that failed. */
  predicate MayLeave(loads: nat, last: Option<Step>) {
    && 1 <= loads <= 2 && last.Some?
    && (last.value.IoSucceeds? || last.value.DialFails? || (last.value.CloseOwn? && loads == 2))
  }

  predicate Counted(x: Stage, loads: nat, last: Option<Step>) {
    match x
    case Idle => true
    case Loading(a) => loads == a < 2
    case Leaving => MayLeave(loads, last)
    case _ => loads == x.attempt + 1 <= 2
  }

  lemma CountedMore(s: State, step: Step, w: Thread, loads: nat, last: Option<Step>)
    requires Enabled(s, step) && w in s.workers && Counted(s.workers[w].stage, loads, last)
    ensures var t := Next(s, step);
      && w in t.workers
      && if By(step, w)
         then Counted(t.workers[w].stage, if step.Lock? then 0 else if step.Load? then loads + 1 else loads, Some(step))
         else t.workers[w] == s.workers[w]
  {
  }

  lemma LoadsMore(steps: seq<Step>, step: Step, w: Thread)
    ensures Loads(steps + [step], w) == if !By(step, w) then Loads(steps, w) else if step.Lock? then 0
                                        else Loads(steps, w) + if step.Load? then 1 else 0
    ensures LastOf(steps + [step], w) == if By(step, w) then Some(step) else LastOf(steps, w)
  {
    assert (steps + [step])[..|steps|] == steps;
  }

  lemma {:induction false} RunCounted(trace: seq<State>, steps: seq<Step>, w: Thread, i: nat)
    requires Runs(trace, steps) && w in trace[0].workers && trace[0].workers[w].stage == Idle && i < |trace|
    ensures w in trace[i].workers && Counted(trace[i].workers[w].stage, Loads(steps[..i], w), LastOf(steps[..i], w))
  {
    if i > 0 {
      hide Enabled, Next, Counted, Loads, LastOf;
      RunCounted(trace, steps, w, i - 1);
      CountedMore(trace[i - 1], steps[i - 1], w, Loads(steps[..i - 1], w), LastOf(steps[..i - 1], w));
      LoadsMore(steps[..i - 1], steps[i - 1], w);
      assert steps[..i] == steps[..i - 1] + [steps[i - 1]];
    } else {
      assert Counted(Idle, Loads(steps[..0], w), LastOf(steps[..0], w));
    }
  }

  /** Over every interleaving a query uses at most two connections: the worker lets go of the
      mutex with an answer, after a dial that failed, or after the second failure of a
      connection, never after the first. */
  lemma OneRetry(n: nat, workers: set<Thread>, closers: set<Thread>,
      trace: seq<State>, steps: seq<Step>, w: Thread, i: nat)
    requires Runs(trace, steps) && trace[0] == Init(n, workers, closers) && i < |steps| && steps[i] == Unlock(w)
    ensures MayLeave(Loads(steps[..i], w), LastOf(steps[..i], w))
  {
    hide Loads, LastOf, Next, MayLeave;
    SameThreads(trace, steps, i);
    assert Enabled(trace[i], steps[i]);
    RunCounted(trace, steps, w, i);
  }

  lemma {:induction false} SameThreads(trace: seq<State>, steps: seq<Step>, i: nat)
    requires Runs(trace, steps) && i < |trace|
    ensures trace[i].workers.Keys == trace[0].workers.Keys
  {
    if i > 0 {
      SameThreads(trace, steps, i - 1);
      assert Enabled(trace[i - 1], steps[i - 1]);
    }
  }

  /** Nobody is ever stuck: a worker that holds a mutex and a closer at work have a step to take,
      and a worker that waits has one as soon as nobody holds the mutex. */
  lemma NobodyStuck(s: State)
    requires Inv(s)
    ensures forall w | w in s.workers && s.workers[w].stage != Idle :: exists step :: By(step, w) && Enabled(s, step)
    ensures forall k | k in s.closers :: exists step | step in [CloseStarts(k), Swap(k), CloseSwapped(k)] ::
        Enabled(s, step)
    ensures forall w, u |
        w in s.workers && s.workers[w].stage == Idle && 0 <= u < |s.holders| && s.holders[u] == None ::
      Enabled(s, Lock(w, u))
  {
    forall w | w in s.workers && s.workers[w].stage != Idle ensures exists step :: By(step, w) && Enabled(s, step) {
      assert WorkerFits(s, w);
      var step := match s.workers[w].stage
        case Loading(_) => Load(w)
        case Dialing(_) => DialFails(w)
        case Dialed(_, _) => Store(w)
        case Using(_, _) => IoFails(w)
        case Failed(_, _) => StoreNil(w)
        case Dropping(_, _, _) => CloseOwn(w)
        case _ => Unlock(w);
      assert By(step, w) && Enabled(s, step);
    }
    forall k | k in s.closers
      ensures exists step | step in [CloseStarts(k), Swap(k), CloseSwapped(k)] :: Enabled(s, step)
    {
      var step := match s.closers[k] case Resting => CloseStarts(k) case Swapping(_) => Swap(k) case Closing(_,
          _) => CloseSwapped(k);
      assert Enabled(s, step);
    }
  }
}
