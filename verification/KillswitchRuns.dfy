/** The killswitch over whole runs: the verdict after any sequence of operations, with
    commands that work and with commands that may fail at any point. */
module KillswitchRuns {
  import opened Wrappers
  import opened Netfilter
  import opened Policy
  import opened PolicySteps
  import opened FailClosed
  import opened Killswitch
  import opened KillswitchSetup

  /** All four hooks pass exactly what the policy allows. */
  ghost predicate VerdictsMatch(t: Table, u: Table, p: Policy)
    requires INPUT in t && OUTPUT in t && INPUT in u && OUTPUT in u
  {
    forall k: Packet ::
      && (Passes(t, OUTPUT, k) <==> AllowedOut4(p, k)) && (Passes(t, INPUT, k) <==> AllowedIn4(p, k))
      && (Passes(u, OUTPUT, k) <==> AllowedOut6(p.cfg, k)) && (Passes(u, INPUT, k) <==> AllowedIn6(p.cfg, k))
  }

  /** A packet that no granted rule matches passes nowhere. */
  ghost predicate DefaultDeny(t: Table, u: Table, granted: set<Rule>)
    requires INPUT in t && OUTPUT in t && INPUT in u && OUTPUT in u
  {
    forall k: Packet | forall r | r in granted :: !r.Hits(k) ::
      !Passes(t, INPUT, k) && !Passes(t, OUTPUT, k) && !Passes(u, INPUT, k) && !Passes(u, OUTPUT, k)
  }

  lemma ExactVerdicts(p: Policy, ts: Tails)
    ensures INPUT in Table4(p, ts) && OUTPUT in Table4(p, ts)
    ensures VerdictsMatch(Table4(p, ts), Table6(p.cfg, ts), p)
  {
    forall k: Packet
      ensures Passes(Table4(p, ts), OUTPUT, k) <==> AllowedOut4(p, k)
      ensures Passes(Table4(p, ts), INPUT, k) <==> AllowedIn4(p, k)
      ensures Passes(Table6(p.cfg, ts), OUTPUT, k) <==> AllowedOut6(p.cfg, k)
      ensures Passes(Table6(p.cfg, ts), INPUT, k) <==> AllowedIn6(p.cfg, k)
    {
      VerdictIsPolicy(p, ts, k);
    }
  }

  lemma SealedDenies(t: Table, u: Table, granted: set<Rule>)
    requires Sealed(t, VPN_IN, VPN_OUT, granted) && Sealed(u, VPN_IN6, VPN_OUT6, granted)
    ensures DefaultDeny(t, u, granted)
  {
    forall k: Packet | forall r | r in granted :: !r.Hits(k)
      ensures !Passes(t, INPUT, k) && !Passes(t, OUTPUT, k) && !Passes(u, INPUT, k) && !Passes(u, OUTPUT, k)
    {
      SealedDrops(t, VPN_IN, VPN_OUT, granted, k);
      SealedDrops(u, VPN_IN6, VPN_OUT6, granted, k);
    }
  }

  predicate Callable(ops: seq<Op>) {
    forall i | 0 <= i < |ops| :: ops[i].AllowForwardedPort? ==> ops[i].port > 0
  }

  method Perform(fw: Firewall, op: Op)
    requires op.AllowForwardedPort? ==> op.port > 0
    modifies fw.ipt4, fw`policy, fw`granted, fw`activePort
    ensures old(fw.Exact()) && fw.Reliable() ==> fw.Exact() && fw.policy == Step(old(fw.policy), op)
    ensures old(fw.Closed()) ==> fw.Closed()
    ensures fw.granted == old(fw.granted) + Asked(op)
  {
    hide Table4, Table6, Sealed;
    match op {
      case AddExemption(e) => var _ := fw.AddExemption(e);
      case AddExemptions(es) => var _ := fw.AddExemptions(es);
      case RemoveExemptions => fw.RemoveExemptions();
      case AllowForwardedPort(port) => var _ := fw.AllowForwardedPort(port);
      case RemoveForwardedPort => fw.RemoveForwardedPort();
    }
  }

  /** Any run of operations.  With commands that work, the verdict is that of the folded policy;
      whatever fails, only packets some asked-for rule matches can pass. */
  method Run(fw: Firewall, ops: seq<Op>)
    requires fw.Closed() && Callable(ops)
    modifies fw.ipt4, fw`policy, fw`granted, fw`activePort
    ensures old(fw.Exact()) && fw.Reliable() ==>
      && fw.Exact() && fw.policy == Steps(old(fw.policy), ops)
      && VerdictsMatch(fw.ipt4.table, fw.ipt6.table, fw.policy)
    ensures fw.Closed() && fw.granted == old(fw.granted) + AskedAll(ops)
    ensures DefaultDeny(fw.ipt4.table, fw.ipt6.table, fw.granted)
  {
    hide Table4, Table6, Sealed, Asked, VerdictsMatch, DefaultDeny;
    var i := 0;
    assert ops[..0] == [];
    while i < |ops|
      invariant 0 <= i <= |ops|
      invariant old(fw.Exact()) && fw.Reliable() ==> fw.Exact() && fw.policy == Steps(old(fw.policy), ops[..i])
      invariant fw.Closed() && fw.granted == old(fw.granted) + AskedAll(ops[..i])
    {
      assert ops[..i + 1][..i] == ops[..i];
      Perform(fw, ops[i]);
      i := i + 1;
    }
    assert ops[..|ops|] == ops;
    if old(fw.Exact()) && fw.Reliable() { ExactVerdicts(fw.policy, fw.tails); }
    SealedHooks(fw.ipt4.table, VPN_IN, VPN_OUT, fw.granted);
    SealedHooks(fw.ipt6.table, VPN_IN6, VPN_OUT6, fw.granted);
    SealedDenies(fw.ipt4.table, fw.ipt6.table, fw.granted);
  }

  lemma SealedHooks(t: Table, cin: Chain, cout: Chain, granted: set<Rule>)
    requires Sealed(t, cin, cout, granted)
    ensures INPUT in t && OUTPUT in t
  {
  }

  // ---- Exemption brackets ----

  /** A bracket restores the chains rule for rule exactly when it found no exemption chain. */
  lemma BracketRestores(p: Policy, es: seq<Exemption>, ts: Tails)
    ensures Table4(Step(Step(p, AddExemptions(es)), RemoveExemptions), ts) == Table4(p, ts) <==> p.exempt == Absent
  {
    assert Step(Step(p, AddExemptions(es)), RemoveExemptions) == p.(exempt := Absent);
    ChainThere(p, ts);
    ChainThere(p.(exempt := Absent), ts);
  }

  predicate NeverRemoves(ops: seq<Op>) { forall i | 0 <= i < |ops| :: ops[i] != RemoveExemptions }

  /** Once an exemption chain is left over, no later exemption takes effect, whatever is
      called, until RemoveExemptions is; so none is ever allowed through a stale chain. */
  lemma {:induction false} LeftOverBlocks(p: Policy, ops: seq<Op>, k: Packet)
    requires p.exempt != Absent && NeverRemoves(ops)
    ensures Steps(p, ops).exempt == p.exempt
    ensures p.exempt.Stale? ==> !Exempted(Steps(p, ops).exempt, k)
  {
    if ops != [] { LeftOverBlocks(p, ops[..|ops| - 1], k); }
  }

  /** AddExemption leaves its chain behind, empty, exactly when iptables does not take the rule;
      every later exemption is then refused. */
  lemma FailedAppendBlocks(p: Policy, e: Exemption, ops: seq<Op>)
    requires p.exempt == Absent && NeverRemoves(ops)
    ensures Step(p, AddExemption(e)).exempt == Held([]) <==> !Fits(e)
    ensures !Fits(e) ==> Steps(Step(p, AddExemption(e)), ops).exempt == Held([])
  {
    assert Fitting([e]) == if Fits(e) then [e] else [];
    if !Fits(e) { LeftOverBlocks(Step(p, AddExemption(e)), ops, Packet(Lo, Lo, 0, 0, Tcp, 0, 0, false, {})); }
  }

  /** PIA_IP set to an IPv6 address or a misspelt one: the exemption for the key service leaves
      its chain wired into VPN_OUT, and then even a good address is refused. */
  lemma UnreadableServer(p: Policy, good: Exemption, ts: Tails)
    requires p.exempt == Absent
    ensures var left := Step(p, AddExemption(Exemption(Unparsable, 1337, Tcp)));
      && left == p.(exempt := Held([])) && JumpTo(VPN_EXEMPTIONS) in Table4(left, ts)[VPN_OUT]
      && Step(left, AddExemption(good)) == left
  {
    FailedAppendBlocks(p, Exemption(Unparsable, 1337, Tcp), []);
    assert OutChain(p.(exempt := Held([])))[0] == JumpTo(VPN_EXEMPTIONS);
  }

  /** A crash inside a bracket: Setup runs on what is left, and the exemptions that were open
      are closed to packets but block every new one. */
  lemma CrashInsideBracket(p: Policy, ts: Tails, ops: seq<Op>, k: Packet)
    requires Outside(ts) && p.exempt.Held? && NeverRemoves(ops)
    ensures var q := Policy(p.cfg, LeftOver(Table4(p, ts)), None);
            && Prior(Table4(p, ts), VPN_IN, VPN_OUT, ts.in4, ts.out4)
            && Steps(q, ops).exempt == Stale(ExemptRules(p.exempt.specs)) && !Exempted(Steps(q, ops).exempt, k)
  {
    PolicyPrior(p, ts);
    LeftOverBlocks(Policy(p.cfg, Stale(ExemptRules(p.exempt.specs)), None), ops, k);
  }
}
