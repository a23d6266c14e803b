/** The killswitch operations as steps of the policy, and what each does to the rule lists. */
module PolicySteps {
  import opened Wrappers
  import opened Netfilter
  import opened Sequences
  import opened Policy

  /** The IPv4 table with the given VPN_IN and VPN_OUT chains. */
  function Stage4(inRules: seq<Rule>, outRules: seq<Rule>, e: Exempt, ts: Tails): Table {
    WithExempt(map[INPUT := [JumpTo(VPN_IN)] + ts.in4, OUTPUT := [JumpTo(VPN_OUT)] + ts.out4,
                   VPN_IN := inRules, VPN_OUT := outRules], e)
  }

  function Stage6(inRules: seq<Rule>, outRules: seq<Rule>, ts: Tails): Table {
    map[INPUT := [JumpTo(VPN_IN6)] + ts.in6, OUTPUT := [JumpTo(VPN_OUT6)] + ts.out6,
        VPN_IN6 := inRules, VPN_OUT6 := outRules]
  }

  /** Other programs' rules: they jump to none of our chains. */
  predicate NoJumps(rs: seq<Rule>) { forall i | 0 <= i < |rs| :: !rs[i].target.Jump? }

  predicate Outside(ts: Tails) { NoJumps(ts.in4) && NoJumps(ts.out4) && NoJumps(ts.in6) && NoJumps(ts.out6) }

  const MAX_PORT := 65535

  /** What iptables takes: an address it can read and a 16-bit port. */
  predicate Fits(e: Exemption) { e.ip.Numeric? && e.port <= MAX_PORT }

  /** The exemptions iptables takes: the others fail to append and are skipped. */
  function Fitting(es: seq<Exemption>): seq<Exemption> {
    if es == [] then []
    else Fitting(es[..|es| - 1]) + (if Fits(es[|es| - 1]) then [es[|es| - 1]] else [])
  }

  lemma {:induction false} FittingHas(es: seq<Exemption>, e: Exemption)
    ensures e in Fitting(es) <==> e in es && Fits(e)
  {
    if es != [] {
      var n := |es| - 1;
      FittingHas(es[..n], e);
      assert es == es[..n] + [es[n]];
    }
  }

  datatype Op =
    | AddExemption(e: Exemption)
    | AddExemptions(es: seq<Exemption>)
    | RemoveExemptions
    | AllowForwardedPort(port: nat)
    | RemoveForwardedPort

  /** The operation on the policy: what the caller means by it, and the two ways it can miss. */
  function Step(p: Policy, op: Op): Policy {
    match op
    case AddExemption(e) => Opened(p, [e])
    case AddExemptions(es) => Opened(p, es)
    case RemoveExemptions => p.(exempt := Absent)
    case AllowForwardedPort(port) => p.(port := if port <= MAX_PORT then Some(port) else None)
    case RemoveForwardedPort => p.(port := None)
  }

  /** NewChain refuses an existing chain, and then nothing is added. */
  function Opened(p: Policy, es: seq<Exemption>): Policy {
    if p.exempt == Absent then p.(exempt := Held(Fitting(es))) else p
  }

  function Steps(p: Policy, ops: seq<Op>): Policy {
    if ops == [] then p else Step(Steps(p, ops[..|ops| - 1]), ops[|ops| - 1])
  }

  /** The ACCEPT rules an operation asks for. */
  function Asked(op: Op): set<Rule> {
    match op
    case AddExemption(e) => {ExemptRule(e)}
    case AddExemptions(es) => set i | 0 <= i < |es| :: ExemptRule(es[i])
    case AllowForwardedPort(port) => {PortRule(Tcp, port), PortRule(Udp, port)}
    case _ => {}
  }

  function AskedAll(ops: seq<Op>): set<Rule> {
    if ops == [] then {} else AskedAll(ops[..|ops| - 1]) + Asked(ops[|ops| - 1])
  }

  lemma AtPosition(a: seq<Rule>, r: Rule, b: seq<Rule>)
    ensures InsertAt(a + b, |a| + 1, r) == a + [r] + b
  {
  }

  lemma ChainThere(p: Policy, ts: Tails)
    ensures VPN_EXEMPTIONS in Table4(p, ts) <==> !p.exempt.Absent?
    ensures VPN_IN in Table4(p, ts) && VPN_OUT in Table4(p, ts)
  {
  }

  /** NewChain and the jump at position 1 open an empty, wired exemption chain. */
  lemma OpenChain(p: Policy, ts: Tails)
    requires p.exempt == Absent
    ensures VPN_EXEMPTIONS !in Table4(p, ts)
    ensures var t := Table4(p, ts)[VPN_EXEMPTIONS := []];
            CanHold(t, VPN_OUT, JumpTo(VPN_EXEMPTIONS))
            && t[VPN_OUT := InsertAt(t[VPN_OUT], 1, JumpTo(VPN_EXEMPTIONS))] == Table4(p.(exempt := Held([])), ts)
  {
    hide OutAccepts, LanIns, LanOuts;
    var q := p.(exempt := Held([]));
    AtPosition([], JumpTo(VPN_EXEMPTIONS), OutChain(p));
    assert When(false, JumpTo(VPN_EXEMPTIONS)) + OutAccepts(p.cfg) + [DropRule] == OutAccepts(p.cfg) + [DropRule];
    assert [] + OutChain(p) == OutChain(p);
    assert [] + [JumpTo(VPN_EXEMPTIONS)] + OutChain(p) == OutChain(q);
    assert ExemptRules([]) == [];
  }

  lemma AppendExemption(p: Policy, ts: Tails, e: Exemption)
    requires p.exempt.Held?
    ensures var t := Table4(p, ts);
            && (CanHold(t, VPN_EXEMPTIONS, ExemptRule(e)) <==> Fits(e))
            && t[VPN_EXEMPTIONS := t[VPN_EXEMPTIONS] + [ExemptRule(e)]]
               == Table4(p.(exempt := Held(p.exempt.specs + [e])), ts)
  {
    var es := p.exempt.specs;
    assert ExemptRules(es + [e]) == ExemptRules(es) + [ExemptRule(e)];
    assert ExemptRule(e).matches[0] == DstOf(e.ip) && ExemptRule(e).matches[2] == DPort(e.port);
  }

  /** Deleting the jump and then the chain takes back the whole bracket, rule for rule. */
  lemma CloseChain(p: Policy, ts: Tails)
    requires Outside(ts)
    ensures var t := Table4(p, ts);
            var u := if JumpTo(VPN_EXEMPTIONS) in t[VPN_OUT]
                then t[VPN_OUT := Without(t[VPN_OUT], JumpTo(VPN_EXEMPTIONS))] else t;
            Cleared(u, VPN_EXEMPTIONS) == Table4(p.(exempt := Absent), ts)
  {
    var q := p.(exempt := Absent);
    var j, rest := JumpTo(VPN_EXEMPTIONS), OutAccepts(p.cfg) + [DropRule];
    assert OutChain(q) == rest;
    NoJumpIn(p.cfg);
    if p.exempt.Held? {
      assert OutChain(p) == [j] + rest && (OutChain(p))[0] == j;
      assert Without([j] + rest, j) == rest;
    } else {
      assert OutChain(p) == rest;
    }
    var t := Table4(p, ts);
    var u := if j in t[VPN_OUT] then t[VPN_OUT := Without(t[VPN_OUT], j)] else t;
    assert u == Stage4(InAccepts(p) + [DropRule], rest, p.exempt, ts) by {
      if p.exempt.Held? { assert u[VPN_OUT] == rest; }
    }
    ClearExempt(InAccepts(p) + [DropRule], rest, p.exempt, ts);
  }

  lemma NoJumpIn(cfg: Config)
    ensures NoJumps(OutAccepts(cfg) + [DropRule])
    ensures JumpTo(VPN_EXEMPTIONS) !in OutAccepts(cfg) + [DropRule]
  {
  }

  lemma ClearExempt(inRules: seq<Rule>, outRules: seq<Rule>, e: Exempt, ts: Tails)
    requires NoJumps(inRules) && NoJumps(outRules) && Outside(ts)
    ensures Cleared(Stage4(inRules, outRules, e, ts), VPN_EXEMPTIONS) == Stage4(inRules, outRules, Absent, ts)
  {
  }

  /** The two inserts at position 3 put the port behind the baseline and before the LANs. */
  lemma OpenPort(p: Policy, ts: Tails, port: nat)
    requires p.port.None? && port <= MAX_PORT
    ensures var t := Table4(p, ts);
            var u := t[VPN_IN := InsertAt(t[VPN_IN], 3, PortRule(Tcp, port))];
            && CanHold(t, VPN_IN, PortRule(Tcp, port)) && CanHold(u, VPN_IN, PortRule(Udp, port))
            && |t[VPN_IN]| >= 3 && |u[VPN_IN]| >= 3
            && u[VPN_IN := InsertAt(u[VPN_IN], 3, PortRule(Udp, port))] == Table4(p.(port := Some(port)), ts)
  {
    var q := p.(port := Some(port));
    var base, lans := [EstablishedRule, LoInRule], LanIns(p.cfg.lans4) + [DropRule];
    var tcp, udp := PortRule(Tcp, port), PortRule(Udp, port);
    assert InAccepts(p) + [DropRule] == base + lans;
    AtPosition(base, tcp, lans);
    assert base + [tcp] + lans == base + ([tcp] + lans);
    AtPosition(base, udp, [tcp] + lans);
    assert InAccepts(q) + [DropRule] == base + [udp] + ([tcp] + lans);
  }

  lemma ClosePort(p: Policy, ts: Tails)
    requires p.port.Some?
    ensures var tcp, udp := PortRule(Tcp, p.port.value), PortRule(Udp, p.port.value);
            var t := Table4(p, ts);
            var u := t[VPN_IN := Without(t[VPN_IN], tcp)];
            && tcp in t[VPN_IN] && udp in u[VPN_IN]
            && u[VPN_IN := Without(u[VPN_IN], udp)] == Table4(p.(port := None), ts)
  {
    hide OutAccepts, ExemptRules, LanIns, Without;
    var q := p.(port := None);
    var base, lans := [EstablishedRule, LoInRule], LanIns(p.cfg.lans4) + [DropRule];
    var tcp, udp := PortRule(Tcp, p.port.value), PortRule(Udp, p.port.value);
    assert InAccepts(p) + [DropRule] == (base + [udp]) + [tcp] + lans;
    WithoutMiddle(base + [udp], tcp, lans);
    assert (base + [udp] + [tcp] + lans)[3] == tcp;
    WithoutMiddle(base, udp, lans);
    assert (base + [udp] + lans)[2] == udp;
    assert InAccepts(q) + [DropRule] == base + lans;
  }

  /** Without an open port no port rule is there to delete. */
  lemma NoPort(p: Policy, ts: Tails, port: nat)
    requires p.port.None?
    ensures PortRule(Tcp, port) !in Table4(p, ts)[VPN_IN] && PortRule(Udp, port) !in Table4(p, ts)[VPN_IN]
  {
  }
}
