/** The firewall object: the killswitch chains, exemptions, the forwarded port and the
    routing rules around them, as the program edits them step by step. */
module Killswitch {
  import opened Wrappers
  import opened Netfilter
  import opened Sequences
  import opened IpStack
  import opened Policy
  import opened PolicySteps
  import opened FailClosed

  datatype ChainDef = ChainDef(name: Chain, parent: Chain, v6: bool, lo: Rule)

  const CHAIN_DEFS: seq<ChainDef> :=
    [ChainDef(VPN_IN, INPUT, false, LoInRule), ChainDef(VPN_OUT, OUTPUT, false, LoOutRule),
     ChainDef(VPN_IN6, INPUT, true, LoInRule), ChainDef(VPN_OUT6, OUTPUT, true, LoOutRule)]

  const VPN_INSERT_POS := 3
  const PORT_INSERT_POS := 3

  function Baseline(lo: Rule): seq<Rule> { [EstablishedRule, lo, DropRule] }

  predicate HookPrior(t: Table, hook: Chain, c: Chain, tail: seq<Rule>) {
    hook in t && NoJumps(tail) && (t[hook] == tail || (c in t && t[hook] == [JumpTo(c)] + tail))
  }

  /** A user chain that jumps nowhere but to the exemption chain. */
  predicate ChainPrior(t: Table, c: Chain) {
    c in t ==> forall i | 0 <= i < |t[c]| :: t[c][i].target.Jump? ==> t[c][i].target.chain == VPN_EXEMPTIONS
  }

  /** What an earlier run of the program, or none, may have left in a family's table. */
  predicate Prior(t: Table, cin: Chain, cout: Chain, tin: seq<Rule>, tout: seq<Rule>) {
    && HookPrior(t, INPUT, cin, tin) && HookPrior(t, OUTPUT, cout, tout)
    && t.Keys <= {INPUT, OUTPUT, cin, cout, VPN_EXEMPTIONS}
    && ChainPrior(t, cin) && ChainPrior(t, cout)
    && (VPN_EXEMPTIONS in t ==> AllAccept(t[VPN_EXEMPTIONS]))
  }

  /** A table without our chains; an exemption chain may be left over. */
  function Bare(tin: seq<Rule>, tout: seq<Rule>, left: Exempt): Table {
    WithExempt(map[INPUT := tin, OUTPUT := tout], left)
  }

  function LeftOver(t: Table): Exempt {
    if VPN_EXEMPTIONS in t then Stale(t[VPN_EXEMPTIONS]) else Absent
  }

  lemma PriorIsBare(t: Table, cin: Chain, cout: Chain, tin: seq<Rule>, tout: seq<Rule>)
    requires Prior(t, cin, cout, tin, tout) && cin !in t && cout !in t
    ensures t == Bare(tin, tout, LeftOver(t))
  {
  }

  lemma DeleteJump(t: Table, hook: Chain, c: Chain, tail: seq<Rule>)
    requires HookPrior(t, hook, c, tail)
    ensures var u := if JumpTo(c) in t[hook] then t[hook := Without(t[hook], JumpTo(c))] else t;
            u == t[hook := tail]
  {
  }

  lemma Unreferenced(t: Table, cin: Chain, cout: Chain, tin: seq<Rule>, tout: seq<Rule>, c: Chain)
    requires Prior(t, cin, cout, tin, tout) && Level(cin) == Level(cout) == 1 && cin != cout
    requires (c == cin && t[INPUT] == tin) || (c == cout && t[OUTPUT] == tout)
    ensures !Referenced(t, c)
  {
  }

  /** With its jump gone a chain can be flushed and deleted. */
  lemma DeleteUnwired(t: Table, cin: Chain, cout: Chain, tin: seq<Rule>, tout: seq<Rule>, c: Chain)
    requires Prior(t, cin, cout, tin, tout) && Level(cin) == Level(cout) == 1 && cin != cout
    requires (c == cin && t[INPUT] == tin) || (c == cout && t[OUTPUT] == tout)
    ensures c in t ==> Prior(t[c := []], cin, cout, tin, tout)
    ensures Cleared(t, c) == t - {c} && Prior(t - {c}, cin, cout, tin, tout)
  {
    if c in t {
      Unreferenced(t[c := []], cin, cout, tin, tout, c);
      assert t[c := []] - {c} == t - {c};
    } else {
      assert t - {c} == t;
    }
  }

  /** What RemoveExemptions can leave when its commands may fail. */
  function Unjumped(t: Table, deleted: bool): Table {
    if deleted && VPN_OUT in t then t[VPN_OUT := Without(t[VPN_OUT], JumpTo(VPN_EXEMPTIONS))] else t
  }

  predicate FlushedFrom(t: Table, u: Table) {
    u == t || (VPN_EXEMPTIONS in t && u == t[VPN_EXEMPTIONS := []]) || u == Cleared(t, VPN_EXEMPTIONS)
  }

  lemma InsertHas(rules: seq<Rule>, pos: int, r: Rule)
    requires 1 <= pos <= |rules| + 1
    ensures r in InsertAt(rules, pos, r) && forall x | x in rules :: x in InsertAt(rules, pos, r)
  {
    assert InsertAt(rules, pos, r)[pos - 1] == r;
    forall x | x in rules ensures x in InsertAt(rules, pos, r) {
      assert rules == rules[..pos - 1] + rules[pos - 1..];
    }
  }

  lemma FittingSnoc(es: seq<Exemption>, i: nat)
    requires i < |es|
    ensures Fitting(es[..i + 1]) == Fitting(es[..i]) + (if Fits(es[i]) then [es[i]] else [])
  {
    assert es[..i + 1][..i] == es[..i];
  }

  class Firewall {
    const ipt4: Iptables
    const ipt6: Iptables
    const kernel: Kernel
    var active: bool
    var activePort: nat
    /** What the chains mean, when no command misbehaves. */
    ghost var policy: Policy
    ghost var tails: Tails
    /** Every ACCEPT rule asked for since Setup, whatever became of it. */
    ghost var granted: set<Rule>

    constructor (ipt4: Iptables, ipt6: Iptables, kernel: Kernel)
      requires ipt4 != ipt6
      ensures this.ipt4 == ipt4 && this.ipt6 == ipt6 && this.kernel == kernel
      ensures !active && activePort == 0
    {
      this.ipt4, this.ipt6, this.kernel := ipt4, ipt6, kernel;
      active, activePort := false, 0;
    }

    predicate Reliable() { !ipt4.flaky && !ipt6.flaky && !kernel.flaky }

    /** The chains are exactly those of the policy. */
    ghost predicate Exact()
      reads this, ipt4, ipt6
    {
      && ipt4 != ipt6 && Outside(tails)
      && ipt4.table == Table4(policy, tails) && ipt6.table == Table6(policy.cfg, tails)
      && (policy.port.Some? ==> policy.port.value == activePort && activePort > 0)
    }

    /** Both families deny by default, up to the granted rules. */
    ghost predicate Closed()
      reads this, ipt4, ipt6
    {
      && ipt4 != ipt6
      && Sealed(ipt4.table, VPN_IN, VPN_OUT, granted)
      && Sealed(ipt6.table, VPN_IN6, VPN_OUT6, granted)
    }

    method CreateExemptChain() returns (ok: bool)
      modifies ipt4, `policy
      ensures old(Exact()) && Reliable() ==>
        && Exact() && ok == old(policy).exempt.Absent?
        && policy == if ok then old(policy).(exempt := Held([])) else old(policy)
      ensures old(Closed()) ==> Closed()
      ensures ok ==> VPN_EXEMPTIONS in ipt4.table
      ensures ipt4.collisions == old(ipt4.collisions) + (if VPN_EXEMPTIONS in old(ipt4.table) then 1 else 0)
    {
      hide Table4, Table6, Sealed, InsertAt, CanHold;
      ChainThere(policy, tails);
      ok := ipt4.NewChain(VPN_EXEMPTIONS);
      if !ok { return; }
      label Created:
      if old(Closed()) { NewChainSealed(old(ipt4.table), granted); }
      if old(Exact()) && Reliable() { OpenChain(policy, tails); }
      var wired := ipt4.Insert(VPN_OUT, 1, JumpTo(VPN_EXEMPTIONS));
      if old(Exact()) && Reliable() { policy := policy.(exempt := Held([])); }
      if old(Closed()) && wired { InsertSealed(old@Created(ipt4.table), granted, VPN_OUT, 1, JumpTo(VPN_EXEMPTIONS)); }
    }

    method AddExemption(e: Exemption) returns (ok: bool)
      modifies ipt4, `policy, `granted
      ensures old(Exact()) && Reliable() ==>
        && Exact() && policy == Step(old(policy), Op.AddExemption(e))
        && ok == (old(policy).exempt.Absent? && Fits(e))
      ensures granted == old(granted) + Asked(Op.AddExemption(e))
      ensures old(Closed()) ==> Closed()
      ensures ipt4.collisions == old(ipt4.collisions) + (if VPN_EXEMPTIONS in old(ipt4.table) then 1 else 0)
    {
      hide Table4, Table6, Sealed, CanHold;
      Grow({ExemptRule(e)});
      ok := CreateExemptChain();
      if !ok { return; }
      label Created:
      if old(Exact()) && Reliable() { AppendExemption(policy, tails, e); }
      ok := ipt4.Append(VPN_EXEMPTIONS, ExemptRule(e));
      assert [] + [e] == [e] && Fitting([e]) == if Fits(e) then [e] else [];
      if old(Exact()) && Reliable() && ok { policy := policy.(exempt := Held([e])); }
      if old(Closed()) && ok { AppendSealed(old@Created(ipt4.table), granted, ExemptRule(e)); }
    }

    /** Ghost bookkeeping: more rules have been asked for. */
    ghost method Grow(rs: set<Rule>)
      modifies `granted
      ensures granted == old(granted) + rs
      ensures old(Closed()) ==> Closed()
      ensures old(Exact()) ==> Exact()
    {
      granted := granted + rs;
      if old(Closed()) {
        MoreGranted(ipt4.table, VPN_IN, VPN_OUT, old(granted), granted);
        MoreGranted(ipt6.table, VPN_IN6, VPN_OUT6, old(granted), granted);
      }
    }

    /** The batch: one chain, and exemptions that do not append are only logged. */
    method AddExemptions(es: seq<Exemption>) returns (ok: bool)
      modifies ipt4, `policy, `granted
      ensures old(Exact()) && Reliable() ==>
        && Exact() && policy == Step(old(policy), Op.AddExemptions(es)) && ok == old(policy).exempt.Absent?
      ensures granted == old(granted) + Asked(Op.AddExemptions(es))
      ensures old(Closed()) ==> Closed()
      ensures ipt4.collisions == old(ipt4.collisions) + (if VPN_EXEMPTIONS in old(ipt4.table) then 1 else 0)
    {
      hide Table4, Table6, Sealed, CanHold;
      Grow(Asked(Op.AddExemptions(es)));
      ok := CreateExemptChain();
      if !ok { return; }
      var i := 0;
      assert es[..0] == [];
      while i < |es|
        invariant 0 <= i <= |es|
        invariant granted == old(granted) + Asked(Op.AddExemptions(es))
        invariant old(Exact()) && Reliable() ==>
          Exact() && policy == old(policy).(exempt := Held(Fitting(es[..i])))
        invariant old(Closed()) ==> Closed()
        invariant VPN_EXEMPTIONS in ipt4.table
        invariant ipt4.collisions == old(ipt4.collisions) + (if VPN_EXEMPTIONS in old(ipt4.table) then 1 else 0)
      {
        AppendOne(es, i, old(Exact()) && Reliable());
        i := i + 1;
      }
      assert es[..|es|] == es;
    }

    method AppendOne(es: seq<Exemption>, i: nat, ghost exact: bool)
      requires i < |es| && VPN_EXEMPTIONS in ipt4.table
      requires ExemptRule(es[i]) in granted
      requires exact ==> Reliable() && Exact() && policy.exempt == Held(Fitting(es[..i]))
      modifies ipt4`table, `policy
      ensures exact ==> Exact() && policy == old(policy).(exempt := Held(Fitting(es[..i + 1])))
      ensures old(Closed()) ==> Closed()
      ensures VPN_EXEMPTIONS in ipt4.table
    {
      hide Table4, Table6, Sealed, CanHold, Fitting;
      if exact { AppendExemption(policy, tails, es[i]); }
      var added := ipt4.Append(VPN_EXEMPTIONS, ExemptRule(es[i]));
      FittingSnoc(es, i);
      assert Fitting(es[..i]) + [] == Fitting(es[..i]);
      if exact { policy := policy.(exempt := Held(Fitting(es[..i + 1]))); }
      if old(Closed()) && added { AppendSealed(old(ipt4.table), granted, ExemptRule(es[i])); }
    }

    method RemoveExemptions()
      modifies ipt4`table, `policy
      ensures old(Exact()) && Reliable() ==> Exact() && policy == Step(old(policy), Op.RemoveExemptions)
      ensures old(Closed()) ==> Closed()
      ensures FlushedFrom(Unjumped(old(ipt4.table), true), ipt4.table)
              || FlushedFrom(Unjumped(old(ipt4.table), false), ipt4.table)
    {
      hide Table4, Table6, Sealed, Without, Cleared;
      ChainThere(policy, tails);
      if old(Exact()) && Reliable() { CloseChain(policy, tails); }
      var deleted := ipt4.Delete(VPN_OUT, JumpTo(VPN_EXEMPTIONS));
      if old(Closed()) && deleted { DeleteSealed(old(ipt4.table), granted, VPN_OUT, JumpTo(VPN_EXEMPTIONS)); }
      label Deleted:
      ipt4.ClearAndDelete(VPN_EXEMPTIONS);
      if old(Exact()) && Reliable() { policy := policy.(exempt := Absent); }
      if old(Closed()) {
        NewChainSealed(old@Deleted(ipt4.table), granted);
        ClearSealed(old@Deleted(ipt4.table), granted);
      }
    }

    /** `activePort` is kept: deleting the same port again finds nothing. */
    method RemoveForwardedPort()
      modifies ipt4`table, `policy
      ensures old(Exact()) && Reliable() ==> Exact() && policy == Step(old(policy), Op.RemoveForwardedPort)
      ensures old(Closed()) ==> Closed()
    {
      hide Table4, Table6, Sealed, Without;
      if activePort == 0 { return; }
      ChainThere(policy, tails);
      if old(Exact()) && Reliable() {
        if policy.port.Some? { ClosePort(policy, tails); } else { NoPort(policy, tails, activePort); }
      }
      var tcp := DeletePort(Tcp);
      var udp := DeletePort(Udp);
      if old(Exact()) && Reliable() { policy := policy.(port := None); }
    }

    method DeletePort(proto: Proto) returns (ok: bool)
      modifies ipt4`table
      ensures Reliable() && VPN_IN in old(ipt4.table) ==>
        && ok == (PortRule(proto, activePort) in old(ipt4.table)[VPN_IN])
      ensures ok ==>
        && VPN_IN in old(ipt4.table)
        && ipt4.table == old(ipt4.table)[VPN_IN := Without(old(ipt4.table)[VPN_IN], PortRule(proto, activePort))]
      ensures !ok ==> ipt4.table == old(ipt4.table)
      ensures old(Closed()) ==> Closed()
    {
      hide Table4, Table6, Sealed, Without;
      ok := ipt4.Delete(VPN_IN, PortRule(proto, activePort));
      if old(Closed()) && ok { DeleteSealed(old(ipt4.table), granted, VPN_IN, PortRule(proto, activePort)); }
    }

    /** `port` is never 0: the caller has rejected a zero port. */
    method AllowForwardedPort(port: nat) returns (ok: bool)
      requires port > 0
      modifies ipt4`table, `policy, `granted, `activePort
      ensures old(Exact()) && Reliable() ==>
        && Exact() && policy == Step(old(policy), Op.AllowForwardedPort(port)) && ok == (port <= MAX_PORT)
      ensures granted == old(granted) + Asked(Op.AllowForwardedPort(port))
      ensures old(Closed()) ==> Closed()
      ensures activePort == if ok then port else old(activePort)
      ensures ok ==> VPN_IN in ipt4.table && forall q | q in {Tcp, Udp} :: PortRule(q, port) in ipt4.table[VPN_IN]
    {
      hide Table4, Table6, Sealed, CanHold, InsertAt;
      RemoveForwardedPort();
      Grow({PortRule(Tcp, port), PortRule(Udp, port)});
      PortTooBig(port, ipt4.table);
      if old(Exact()) && Reliable() && port <= MAX_PORT { OpenPort(policy, tails, port); }
      ghost var removed := ipt4.table;
      ok := InsertPort(Tcp, port);
      if !ok {
        assert ipt4.table == removed;
        assert old(Exact()) && Reliable() ==> Exact();
        return;
      }
      ghost var chain := ipt4.table[VPN_IN];
      InsertHas(removed[VPN_IN], 3, PortRule(Tcp, port));
      ok := InsertPort(Udp, port);
      if !ok { return; }
      InsertHas(chain, 3, PortRule(Udp, port));
      activePort := port;
      if old(Exact()) && Reliable() { policy := policy.(port := Some(port)); }
    }

    method InsertPort(proto: Proto, port: nat) returns (ok: bool)
      requires PortRule(proto, port) in granted
      modifies ipt4`table
      ensures ok ==> VPN_IN in old(ipt4.table) && |old(ipt4.table)[VPN_IN]| >= 2
                     && CanHold(old(ipt4.table), VPN_IN, PortRule(proto, port))
                     && ipt4.table ==
                        old(ipt4.table)[VPN_IN := InsertAt(old(ipt4.table)[VPN_IN], 3, PortRule(proto, port))]
      ensures !ok ==> ipt4.table == old(ipt4.table)
      ensures Reliable() ==>
          ok == (CanHold(old(ipt4.table), VPN_IN, PortRule(proto, port)) && |old(ipt4.table)[VPN_IN]| >= 2)
      ensures old(Closed()) ==> Closed()
    {
      hide Sealed, InsertAt;
      ok := ipt4.Insert(VPN_IN, PORT_INSERT_POS, PortRule(proto, port));
      if old(Closed()) && ok { InsertSealed(old(ipt4.table), granted, VPN_IN, 3, PortRule(proto, port)); }
    }
  }

  lemma PortTooBig(port: nat, t: Table)
    ensures CanHold(t, VPN_IN, PortRule(Tcp, port)) ==> port <= MAX_PORT
    ensures CanHold(t, VPN_IN, PortRule(Udp, port)) ==> port <= MAX_PORT
  {
    assert PortRule(Tcp, port).matches[2] == DPort(port);
    assert PortRule(Udp, port).matches[2] == DPort(port);
  }
}
