/** What survives iptables commands that fail: DROP stays last, the jump stays first,
    and only rules somebody asked for can accept. */
module FailClosed {
  import opened Wrappers
  import opened Netfilter
  import opened Sequences
  import opened Policy

  /** DROP ends the chain; in front of it stand the baseline and rules from `granted`. */
  predicate SealedChain(rs: seq<Rule>, granted: set<Rule>) {
    && rs != [] && rs[|rs| - 1] == DropRule
    && EstablishedRule in rs && (LoInRule in rs || LoOutRule in rs)
    && (forall i | 0 <= i < |rs| - 1 :: rs[i] == JumpTo(VPN_EXEMPTIONS) || (rs[i].target == Accept && rs[i] in granted))
  }

  predicate Granted(rs: seq<Rule>, granted: set<Rule>) {
    forall i | 0 <= i < |rs| :: rs[i].target == Accept && rs[i] in granted
  }

  predicate Wired(t: Table, hook: Chain, c: Chain) {
    hook in t && c in t && t[hook] != [] && t[hook][0] == JumpTo(c)
  }

  predicate Sealed(t: Table, cin: Chain, cout: Chain, granted: set<Rule>) {
    && Level(cin) == Level(cout) == 1
    && Wired(t, INPUT, cin) && Wired(t, OUTPUT, cout)
    && SealedChain(t[cin], granted) && SealedChain(t[cout], granted)
    && (VPN_EXEMPTIONS in t ==> Granted(t[VPN_EXEMPTIONS], granted))
  }

  lemma AtLeastThree(rs: seq<Rule>, granted: set<Rule>)
    requires SealedChain(rs, granted)
    ensures |rs| >= 3
  {
  }

  /** Inserting at position 1 or 3, or right before DROP, leaves DROP last. */
  lemma InsertKeepsSealed(rs: seq<Rule>, granted: set<Rule>, pos: nat, r: Rule)
    requires SealedChain(rs, granted) && 1 <= pos <= |rs|
    requires r == JumpTo(VPN_EXEMPTIONS) || (r.target == Accept && r in granted)
    ensures SealedChain(InsertAt(rs, pos, r), granted)
  {
  }

  lemma DeleteKeepsSealed(rs: seq<Rule>, granted: set<Rule>, r: Rule)
    requires SealedChain(rs, granted)
    requires r !in {DropRule, EstablishedRule, LoInRule, LoOutRule}
    ensures SealedChain(Without(rs, r), granted)
  {
    var body := rs[..|rs| - 1];
    assert rs == body + [DropRule];
    WithoutLast(body, DropRule, r);
    WithoutParts(rs, r);
    WithoutParts(body, r);
    var out := Without(body, r);
    forall i | 0 <= i < |out|
        ensures out[i] == JumpTo(VPN_EXEMPTIONS) || (out[i].target == Accept && out[i] in granted) {
      assert out[i] in body;
      var j :| 0 <= j < |body| && body[j] == out[i];
      assert rs[j] == body[j];
    }
  }

  /** The same on a table: no single edit the killswitch makes opens it. */
  lemma InsertSealed(t: Table, g: set<Rule>, c: Chain, pos: nat, r: Rule)
    requires Sealed(t, VPN_IN, VPN_OUT, g) && c in {VPN_IN, VPN_OUT} && 1 <= pos <= 3
    requires r == JumpTo(VPN_EXEMPTIONS) || (r.target == Accept && r in g)
    ensures |t[c]| >= 3
    ensures Sealed(t[c := InsertAt(t[c], pos, r)], VPN_IN, VPN_OUT, g)
  {
    AtLeastThree(t[c], g);
    InsertKeepsSealed(t[c], g, pos, r);
  }

  lemma DeleteSealed(t: Table, g: set<Rule>, c: Chain, r: Rule)
    requires Sealed(t, VPN_IN, VPN_OUT, g) && c in {VPN_IN, VPN_OUT}
    requires r !in {DropRule, EstablishedRule, LoInRule, LoOutRule}
    ensures Sealed(t[c := Without(t[c], r)], VPN_IN, VPN_OUT, g)
  {
    DeleteKeepsSealed(t[c], g, r);
  }

  lemma NewChainSealed(t: Table, g: set<Rule>)
    requires Sealed(t, VPN_IN, VPN_OUT, g)
    ensures Sealed(t[VPN_EXEMPTIONS := []], VPN_IN, VPN_OUT, g)
  {
  }

  lemma AppendSealed(t: Table, g: set<Rule>, r: Rule)
    requires Sealed(t, VPN_IN, VPN_OUT, g) && VPN_EXEMPTIONS in t && r.target == Accept && r in g
    ensures Sealed(t[VPN_EXEMPTIONS := t[VPN_EXEMPTIONS] + [r]], VPN_IN, VPN_OUT, g)
  {
  }

  lemma ClearSealed(t: Table, g: set<Rule>)
    requires Sealed(t, VPN_IN, VPN_OUT, g)
    ensures Sealed(Cleared(t, VPN_EXEMPTIONS), VPN_IN, VPN_OUT, g)
  {
  }

  lemma MoreGranted(t: Table, cin: Chain, cout: Chain, g: set<Rule>, h: set<Rule>)
    requires Sealed(t, cin, cout, g) && g <= h
    ensures Sealed(t, cin, cout, h)
  {
  }

  /** From any point of a sealed chain the walk decides, and accepts only by a granted rule. */
  lemma {:induction false} WalkGranted(t: Table, rs: seq<Rule>, granted: set<Rule>, k: Packet)
    requires rs != [] && rs[|rs| - 1] == DropRule
    requires forall i | 0 <= i < |rs| - 1 ::
        rs[i] == JumpTo(VPN_EXEMPTIONS) || (rs[i].target == Accept && rs[i] in granted)
    requires VPN_EXEMPTIONS in t ==> Granted(t[VPN_EXEMPTIONS], granted)
    ensures Walk(t, 1, rs, k) != Fallthrough
    ensures Walk(t, 1, rs, k) == Accepted ==> exists r | r in granted :: r.Hits(k)
  {
    if |rs| == 1 {
      assert DropRule.Hits(k);
    } else {
      var rest := rs[1..];
      assert rest[|rest| - 1] == DropRule;
      assert forall i | 0 <= i < |rest| - 1 :: rest[i] == rs[i + 1];
      WalkGranted(t, rest, granted, k);
      if rs[0] == JumpTo(VPN_EXEMPTIONS) && VPN_EXEMPTIONS in t {
        var es := t[VPN_EXEMPTIONS];
        WalkAccepts(t, 0, es, k);
        if SomeHit(es, k) { var i :| 0 <= i < |es| && es[i].Hits(k); assert es[i] in granted; }
      }
    }
  }

  /** Default deny: a packet no granted rule matches is dropped at both hooks. */
  lemma SealedDrops(t: Table, cin: Chain, cout: Chain, granted: set<Rule>, k: Packet)
    requires Sealed(t, cin, cout, granted)
    requires forall r | r in granted :: !r.Hits(k)
    ensures !Passes(t, INPUT, k) && !Passes(t, OUTPUT, k)
  {
    WalkGranted(t, t[cin], granted, k);
    WalkGranted(t, t[cout], granted, k);
    assert t[INPUT] == [JumpTo(cin)] + t[INPUT][1..];
    assert t[OUTPUT] == [JumpTo(cout)] + t[OUTPUT][1..];
    PassesThrough(t, INPUT, cin, t[INPUT][1..], k);
    PassesThrough(t, OUTPUT, cout, t[OUTPUT][1..], k);
  }

  function Rules(rs: seq<Rule>): set<Rule> { set r | r in rs }

  /** Every ACCEPT rule of a policy's IPv4 chains, and what a stale chain still holds. */
  function Grants4(p: Policy): set<Rule> {
    Rules(OutAccepts(p.cfg)) + Rules(InAccepts(p))
    + (match p.exempt case Absent => {} case Held(es) => Rules(ExemptRules(es)) case Stale(rs) => Rules(rs))
  }

  function Grants6(cfg: Config): set<Rule> { Rules(In6Accepts(cfg)) + Rules(Out6Accepts(cfg)) }

  lemma BaselineFirst(p: Policy)
    ensures AllAccept(OutAccepts(p.cfg)) && |OutAccepts(p.cfg)| >= 2
    ensures OutAccepts(p.cfg)[0] == EstablishedRule && OutAccepts(p.cfg)[1] == LoOutRule
    ensures AllAccept(InAccepts(p)) && |InAccepts(p)| >= 2
    ensures InAccepts(p)[0] == EstablishedRule && InAccepts(p)[1] == LoInRule
    ensures AllAccept(In6Accepts(p.cfg)) && |In6Accepts(p.cfg)| >= 2
    ensures In6Accepts(p.cfg)[0] == EstablishedRule && In6Accepts(p.cfg)[1] == LoInRule
    ensures AllAccept(Out6Accepts(p.cfg)) && |Out6Accepts(p.cfg)| >= 2
    ensures Out6Accepts(p.cfg)[0] == EstablishedRule && Out6Accepts(p.cfg)[1] == LoOutRule
  {
  }

  lemma ChainSealed(exempt: bool, accepts: seq<Rule>, g: set<Rule>)
    requires AllAccept(accepts) && Rules(accepts) <= g && |accepts| >= 2
    requires accepts[0] == EstablishedRule && accepts[1] in {LoInRule, LoOutRule}
    ensures SealedChain(When(exempt, JumpTo(VPN_EXEMPTIONS)) + accepts + [DropRule], g)
    ensures SealedChain(accepts + [DropRule], g)
  {
  }

  lemma PolicySealed(p: Policy, ts: Tails)
    requires p.exempt.Stale? ==> AllAccept(p.exempt.rules)
    ensures Sealed(Table4(p, ts), VPN_IN, VPN_OUT, Grants4(p))
  {
    hide SealedChain, Sealed, Granted, AllAccept, OutAccepts, InAccepts, Rules, ExemptRules;
    BaselineFirst(p);
    var g := Grants4(p);
    assert Rules(OutAccepts(p.cfg)) <= g && Rules(InAccepts(p)) <= g;
    ChainSealed(p.exempt.Held?, OutAccepts(p.cfg), g);
    ChainSealed(false, InAccepts(p), g);
    assert SealedChain(OutChain(p), g) && SealedChain(InAccepts(p) + [DropRule], g);
    ExemptGranted(p);
    TableSealed(Table4(p, ts), VPN_IN, VPN_OUT, g);
  }

  lemma ExemptGranted(p: Policy)
    requires p.exempt.Stale? ==> AllAccept(p.exempt.rules)
    ensures p.exempt.Held? ==> Granted(ExemptRules(p.exempt.specs), Grants4(p))
    ensures p.exempt.Stale? ==> Granted(p.exempt.rules, Grants4(p))
  {
  }

  lemma PolicySealed6(cfg: Config, ts: Tails)
    ensures Sealed(Table6(cfg, ts), VPN_IN6, VPN_OUT6, Grants6(cfg))
  {
    hide SealedChain, Sealed, Granted, AllAccept, In6Accepts, Out6Accepts, Rules;
    BaselineFirst(Policy(cfg, Absent, None));
    var g := Grants6(cfg);
    assert Rules(In6Accepts(cfg)) <= g && Rules(Out6Accepts(cfg)) <= g;
    ChainSealed(false, In6Accepts(cfg), g);
    ChainSealed(false, Out6Accepts(cfg), g);
    TableSealed(Table6(cfg, ts), VPN_IN6, VPN_OUT6, g);
  }

  lemma TableSealed(t: Table, cin: Chain, cout: Chain, g: set<Rule>)
    requires Level(cin) == Level(cout) == 1 && Wired(t, INPUT, cin) && Wired(t, OUTPUT, cout)
    requires SealedChain(t[cin], g) && SealedChain(t[cout], g)
    requires VPN_EXEMPTIONS in t ==> Granted(t[VPN_EXEMPTIONS], g)
    ensures Sealed(t, cin, cout, g)
  {
  }
}
