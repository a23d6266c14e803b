/** Bringing the killswitch up and down: the ordered edits that leave exactly the
    policy's chains, whatever an earlier run left behind. */
module KillswitchSetup {
  import opened Wrappers
  import opened Netfilter
  import opened Routing
  import opened Sequences
  import opened Policy
  import opened PolicySteps
  import opened FailClosed
  import opened Killswitch
  import opened FirewallRoutes

  // ---- Single edits of a staged table ----

  lemma StageEdit(i: seq<Rule>, o: seq<Rule>, e: Exempt, ts: Tails, x: seq<Rule>)
    ensures VPN_IN in Stage4(i, o, e, ts) && Stage4(i, o, e, ts)[VPN_IN] == i
    ensures VPN_OUT in Stage4(i, o, e, ts) && Stage4(i, o, e, ts)[VPN_OUT] == o
    ensures Stage4(i, o, e, ts)[VPN_IN := x] == Stage4(x, o, e, ts)
    ensures Stage4(i, o, e, ts)[VPN_OUT := x] == Stage4(i, x, e, ts)
  {
  }

  lemma StageEdit6(i: seq<Rule>, o: seq<Rule>, ts: Tails, x: seq<Rule>)
    ensures VPN_IN6 in Stage6(i, o, ts) && Stage6(i, o, ts)[VPN_IN6] == i
    ensures VPN_OUT6 in Stage6(i, o, ts) && Stage6(i, o, ts)[VPN_OUT6] == o
    ensures Stage6(i, o, ts)[VPN_IN6 := x] == Stage6(x, o, ts)
    ensures Stage6(i, o, ts)[VPN_OUT6 := x] == Stage6(i, x, ts)
  {
  }

  /** Counts the `-A` lines of a listing, which is the position of the last rule. */
  method RuleCount(ipt: Iptables, c: Chain) returns (ok: bool, count: nat)
    ensures ok ==> c in ipt.table && count == |ipt.table[c]| > 0
    ensures !ipt.flaky ==> ok == (c in ipt.table && ipt.table[c] != [])
  {
    count := 0;
    var lines;
    ok, lines := ipt.List(c);
    if !ok { return; }
    var i := 0;
    while i < |lines|
      invariant 0 <= i <= |lines|
      invariant count == if i == 0 then 0 else i - 1
    {
      if lines[i].Appends? { count := count + 1; }
      i := i + 1;
    }
    ok := count > 0;
  }

  method InsertBeforeDrop(ipt: Iptables, c: Chain, r: Rule, ghost accepts: seq<Rule>) returns (ok: bool)
    requires c in ipt.table && ipt.table[c] == accepts + [DropRule]
    modifies ipt`table
    ensures ok ==> ipt.table == old(ipt.table)[c := accepts + [r] + [DropRule]]
    ensures !ok ==> ipt.table == old(ipt.table)
    ensures !ipt.flaky ==> ok == CanHold(old(ipt.table), c, r)
  {
    var pos;
    ok, pos := RuleCount(ipt, c);
    if !ok { return; }
    ok := ipt.Insert(c, pos, r);
    AtPosition(accepts, r, [DropRule]);
  }

  // ---- Chains ----

  lemma Unhooked(t: Table, cin: Chain, cout: Chain, tin: seq<Rule>, tout: seq<Rule>)
    requires Prior(t, cin, cout, tin, tout) && Level(cin) == Level(cout) == 1
    ensures Prior(t[INPUT := tin], cin, cout, tin, tout) && Prior(t[OUTPUT := tout], cin, cout, tin, tout)
  {
  }

  method CleanupChain(ipt: Iptables, parent: Chain, c: Chain, ghost cin: Chain, ghost cout: Chain,
                      ghost tin: seq<Rule>, ghost tout: seq<Rule>)
    requires Prior(ipt.table, cin, cout, tin, tout) && Level(cin) == Level(cout) == 1 && cin != cout
    requires (parent, c) == (INPUT, cin) || (parent, c) == (OUTPUT, cout)
    modifies ipt`table
    ensures Prior(ipt.table, cin, cout, tin, tout)
    ensures !ipt.flaky ==> c !in ipt.table
    ensures forall d | d in ipt.table :: d in old(ipt.table)
    ensures LeftOver(ipt.table) == LeftOver(old(ipt.table))
  {
    hide Without, Cleared, ChainPrior, AllAccept, NoJumps;
    ghost var tail := if parent == INPUT then tin else tout;
    DeleteJump(ipt.table, parent, c, tail);
    Unhooked(ipt.table, cin, cout, tin, tout);
    var deleted := ipt.Delete(parent, JumpTo(c));
    ghost var t := ipt.table;
    if t[parent] == tail { DeleteUnwired(t, cin, cout, tin, tout, c); }
    ipt.ClearAndDelete(c);
    if t[parent] != tail { FlushWired(t, cin, cout, tin, tout, parent, c); }
  }

  lemma FlushWired(t: Table, cin: Chain, cout: Chain, tin: seq<Rule>, tout: seq<Rule>, parent: Chain, c: Chain)
    requires Prior(t, cin, cout, tin, tout) && Level(cin) == Level(cout) == 1 && cin != cout
    requires ((parent, c) == (INPUT, cin) && t[INPUT] != tin) || ((parent, c) == (OUTPUT, cout) && t[OUTPUT] != tout)
    ensures c in t && Cleared(t, c) == t[c := []] && Prior(t[c := []], cin, cout, tin, tout)
  {
    assert t[c := []][parent][0].target == Jump(c);
    assert Referenced(t[c := []], c);
  }

  method CleanupChains(fw: Firewall, ghost ts: Tails)
    requires fw.ipt4 != fw.ipt6
    requires Prior(fw.ipt4.table, VPN_IN, VPN_OUT, ts.in4, ts.out4)
    requires Prior(fw.ipt6.table, VPN_IN6, VPN_OUT6, ts.in6, ts.out6)
    modifies fw.ipt4`table, fw.ipt6`table
    ensures Prior(fw.ipt4.table, VPN_IN, VPN_OUT, ts.in4, ts.out4)
    ensures Prior(fw.ipt6.table, VPN_IN6, VPN_OUT6, ts.in6, ts.out6)
    ensures LeftOver(fw.ipt4.table) == LeftOver(old(fw.ipt4.table))
    ensures LeftOver(fw.ipt6.table) == LeftOver(old(fw.ipt6.table))
    ensures fw.Reliable() ==> VPN_IN !in fw.ipt4.table && VPN_OUT !in fw.ipt4.table
    ensures fw.Reliable() ==> VPN_IN6 !in fw.ipt6.table && VPN_OUT6 !in fw.ipt6.table
  {
    hide Prior, LeftOver;
    var i := 0;
    while i < |CHAIN_DEFS|
      invariant 0 <= i <= |CHAIN_DEFS|
      invariant Prior(fw.ipt4.table, VPN_IN, VPN_OUT, ts.in4, ts.out4)
      invariant Prior(fw.ipt6.table, VPN_IN6, VPN_OUT6, ts.in6, ts.out6)
      invariant LeftOver(fw.ipt4.table) == LeftOver(old(fw.ipt4.table))
      invariant LeftOver(fw.ipt6.table) == LeftOver(old(fw.ipt6.table))
      invariant fw.Reliable() ==> forall j | 0 <= j < i ::
        CHAIN_DEFS[j].name !in (if CHAIN_DEFS[j].v6 then fw.ipt6 else fw.ipt4).table
    {
      var d := CHAIN_DEFS[i];
      if d.v6 {
        CleanupChain(fw.ipt6, d.parent, d.name, VPN_IN6, VPN_OUT6, ts.in6, ts.out6);
      } else {
        CleanupChain(fw.ipt4, d.parent, d.name, VPN_IN, VPN_OUT, ts.in4, ts.out4);
      }
      i := i + 1;
    }
    assert CHAIN_DEFS[0].name == VPN_IN && CHAIN_DEFS[1].name == VPN_OUT;
    assert CHAIN_DEFS[2].name == VPN_IN6 && CHAIN_DEFS[3].name == VPN_OUT6;
  }

  /** The table with one more baseline chain, wired at the head of its parent. */
  function WithBaseline(t: Table, d: ChainDef): Table
    requires d.parent in t
  {
    var u := t[d.name := Baseline(d.lo)];
    u[d.parent := [JumpTo(d.name)] + t[d.parent]]
  }

  method BaselineChain(ipt: Iptables, d: ChainDef) returns (ok: bool)
    requires d in CHAIN_DEFS && d.parent in ipt.table
    modifies ipt
    ensures ok ==> d.name !in old(ipt.table) && ipt.table == WithBaseline(old(ipt.table), d)
    ensures !ipt.flaky ==> ok == (d.name !in old(ipt.table))
  {
    ok := ipt.NewChain(d.name);
    if !ok { return; }
    ok := ipt.Append(d.name, EstablishedRule);
    if !ok { return; }
    ok := ipt.Append(d.name, d.lo);
    if !ok { return; }
    ok := ipt.Append(d.name, DropRule);
    if !ok { return; }
    assert [] + [EstablishedRule] + [d.lo] + [DropRule] == Baseline(d.lo);
    ghost var t := ipt.table;
    ok := ipt.Insert(d.parent, 1, JumpTo(d.name));
    AtPosition([], JumpTo(d.name), t[d.parent]);
    assert [] + t[d.parent] == t[d.parent];
    assert [] + [JumpTo(d.name)] + t[d.parent] == [JumpTo(d.name)] + t[d.parent];
  }

  /** The families' tables after the first n baseline chains. */
  function Built(t: Table, n: nat, v6: bool): Table
    requires INPUT in t && OUTPUT in t && n <= |CHAIN_DEFS|
    ensures INPUT in Built(t, n, v6) && OUTPUT in Built(t, n, v6)
  {
    if n == 0 then t
    else
      var u := Built(t, n - 1, v6);
      if CHAIN_DEFS[n - 1].v6 == v6 then WithBaseline(u, CHAIN_DEFS[n - 1]) else u
  }

  lemma BuiltIsStage(ts: Tails, e: Exempt)
    ensures Built(Bare(ts.in4, ts.out4, e), 4, false) == Stage4(Baseline(LoInRule), Baseline(LoOutRule), e, ts)
    ensures Built(Bare(ts.in6, ts.out6, Absent), 4, true) == Stage6(Baseline(LoInRule), Baseline(LoOutRule), ts)
  {
    var t, u := Bare(ts.in4, ts.out4, e), Bare(ts.in6, ts.out6, Absent);
    assert Built(t, 1, false) == WithBaseline(t, CHAIN_DEFS[0]);
    assert Built(t, 2, false) == WithBaseline(Built(t, 1, false), CHAIN_DEFS[1]);
    assert Built(t, 4, false) == Built(t, 3, false) == Built(t, 2, false);
    assert Built(u, 2, true) == Built(u, 1, true) == Built(u, 0, true) == u;
    assert Built(u, 3, true) == WithBaseline(u, CHAIN_DEFS[2]);
    assert Built(u, 4, true) == WithBaseline(Built(u, 3, true), CHAIN_DEFS[3]);
  }

  method SetupBaselineChains(fw: Firewall, ghost ts: Tails) returns (ok: bool)
    requires fw.ipt4 != fw.ipt6
    requires Prior(fw.ipt4.table, VPN_IN, VPN_OUT, ts.in4, ts.out4)
    requires Prior(fw.ipt6.table, VPN_IN6, VPN_OUT6, ts.in6, ts.out6) && VPN_EXEMPTIONS !in fw.ipt6.table
    modifies fw.ipt4, fw.ipt6
    ensures ok ==>
      && fw.ipt4.table == Stage4(Baseline(LoInRule), Baseline(LoOutRule), LeftOver(old(fw.ipt4.table)), ts)
      && fw.ipt6.table == Stage6(Baseline(LoInRule), Baseline(LoOutRule), ts)
    ensures fw.Reliable() ==> ok
  {
    hide Prior, Stage4, Stage6, Bare, WithBaseline;
    CleanupChains(fw, ts);
    ghost var t, u := fw.ipt4.table, fw.ipt6.table;
    PriorHas(t, VPN_IN, VPN_OUT, ts.in4, ts.out4);
    PriorHas(u, VPN_IN6, VPN_OUT6, ts.in6, ts.out6);
    var i := 0;
    while i < |CHAIN_DEFS|
      invariant 0 <= i <= |CHAIN_DEFS|
      invariant fw.ipt4.table == Built(t, i, false) && fw.ipt6.table == Built(u, i, true)
      invariant forall j | 0 <= j < i :: CHAIN_DEFS[j].name !in (if CHAIN_DEFS[j].v6 then u else t)
    {
      var d := CHAIN_DEFS[i];
      BuiltFresh(t, i, false);
      BuiltFresh(u, i, true);
      if d.v6 {
        ok := BaselineChain(fw.ipt6, d);
      } else {
        ok := BaselineChain(fw.ipt4, d);
      }
      if !ok { return; }
      i := i + 1;
    }
    assert CHAIN_DEFS[0].name == VPN_IN && CHAIN_DEFS[1].name == VPN_OUT;
    assert CHAIN_DEFS[2].name == VPN_IN6 && CHAIN_DEFS[3].name == VPN_OUT6;
    PriorIsBare(t, VPN_IN, VPN_OUT, ts.in4, ts.out4);
    PriorIsBare(u, VPN_IN6, VPN_OUT6, ts.in6, ts.out6);
    BuiltIsStage(ts, LeftOver(t));
    ok := true;
  }

  lemma PriorHas(t: Table, cin: Chain, cout: Chain, tin: seq<Rule>, tout: seq<Rule>)
    requires Prior(t, cin, cout, tin, tout)
    ensures INPUT in t && OUTPUT in t
  {
  }

  /** A baseline chain is new exactly when its name was free to begin with. */
  lemma BuiltFresh(t: Table, n: nat, v6: bool)
    requires INPUT in t && OUTPUT in t && n < |CHAIN_DEFS|
    ensures CHAIN_DEFS[n].name in Built(t, n, v6) <==> CHAIN_DEFS[n].name in t
    ensures CHAIN_DEFS[n].parent in Built(t, n, v6)
  {
    BuiltNames(t, n, v6, CHAIN_DEFS[n].name);
  }

  lemma {:induction false} BuiltNames(t: Table, n: nat, v6: bool, c: Chain)
    requires INPUT in t && OUTPUT in t && n <= |CHAIN_DEFS|
    requires forall j | 0 <= j < n :: CHAIN_DEFS[j].name != c
    ensures c in Built(t, n, v6) <==> c in t
  {
    if n > 0 {
      BuiltNames(t, n - 1, v6, c);
      assert CHAIN_DEFS[n - 1].name != c && CHAIN_DEFS[n - 1].parent in t;
    }
  }

  // ---- LAN, tunnel and WAN-check rules ----

  lemma AcceptHolds(t: Table, c: Chain, r: Rule)
    requires c in t && r.target == Accept && |r.matches| <= 1
    requires |r.matches| == 1 ==> !r.matches[0].DPort? && r.matches[0] != Unreadable
    ensures CanHold(t, c, r)
  {
  }

  /** Each network gets a source rule in VPN_IN and a destination rule in VPN_OUT, in order. */
  method SetupLocalRules4(ipt: Iptables, lans: seq<Net>, ghost a: seq<Rule>,
      ghost b: seq<Rule>, ghost e: Exempt, ghost ts: Tails)
    returns (ok: bool)
    requires ipt.table == Stage4(a + [DropRule], b + [DropRule], e, ts)
    modifies ipt`table
    ensures ok ==> ipt.table == Stage4(a + LanIns(lans) + [DropRule], b + LanOuts(lans) + [DropRule], e, ts)
    ensures !ipt.flaky ==> ok
  {
    hide Stage4, CanHold;
    var i := 0;
    assert a + LanIns(lans[..0]) == a && b + LanOuts(lans[..0]) == b;
    while i < |lans|
      invariant 0 <= i <= |lans|
      invariant ipt.table == Stage4(a + LanIns(lans[..i]) + [DropRule], b + LanOuts(lans[..i]) + [DropRule], e, ts)
    {
      ghost var x, y := a + LanIns(lans[..i]), b + LanOuts(lans[..i]);
      LanSnoc(lans, i);
      StageEdit(x + [DropRule], y + [DropRule], e, ts, x + [LanInRule(lans[i])] + [DropRule]);
      AcceptHolds(ipt.table, VPN_IN, LanInRule(lans[i]));
      ok := InsertBeforeDrop(ipt, VPN_IN, LanInRule(lans[i]), x);
      if !ok { return; }
      ghost var x' := x + [LanInRule(lans[i])];
      StageEdit(x' + [DropRule], y + [DropRule], e, ts, y + [LanOutRule(lans[i])] + [DropRule]);
      AcceptHolds(ipt.table, VPN_OUT, LanOutRule(lans[i]));
      ok := InsertBeforeDrop(ipt, VPN_OUT, LanOutRule(lans[i]), y);
      if !ok { return; }
      assert x' == a + LanIns(lans[..i + 1]) && y + [LanOutRule(lans[i])] == b + LanOuts(lans[..i + 1]);
      i := i + 1;
    }
    assert lans[..|lans|] == lans;
    ok := true;
  }

  method SetupLocalRules6(ipt: Iptables, lans: seq<Net>, ghost a: seq<Rule>, ghost b: seq<Rule>, ghost ts: Tails)
    returns (ok: bool)
    requires ipt.table == Stage6(a + [DropRule], b + [DropRule], ts)
    modifies ipt`table
    ensures ok ==> ipt.table == Stage6(a + LanIns(lans) + [DropRule], b + LanOuts(lans) + [DropRule], ts)
    ensures !ipt.flaky ==> ok
  {
    hide Stage6, CanHold;
    var i := 0;
    assert a + LanIns(lans[..0]) == a && b + LanOuts(lans[..0]) == b;
    while i < |lans|
      invariant 0 <= i <= |lans|
      invariant ipt.table == Stage6(a + LanIns(lans[..i]) + [DropRule], b + LanOuts(lans[..i]) + [DropRule], ts)
    {
      ghost var x, y := a + LanIns(lans[..i]), b + LanOuts(lans[..i]);
      LanSnoc(lans, i);
      StageEdit6(x + [DropRule], y + [DropRule], ts, x + [LanInRule(lans[i])] + [DropRule]);
      AcceptHolds(ipt.table, VPN_IN6, LanInRule(lans[i]));
      ok := InsertBeforeDrop(ipt, VPN_IN6, LanInRule(lans[i]), x);
      if !ok { return; }
      ghost var x' := x + [LanInRule(lans[i])];
      StageEdit6(x' + [DropRule], y + [DropRule], ts, y + [LanOutRule(lans[i])] + [DropRule]);
      AcceptHolds(ipt.table, VPN_OUT6, LanOutRule(lans[i]));
      ok := InsertBeforeDrop(ipt, VPN_OUT6, LanOutRule(lans[i]), y);
      if !ok { return; }
      assert x' == a + LanIns(lans[..i + 1]) && y + [LanOutRule(lans[i])] == b + LanOuts(lans[..i + 1]);
      i := i + 1;
    }
    assert lans[..|lans|] == lans;
    ok := true;
  }

  lemma LanSnoc(lans: seq<Net>, i: nat)
    requires i < |lans|
    ensures LanIns(lans[..i + 1]) == LanIns(lans[..i]) + [LanInRule(lans[i])]
    ensures LanOuts(lans[..i + 1]) == LanOuts(lans[..i]) + [LanOutRule(lans[i])]
  {
  }

  /** The mark rule goes to position 3 and the interface rule in front of it, both behind the baseline. */
  method AddVpn(fw: Firewall, ipv6: bool, ghost i4: seq<Rule>, ghost b: seq<Rule>, ghost e: Exempt, ghost i6: seq<Rule>,
                ghost b6: seq<Rule>, ghost ts: Tails) returns (ok: bool)
    requires fw.ipt4 != fw.ipt6
    requires fw.ipt4.table == Stage4(i4, [EstablishedRule, LoOutRule] + b, e, ts)
    requires fw.ipt6.table == Stage6(i6, [EstablishedRule, LoOutRule] + b6, ts)
    modifies fw.ipt4`table, fw.ipt6`table
    ensures ok ==> fw.ipt4.table == Stage4(i4, [EstablishedRule, LoOutRule] + [PiaOutRule, MarkRule] + b, e, ts)
    ensures ok ==> fw.ipt6.table == Stage6(i6, [EstablishedRule, LoOutRule] + When(ipv6, PiaOutRule) + b6, ts)
    ensures fw.Reliable() ==> ok
  {
    hide Stage4, Stage6, CanHold;
    ghost var base := [EstablishedRule, LoOutRule];
    StageEdit(i4, base + b, e, ts, base + [MarkRule] + b);
    AtPosition(base, MarkRule, b);
    AcceptHolds(fw.ipt4.table, VPN_OUT, MarkRule);
    ok := fw.ipt4.Insert(VPN_OUT, VPN_INSERT_POS, MarkRule);
    if !ok { return; }
    assert base + [MarkRule] + b == base + ([MarkRule] + b);
    StageEdit(i4, base + ([MarkRule] + b), e, ts, base + [PiaOutRule] + ([MarkRule] + b));
    AtPosition(base, PiaOutRule, [MarkRule] + b);
    AcceptHolds(fw.ipt4.table, VPN_OUT, PiaOutRule);
    ok := fw.ipt4.Insert(VPN_OUT, VPN_INSERT_POS, PiaOutRule);
    if !ok { return; }
    assert base + [PiaOutRule] + ([MarkRule] + b) == base + [PiaOutRule, MarkRule] + b;
    if ipv6 {
      StageEdit6(i6, base + b6, ts, base + [PiaOutRule] + b6);
      AtPosition(base, PiaOutRule, b6);
      AcceptHolds(fw.ipt6.table, VPN_OUT6, PiaOutRule);
      ok := fw.ipt6.Insert(VPN_OUT6, VPN_INSERT_POS, PiaOutRule);
    } else {
      assert base + [] + b6 == base + b6;
    }
  }

  lemma WanHolds(t: Table, a: Addr)
    requires VPN_OUT in t
    ensures CanHold(t, VPN_OUT, WanRule(a))
  {
  }

  method InsertBypassRules(ipt: Iptables, ghost i: seq<Rule>, ghost b: seq<Rule>, ghost e: Exempt, ghost ts: Tails)
    returns (ok: bool)
    requires ipt.table == Stage4(i, b + [DropRule], e, ts)
    modifies ipt`table
    ensures ok ==> ipt.table == Stage4(i, b + [WanRule(GAITHERSBURG), WanRule(FORT_COLLINS)] + [DropRule], e, ts)
    ensures !ipt.flaky ==> ok
  {
    hide Stage4, CanHold;
    var n := 0;
    assert b + WanRules(0) == b;
    while n < |WAN_CHECK_IPS|
      invariant 0 <= n <= |WAN_CHECK_IPS|
      invariant ipt.table == Stage4(i, b + WanRules(n) + [DropRule], e, ts)
    {
      ghost var y := b + WanRules(n);
      StageEdit(i, y + [DropRule], e, ts, y + [WanRule(WAN_CHECK_IPS[n])] + [DropRule]);
      WanHolds(ipt.table, WAN_CHECK_IPS[n]);
      ok := InsertBeforeDrop(ipt, VPN_OUT, WanRule(WAN_CHECK_IPS[n]), y);
      if !ok { return; }
      assert WanRules(n + 1) == WanRules(n) + [WanRule(WAN_CHECK_IPS[n])];
      assert y + [WanRule(WAN_CHECK_IPS[n])] == b + WanRules(n + 1);
      n := n + 1;
    }
    assert WanRules(2) == [WanRule(GAITHERSBURG), WanRule(FORT_COLLINS)];
    ok := true;
  }

  function WanRules(n: nat): seq<Rule>
    requires n <= |WAN_CHECK_IPS|
  {
    seq(n, i requires 0 <= i < n => WanRule(WAN_CHECK_IPS[i]))
  }

  method InsertIcmp6(ipt: Iptables, ghost a: seq<Rule>, ghost b: seq<Rule>, ghost ts: Tails) returns (ok: bool)
    requires ipt.table == Stage6(a + [DropRule], b + [DropRule], ts)
    modifies ipt`table
    ensures ok ==> ipt.table == Stage6(a + [Icmp6Rule] + [DropRule], b + [Icmp6Rule] + [DropRule], ts)
    ensures !ipt.flaky ==> ok
  {
    hide Stage6, CanHold;
    StageEdit6(a + [DropRule], b + [DropRule], ts, a + [Icmp6Rule] + [DropRule]);
    AcceptHolds(ipt.table, VPN_IN6, Icmp6Rule);
    ok := InsertBeforeDrop(ipt, VPN_IN6, Icmp6Rule, a);
    if !ok { return; }
    StageEdit6(a + [Icmp6Rule] + [DropRule], b + [DropRule], ts, b + [Icmp6Rule] + [DropRule]);
    AcceptHolds(ipt.table, VPN_OUT6, Icmp6Rule);
    ok := InsertBeforeDrop(ipt, VPN_OUT6, Icmp6Rule, b);
  }

  // ---- Verification of the chains ----

  predicate HasDrop(t: Table, c: Chain) { c in t && exists i | 0 <= i < |t[c]| :: t[c][i].target == Drop }

  predicate IsInParent(t: Table, parent: Chain, c: Chain) {
    parent in t && exists i | 0 <= i < |t[parent]| :: t[parent][i].target == Jump(c)
  }

  predicate Present(t: Table, u: Table) {
    && HasDrop(t, VPN_IN) && IsInParent(t, INPUT, VPN_IN) && HasDrop(t, VPN_OUT) && IsInParent(t, OUTPUT, VPN_OUT)
    && HasDrop(u, VPN_IN6) && IsInParent(u, INPUT, VPN_IN6) && HasDrop(u, VPN_OUT6) && IsInParent(u, OUTPUT, VPN_OUT6)
  }

  /** Whether some rule of the chain has the target, read off its listing. */
  method ListsTarget(ipt: Iptables, c: Chain, target: Target) returns (found: bool)
    ensures found ==> c in ipt.table && exists i | 0 <= i < |ipt.table[c]| :: ipt.table[c][i].target == target
    ensures !ipt.flaky ==>
      found == (c in ipt.table && exists i | 0 <= i < |ipt.table[c]| :: ipt.table[c][i].target == target)
  {
    found := false;
    var ok, lines := ipt.List(c);
    if !ok { return; }
    var i := 0;
    while i < |lines|
      invariant 0 <= i <= |lines|
      invariant forall j | 0 <= j < i - 1 :: ipt.table[c][j].target != target
    {
      if lines[i].Appends? && lines[i].rule.target == target {
        assert ipt.table[c][i - 1].target == target;
        return true;
      }
      i := i + 1;
    }
  }

  method CheckChainsPresent(fw: Firewall) returns (ok: bool)
    ensures ok ==> Present(fw.ipt4.table, fw.ipt6.table)
    ensures fw.Reliable() ==> ok == Present(fw.ipt4.table, fw.ipt6.table)
  {
    ok := ChainsPresent(fw.ipt4, VPN_IN, VPN_OUT);
    if !ok { return; }
    ok := ChainsPresent(fw.ipt6, VPN_IN6, VPN_OUT6);
  }

  method ChainsPresent(ipt: Iptables, cin: Chain, cout: Chain) returns (ok: bool)
    ensures ok ==> HasDrop(ipt.table, cin) && IsInParent(ipt.table, INPUT, cin)
                   && HasDrop(ipt.table, cout) && IsInParent(ipt.table, OUTPUT, cout)
    ensures !ipt.flaky ==> ok == (HasDrop(ipt.table, cin) && IsInParent(ipt.table, INPUT, cin)
                                  && HasDrop(ipt.table, cout) && IsInParent(ipt.table, OUTPUT, cout))
  {
    ok := ListsTarget(ipt, cin, Drop);
    if !ok { return; }
    ok := ListsTarget(ipt, INPUT, Jump(cin));
    if !ok { return; }
    ok := ListsTarget(ipt, cout, Drop);
    if !ok { return; }
    ok := ListsTarget(ipt, OUTPUT, Jump(cout));
  }

  /** Up to four looks at the chains, until one finds them. */
  method VerifyKillswitch(fw: Firewall) returns (ok: bool, ghost looks: nat)
    ensures 1 <= looks <= 4 && (!ok ==> looks == 4) && (fw.Reliable() && ok ==> looks == 1)
    ensures ok ==> Present(fw.ipt4.table, fw.ipt6.table)
    ensures fw.Reliable() ==> ok == Present(fw.ipt4.table, fw.ipt6.table)
  {
    ok, looks := false, 0;
    var attempt := 1;
    while attempt <= 4 && !ok
      invariant attempt <= 5 && looks == attempt - 1 && (ok ==> looks > 0)
      invariant fw.Reliable() && ok ==> looks == 1
      invariant ok ==> Present(fw.ipt4.table, fw.ipt6.table)
      invariant fw.Reliable() && attempt > 1 ==> ok == Present(fw.ipt4.table, fw.ipt6.table)
      decreases 5 - attempt
    {
      ok := CheckChainsPresent(fw);
      looks := looks + 1;
      attempt := attempt + 1;
    }
  }

  lemma PolicyPresent(p: Policy, ts: Tails)
    ensures Present(Table4(p, ts), Table6(p.cfg, ts))
  {
    var t: Table, u: Table := Table4(p, ts), Table6(p.cfg, ts);
    LastDrops(InAccepts(p));
    LastDrops(When(p.exempt.Held?, JumpTo(VPN_EXEMPTIONS)) + OutAccepts(p.cfg));
    LastDrops(In6Accepts(p.cfg));
    LastDrops(Out6Accepts(p.cfg));
    assert t[INPUT][0].target == Jump(VPN_IN) && t[OUTPUT][0].target == Jump(VPN_OUT);
    assert u[INPUT][0].target == Jump(VPN_IN6) && u[OUTPUT][0].target == Jump(VPN_OUT6);
  }

  lemma LastDrops(accepts: seq<Rule>)
    ensures exists i | 0 <= i < |accepts + [DropRule]| :: (accepts + [DropRule])[i].target == Drop
  {
    assert (accepts + [DropRule])[|accepts|].target == Drop;
  }

  // ---- Setup and Cleanup ----

  /** The chains of a policy, at each stage of Setup. */
  lemma StagesMeet(cfg: Config, e: Exempt, ts: Tails)
    requires !e.Held?
    ensures var p := Policy(cfg, e, None);
      var lo4, lo6 := [EstablishedRule, LoOutRule], [EstablishedRule, LoOutRule];
      && Stage4([EstablishedRule, LoInRule] + LanIns(cfg.lans4) + [DropRule],
                lo4 + [PiaOutRule, MarkRule] + LanOuts(cfg.lans4) +
                  [WanRule(GAITHERSBURG), WanRule(FORT_COLLINS)] + [DropRule], e, ts)
         == Table4(p, ts)
      && Stage6([EstablishedRule, LoInRule] + LanIns(cfg.lans6) + When(cfg.ipv6, Icmp6Rule) + [DropRule],
                lo6 + When(cfg.ipv6, PiaOutRule) + LanOuts(cfg.lans6) + When(cfg.ipv6, Icmp6Rule) + [DropRule], ts)
         == Table6(cfg, ts)
  {
    var p := Policy(cfg, e, None);
    assert [EstablishedRule, LoInRule] + LanIns(cfg.lans4) == InAccepts(p);
    assert OutChain(p) == OutAccepts(cfg) + [DropRule];
  }

  lemma LeftAccepts(t: Table, cin: Chain, cout: Chain, tin: seq<Rule>, tout: seq<Rule>)
    requires Prior(t, cin, cout, tin, tout)
    ensures LeftOver(t).Stale? ==> AllAccept(LeftOver(t).rules)
  {
  }

  /** Setup succeeds on anything an earlier run left, as long as no network is listed twice
      (the kernel refuses an equal rule); then the chains are exactly the policy's. */
  method Setup(fw: Firewall, cfg: Config, none: bool, ghost ts: Tails) returns (ok: bool)
    requires fw.ipt4 != fw.ipt6 && Outside(ts)
    requires Prior(fw.ipt4.table, VPN_IN, VPN_OUT, ts.in4, ts.out4)
    requires Prior(fw.ipt6.table, VPN_IN6, VPN_OUT6, ts.in6, ts.out6) && VPN_EXEMPTIONS !in fw.ipt6.table
    requires fw.kernel.Rendered()
    modifies fw, fw.ipt4, fw.ipt6, fw.kernel`rules, fw.kernel`view, fw.kernel`rules6, fw.kernel`view6
    ensures ok ==> fw.active && fw.Exact() && fw.tails == ts
                   && fw.policy.exempt == LeftOver(old(fw.ipt4.table)) && fw.policy.port == None
    ensures ok ==> fw.policy.cfg == if none then Config([], [], cfg.ipv6) else cfg
    ensures ok && !cfg.ipv6 ==> forall k: Packet | !k.established ::
      && (Passes(fw.ipt6.table, OUTPUT, k) <==> k.outIf == Lo || (!none && Covers(cfg.lans6, k.dst)))
      && (Passes(fw.ipt6.table, INPUT, k) <==> k.inIf == Lo || (!none && Covers(cfg.lans6, k.src)))
    ensures ok ==> fw.Closed() && fw.granted == Grants4(fw.policy) + Grants6(fw.policy.cfg)
    ensures fw.Reliable() ==> ok == (none || (Distinct(cfg.lans4) && Distinct(cfg.lans6)))
    ensures fw.kernel.Rendered()
    ensures fw.Reliable() && ok ==>
      && fw.kernel.view ==
          old(fw.kernel.view).(wan := WAN_CHECK_IPS, lans := if none then old(fw.kernel.view).lans else cfg.lans4)
      && fw.kernel.view6 == if none then old(fw.kernel.view6) else old(fw.kernel.view6).(lans := cfg.lans6)
  {
    hide Prior, Stage4, Stage6, Table4, Table6, Sealed, Render, Distinct, Grants4, Grants6, Present, Outside, Passes;
    ghost var left := LeftOver(fw.ipt4.table);
    var eff := if none then Config([], [], cfg.ipv6) else cfg;
    ok := SetupBaselineChains(fw, ts);
    if !ok { return; }
    ghost var base, lo := [EstablishedRule, LoInRule], [EstablishedRule, LoOutRule];
    assert Baseline(LoInRule) == base + LanIns([]) + [DropRule] == base + [DropRule];
    assert Baseline(LoOutRule) == lo + LanOuts([]) + [DropRule] == lo + [DropRule];
    if !none {
      ok := SetupLocalRoutes(fw.kernel, cfg.lans4, cfg.lans6);
      if !ok { return; }
      ok := SetupLocalRules4(fw.ipt4, cfg.lans4, base, lo, left, ts);
      if !ok { return; }
      ok := SetupLocalRules6(fw.ipt6, cfg.lans6, base, lo, ts);
      if !ok { return; }
    }
    ok := SetupTunnelRules(fw, eff, left, ts);
    if !ok { return; }
    StagesMeet(eff, left, ts);
    PolicyPresent(Policy(eff, left, None), ts);
    ghost var looks;
    ok, looks := VerifyKillswitch(fw);
    if !ok { return; }
    fw.active := true;
    fw.policy, fw.tails := Policy(eff, left, None), ts;
    fw.granted := Grants4(fw.policy) + Grants6(eff);
    LeftAccepts(old(fw.ipt4.table), VPN_IN, VPN_OUT, ts.in4, ts.out4);
    SetupSealed(fw.policy, ts, fw.granted);
    if !cfg.ipv6 { WithoutIPv6(fw.policy, ts); }
  }

  /** With IPv6 disabled only loopback and the listed networks are left of it. */
  lemma WithoutIPv6(p: Policy, ts: Tails)
    requires !p.cfg.ipv6
    ensures forall k: Packet | !k.established ::
      && (Passes(Table6(p.cfg, ts), OUTPUT, k) <==> k.outIf == Lo || Covers(p.cfg.lans6, k.dst))
      && (Passes(Table6(p.cfg, ts), INPUT, k) <==> k.inIf == Lo || Covers(p.cfg.lans6, k.src))
  {
    forall k: Packet | !k.established
      ensures Passes(Table6(p.cfg, ts), OUTPUT, k) <==> k.outIf == Lo || Covers(p.cfg.lans6, k.dst)
      ensures Passes(Table6(p.cfg, ts), INPUT, k) <==> k.inIf == Lo || Covers(p.cfg.lans6, k.src)
    {
      hide Passes;
      VerdictIsPolicy(p, ts, k);
    }
  }

  /** The steps after the LAN rules: tunnel, WAN checks, ICMPv6. */
  method SetupTunnelRules(fw: Firewall, cfg: Config, ghost left: Exempt, ghost ts: Tails) returns (ok: bool)
    requires fw.ipt4 != fw.ipt6 && fw.kernel.Rendered()
    requires fw.ipt4.table == Stage4([EstablishedRule, LoInRule] + LanIns(cfg.lans4) + [DropRule],
                                     [EstablishedRule, LoOutRule] + LanOuts(cfg.lans4) + [DropRule], left, ts)
    requires fw.ipt6.table == Stage6([EstablishedRule, LoInRule] + LanIns(cfg.lans6) + [DropRule],
                                     [EstablishedRule, LoOutRule] + LanOuts(cfg.lans6) + [DropRule], ts)
    modifies fw.ipt4`table, fw.ipt6`table, fw.kernel`rules, fw.kernel`view
    ensures ok ==>
      && fw.ipt4.table == Stage4([EstablishedRule, LoInRule] + LanIns(cfg.lans4) + [DropRule],
           [EstablishedRule, LoOutRule] + [PiaOutRule, MarkRule] + LanOuts(cfg.lans4)
           + [WanRule(GAITHERSBURG), WanRule(FORT_COLLINS)] + [DropRule], left, ts)
      && fw.ipt6.table == Stage6([EstablishedRule, LoInRule] + LanIns(cfg.lans6) +
          When(cfg.ipv6, Icmp6Rule) + [DropRule],
           [EstablishedRule, LoOutRule] + When(cfg.ipv6, PiaOutRule) + LanOuts(cfg.lans6)
           + When(cfg.ipv6, Icmp6Rule) + [DropRule], ts)
    ensures fw.Reliable() ==> ok
    ensures fw.kernel.Rendered() && fw.kernel.view.(wan := []) == old(fw.kernel.view).(wan := [])
    ensures fw.Reliable() ==> fw.kernel.view.wan == WAN_CHECK_IPS
  {
    hide Stage4, Stage6, Render;
    ghost var lo := [EstablishedRule, LoOutRule];
    ghost var a, b := [EstablishedRule, LoInRule] + LanIns(cfg.lans4), lo + [PiaOutRule, MarkRule] + LanOuts(cfg.lans4);
    ghost var a6, b6 := [EstablishedRule, LoInRule] + LanIns(cfg.lans6),
      lo + When(cfg.ipv6, PiaOutRule) + LanOuts(cfg.lans6);
    assert lo + LanOuts(cfg.lans4) + [DropRule] == lo + (LanOuts(cfg.lans4) + [DropRule]);
    assert lo + LanOuts(cfg.lans6) + [DropRule] == lo + (LanOuts(cfg.lans6) + [DropRule]);
    ok := AddVpn(fw, cfg.ipv6, a + [DropRule], LanOuts(cfg.lans4) + [DropRule], left,
                 a6 + [DropRule], LanOuts(cfg.lans6) + [DropRule], ts);
    if !ok { return; }
    assert lo + [PiaOutRule, MarkRule] + (LanOuts(cfg.lans4) + [DropRule]) == b + [DropRule];
    assert lo + When(cfg.ipv6, PiaOutRule) + (LanOuts(cfg.lans6) + [DropRule]) == b6 + [DropRule];
    ok := SetupBypassRoutes(fw.kernel);
    if !ok { return; }
    ok := InsertBypassRules(fw.ipt4, a + [DropRule], b, left, ts);
    if !ok { return; }
    if cfg.ipv6 {
      ok := InsertIcmp6(fw.ipt6, a6, b6, ts);
    } else {
      assert a6 + [] == a6 && b6 + [] == b6;
    }
  }

  lemma SetupSealed(p: Policy, ts: Tails, g: set<Rule>)
    requires p.exempt.Stale? ==> AllAccept(p.exempt.rules)
    requires g == Grants4(p) + Grants6(p.cfg)
    ensures Sealed(Table4(p, ts), VPN_IN, VPN_OUT, g) && Sealed(Table6(p.cfg, ts), VPN_IN6, VPN_OUT6, g)
  {
    hide Grants4, Grants6, Table4, Table6, Sealed;
    PolicySealed(p, ts);
    PolicySealed6(p.cfg, ts);
    MoreGranted(Table4(p, ts), VPN_IN, VPN_OUT, Grants4(p), g);
    MoreGranted(Table6(p.cfg, ts), VPN_IN6, VPN_OUT6, Grants6(p.cfg), g);
  }

  /** Whatever policy a run stopped in, its tables are a state Setup and Cleanup start from.
      An exemption bracket that was open is left over, unwired. */
  lemma PolicyPrior(p: Policy, ts: Tails)
    requires Outside(ts) && (p.exempt.Stale? ==> AllAccept(p.exempt.rules))
    ensures Prior(Table4(p, ts), VPN_IN, VPN_OUT, ts.in4, ts.out4)
    ensures Prior(Table6(p.cfg, ts), VPN_IN6, VPN_OUT6, ts.in6, ts.out6) && VPN_EXEMPTIONS !in Table6(p.cfg, ts)
    ensures LeftOver(Table4(p, ts)) == match p.exempt case Held(es) => Stale(ExemptRules(es)) case e => e
  {
    var t, u := Table4(p, ts), Table6(p.cfg, ts);
    BaselineFirst(p);
    AcceptsPrior(t, VPN_IN, [], InAccepts(p));
    AcceptsPrior(t, VPN_OUT, When(p.exempt.Held?, JumpTo(VPN_EXEMPTIONS)), OutAccepts(p.cfg));
    AcceptsPrior(u, VPN_IN6, [], In6Accepts(p.cfg));
    AcceptsPrior(u, VPN_OUT6, [], Out6Accepts(p.cfg));
  }

  lemma AcceptsPrior(t: Table, c: Chain, head: seq<Rule>, accepts: seq<Rule>)
    requires c in t && t[c] == head + accepts + [DropRule] && AllAccept(accepts)
    requires head == [] || head == [JumpTo(VPN_EXEMPTIONS)]
    ensures ChainPrior(t, c)
  {
  }

  /** Taking the killswitch down gives INPUT and OUTPUT back to whoever else uses them. */
  method Cleanup(fw: Firewall)
    requires fw.Exact() && fw.kernel.Rendered()
    requires fw.policy.exempt.Stale? ==> AllAccept(fw.policy.exempt.rules)
    modifies fw, fw.ipt4, fw.ipt6, fw.kernel`rules, fw.kernel`view, fw.kernel`rules6, fw.kernel`view6
    ensures !fw.active && fw.kernel.Rendered()
    ensures fw.Reliable() ==>
      && fw.ipt4.table == map[INPUT := old(fw.tails).in4, OUTPUT := old(fw.tails).out4]
      && fw.ipt6.table == map[INPUT := old(fw.tails).in6, OUTPUT := old(fw.tails).out6]
      && fw.kernel.view == old(fw.kernel.view).(wan := [], pia := [], guards := [], lans := [])
      && fw.kernel.view6 == old(fw.kernel.view6).(lans := [])
    ensures (fw.kernel.view.vpn, fw.kernel.view.suppress) == old((fw.kernel.view.vpn, fw.kernel.view.suppress))
  {
    hide Prior, Table4, Table6, Render, Outside, Sealed;
    ghost var ts := fw.tails;
    fw.active := false;
    RemovePiaRoutes(fw.kernel);
    CleanupLocalRoutes(fw.kernel);
    CleanupBypassRoutes(fw.kernel);
    PolicyPrior(fw.policy, ts);
    RemoveForCleanup(fw);
    CleanupChains(fw, ts);
    if fw.Reliable() {
      PriorIsBare(fw.ipt4.table, VPN_IN, VPN_OUT, ts.in4, ts.out4);
      PriorIsBare(fw.ipt6.table, VPN_IN6, VPN_OUT6, ts.in6, ts.out6);
    }
  }

  method RemoveForCleanup(fw: Firewall)
    requires fw.Exact() && (fw.policy.exempt.Stale? ==> AllAccept(fw.policy.exempt.rules))
    modifies fw.ipt4`table, fw`policy
    ensures Prior(fw.ipt4.table, VPN_IN, VPN_OUT, fw.tails.in4, fw.tails.out4)
    ensures fw.Reliable() ==> LeftOver(fw.ipt4.table) == Absent
  {
    hide Table4, Table6, Prior, LeftOver;
    PolicyPrior(fw.policy, fw.tails);
    ghost var t := fw.ipt4.table;
    fw.RemoveExemptions();
    PriorUnjumped(t, fw.tails);
    if FlushedFrom(Unjumped(t, true), fw.ipt4.table) { PriorFlushed(Unjumped(t, true), fw.ipt4.table, fw.tails); }
    else { PriorFlushed(t, fw.ipt4.table, fw.tails); }
    if fw.Reliable() { PolicyPrior(fw.policy, fw.tails); }
  }

  lemma PriorUnjumped(t: Table, ts: Tails)
    requires Prior(t, VPN_IN, VPN_OUT, ts.in4, ts.out4)
    ensures Prior(Unjumped(t, true), VPN_IN, VPN_OUT, ts.in4, ts.out4)
  {
    if VPN_OUT in t {
      var rs := Without(t[VPN_OUT], JumpTo(VPN_EXEMPTIONS));
      WithoutParts(t[VPN_OUT], JumpTo(VPN_EXEMPTIONS));
      forall i | 0 <= i < |rs| ensures rs[i].target.Jump? ==> rs[i].target.chain == VPN_EXEMPTIONS {
        assert rs[i] in t[VPN_OUT];
      }
    }
  }

  lemma PriorFlushed(t: Table, u: Table, ts: Tails)
    requires Prior(t, VPN_IN, VPN_OUT, ts.in4, ts.out4) && FlushedFrom(t, u)
    ensures Prior(u, VPN_IN, VPN_OUT, ts.in4, ts.out4)
  {
  }
}
