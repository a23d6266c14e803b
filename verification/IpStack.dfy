/** The kernel's side of policy routing: `ip rule`, the pia0 link and the one
    route of table 51820, with what each command does to the rendered view. */
module IpStack {
  import opened Netfilter
  import opened Routing
  import opened Sequences

  /** When `flaky`, a command may fail without effect; otherwise it fails only when
      the kernel must refuse it (an equal rule is already there, nothing to delete). */
  class Kernel {
    var rules: Rules
    var rules6: Rules
    var link: bool
    var up: bool
    var tunnel: bool
    const flaky: bool
    /** The rules again, as the lists they render. */
    ghost var view: View
    ghost var view6: View

    constructor (rules: Rules, rules6: Rules, flaky: bool)
      ensures this.rules == rules && this.rules6 == rules6 && !link && !up && !tunnel && this.flaky == flaky
    {
      this.rules, this.rules6, this.flaky, link, up, tunnel := rules, rules6, flaky, false, false, false;
    }

    ghost predicate Rendered()
      reads this
    {
      rules == Render(view) && rules6 == Render(view6)
    }

    /** Table 51820 has a route only while pia0 is there and up. */
    predicate Coherent()
      reads this
    {
      (tunnel ==> up) && (up ==> link)
    }

    method Glitch() returns (b: bool)
      ensures b ==> flaky
    {
      b := *;
      b := b && flaky;
    }

    method RuleAdd(r: PolicyRule) returns (ok: bool)
      modifies `rules
      ensures ok ==> r !in old(rules) && rules == Adding(old(rules), r)
      ensures !ok ==> rules == old(rules)
      ensures !flaky ==> ok == (r !in old(rules))
    {
      var glitch := Glitch();
      ok := !glitch && r !in rules;
      if ok { rules := Adding(rules, r); }
    }

    method RuleAdd6(r: PolicyRule) returns (ok: bool)
      modifies `rules6
      ensures ok ==> r !in old(rules6) && rules6 == Adding(old(rules6), r)
      ensures !ok ==> rules6 == old(rules6)
      ensures !flaky ==> ok == (r !in old(rules6))
    {
      var glitch := Glitch();
      ok := !glitch && r !in rules6;
      if ok { rules6 := Adding(rules6, r); }
    }

    method RuleDelPriority(p: nat) returns (ok: bool)
      modifies `rules
      ensures ok ==> HasPriority(old(rules), p) && rules == Deleting(old(rules), p)
      ensures !ok ==> rules == old(rules)
      ensures !flaky ==> ok == HasPriority(old(rules), p)
    {
      var glitch := Glitch();
      ok := !glitch && HasPriority(rules, p);
      if ok { rules := Deleting(rules, p); }
    }

    method RuleDelPriority6(p: nat) returns (ok: bool)
      modifies `rules6
      ensures ok ==> HasPriority(old(rules6), p) && rules6 == Deleting(old(rules6), p)
      ensures !ok ==> rules6 == old(rules6)
      ensures !flaky ==> ok == HasPriority(old(rules6), p)
    {
      var glitch := Glitch();
      ok := !glitch && HasPriority(rules6, p);
      if ok { rules6 := Deleting(rules6, p); }
    }

    method RuleDel(r: PolicyRule) returns (ok: bool)
      modifies `rules
      ensures ok ==> rules == Without(old(rules), r)
      ensures !ok ==> rules == old(rules)
      ensures !flaky ==> rules == Without(old(rules), r)
    {
      var glitch := Glitch();
      ok := !glitch && r in rules;
      if r !in rules { WithoutAbsent(rules, r); }
      if ok { rules := Without(rules, r); }
    }

    /** The commands for pia0 may also be refused for a reason of the kernel's own. */
    method LinkAdd() returns (ok: bool, ghost refused: bool)
      modifies `link
      ensures ok == (!refused && !old(link)) && link == (old(link) || ok)
    {
      var glitch: bool := *;
      refused := glitch;
      ok := !glitch && !link;
      if ok { link := true; }
    }

    method LinkSetUp() returns (ok: bool, ghost refused: bool)
      modifies `up
      ensures ok == (!refused && link) && up == (old(up) || ok)
    {
      var glitch: bool := *;
      refused := glitch;
      ok := !glitch && link;
      if ok { up := true; }
    }

    /** Taking the link down flushes its routes. */
    method LinkSetDown()
      modifies `up, `tunnel
      ensures (up, tunnel) == (false, false) || (up, tunnel) == old((up, tunnel))
      ensures !flaky && old(link) ==> (up, tunnel) == (false, false)
    {
      var glitch := Glitch();
      if !glitch && link { up, tunnel := false, false; }
    }

    method LinkDel()
      modifies `link, `up, `tunnel
      ensures (link, up, tunnel) == (false, false, false) || (link, up, tunnel) == old((link, up, tunnel))
      ensures !flaky && old(link) ==> (link, up, tunnel) == (false, false, false)
    {
      var glitch := Glitch();
      if !glitch && link { link, up, tunnel := false, false, false; }
    }

    method RouteAdd() returns (ok: bool, ghost refused: bool)
      modifies `tunnel
      ensures ok == (!refused && up && !old(tunnel)) && tunnel == (old(tunnel) || ok)
    {
      var glitch: bool := *;
      refused := glitch;
      ok := !glitch && up && !tunnel;
      if ok { tunnel := true; }
    }
  }

  // ---- What the commands do to the view ----

  predicate Below(rules: Rules, p: nat) { forall i | 0 <= i < |rules| :: rules[i].priority < p }
  predicate AtMost(rules: Rules, p: nat) { forall i | 0 <= i < |rules| :: rules[i].priority <= p }
  predicate Above(rules: Rules, p: nat) { forall i | 0 <= i < |rules| :: rules[i].priority > p }

  lemma {:induction false} AddingBetween(a: Rules, b: Rules, r: PolicyRule)
    requires AtMost(a, r.priority) && Above(b, r.priority)
    ensures Adding(a + b, r) == a + [r] + b
  {
    if a == [] {
      assert a + b == b && a + [r] + b == [r] + b;
      if b != [] { assert b[0].priority > r.priority; }
    } else {
      assert (a + b)[0] == a[0] && (a + b)[1..] == a[1..] + b;
      assert a[0].priority <= r.priority;
      AddingBetween(a[1..], b, r);
      assert a + [r] + b == [a[0]] + (a[1..] + [r] + b);
    }
  }

  lemma {:induction false} DeletingBetween(a: Rules, r: PolicyRule, b: Rules)
    requires Below(a, r.priority)
    ensures Deleting(a + [r] + b, r.priority) == a + b
    ensures HasPriority(a + [r] + b, r.priority)
  {
    assert (a + [r] + b)[|a|].priority == r.priority;
    if a == [] {
      assert a + [r] + b == [r] + b && a + b == b;
    } else {
      assert (a + [r] + b)[0] == a[0] && (a + [r] + b)[1..] == a[1..] + [r] + b;
      assert a[0].priority < r.priority;
      DeletingBetween(a[1..], r, b);
      assert a + b == [a[0]] + (a[1..] + b);
    }
  }

  // ---- Blocks of equal priority ----

  /** Each block holds rules of one priority, and the priorities go up. */
  predicate Ranked(bs: seq<Rules>, ps: seq<nat>) {
    && |bs| == |ps|
    && (forall i, j | 0 <= i < j < |ps| :: ps[i] < ps[j])
    && (forall i, j | 0 <= i < |bs| && 0 <= j < |bs[i]| :: bs[i][j].priority == ps[i])
  }

  lemma {:induction false} FlatConcat(a: seq<Rules>, b: seq<Rules>)
    ensures Flat(a + b) == Flat(a) + Flat(b)
  {
    if a == [] {
      assert a + b == b && Flat(a) + Flat(b) == Flat(b);
    } else {
      assert (a + b)[0] == a[0] && (a + b)[1..] == a[1..] + b;
      FlatConcat(a[1..], b);
      assert a[0] + (Flat(a[1..]) + Flat(b)) == (a[0] + Flat(a[1..])) + Flat(b);
    }
  }

  lemma {:induction false} FlatPriority(bs: seq<Rules>, ps: seq<nat>, k: nat)
    requires Ranked(bs, ps) && k < |Flat(bs)|
    ensures Flat(bs)[k].priority in ps
  {
    if k >= |bs[0]| { FlatPriority(bs[1..], ps[1..], k - |bs[0]|); }
  }

  lemma FlatUpdate(bs: seq<Rules>, i: nat, block: Rules)
    requires i < |bs|
    ensures Flat(bs[i := block]) == Flat(bs[..i]) + block + Flat(bs[i + 1..])
  {
    assert bs[i := block] == bs[..i] + ([block] + bs[i + 1..]);
    FlatConcat(bs[..i], [block] + bs[i + 1..]);
    assert ([block] + bs[i + 1..])[1..] == bs[i + 1..];
    assert Flat(bs[..i]) + (block + Flat(bs[i + 1..])) == Flat(bs[..i]) + block + Flat(bs[i + 1..]);
  }

  lemma FlatBounds(bs: seq<Rules>, ps: seq<nat>, i: nat)
    requires Ranked(bs, ps) && i < |bs|
    ensures Below(Flat(bs[..i]), ps[i]) && Above(Flat(bs[i + 1..]), ps[i])
  {
    var a, b := Flat(bs[..i]), Flat(bs[i + 1..]);
    forall k | 0 <= k < |a| ensures a[k].priority < ps[i] { FlatPriority(bs[..i], ps[..i], k); }
    forall k | 0 <= k < |b| ensures b[k].priority > ps[i] { FlatPriority(bs[i + 1..], ps[i + 1..], k); }
  }

  predicate Just(rules: Rules, p: nat) { forall i | 0 <= i < |rules| :: rules[i].priority == p }

  lemma AddingMiddle(a: Rules, m: Rules, b: Rules, r: PolicyRule)
    requires Below(a, r.priority) && Just(m, r.priority) && Above(b, r.priority)
    ensures Adding(a + m + b, r) == a + (m + [r]) + b
    ensures r in a + m + b <==> r in m
  {
    AddingBetween(a + m, b, r);
    assert (a + m) + [r] + b == a + (m + [r]) + b;
  }

  lemma DeletingMiddle(a: Rules, m: Rules, b: Rules, p: nat)
    requires Below(a, p) && Just(m, p) && Above(b, p)
    ensures HasPriority(a + m + b, p) <==> m != []
    ensures m != [] ==> Deleting(a + m + b, p) == a + m[1..] + b
  {
    if m != [] {
      assert a + m + b == a + [m[0]] + (m[1..] + b);
      DeletingBetween(a, m[0], m[1..] + b);
      assert a + (m[1..] + b) == a + m[1..] + b;
    }
  }

  lemma DeletingRuleMiddle(a: Rules, m: Rules, b: Rules, r: PolicyRule)
    requires Below(a, r.priority) && Just(m, r.priority) && Above(b, r.priority)
    ensures Without(a + m + b, r) == a + Without(m, r) + b
  {
    hide Without;
    assert a + m + b == a + (m + b);
    WithoutConcat(a, m + b, r);
    WithoutConcat(m, b, r);
    WithoutAbsent(b, r);
    if r !in m { WithoutAbsent(m, r); }
    assert a + (Without(m, r) + b) == a + Without(m, r) + b;
  }

  lemma AddToBlock(bs: seq<Rules>, ps: seq<nat>, i: nat, r: PolicyRule)
    requires Ranked(bs, ps) && i < |bs| && r.priority == ps[i]
    ensures Adding(Flat(bs), r) == Flat(bs[i := bs[i] + [r]])
    ensures r in Flat(bs) <==> r in bs[i]
  {
    FlatUpdate(bs, i, bs[i]);
    FlatUpdate(bs, i, bs[i] + [r]);
    FlatBounds(bs, ps, i);
    AddingMiddle(Flat(bs[..i]), bs[i], Flat(bs[i + 1..]), r);
    assert bs[i := bs[i]] == bs;
  }

  lemma DeleteFromBlock(bs: seq<Rules>, ps: seq<nat>, i: nat)
    requires Ranked(bs, ps) && i < |bs|
    ensures HasPriority(Flat(bs), ps[i]) <==> bs[i] != []
    ensures bs[i] != [] ==> Deleting(Flat(bs), ps[i]) == Flat(bs[i := bs[i][1..]])
  {
    FlatUpdate(bs, i, bs[i]);
    if bs[i] != [] { FlatUpdate(bs, i, bs[i][1..]); }
    FlatBounds(bs, ps, i);
    DeletingMiddle(Flat(bs[..i]), bs[i], Flat(bs[i + 1..]), ps[i]);
    assert bs[i := bs[i]] == bs;
  }

  lemma DeleteRuleFromBlock(bs: seq<Rules>, ps: seq<nat>, i: nat, r: PolicyRule)
    requires Ranked(bs, ps) && i < |bs| && r.priority == ps[i]
    ensures Without(Flat(bs), r) == Flat(bs[i := Without(bs[i], r)])
  {
    FlatUpdate(bs, i, bs[i]);
    FlatUpdate(bs, i, Without(bs[i], r));
    FlatBounds(bs, ps, i);
    DeletingRuleMiddle(Flat(bs[..i]), bs[i], Flat(bs[i + 1..]), r);
    assert bs[i := bs[i]] == bs;
  }

  lemma ViewRanked(v: View)
    ensures Ranked(Blocks(v), PRIORITIES)
  {
  }

  lemma AddBypass(v: View, a: Addr)
    ensures Adding(Render(v), BypassRule(a)) == Render(v.(wan := v.wan + [a]))
    ensures BypassRule(a) in Render(v) <==> a in v.wan
  {
    var w := v.(wan := v.wan + [a]);
    ViewRanked(v);
    AddToBlock(Blocks(v), PRIORITIES, 1, BypassRule(a));
    assert Bypasses(w.wan) == Bypasses(v.wan) + [BypassRule(a)];
    assert Blocks(w) == Blocks(v)[1 := Bypasses(v.wan) + [BypassRule(a)]];
    if a in v.wan {
      var i :| 0 <= i < |v.wan| && v.wan[i] == a;
      assert Bypasses(v.wan)[i] == BypassRule(a);
    }
  }

  lemma AddPia(v: View, a: Addr)
    ensures Adding(Render(v), PiaRule(a)) == Render(v.(pia := v.pia + [a]))
    ensures PiaRule(a) in Render(v) <==> a in v.pia
  {
    var w := v.(pia := v.pia + [a]);
    ViewRanked(v);
    AddToBlock(Blocks(v), PRIORITIES, 2, PiaRule(a));
    assert Pias(w.pia) == Pias(v.pia) + [PiaRule(a)];
    assert Blocks(w) == Blocks(v)[2 := Pias(v.pia) + [PiaRule(a)]];
    if a in v.pia {
      var i :| 0 <= i < |v.pia| && v.pia[i] == a;
      assert Pias(v.pia)[i] == PiaRule(a);
    }
  }

  lemma AddGuard(v: View, a: Addr)
    ensures Adding(Render(v), GuardRule(a)) == Render(v.(guards := v.guards + [a]))
    ensures GuardRule(a) in Render(v) <==> a in v.guards
  {
    var w := v.(guards := v.guards + [a]);
    ViewRanked(v);
    AddToBlock(Blocks(v), PRIORITIES, 3, GuardRule(a));
    assert Guards(w.guards) == Guards(v.guards) + [GuardRule(a)];
    assert Blocks(w) == Blocks(v)[3 := Guards(v.guards) + [GuardRule(a)]];
    if a in v.guards {
      var i :| 0 <= i < |v.guards| && v.guards[i] == a;
      assert Guards(v.guards)[i] == GuardRule(a);
    }
  }

  lemma AddLan(v: View, a: Net)
    ensures Adding(Render(v), LanRule(a)) == Render(v.(lans := v.lans + [a]))
    ensures LanRule(a) in Render(v) <==> a in v.lans
  {
    var w := v.(lans := v.lans + [a]);
    ViewRanked(v);
    AddToBlock(Blocks(v), PRIORITIES, 4, LanRule(a));
    assert Lans(w.lans) == Lans(v.lans) + [LanRule(a)];
    assert Blocks(w) == Blocks(v)[4 := Lans(v.lans) + [LanRule(a)]];
    if a in v.lans {
      var i :| 0 <= i < |v.lans| && v.lans[i] == a;
      assert Lans(v.lans)[i] == LanRule(a);
    }
  }

  lemma AddVpnRule(v: View)
    ensures !v.vpn ==> Adding(Render(v), VpnRule) == Render(v.(vpn := true))
    ensures VpnRule in Render(v) <==> v.vpn
  {
    ViewRanked(v);
    AddToBlock(Blocks(v), PRIORITIES, 5, VpnRule);
    if !v.vpn {
      assert If(v.vpn, VpnRule) + [VpnRule] == If(true, VpnRule);
      assert Blocks(v.(vpn := true)) == Blocks(v)[5 := If(true, VpnRule)];
    }
  }

  lemma AddSuppressRule(v: View)
    ensures !v.suppress ==> Adding(Render(v), SuppressRule) == Render(v.(suppress := true))
    ensures SuppressRule in Render(v) <==> v.suppress
  {
    ViewRanked(v);
    AddToBlock(Blocks(v), PRIORITIES, 6, SuppressRule);
    if !v.suppress {
      assert If(v.suppress, SuppressRule) + [SuppressRule] == If(true, SuppressRule);
      assert Blocks(v.(suppress := true)) == Blocks(v)[6 := If(true, SuppressRule)];
    }
  }

  /** What deleting the first rule of a priority leaves of the view. */
  function Cut(v: View, p: nat): View {
    if p == PRIORITY_BYPASS && v.wan != [] then v.(wan := v.wan[1..])
    else if p == PRIORITY_PIA && v.pia != [] then v.(pia := v.pia[1..])
    else if p == PRIORITY_PIA_GUARD && v.guards != [] then v.(guards := v.guards[1..])
    else if p == PRIORITY_LOCAL_NET && v.lans != [] then v.(lans := v.lans[1..])
    else if p == PRIORITY_VPN then v.(vpn := false)
    else if p == PRIORITY_SUPPRESS then v.(suppress := false)
    else v
  }

  /** The number of rules at one of pia-tun's priorities. */
  function Count(v: View, p: nat): nat {
    if p == PRIORITY_BYPASS then |v.wan| else if p == PRIORITY_PIA then |v.pia|
    else if p == PRIORITY_PIA_GUARD then |v.guards| else if p == PRIORITY_LOCAL_NET then |v.lans|
    else if p == PRIORITY_VPN then (if v.vpn then 1 else 0)
    else if p == PRIORITY_SUPPRESS then (if v.suppress then 1 else 0) else 0
  }

  /** What deleting every rule of a priority leaves of the view. */
  function Emptied(v: View, p: nat): View {
    if p == PRIORITY_BYPASS then v.(wan := []) else if p == PRIORITY_PIA then v.(pia := [])
    else if p == PRIORITY_PIA_GUARD then v.(guards := []) else if p == PRIORITY_LOCAL_NET then v.(lans := [])
    else if p == PRIORITY_VPN then v.(vpn := false)
    else if p == PRIORITY_SUPPRESS then v.(suppress := false) else v
  }

  predicate Ours(p: nat) {
    p in {PRIORITY_BYPASS, PRIORITY_PIA, PRIORITY_PIA_GUARD, PRIORITY_LOCAL_NET, PRIORITY_VPN, PRIORITY_SUPPRESS}
  }

  function BlockOf(p: nat): (i: nat)
    requires Ours(p)
    ensures 0 < i < 7 && PRIORITIES[i] == p
  {
    if p == PRIORITY_BYPASS then 1 else if p == PRIORITY_PIA then 2 else if p == PRIORITY_PIA_GUARD then 3
    else if p == PRIORITY_LOCAL_NET then 4 else if p == PRIORITY_VPN then 5 else 6
  }

  /** `ip rule del priority p` fails exactly when the view has no such rule, and otherwise
      takes the oldest one; repeating it empties the block. */
  lemma DeleteFromView(v: View, p: nat)
    requires Ours(p)
    ensures HasPriority(Render(v), p) <==> Count(v, p) > 0
    ensures Count(v, p) > 0 ==> Deleting(Render(v), p) == Render(Cut(v, p)) && Count(Cut(v, p), p) == Count(v, p) - 1
    ensures Emptied(Cut(v, p), p) == Emptied(v, p)
    ensures Count(v, p) == 0 ==> v == Emptied(v, p)
  {
    hide Blocks, Flat, HasPriority, Deleting;
    ViewRanked(v);
    DeleteFromBlock(Blocks(v), PRIORITIES, BlockOf(p));
    CutBlock(v, p);
  }

  lemma CutAddsNothing(v: View, p: nat)
    ensures forall a | a in Cut(v, p).pia :: a in v.pia
  {
  }

  lemma CutBlock(v: View, p: nat)
    requires Ours(p)
    ensures |Blocks(v)[BlockOf(p)]| == Count(v, p)
    ensures Count(v, p) > 0 ==> Blocks(Cut(v, p)) == Blocks(v)[BlockOf(p) := Blocks(v)[BlockOf(p)][1..]]
  {
    if Count(v, p) > 0 {
      var i := BlockOf(p);
      assert Blocks(Cut(v, p))[i] == Blocks(v)[i][1..];
    }
  }

  lemma {:induction false} DeleteFromPias(xs: seq<Addr>, a: Addr)
    ensures Without(Pias(xs), PiaRule(a)) == Pias(Without(xs, a))
  {
    if xs != [] {
      assert Pias(xs)[1..] == Pias(xs[1..]);
      DeleteFromPias(xs[1..], a);
      if xs[0] != a {
        assert Pias(Without(xs, a)) == [PiaRule(xs[0])] + Pias(Without(xs[1..], a));
      }
    }
  }

  /** Deleting one lookup rule takes the first equal one and nothing else. */
  lemma DeletePia(v: View, a: Addr)
    ensures Without(Render(v), PiaRule(a)) == Render(v.(pia := Without(v.pia, a)))
  {
    ViewRanked(v);
    DeleteRuleFromBlock(Blocks(v), PRIORITIES, 2, PiaRule(a));
    DeleteFromPias(v.pia, a);
    assert Blocks(v.(pia := Without(v.pia, a))) == Blocks(v)[2 := Pias(Without(v.pia, a))];
  }
}
