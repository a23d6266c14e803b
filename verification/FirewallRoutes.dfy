/** The routing rules the firewall adds and removes around the tunnel. */
module FirewallRoutes {
  import opened Wrappers
  import opened Netfilter
  import opened Routing
  import opened Sequences
  import opened IpStack
  import opened Policy

  /** `ip rule del priority p` until it fails.  Rules at other priorities stay as they were. */
  method DeleteAll(k: Kernel, p: nat)
    requires k.Rendered() && Ours(p)
    modifies k`rules, k`view
    ensures k.Rendered()
    ensures Emptied(k.view, p) == Emptied(old(k.view), p)
    ensures forall a | a in k.view.pia :: a in old(k.view.pia)
    ensures !k.flaky ==> k.view == Emptied(old(k.view), p)
  {
    hide Render, Cut, Emptied, HasPriority, Deleting;
    var ok := true;
    while ok
      invariant k.Rendered()
      invariant Emptied(k.view, p) == Emptied(old(k.view), p)
      invariant forall a | a in k.view.pia :: a in old(k.view.pia)
      invariant !ok && !k.flaky ==> Count(k.view, p) == 0
      decreases ok, Count(k.view, p)
    {
      DeleteFromView(k.view, p);
      CutAddsNothing(k.view, p);
      ok := k.RuleDelPriority(p);
      if ok { k.view := Cut(k.view, p); }
    }
    DeleteFromView(k.view, p);
  }

  method DeleteAll6(k: Kernel, p: nat)
    requires k.Rendered() && Ours(p)
    modifies k`rules6, k`view6
    ensures k.Rendered()
    ensures Emptied(k.view6, p) == Emptied(old(k.view6), p)
    ensures !k.flaky ==> k.view6 == Emptied(old(k.view6), p)
  {
    hide Render, Cut, Emptied, HasPriority, Deleting;
    var ok := true;
    while ok
      invariant k.Rendered()
      invariant Emptied(k.view6, p) == Emptied(old(k.view6), p)
      invariant !ok && !k.flaky ==> Count(k.view6, p) == 0
      decreases ok, Count(k.view6, p)
    {
      DeleteFromView(k.view6, p);
      ok := k.RuleDelPriority6(p);
      if ok { k.view6 := Cut(k.view6, p); }
    }
    DeleteFromView(k.view6, p);
  }

  method RemovePiaRoutes(k: Kernel)
    requires k.Rendered()
    modifies k`rules, k`view
    ensures k.Rendered()
    ensures k.view.(pia := [], guards := []) == old(k.view).(pia := [], guards := [])
    ensures forall a | a in k.view.pia :: a in old(k.view.pia)
    ensures !k.flaky ==> k.view == old(k.view).(pia := [], guards := [])
  {
    DeleteAll(k, PRIORITY_PIA_GUARD);
    DeleteAll(k, PRIORITY_PIA);
  }

  function Written(xs: seq<Addr>): seq<Address> { seq(|xs|, i requires 0 <= i < |xs| => Numeric(xs[i])) }

  lemma WrittenMore(xs: seq<Addr>, a: Addr)
    ensures Written(xs + [a]) == Written(xs) + [Numeric(a)]
    ensures a in xs <==> Numeric(a) in Written(xs)
  {
    if a in xs {
      var i :| 0 <= i < |xs| && xs[i] == a;
      assert Written(xs)[i] == Numeric(a);
    }
  }

  /** The guard goes in before the lookup, so an address is never looked up unguarded. */
  method AddPiaDnsRoutes(k: Kernel, dns: seq<Address>) returns (ok: bool)
    requires k.Rendered()
    modifies k`rules, k`view
    ensures k.Rendered()
    ensures k.view.(pia := [], guards := []) == old(k.view).(pia := [], guards := [])
    ensures ok ==> forall a | a in dns :: a.Numeric? && a.a in k.view.pia && a.a in k.view.guards
    ensures forall a | a in k.view.pia :: a in k.view.guards || a in old(k.view.pia)
    ensures !k.flaky ==> ok == (Distinct(dns) && Unparsable !in dns)
    ensures !k.flaky && ok ==> Written(k.view.pia) == dns && k.view.guards == k.view.pia
  {
    hide Render, Adding, Written;
    RemovePiaRoutes(k);
    var i := 0;
    WrittenNone();
    while i < |dns|
      invariant 0 <= i <= |dns|
      invariant k.Rendered()
      invariant k.view.(pia := [], guards := []) == old(k.view).(pia := [], guards := [])
      invariant forall j | 0 <= j < i :: dns[j].Numeric? && dns[j].a in k.view.pia && dns[j].a in k.view.guards
      invariant forall a | a in k.view.pia :: a in k.view.guards || a in old(k.view.pia)
      invariant !k.flaky ==> Written(k.view.pia) == dns[..i] && k.view.guards == k.view.pia && Distinct(dns[..i])
    {
      DistinctPrefix(dns, i);
      if dns[i].Unparsable? { return false; }
      var a := dns[i].a;
      WrittenMore(k.view.pia, a);
      AddGuard(k.view, a);
      ok := k.RuleAdd(GuardRule(a));
      if !ok { return; }
      k.view := k.view.(guards := k.view.guards + [a]);
      AddPia(k.view, a);
      ok := k.RuleAdd(PiaRule(a));
      if !ok { return; }
      k.view := k.view.(pia := k.view.pia + [a]);
      i := i + 1;
    }
    ok := true;
  }

  lemma WrittenNone()
    ensures Written([]) == []
  {
  }

  method AddPfRoute(k: Kernel, gateway: Addr) returns (ok: bool)
    requires k.Rendered()
    modifies k`rules, k`view
    ensures k.Rendered()
    ensures k.view == if ok then old(k.view).(pia := old(k.view).pia + [gateway]) else old(k.view)
    ensures !k.flaky ==> ok == (gateway !in old(k.view).pia)
    ensures ok ==> gateway !in old(k.view).pia
  {
    hide Render, Adding;
    AddPia(k.view, gateway);
    ok := k.RuleAdd(PiaRule(gateway));
    if ok { k.view := k.view.(pia := k.view.pia + [gateway]); }
  }

  /** Takes one lookup rule for the gateway.  No guard rule is ever touched. */
  method RemovePfRoute(k: Kernel, gateway: Option<Addr>)
    requires k.Rendered()
    modifies k`rules, k`view
    ensures k.Rendered()
    ensures k.view == old(k.view) || (gateway.Some? &&
        k.view == old(k.view).(pia := Without(old(k.view).pia, gateway.value)))
    ensures !k.flaky && gateway.Some? ==> k.view == old(k.view).(pia := Without(old(k.view).pia, gateway.value))
  {
    hide Render, Without;
    if gateway.None? { return; }
    DeletePia(k.view, gateway.value);
    var ok := k.RuleDel(PiaRule(gateway.value));
    if ok || !k.flaky { k.view := k.view.(pia := Without(k.view.pia, gateway.value)); }
  }

  method CleanupLocalRoutes(k: Kernel)
    requires k.Rendered()
    modifies k`rules, k`view, k`rules6, k`view6
    ensures k.Rendered()
    ensures k.view.(lans := []) == old(k.view).(lans := []) && k.view6.(lans := []) == old(k.view6).(lans := [])
    ensures !k.flaky ==> k.view == old(k.view).(lans := []) && k.view6 == old(k.view6).(lans := [])
  {
    DeleteAll(k, PRIORITY_LOCAL_NET);
    DeleteAll6(k, PRIORITY_LOCAL_NET);
  }

  method SetupLocalRoutes(k: Kernel, lans4: seq<Net>, lans6: seq<Net>) returns (ok: bool)
    requires k.Rendered()
    modifies k`rules, k`view, k`rules6, k`view6
    ensures k.Rendered()
    ensures k.view.(lans := []) == old(k.view).(lans := []) && k.view6.(lans := []) == old(k.view6).(lans := [])
    ensures ok ==> forall n | n in lans4 :: n in k.view.lans
    ensures !k.flaky ==> ok == (Distinct(lans4) && Distinct(lans6))
    ensures !k.flaky && ok ==> k.view.lans == lans4 && k.view6.lans == lans6
  {
    CleanupLocalRoutes(k);
    ok := AddLans(k, lans4);
    if !ok { return; }
    ok := AddLans6(k, lans6);
  }

  method AddLans(k: Kernel, lans: seq<Net>) returns (ok: bool)
    requires k.Rendered() && (!k.flaky ==> k.view.lans == [])
    modifies k`rules, k`view
    ensures k.Rendered() && k.view.(lans := []) == old(k.view).(lans := [])
    ensures ok ==> forall n | n in lans :: n in k.view.lans
    ensures !k.flaky ==> ok == Distinct(lans) && (ok ==> k.view.lans == lans)
  {
    hide Render, Adding;
    var i := 0;
    while i < |lans|
      invariant 0 <= i <= |lans|
      invariant k.Rendered() && k.view.(lans := []) == old(k.view).(lans := [])
      invariant forall j | 0 <= j < i :: lans[j] in k.view.lans
      invariant !k.flaky ==> k.view.lans == lans[..i] && Distinct(lans[..i])
    {
      DistinctPrefix(lans, i);
      AddLan(k.view, lans[i]);
      ok := k.RuleAdd(LanRule(lans[i]));
      if !ok { return; }
      k.view := k.view.(lans := k.view.lans + [lans[i]]);
      i := i + 1;
    }
    ok := true;
  }

  method AddLans6(k: Kernel, lans: seq<Net>) returns (ok: bool)
    requires k.Rendered() && (!k.flaky ==> k.view6.lans == [])
    modifies k`rules6, k`view6
    ensures k.Rendered() && k.view6.(lans := []) == old(k.view6).(lans := [])
    ensures !k.flaky ==> ok == Distinct(lans) && (ok ==> k.view6.lans == lans)
  {
    hide Render, Adding;
    var i := 0;
    while i < |lans|
      invariant 0 <= i <= |lans|
      invariant k.Rendered() && k.view6.(lans := []) == old(k.view6).(lans := [])
      invariant !k.flaky ==> k.view6.lans == lans[..i] && Distinct(lans[..i])
    {
      DistinctPrefix(lans, i);
      AddLan(k.view6, lans[i]);
      ok := k.RuleAdd6(LanRule(lans[i]));
      if !ok { return; }
      k.view6 := k.view6.(lans := k.view6.lans + [lans[i]]);
      i := i + 1;
    }
    ok := true;
  }

  method CleanupBypassRoutes(k: Kernel)
    requires k.Rendered()
    modifies k`rules, k`view
    ensures k.Rendered() && k.view.(wan := []) == old(k.view).(wan := [])
    ensures !k.flaky ==> k.view == old(k.view).(wan := [])
  {
    DeleteAll(k, PRIORITY_BYPASS);
  }

  method SetupBypassRoutes(k: Kernel) returns (ok: bool)
    requires k.Rendered()
    modifies k`rules, k`view
    ensures k.Rendered() && k.view.(wan := []) == old(k.view).(wan := [])
    ensures ok ==> forall a | a in WAN_CHECK_IPS :: a in k.view.wan
    ensures !k.flaky ==> ok && k.view.wan == WAN_CHECK_IPS
  {
    hide Render, Adding;
    CleanupBypassRoutes(k);
    var i := 0;
    while i < |WAN_CHECK_IPS|
      invariant 0 <= i <= |WAN_CHECK_IPS|
      invariant k.Rendered() && k.view.(wan := []) == old(k.view).(wan := [])
      invariant forall j | 0 <= j < i :: WAN_CHECK_IPS[j] in k.view.wan
      invariant !k.flaky ==> k.view.wan == WAN_CHECK_IPS[..i]
    {
      DistinctPrefix(WAN_CHECK_IPS, i);
      AddBypass(k.view, WAN_CHECK_IPS[i]);
      ok := k.RuleAdd(BypassRule(WAN_CHECK_IPS[i]));
      if !ok { return; }
      k.view := k.view.(wan := k.view.wan + [WAN_CHECK_IPS[i]]);
      i := i + 1;
    }
    ok := true;
  }
}
