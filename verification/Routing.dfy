/** IPv4 policy routing: rules by priority, the first one whose table has a route
    decides.  Table 51820 holds the default route through pia0, which the kernel
    drops together with the interface. */
module Routing {
  import opened Wrappers
  import opened Netfilter

  const PRIORITY_BYPASS := 50
  const PRIORITY_PIA := 75
  const PRIORITY_PIA_GUARD := 76
  const PRIORITY_LOCAL_NET := 100
  const PRIORITY_VPN := 200
  const PRIORITY_SUPPRESS := 300
  const FWMARK := 51820

  /** Vpn is table 51820. */
  datatype RouteTable = Local | Main | Vpn | Default

  datatype Selector = Any | To(net: Net) | NotFwmark(mark: nat)

  /** LookupSpecific is `lookup main suppress_prefixlength 0`: every route but the default. */
  datatype Action = Lookup(table: RouteTable) | LookupSpecific | Unreachable

  datatype PolicyRule = PolicyRule(priority: nat, selector: Selector, action: Action)

  type Rules = seq<PolicyRule>

  /** What the routing tables hold; `tunnel` is the default route of table 51820. */
  datatype Tables = Tables(local: seq<Net>, connected: seq<(Net, Iface)>, gateway: Option<Iface>, tunnel: bool)

  datatype Dest = Via(iface: Iface) | Refused | NoRoute

  predicate Covers(nets: seq<Net>, a: Addr) { exists i | 0 <= i < |nets| :: nets[i].Contains(a) }

  function Specific(connected: seq<(Net, Iface)>, dst: Addr): (d: Option<Dest>)
    ensures d.Some? ==> d.value.Via?
  {
    if connected == [] then None
    else if connected[0].0.Contains(dst) then Some(Via(connected[0].1))
    else Specific(connected[1..], dst)
  }

  function InMain(t: Tables, dst: Addr): (d: Option<Dest>)
    ensures d.Some? ==> d.value.Via?
  {
    if Specific(t.connected, dst).Some? then Specific(t.connected, dst)
    else if t.gateway.Some? then Some(Via(t.gateway.value))
    else None
  }

  function Find(t: Tables, table: RouteTable, dst: Addr): Option<Dest> {
    match table
    case Local => if Covers(t.local, dst) then Some(Via(Lo)) else None
    case Main => InMain(t, dst)
    case Vpn => if t.tunnel then Some(Via(Pia0)) else None
    case Default => None
  }

  predicate Selects(s: Selector, dst: Addr, mark: nat) {
    match s
    case Any => true
    case To(net) => net.Contains(dst)
    case NotFwmark(m) => mark != m
  }

  /** What one rule decides; None falls through to the next. */
  function Decide(r: PolicyRule, t: Tables, dst: Addr, mark: nat): Option<Dest> {
    if !Selects(r.selector, dst, mark) then None
    else match r.action
      case Lookup(table) => Find(t, table, dst)
      case LookupSpecific => Specific(t.connected, dst)
      case Unreachable => Some(Refused)
  }

  function Route(rules: Rules, t: Tables, dst: Addr, mark: nat): Dest {
    if rules == [] then NoRoute
    else
      var d := Decide(rules[0], t, dst, mark);
      if d.Some? then d.value else Route(rules[1..], t, dst, mark)
  }

  // ---- ip rule, on values ----

  /** Rules stay sorted by priority; a new one goes behind its equals. */
  function Adding(rules: Rules, r: PolicyRule): Rules {
    if rules == [] || rules[0].priority > r.priority then [r] + rules
    else [rules[0]] + Adding(rules[1..], r)
  }

  function Deleting(rules: Rules, p: nat): Rules {
    if rules == [] then []
    else if rules[0].priority == p then rules[1..]
    else [rules[0]] + Deleting(rules[1..], p)
  }

  predicate HasPriority(rules: Rules, p: nat) { exists i | 0 <= i < |rules| :: rules[i].priority == p }

  // ---- The rules pia-tun keeps, as a view ----

  datatype View = View(wan: seq<Addr>, pia: seq<Addr>, guards: seq<Addr>, lans: seq<Net>, vpn: bool, suppress: bool)

  function BypassRule(a: Addr): PolicyRule { PolicyRule(PRIORITY_BYPASS, To(Host(a)), Lookup(Main)) }
  function PiaRule(a: Addr): PolicyRule { PolicyRule(PRIORITY_PIA, To(Host(a)), Lookup(Vpn)) }
  function GuardRule(a: Addr): PolicyRule { PolicyRule(PRIORITY_PIA_GUARD, To(Host(a)), Unreachable) }
  function LanRule(n: Net): PolicyRule { PolicyRule(PRIORITY_LOCAL_NET, To(n), Lookup(Main)) }
  const VpnRule := PolicyRule(PRIORITY_VPN, NotFwmark(FWMARK), Lookup(Vpn))
  const SuppressRule := PolicyRule(PRIORITY_SUPPRESS, Any, LookupSpecific)
  const LocalRule := PolicyRule(0, Any, Lookup(Local))
  const MainRule := PolicyRule(32766, Any, Lookup(Main))
  const DefaultRule := PolicyRule(32767, Any, Lookup(Default))

  function Bypasses(xs: seq<Addr>): Rules { seq(|xs|, i requires 0 <= i < |xs| => BypassRule(xs[i])) }
  function Pias(xs: seq<Addr>): Rules { seq(|xs|, i requires 0 <= i < |xs| => PiaRule(xs[i])) }
  function Guards(xs: seq<Addr>): Rules { seq(|xs|, i requires 0 <= i < |xs| => GuardRule(xs[i])) }
  function Lans(xs: seq<Net>): Rules { seq(|xs|, i requires 0 <= i < |xs| => LanRule(xs[i])) }
  function If(b: bool, r: PolicyRule): Rules { if b then [r] else [] }

  /** The priorities in use, in the order the kernel keeps them; block i of the view holds those of PRIORITIES[i]. */
  const PRIORITIES: seq<nat> := [0, 50, 75, 76, 100, 200, 300, 32766, 32767]

  function Blocks(v: View): seq<Rules> {
    [[LocalRule], Bypasses(v.wan), Pias(v.pia), Guards(v.guards), Lans(v.lans),
     If(v.vpn, VpnRule), If(v.suppress, SuppressRule), [MainRule], [DefaultRule]]
  }

  function Flat(blocks: seq<Rules>): Rules {
    if blocks == [] then [] else blocks[0] + Flat(blocks[1..])
  }

  function Render(v: View): Rules { Flat(Blocks(v)) }

  /** The rendered rules from block `i` on. */
  function From(v: View, i: nat): Rules
    requires i <= 9
  {
    Flat(Blocks(v)[i..])
  }

  lemma Peel(v: View, i: nat)
    requires i < 9
    ensures From(v, i) == Blocks(v)[i] + From(v, i + 1)
  {
  }

  /** Where the rendered rules send a packet, said by cases on its destination. */
  function RouteSpec(v: View, t: Tables, dst: Addr, mark: nat): Dest {
    var main := InMain(t, dst);
    if Covers(t.local, dst) then Via(Lo)
    else if dst in v.wan && main.Some? then main.value
    else if dst in v.pia && t.tunnel then Via(Pia0)
    else if dst in v.guards then Refused
    else if Covers(v.lans, dst) && main.Some? then main.value
    else if v.vpn && mark != 51820 && t.tunnel then Via(Pia0)
    else if main.Some? then main.value
    else NoRoute
  }

  lemma {:induction false} RouteConcat(a: Rules, b: Rules, t: Tables, dst: Addr, mark: nat)
    ensures Route(a + b, t, dst, mark)
         == if Silent(a, t, dst, mark) then Route(b, t, dst, mark) else Route(a, t, dst, mark)
  {
    if a == [] {
      assert a + b == b;
    } else {
      assert (a + b)[0] == a[0] && (a + b)[1..] == a[1..] + b;
      RouteConcat(a[1..], b, t, dst, mark);
      if Decide(a[0], t, dst, mark).None? {
        assert Silent(a, t, dst, mark) == Silent(a[1..], t, dst, mark) by {
          if Silent(a[1..], t, dst, mark) {
            forall i | 0 <= i < |a| ensures Decide(a[i], t, dst, mark).None? {
              if i > 0 { assert a[i] == a[1..][i - 1]; }
            }
          }
        }
      }
    }
  }

  predicate Silent(rules: Rules, t: Tables, dst: Addr, mark: nat) {
    forall i | 0 <= i < |rules| :: Decide(rules[i], t, dst, mark).None?
  }

  /** A block of rules that, when it decides, always decides the same. */
  lemma {:induction false} RouteUniform(rules: Rules, t: Tables, dst: Addr, mark: nat, d: Dest)
    requires forall i | 0 <= i < |rules| :: Decide(rules[i], t, dst, mark) in {None, Some(d)}
    requires !Silent(rules, t, dst, mark)
    ensures Route(rules, t, dst, mark) == d
  {
    if Decide(rules[0], t, dst, mark).None? {
      var i :| 0 <= i < |rules| && Decide(rules[i], t, dst, mark).Some?;
      assert rules[1..][i - 1] == rules[i];
      RouteUniform(rules[1..], t, dst, mark, d);
    }
  }

  /** One block of `to` rules in front of the rest. */
  lemma RouteBlock(block: Rules, rest: Rules, t: Tables, dst: Addr, mark: nat, hit: bool, d: Option<Dest>)
    requires forall i | 0 <= i < |block| ::
        Decide(block[i], t, dst, mark) == None || (hit && Decide(block[i], t, dst, mark) == d)
    requires hit ==> exists i | 0 <= i < |block| :: Decide(block[i], t, dst, mark) == d
    ensures Route(block + rest, t, dst, mark) == if hit && d.Some? then d.value else Route(rest, t, dst, mark)
  {
    RouteConcat(block, rest, t, dst, mark);
    if hit && d.Some? {
      RouteUniform(block, t, dst, mark, d.value);
    }
  }

  lemma RouteOptional(b: bool, r: PolicyRule, rest: Rules, t: Tables, dst: Addr, mark: nat)
    ensures Route(If(b, r) + rest, t, dst, mark)
         == if b && Decide(r, t, dst, mark).Some? then Decide(r, t, dst, mark).value else Route(rest, t, dst, mark)
  {
    var all := If(b, r) + rest;
    if b { assert all[0] == r && all[1..] == rest; } else { assert all == rest; }
  }

  lemma RouteTail(v: View, t: Tables, dst: Addr, mark: nat)
    ensures Route(From(v, 7), t, dst, mark) == if InMain(t, dst).Some? then InMain(t, dst).value else NoRoute
  {
    Peel(v, 7);
    Peel(v, 8);
    assert From(v, 9) == [];
    assert From(v, 7) == If(true, MainRule) + (If(true, DefaultRule) + []);
    RouteOptional(true, DefaultRule, [], t, dst, mark);
    RouteOptional(true, MainRule, If(true, DefaultRule) + [], t, dst, mark);
  }

  lemma RouteTunnel(v: View, t: Tables, dst: Addr, mark: nat)
    ensures Route(From(v, 5), t, dst, mark)
         == if v.vpn && mark != 51820 && t.tunnel then Via(Pia0)
            else if InMain(t, dst).Some? then InMain(t, dst).value else NoRoute
  {
    RouteTail(v, t, dst, mark);
    Peel(v, 5);
    Peel(v, 6);
    RouteOptional(v.suppress, SuppressRule, From(v, 7), t, dst, mark);
    RouteOptional(v.vpn, VpnRule, From(v, 6), t, dst, mark);
  }

  lemma RouteGuarded(v: View, t: Tables, dst: Addr, mark: nat)
    ensures Route(From(v, 3), t, dst, mark)
         == if dst in v.guards then Refused
            else if Covers(v.lans, dst) && InMain(t, dst).Some? then InMain(t, dst).value
            else Route(From(v, 5), t, dst, mark)
  {
    Peel(v, 3);
    Peel(v, 4);
    LanBlock(v.lans, t, dst, mark);
    RouteBlock(Lans(v.lans), From(v, 5), t, dst, mark, Covers(v.lans, dst), InMain(t, dst));
    GuardBlock(v.guards, t, dst, mark);
    RouteBlock(Guards(v.guards), From(v, 4), t, dst, mark, dst in v.guards, Some(Refused));
  }

  lemma LanBlock(xs: seq<Net>, t: Tables, dst: Addr, mark: nat)
    ensures forall i | 0 <= i < |xs| ::
        Decide(Lans(xs)[i], t, dst, mark) == if xs[i].Contains(dst) then InMain(t, dst) else None
    ensures Covers(xs, dst) ==> exists i | 0 <= i < |Lans(xs)| :: Decide(Lans(xs)[i], t, dst, mark) == InMain(t, dst)
  {
  }

  lemma GuardBlock(xs: seq<Addr>, t: Tables, dst: Addr, mark: nat)
    ensures forall i | 0 <= i < |xs| ::
        Decide(Guards(xs)[i], t, dst, mark) == if xs[i] == dst then Some(Refused) else None
    ensures dst in xs ==> exists i | 0 <= i < |Guards(xs)| :: Decide(Guards(xs)[i], t, dst, mark) == Some(Refused)
  {
  }

  lemma PiaBlock(xs: seq<Addr>, t: Tables, dst: Addr, mark: nat)
    ensures forall i | 0 <= i < |xs| ::
        Decide(Pias(xs)[i], t, dst, mark) == if xs[i] == dst then Find(t, Vpn, dst) else None
    ensures dst in xs ==> exists i | 0 <= i < |Pias(xs)| :: Decide(Pias(xs)[i], t, dst, mark) == Find(t, Vpn, dst)
  {
  }

  lemma BypassBlock(xs: seq<Addr>, t: Tables, dst: Addr, mark: nat)
    ensures forall i | 0 <= i < |xs| ::
        Decide(Bypasses(xs)[i], t, dst, mark) == if xs[i] == dst then InMain(t, dst) else None
    ensures dst in xs ==> exists i | 0 <= i < |Bypasses(xs)| :: Decide(Bypasses(xs)[i], t, dst, mark) == InMain(t, dst)
  {
  }

  lemma RoutePia(xs: seq<Addr>, rest: Rules, t: Tables, dst: Addr, mark: nat)
    ensures Route(Pias(xs) + rest, t, dst, mark)
         == if dst in xs && t.tunnel then Via(Pia0) else Route(rest, t, dst, mark)
  {
    PiaBlock(xs, t, dst, mark);
    RouteBlock(Pias(xs), rest, t, dst, mark, dst in xs, Find(t, Vpn, dst));
  }

  lemma RouteBypass(xs: seq<Addr>, rest: Rules, t: Tables, dst: Addr, mark: nat)
    ensures Route(Bypasses(xs) + rest, t, dst, mark)
         == if dst in xs && InMain(t, dst).Some? then InMain(t, dst).value else Route(rest, t, dst, mark)
  {
    BypassBlock(xs, t, dst, mark);
    RouteBlock(Bypasses(xs), rest, t, dst, mark, dst in xs, InMain(t, dst));
  }

  /** The priority list routes as the case distinction says, whatever the lists hold. */
  lemma RouteIsSpec(v: View, t: Tables, dst: Addr, mark: nat)
    ensures Route(Render(v), t, dst, mark) == RouteSpec(v, t, dst, mark)
  {
    RouteTunnel(v, t, dst, mark);
    RouteGuarded(v, t, dst, mark);
    Peel(v, 2);
    RoutePia(v.pia, From(v, 3), t, dst, mark);
    Peel(v, 1);
    RouteBypass(v.wan, From(v, 2), t, dst, mark);
    Peel(v, 0);
    RouteOptional(true, LocalRule, From(v, 1), t, dst, mark);
    assert Blocks(v)[0..] == Blocks(v);
  }
}
