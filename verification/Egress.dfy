/** Routing and filtering together: where a locally generated IPv4 packet leaves, if it leaves. */
module Egress {
  import opened Wrappers
  import opened Netfilter
  import opened Sequences
  import opened Routing
  import opened IpStack
  import opened Policy

  /** The kernel routes first, then OUTPUT sees the chosen device. */
  function Leaves(p: Policy, ts: Tails, v: View, t: Tables, k: Packet): Option<Iface> {
    match Route(Render(v), t, k.dst, k.mark)
    case Via(i) => if Passes(Table4(p, ts), OUTPUT, k.(outIf := i)) then Some(i) else None
    case _ => None
  }

  /** The main table knows nothing of pia0: Up adds its only route to table 51820. */
  predicate MainAvoidsTunnel(t: Tables) {
    (forall i | 0 <= i < |t.connected| :: t.connected[i].1 !in {Pia0, Lo}) && t.gateway !in {Some(Pia0), Some(Lo)}
  }

  /** Destinations that keep their own route: local, WAN checks, LANs, and guarded addresses without a lookup. */
  predicate Ordinary(v: View, t: Tables, dst: Addr) {
    && !Covers(t.local, dst) && dst !in v.wan && !Covers(v.lans, dst)
    && (dst in v.guards ==> dst in v.pia)
  }

  lemma {:induction false} SpecificAvoids(connected: seq<(Net, Iface)>, dst: Addr)
    requires forall i | 0 <= i < |connected| :: connected[i].1 !in {Pia0, Lo}
    ensures Specific(connected, dst) !in {Some(Via(Pia0)), Some(Via(Lo))}
  {
    if connected != [] && !connected[0].0.Contains(dst) { SpecificAvoids(connected[1..], dst); }
  }

  lemma MainAvoids(t: Tables, dst: Addr)
    requires MainAvoidsTunnel(t)
    ensures InMain(t, dst) !in {Some(Via(Pia0)), Some(Via(Lo))}
  {
    SpecificAvoids(t.connected, dst);
  }

  /** With the tunnel up every unmarked packet to an ordinary destination goes into it,
      even while an exemption for that destination is open. */
  lemma TunnelTakesAll(p: Policy, ts: Tails, v: View, t: Tables, k: Packet)
    requires v.vpn && t.tunnel && k.mark != 51820 && Ordinary(v, t, k.dst)
    ensures Leaves(p, ts, v, t, k) == Some(Pia0)
  {
    RouteIsSpec(v, t, k.dst, k.mark);
    VerdictIsPolicy(p, ts, k.(outIf := Pia0));
  }

  /** Whatever the state of the tunnel, a packet leaves by another device only if it is
      established, marked, for a LAN, a WAN check, or exempted. */
  lemma NoLeak(p: Policy, ts: Tails, v: View, t: Tables, k: Packet)
    ensures Leaves(p, ts, v, t, k).Some? && Leaves(p, ts, v, t, k).value !in {Pia0, Lo} ==>
      || k.established || k.mark == 51820 || Covers(p.cfg.lans4, k.dst)
      || (k.proto == Tcp && k.dport == 13 && k.dst in [Ipv4(129, 6, 15, 29), Ipv4(132, 163, 97, 2)])
      || Exempted(p.exempt, k)
  {
    var d := Route(Render(v), t, k.dst, k.mark);
    if d.Via? { VerdictIsPolicy(p, ts, k.(outIf := d.iface)); }
  }

  /** Without pia0 a new unmarked packet to a destination outside LANs, WAN checks and open
      exemptions goes nowhere, at whatever step the interface vanished. */
  lemma VanishedTunnelDrops(p: Policy, ts: Tails, v: View, t: Tables, k: Packet)
    requires MainAvoidsTunnel(t) && !t.tunnel && !Covers(t.local, k.dst)
    requires !k.established && k.mark != 51820 && !Covers(p.cfg.lans4, k.dst)
    requires !(k.proto == Tcp && k.dport == 13 && k.dst in [Ipv4(129, 6, 15, 29), Ipv4(132, 163, 97, 2)]) &&
        !Exempted(p.exempt, k)
    ensures Leaves(p, ts, v, t, k) == None
  {
    RouteIsSpec(v, t, k.dst, k.mark);
    MainAvoids(t, k.dst);
    NoLeak(p, ts, v, t, k);
  }

  /** An exemption does what it is for exactly while pia0 is away: its packets then take the
      main table's route, and with the tunnel up they go into the tunnel instead. */
  lemma ExemptionNeedsTunnelDown(p: Policy, ts: Tails, v: View, t: Tables, k: Packet)
    requires MainAvoidsTunnel(t) && InMain(t, k.dst).Some? && Ordinary(v, t, k.dst) &&
        k.dst !in v.guards && k.dst !in v.pia
    requires Exempted(p.exempt, k) && k.mark != 51820 && v.vpn
    ensures Leaves(p, ts, v, t, k) == (if t.tunnel then Some(Pia0) else Some(InMain(t, k.dst).value.iface))
  {
    RouteIsSpec(v, t, k.dst, k.mark);
    MainAvoids(t, k.dst);
    var d := Route(Render(v), t, k.dst, k.mark);
    VerdictIsPolicy(p, ts, k.(outIf := d.iface));
  }

  /** What a tunnel left over by a killed run does to the first lookups: with a bracket open for
      it, an HTTPS packet goes into that tunnel, and would leave by eth0 were it not there. */
  lemma LeftOverTunnel(ts: Tails) returns (p: Policy, v: View, t: Tables, k: Packet)
    ensures MainAvoidsTunnel(t) && Exempted(p.exempt, k) && v.vpn && v.suppress && t.tunnel
    ensures Leaves(p, ts, v, t, k) == Some(Pia0)
    ensures Leaves(p, ts, v, t.(tunnel := false), k) == Some(Dev("eth0"))
  {
    var e := Exemption(Numeric(7), 443, Tcp);
    p, v := Policy(Config([], [], false), Held([e]), None), View([], [], [], [], true, true);
    t := Tables([], [], Some(Dev("eth0")), true);
    k := Packet(NoIface, NoIface, 1, 7, Tcp, 443, 0, false, {});
    assert Exempted(p.exempt, k) by { assert Numeric(k.dst) == [e][0].ip &&
        k.proto == [e][0].proto && k.dport == [e][0].port; }
    ExemptionNeedsTunnelDown(p, ts, v, t, k);
    ExemptionNeedsTunnelDown(p, ts, v, t.(tunnel := false), k);
  }

  /** WireGuard's own packets never enter the tunnel, unless their endpoint is an address
      the PIA lookup rules name. */
  lemma MarkedAvoidsTunnel(p: Policy, ts: Tails, v: View, t: Tables, k: Packet)
    requires MainAvoidsTunnel(t) && k.mark == 51820 && k.dst !in v.pia
    ensures Leaves(p, ts, v, t, k) != Some(Pia0)
    ensures !Covers(t.local, k.dst) && k.dst !in v.guards && InMain(t, k.dst).Some?
            ==> Leaves(p, ts, v, t, k) == Some(InMain(t, k.dst).value.iface)
  {
    RouteIsSpec(v, t, k.dst, k.mark);
    MainAvoids(t, k.dst);
    var d := Route(Render(v), t, k.dst, k.mark);
    if d.Via? { VerdictIsPolicy(p, ts, k.(outIf := d.iface)); }
  }

  // ---- PIA DNS ----

  /** What may happen to the routing between AddPIADNSRoutes and the next RemovePIARoutes. */
  datatype RouteEvent =
    | PfAdded(gateway: Addr) | PfRemoved(gateway: Addr)
    | RuleGone(priority: nat)
    | LanAdded(net: Net) | BypassAdded(ip: Addr)
    | TunnelUp | TunnelRulesUp | Vanished

  datatype Network = Network(view: View, tables: Tables)

  function Happen(n: Network, e: RouteEvent): Network {
    match e
    case PfAdded(g) => n.(view := n.view.(pia := n.view.pia + [g]))
    case PfRemoved(g) => n.(view := n.view.(pia := Without(n.view.pia, g)))
    case RuleGone(p) => if p in {PRIORITY_PIA, PRIORITY_PIA_GUARD} then n else n.(view := Cut(n.view, p))
    case LanAdded(net) => n.(view := n.view.(lans := n.view.lans + [net]))
    case BypassAdded(a) => n.(view := n.view.(wan := n.view.wan + [a]))
    case TunnelUp => n.(tables := n.tables.(tunnel := true))
    case TunnelRulesUp => n.(view := n.view.(vpn := true, suppress := true))
    case Vanished => n.(tables := n.tables.(tunnel := false))
  }

  function HappenAll(n: Network, es: seq<RouteEvent>): Network {
    if es == [] then n else Happen(HappenAll(n, es[..|es| - 1]), es[|es| - 1])
  }

  lemma {:induction false} GuardsStay(n: Network, es: seq<RouteEvent>)
    ensures HappenAll(n, es).view.guards == n.view.guards
    ensures HappenAll(n, es).tables.(tunnel := false) == n.tables.(tunnel := false)
    ensures forall a | a in HappenAll(n, es).view.wan :: a in n.view.wan || BypassAdded(a) in es
  {
    if es != [] {
      GuardsStay(n, es[..|es| - 1]);
      var m := HappenAll(n, es[..|es| - 1]);
      forall a | a in Happen(m, es[|es| - 1]).view.wan ensures a in n.view.wan || BypassAdded(a) in es {
        if a in m.view.wan && BypassAdded(a) in es[..|es| - 1] { assert BypassAdded(a) in es; }
      }
    }
  }

  /** Once an address has its guard, its packets go into the tunnel or nowhere: never out
      through main, for any LAN list, any mark, and any loss of pia0 or of other rules. */
  lemma PiaDnsNeverThroughMain(n: Network, es: seq<RouteEvent>, dst: Addr, mark: nat)
    requires dst in n.view.guards && !Covers(n.tables.local, dst)
    requires dst !in n.view.wan && BypassAdded(dst) !in es
    ensures Route(Render(HappenAll(n, es).view), HappenAll(n, es).tables, dst, mark) in {Via(Pia0), Refused}
  {
    GuardsStay(n, es);
    var m := HappenAll(n, es);
    RouteIsSpec(m.view, m.tables, dst, mark);
  }
}
