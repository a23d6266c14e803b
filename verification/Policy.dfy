/** What the killswitch allows, said twice: as the exact rules of its chains and as a
    plain condition on packets, with the theorem that the two agree. */
module Policy {
  import opened Wrappers
  import opened Netfilter
  import opened Routing

  const DAYTIME := 13

  function Ipv4(a: nat, b: nat, c: nat, d: nat): (n: Addr)
    ensures n == a * 0x100_0000 + b * 0x1_0000 + c * 0x100 + d
  {
    ((a * 256 + b) * 256 + c) * 256 + d
  }

  const GAITHERSBURG: Addr := Ipv4(129, 6, 15, 29)
  const FORT_COLLINS: Addr := Ipv4(132, 163, 97, 2)
  const WAN_CHECK_IPS: seq<Addr> := [GAITHERSBURG, FORT_COLLINS]

  datatype Exemption = Exemption(ip: Address, port: nat, proto: Proto)

  /** The exemption chain: absent; wired into VPN_OUT; or there but reached by no jump. */
  datatype Exempt = Absent | Held(specs: seq<Exemption>) | Stale(rules: seq<Rule>)

  datatype Config = Config(lans4: seq<Net>, lans6: seq<Net>, ipv6: bool)

  datatype Policy = Policy(cfg: Config, exempt: Exempt, port: Option<nat>)

  /** The rules other programs keep behind our jump in INPUT and OUTPUT. */
  datatype Tails = Tails(in4: seq<Rule>, out4: seq<Rule>, in6: seq<Rule>, out6: seq<Rule>)

  // ---- The rules ----

  const EstablishedRule := Rule([Established], Accept)
  const LoInRule := Rule([InIface(Lo)], Accept)
  const LoOutRule := Rule([OutIface(Lo)], Accept)
  const DropRule := Rule([], Drop)
  const MarkRule := Rule([Mark(FWMARK)], Accept)
  const PiaOutRule := Rule([OutIface(Pia0)], Accept)
  const Icmp6Rule := Rule([ProtoIs(Icmp6)], Accept)

  function JumpTo(c: Chain): Rule { Rule([], Jump(c)) }
  function LanInRule(n: Net): Rule { Rule([Src(n)], Accept) }
  function LanOutRule(n: Net): Rule { Rule([Dst(n)], Accept) }
  function WanRule(a: Addr): Rule { Rule([ProtoIs(Tcp), DPort(DAYTIME), Dst(Host(a))], Accept) }
  function DstOf(a: Address): Match { if a.Numeric? then Dst(Host(a.a)) else Unreadable }
  function ExemptRule(e: Exemption): Rule { Rule([DstOf(e.ip), ProtoIs(e.proto), DPort(e.port)], Accept) }
  function PortRule(proto: Proto, port: nat): Rule { Rule([InIface(Pia0), ProtoIs(proto), DPort(port)], Accept) }

  function LanIns(ns: seq<Net>): seq<Rule> { seq(|ns|, i requires 0 <= i < |ns| => LanInRule(ns[i])) }
  function LanOuts(ns: seq<Net>): seq<Rule> { seq(|ns|, i requires 0 <= i < |ns| => LanOutRule(ns[i])) }
  function ExemptRules(es: seq<Exemption>): seq<Rule> { seq(|es|, i requires 0 <= i < |es| => ExemptRule(es[i])) }
  function When(b: bool, r: Rule): seq<Rule> { if b then [r] else [] }

  function PortRules(port: Option<nat>): seq<Rule> {
    if port.None? then [] else [PortRule(Udp, port.value), PortRule(Tcp, port.value)]
  }

  // ---- The chains ----

  function InAccepts(p: Policy): seq<Rule> {
    [EstablishedRule, LoInRule] + PortRules(p.port) + LanIns(p.cfg.lans4)
  }

  function OutAccepts(cfg: Config): seq<Rule> {
    [EstablishedRule, LoOutRule] + [PiaOutRule, MarkRule] + LanOuts(cfg.lans4)
    + [WanRule(GAITHERSBURG), WanRule(FORT_COLLINS)]
  }

  function In6Accepts(cfg: Config): seq<Rule> {
    [EstablishedRule, LoInRule] + LanIns(cfg.lans6) + When(cfg.ipv6, Icmp6Rule)
  }

  function Out6Accepts(cfg: Config): seq<Rule> {
    [EstablishedRule, LoOutRule] + When(cfg.ipv6, PiaOutRule) + LanOuts(cfg.lans6) + When(cfg.ipv6, Icmp6Rule)
  }

  function OutChain(p: Policy): seq<Rule> {
    When(p.exempt.Held?, JumpTo(VPN_EXEMPTIONS)) + OutAccepts(p.cfg) + [DropRule]
  }

  function WithExempt(t: Table, e: Exempt): Table {
    match e
    case Absent => t
    case Held(specs) => t[VPN_EXEMPTIONS := ExemptRules(specs)]
    case Stale(rules) => t[VPN_EXEMPTIONS := rules]
  }

  function Table4(p: Policy, ts: Tails): Table {
    WithExempt(map[INPUT := [JumpTo(VPN_IN)] + ts.in4, OUTPUT := [JumpTo(VPN_OUT)] + ts.out4,
                   VPN_IN := InAccepts(p) + [DropRule], VPN_OUT := OutChain(p)], p.exempt)
  }

  function Table6(cfg: Config, ts: Tails): Table {
    map[INPUT := [JumpTo(VPN_IN6)] + ts.in6, OUTPUT := [JumpTo(VPN_OUT6)] + ts.out6,
        VPN_IN6 := In6Accepts(cfg) + [DropRule], VPN_OUT6 := Out6Accepts(cfg) + [DropRule]]
  }

  // ---- What is allowed ----

  predicate Exempted(e: Exempt, k: Packet) {
    e.Held? && exists i | 0 <= i < |e.specs| ::
      Numeric(k.dst) == e.specs[i].ip && k.proto == e.specs[i].proto && k.dport == e.specs[i].port
  }

  predicate AllowedOut4(p: Policy, k: Packet) {
    || k.established || k.outIf == Lo || k.outIf == Pia0 || k.mark == 51820
    || Covers(p.cfg.lans4, k.dst)
    || (k.proto == Tcp && k.dport == 13 && k.dst in [Ipv4(129, 6, 15, 29), Ipv4(132, 163, 97, 2)])
    || Exempted(p.exempt, k)
  }

  predicate AllowedIn4(p: Policy, k: Packet) {
    || k.established || k.inIf == Lo
    || Covers(p.cfg.lans4, k.src)
    || (p.port == Some(k.dport) && k.inIf == Pia0 && (k.proto == Tcp || k.proto == Udp))
  }

  predicate AllowedOut6(cfg: Config, k: Packet) {
    || k.established || k.outIf == Lo || Covers(cfg.lans6, k.dst)
    || (cfg.ipv6 && (k.outIf == Pia0 || k.proto == Icmp6))
  }

  predicate AllowedIn6(cfg: Config, k: Packet) {
    k.established || k.inIf == Lo || Covers(cfg.lans6, k.src) || (cfg.ipv6 && k.proto == Icmp6)
  }

  // ---- The two agree ----

  lemma HitConcat(a: seq<Rule>, b: seq<Rule>, k: Packet)
    ensures SomeHit(a + b, k) <==> SomeHit(a, k) || SomeHit(b, k)
  {
    if SomeHit(a, k) { var i :| 0 <= i < |a| && a[i].Hits(k); assert (a + b)[i].Hits(k); }
    if SomeHit(b, k) { var i :| 0 <= i < |b| && b[i].Hits(k); assert (a + b)[|a| + i].Hits(k); }
  }

  lemma HitOne(r: Rule, k: Packet)
    ensures SomeHit([r], k) <==> r.Hits(k)
    ensures |r.matches| == 1 ==> (r.Hits(k) <==> r.matches[0].Holds(k))
  {
    assert [r][0] == r;
  }

  lemma HitTwo(r: Rule, s: Rule, k: Packet)
    ensures SomeHit([r, s], k) <==> r.Hits(k) || s.Hits(k)
  {
    assert [r, s] == [r] + [s];
    HitConcat([r], [s], k);
    HitOne(r, k);
    HitOne(s, k);
  }

  lemma HitLans(ns: seq<Net>, k: Packet)
    ensures SomeHit(LanIns(ns), k) <==> Covers(ns, k.src)
    ensures SomeHit(LanOuts(ns), k) <==> Covers(ns, k.dst)
  {
    forall i | 0 <= i < |ns|
      ensures LanIns(ns)[i].Hits(k) <==> ns[i].Contains(k.src)
      ensures LanOuts(ns)[i].Hits(k) <==> ns[i].Contains(k.dst)
    {
      HitOne(LanIns(ns)[i], k);
      HitOne(LanOuts(ns)[i], k);
    }
    if Covers(ns, k.src) { var i :| 0 <= i < |ns| && ns[i].Contains(k.src); assert LanIns(ns)[i].Hits(k); }
    if Covers(ns, k.dst) { var i :| 0 <= i < |ns| && ns[i].Contains(k.dst); assert LanOuts(ns)[i].Hits(k); }
  }

  lemma HitThree(r: Rule, k: Packet)
    requires |r.matches| == 3
    ensures r.Hits(k) <==> r.matches[0].Holds(k) && r.matches[1].Holds(k) && r.matches[2].Holds(k)
  {
  }

  lemma HitExempt(e: Exempt, k: Packet)
    requires e.Held?
    ensures SomeHit(ExemptRules(e.specs), k) <==> Exempted(e, k)
  {
    var es := e.specs;
    forall i | 0 <= i < |es|
      ensures ExemptRules(es)[i].Hits(k) <==>
          Numeric(k.dst) == es[i].ip && k.proto == es[i].proto && k.dport == es[i].port
    {
      HitThree(ExemptRules(es)[i], k);
    }
    if Exempted(e, k) {
      var i :| 0 <= i < |es| && Numeric(k.dst) == es[i].ip && k.proto == es[i].proto && k.dport == es[i].port;
      assert ExemptRules(es)[i].Hits(k);
    }
  }

  lemma HitWhen(b: bool, r: Rule, k: Packet)
    ensures SomeHit(When(b, r), k) <==> b && r.Hits(k)
  {
    HitOne(r, k);
  }

  lemma HitOut(cfg: Config, k: Packet)
    ensures SomeHit(OutAccepts(cfg), k)
       <==> (k.established || k.outIf == Lo || k.outIf == Pia0 || k.mark == 51820 || Covers(cfg.lans4, k.dst)
             || (k.proto == Tcp && k.dport == 13 && k.dst in [Ipv4(129, 6, 15, 29), Ipv4(132, 163, 97, 2)]))
  {
    var a, b, c := [EstablishedRule, LoOutRule], [PiaOutRule, MarkRule], LanOuts(cfg.lans4);
    var d := [WanRule(GAITHERSBURG), WanRule(FORT_COLLINS)];
    HitConcat(a + b + c, d, k);
    HitConcat(a + b, c, k);
    HitConcat(a, b, k);
    HitTwo(EstablishedRule, LoOutRule, k);
    HitTwo(PiaOutRule, MarkRule, k);
    HitTwo(WanRule(GAITHERSBURG), WanRule(FORT_COLLINS), k);
    HitLans(cfg.lans4, k);
    HitOne(EstablishedRule, k);
    HitOne(LoOutRule, k);
    HitOne(PiaOutRule, k);
    HitOne(MarkRule, k);
    HitThree(WanRule(GAITHERSBURG), k);
    HitThree(WanRule(FORT_COLLINS), k);
  }

  lemma HitIn(p: Policy, k: Packet)
    ensures SomeHit(InAccepts(p), k) <==> AllowedIn4(p, k)
  {
    var a, b, c := [EstablishedRule, LoInRule], PortRules(p.port), LanIns(p.cfg.lans4);
    HitConcat(a + b, c, k);
    HitConcat(a, b, k);
    HitTwo(EstablishedRule, LoInRule, k);
    HitOne(EstablishedRule, k);
    HitOne(LoInRule, k);
    HitLans(p.cfg.lans4, k);
    if p.port.Some? {
      HitTwo(PortRule(Udp, p.port.value), PortRule(Tcp, p.port.value), k);
      HitThree(PortRule(Udp, p.port.value), k);
      HitThree(PortRule(Tcp, p.port.value), k);
    }
  }

  lemma Hit6(cfg: Config, k: Packet)
    ensures SomeHit(In6Accepts(cfg), k) <==> AllowedIn6(cfg, k)
    ensures SomeHit(Out6Accepts(cfg), k) <==> AllowedOut6(cfg, k)
  {
    HitLans(cfg.lans6, k);
    HitWhen(cfg.ipv6, Icmp6Rule, k);
    HitWhen(cfg.ipv6, PiaOutRule, k);
    HitTwo(EstablishedRule, LoInRule, k);
    HitTwo(EstablishedRule, LoOutRule, k);
    HitOne(EstablishedRule, k);
    HitOne(LoInRule, k);
    HitOne(LoOutRule, k);
    HitOne(Icmp6Rule, k);
    HitOne(PiaOutRule, k);
    var a, b := [EstablishedRule, LoInRule], [EstablishedRule, LoOutRule];
    HitConcat(a + LanIns(cfg.lans6), When(cfg.ipv6, Icmp6Rule), k);
    HitConcat(a, LanIns(cfg.lans6), k);
    HitConcat(b + When(cfg.ipv6, PiaOutRule) + LanOuts(cfg.lans6), When(cfg.ipv6, Icmp6Rule), k);
    HitConcat(b + When(cfg.ipv6, PiaOutRule), LanOuts(cfg.lans6), k);
    HitConcat(b, When(cfg.ipv6, PiaOutRule), k);
  }

  lemma WalkSealed(t: Table, level: nat, accepts: seq<Rule>, k: Packet)
    requires AllAccept(accepts)
    ensures Walk(t, level, accepts + [DropRule], k) == if SomeHit(accepts, k) then Accepted else Dropped
  {
    WalkAccepts(t, level, accepts, k);
    WalkConcat(t, level, accepts, [DropRule], k);
    assert DropRule.Hits(k);
  }

  /** Our jump comes first in the built-in chain and its chain always decides, so what other
      programs keep behind it is never consulted. */
  lemma PassesThrough(t: Table, hook: Chain, c: Chain, tail: seq<Rule>, k: Packet)
    requires hook in t && c in t && Level(c) < Level(hook) && t[hook] == [JumpTo(c)] + tail
    requires Walk(t, Level(c), t[c], k) != Fallthrough
    ensures Passes(t, hook, k) <==> Walk(t, Level(c), t[c], k) == Accepted
  {
  }

  lemma WalkJump(t: Table, level: nat, c: Chain, rest: seq<Rule>, k: Packet)
    requires c in t && Level(c) < level
    ensures Walk(t, level, [JumpTo(c)] + rest, k)
         == if Walk(t, Level(c), t[c], k) == Fallthrough then Walk(t, level, rest, k) else Walk(t, Level(c), t[c], k)
  {
  }

  lemma WalkOut(p: Policy, ts: Tails, k: Packet)
    ensures Walk(Table4(p, ts), 1, OutChain(p), k) == if AllowedOut4(p, k) then Accepted else Dropped
  {
    var t := Table4(p, ts);
    HitOut(p.cfg, k);
    WalkSealed(t, 1, OutAccepts(p.cfg), k);
    var rest := OutAccepts(p.cfg) + [DropRule];
    if p.exempt.Held? {
      HitExempt(p.exempt, k);
      WalkAccepts(t, 0, ExemptRules(p.exempt.specs), k);
      WalkJump(t, 1, VPN_EXEMPTIONS, rest, k);
      assert OutChain(p) == [JumpTo(VPN_EXEMPTIONS)] + rest;
    } else {
      assert OutChain(p) == rest;
    }
  }

  /** First-match evaluation of the four hooks passes exactly the allowed packets,
      whatever other programs keep in INPUT and OUTPUT. */
  lemma VerdictIsPolicy(p: Policy, ts: Tails, k: Packet)
    ensures Passes(Table4(p, ts), OUTPUT, k) <==> AllowedOut4(p, k)
    ensures Passes(Table4(p, ts), INPUT, k) <==> AllowedIn4(p, k)
    ensures Passes(Table6(p.cfg, ts), OUTPUT, k) <==> AllowedOut6(p.cfg, k)
    ensures Passes(Table6(p.cfg, ts), INPUT, k) <==> AllowedIn6(p.cfg, k)
  {
    hide Walk, Passes, SomeHit, AllowedOut4, AllowedIn4, AllowedOut6, AllowedIn6;
    var t, u := Table4(p, ts), Table6(p.cfg, ts);
    WalkOut(p, ts, k);
    PassesThrough(t, OUTPUT, VPN_OUT, ts.out4, k);
    HitIn(p, k);
    WalkSealed(t, 1, InAccepts(p), k);
    PassesThrough(t, INPUT, VPN_IN, ts.in4, k);
    Hit6(p.cfg, k);
    WalkSealed(u, 1, Out6Accepts(p.cfg), k);
    PassesThrough(u, OUTPUT, VPN_OUT6, ts.out6, k);
    WalkSealed(u, 1, In6Accepts(p.cfg), k);
    PassesThrough(u, INPUT, VPN_IN6, ts.in6, k);
  }
}
