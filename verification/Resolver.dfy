/** Do53 resolution under temporary exemptions. */
module Resolver {
  import opened Wrappers
  import opened Netfilter
  import opened Policy
  import opened PolicySteps
  import opened Brackets

  const DEFAULT_SERVERS := [Numeric(Ipv4(149, 112, 112, 9)), Numeric(Ipv4(149, 112, 112, 11))]

  datatype DnsMode = Pia | System | Do53 | Dot

  /** A definite answer for one host; a transient failure leaves none. */
  datatype HostResult = Found(ips: seq<Addr>) | NXDomain

  /** One query of one server, and the exemptions held while it was asked. */
  datatype Lookup = Lookup(server: Address, held: Exempt, results: map<string, HostResult>)

  /** Answers come while exactly DNS to the server is exempted, over UDP and TCP. */
  predicate Exempting(l: Lookup) {
    l.results != map[] && l.server.Numeric? ==>
      l.held == Held([Exemption(l.server, 53, Udp), Exemption(l.server, 53, Tcp)])
  }

  predicate Answers(l: Lookup, host: string) { host in l.results && l.results[host].Found? }

  predicate AnswersAny(l: Lookup) { l.results != map[] }

  /** The lookups asked the servers in their order, each once. */
  ghost predicate InTurn(ls: seq<Lookup>, servers: seq<Address>) {
    |ls| <= |servers| && forall i | 0 <= i < |ls| :: ls[i].server == servers[i] && Exempting(ls[i])
  }

  function Servers(bootstrap: seq<Address>): (r: seq<Address>)
    ensures r != [] && (bootstrap != [] ==> r == bootstrap)
    ensures bootstrap == [] ==> r == [Numeric(Ipv4(149, 112, 112, 9)), Numeric(Ipv4(149, 112, 112, 11))]
  {
    if bootstrap != [] then bootstrap else DEFAULT_SERVERS
  }

  lemma FittingTwo(a: Exemption, b: Exemption)
    requires a.ip.Numeric? && b.ip.Numeric? && a.port <= MAX_PORT && b.port <= MAX_PORT
    ensures Fitting([a, b]) == [a, b]
  {
    assert [a][..0] == [] && Fitting([a]) == [a];
    assert [a, b][..1] == [a];
  }

  class ExemptResolver {
    const gate: Gate
    ghost var asked: seq<Lookup>

    constructor (gate: Gate)
      ensures this.gate == gate && asked == []
    {
      this.gate, asked := gate, [];
    }

    /** The queries themselves, which the killswitch must let through. */
    method Ask(hosts: seq<string>, srv: Address) returns (results: map<string, HostResult>)
      requires gate.Lets(Exemption(srv, 53, Udp)) && gate.Lets(Exemption(srv, 53, Tcp))
      modifies `asked
      ensures asked == old(asked) + [Lookup(srv, gate.fw.policy.exempt, results)]
      ensures forall h | h in results :: h in hosts && (results[h].Found? ==> results[h].ips != [])
    {
      results := map[];
      var i := 0;
      while i < |hosts|
        modifies {}
        invariant 0 <= i <= |hosts|
        invariant forall h | h in results :: h in hosts && (results[h].Found? ==> results[h].ips != [])
      {
        var answered: bool, absent: bool, first: Addr, more: seq<Addr> := *, *, *, *;
        if answered { results := results[hosts[i] := if absent then NXDomain else Found([first] + more)]; }
        i := i + 1;
      }
      asked := asked + [Lookup(srv, gate.fw.policy.exempt, results)];
    }

    /** One server asked for all hosts under one exemption for port 53; none is without it. */
    method Query(hosts: seq<string>, srv: Address) returns (results: map<string, HostResult>)
      requires gate.Resting() && srv in gate.resolvers
      modifies gate.fw.ipt4, gate.fw`policy, gate.fw`granted, gate, `asked
      ensures gate.Kept()
      ensures gate.met == (old(gate.met) || (gate.Free() && gate.Tunnelled()))
      ensures |asked| == |old(asked)| + 1 && old(asked) <= asked
      ensures var l := asked[|old(asked)|]; l == Lookup(srv, l.held, results) && Exempting(l)
      ensures !gate.Free() ==> results == map[]
      ensures forall h | h in results :: h in hosts && (results[h].Found? ==> results[h].ips != [])
    {
      hide Widened, Fitting;
      results := map[];
      var es := [Exemption(srv, DNS, Udp), Exemption(srv, DNS, Tcp)];
      var ok := gate.OpenAll(es);
      if !ok {
        asked := asked + [Lookup(srv, gate.fw.policy.exempt, results)];
        return;
      }
      assert es[0] in es && es[1] in es;
      if srv.Numeric? { FittingTwo(es[0], es[1]); }
      results := Ask(hosts, srv);
      gate.Close();
    }

    /** The servers in order, until one has addresses for the host. */
    method Resolve(host: string) returns (r: Option<seq<Addr>>)
      requires gate.Resting() && gate.resolvers != []
      modifies gate.fw.ipt4, gate.fw`policy, gate.fw`granted, gate, `asked
      ensures gate.Kept()
      ensures gate.met == (old(gate.met) || (gate.Free() && gate.Tunnelled()))
      ensures old(asked) < asked
      ensures var ls := asked[|old(asked)|..];
        && InTurn(ls, gate.resolvers) && (forall i | 0 <= i < |ls| - 1 :: !Answers(ls[i], host))
        && (r.Some? <==> Answers(ls[|ls| - 1], host))
        && (r.Some? ==> r.value == ls[|ls| - 1].results[host].ips && r.value != [])
        && (r.None? ==> |ls| == |gate.resolvers|)
      ensures !gate.Free() ==> r.None?
    {
      hide Widened, Exempting;
      WidenedNot(gate.resolvers, gate.fw.granted);
      r := None;
      var i := 0;
      while i < |gate.resolvers|
        invariant gate.Kept()
        invariant gate.met == (old(gate.met) || (i > 0 && gate.Free() && gate.Tunnelled()))
        invariant 0 <= i <= |gate.resolvers| && |asked| == |old(asked)| + i && old(asked) <= asked
        invariant var ls := asked[|old(asked)|..];
          InTurn(ls, gate.resolvers) && forall j | 0 <= j < i :: !Answers(ls[j], host)
      {
        ghost var was := gate.fw.granted;
        var results := Query([host], gate.resolvers[i]);
        WidenedTwice(gate.resolvers, old(gate.fw.granted), was, gate.fw.granted);
        i := i + 1;
        if host in results && results[host].Found? { return Some(results[host].ips); }
      }
    }

    /** The servers in order, until one has a definite answer for any of the hosts. */
    method ResolveAll(hosts: seq<string>) returns (r: map<string, HostResult>)
      requires gate.Resting() && gate.resolvers != []
      modifies gate.fw.ipt4, gate.fw`policy, gate.fw`granted, gate, `asked
      ensures gate.Kept()
      ensures gate.met == (old(gate.met) || (gate.Free() && gate.Tunnelled()))
      ensures old(asked) < asked
      ensures var ls := asked[|old(asked)|..];
        && InTurn(ls, gate.resolvers) && (forall i | 0 <= i < |ls| - 1 :: !AnswersAny(ls[i]))
        && r == ls[|ls| - 1].results && (r == map[] ==> |ls| == |gate.resolvers|)
      ensures !gate.Free() ==> r == map[]
      ensures forall h | h in r :: h in hosts && (r[h].Found? ==> r[h].ips != [])
    {
      hide Widened, Exempting;
      WidenedNot(gate.resolvers, gate.fw.granted);
      r := map[];
      var i := 0;
      while i < |gate.resolvers|
        invariant gate.Kept()
        invariant gate.met == (old(gate.met) || (i > 0 && gate.Free() && gate.Tunnelled()))
        invariant 0 <= i <= |gate.resolvers| && |asked| == |old(asked)| + i && old(asked) <= asked && r == map[]
        invariant var ls := asked[|old(asked)|..];
          InTurn(ls, gate.resolvers) && forall j | 0 <= j < i :: !AnswersAny(ls[j])
      {
        ghost var was := gate.fw.granted;
        r := Query(hosts, gate.resolvers[i]);
        WidenedTwice(gate.resolvers, old(gate.fw.granted), was, gate.fw.granted);
        i := i + 1;
        if r != map[] { return; }
      }
    }

    /** Configured DNS servers may not be bootstrap servers too, where both are plain addresses. */
    method ValidateDNS(dns: seq<Address>, mode: DnsMode) returns (ok: bool)
      ensures ok <==> mode !in {System, Do53} || forall a | a in dns :: a !in gate.resolvers
    {
      ok := true;
      if mode in {System, Do53} {
        var i := 0;
        while i < |dns|
          invariant 0 <= i <= |dns| && (ok <==> forall a | a in dns[..i] :: a !in gate.resolvers)
        {
          if dns[i] in gate.resolvers { ok := false; }
          assert dns[..i + 1] == dns[..i] + [dns[i]];
          i := i + 1;
        }
        assert dns[..i] == dns;
      }
    }
  }
}
