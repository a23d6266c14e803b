/** Exemption brackets: opened on a bare chain, closed again, and watched for pia0. */
module Brackets {
  import opened Netfilter
  import opened Policy
  import opened PolicySteps
  import opened FailClosed
  import opened Killswitch
  import opened Tunnel

  const HTTPS := 443
  const ADD_KEY := 1337
  const DNS := 53

  /** What may be exempted: DNS to a configured resolver, HTTPS and PIA's key service over TCP. */
  predicate Modest(resolvers: seq<Address>, e: Exemption) {
    (e.port == DNS && e.ip in resolvers) || (e.port in {HTTPS, ADD_KEY} && e.proto == Tcp)
  }

  ghost predicate Narrow(resolvers: seq<Address>, r: Rule) {
    exists e | Modest(resolvers, e) :: r == ExemptRule(e)
  }

  /** Nothing but modest exemptions was granted in between. */
  ghost predicate Widened(resolvers: seq<Address>, was: set<Rule>, now: set<Rule>) {
    was <= now && forall r | r in now && r !in was :: Narrow(resolvers, r)
  }

  lemma AskedIsModest(resolvers: seq<Address>, was: set<Rule>, es: seq<Exemption>)
    requires forall e | e in es :: Modest(resolvers, e)
    ensures Widened(resolvers, was, was + Asked(Op.AddExemptions(es)))
  {
    forall r | r in Asked(Op.AddExemptions(es)) ensures Narrow(resolvers, r) {
      var i :| 0 <= i < |es| && r == ExemptRule(es[i]);
      assert Modest(resolvers, es[i]);
    }
  }

  lemma WidenedNot(resolvers: seq<Address>, a: set<Rule>)
    ensures Widened(resolvers, a, a)
  {
  }

  lemma WidenedTwice(resolvers: seq<Address>, a: set<Rule>, b: set<Rule>, c: set<Rule>)
    requires Widened(resolvers, a, b) && Widened(resolvers, b, c)
    ensures Widened(resolvers, a, c)
  {
  }

  function Count(b: bool): nat { if b then 1 else 0 }

  lemma OneFits(e: Exemption)
    ensures Fitting([e]) == (if Fits(e) then [e] else []) && Asked(Op.AddExemption(e)) == Asked(Op.AddExemptions([e]))
  {
    assert [e][..0] == [] && [e][0] == e;
  }

  /** OUTPUT passes the packets the exemption is for. */
  ghost predicate PassesFor(t: Table, e: Exemption) {
    && OUTPUT in t
    && forall k: Packet | Numeric(k.dst) == e.ip && k.proto == e.proto && k.dport == e.port :: Passes(t, OUTPUT, k)
  }

  lemma HeldPasses(p: Policy, ts: Tails, e: Exemption)
    requires p.exempt.Held? && (e in p.exempt.specs || e.ip == Unparsable)
    ensures PassesFor(Table4(p, ts), e)
  {
    hide Passes;
    forall k: Packet | Numeric(k.dst) == e.ip && k.proto == e.proto && k.dport == e.port
      ensures Passes(Table4(p, ts), OUTPUT, k)
    {
      var i :| 0 <= i < |p.exempt.specs| && p.exempt.specs[i] == e;
      VerdictIsPolicy(p, ts, k);
    }
  }

  /** A batch lets through what was asked for, but for what cannot be read. */
  lemma BatchPasses(p: Policy, ts: Tails, es: seq<Exemption>)
    requires p.exempt == Held(Fitting(es))
    ensures forall e | e in es && e.port <= MAX_PORT :: PassesFor(Table4(p, ts), e)
  {
    hide Table4, PassesFor, Fitting;
    forall e | e in es && e.port <= MAX_PORT ensures PassesFor(Table4(p, ts), e) {
      FittingHas(es, e);
      HeldPasses(p, ts, e);
    }
  }

  /** Opens and closes the brackets of one firewall. */
  class Gate {
    const fw: Firewall
    const ctx: Context
    const resolvers: seq<Address>
    /** A bracket was open while pia0 was there to take its packets. */
    ghost var met: bool
    /** How many brackets were opened. */
    ghost var brackets: nat

    constructor (fw: Firewall, ctx: Context, resolvers: seq<Address>)
      ensures this.fw == fw && this.ctx == ctx && this.resolvers == resolvers && !met && brackets == 0
    {
      this.fw, this.ctx, this.resolvers, met, brackets := fw, ctx, resolvers, false, 0;
    }

    /** No exemption is open.  A chain may be left over from one that failed or from a crash. */
    ghost predicate Resting()
      reads fw, fw.ipt4, fw.ipt6
    {
      && fw.Exact() && fw.Reliable()
      && (fw.policy.exempt.Held? ==> fw.policy.exempt.specs == [])
      && (fw.policy.exempt.Stale? ==> AllAccept(fw.policy.exempt.rules))
    }

    /** There is no left-over chain to stop the next bracket. */
    ghost predicate Free()
      reads fw
    {
      fw.policy.exempt == Absent
    }

    ghost predicate Open()
      reads fw, fw.ipt4, fw.ipt6
    {
      fw.Exact() && fw.Reliable() && fw.policy.exempt.Held?
    }

    /** Back to where it was, nothing granted in between but modest exemptions, without a left-over
        chain no collision with one, and with it no bracket at all. */
    twostate predicate Kept()
      reads fw, fw.ipt4, fw.ipt6, `brackets
    {
      && Resting() && fw.policy == old(fw.policy)
      && (if Free() then fw.ipt4.collisions == old(fw.ipt4.collisions) else brackets == old(brackets))
      && Widened(resolvers, old(fw.granted), fw.granted)
    }

    /** The killswitch passes the packets the exemption is for. */
    ghost predicate Lets(e: Exemption)
      reads fw, fw.ipt4
    {
      PassesFor(fw.ipt4.table, e)
    }

    /** Exempted packets would go into the tunnel; a cancelled context sends none. */
    predicate Tunnelled()
      reads ctx, fw.kernel
    {
      fw.kernel.link && !ctx.done
    }

    /** The batch form, for requests side by side; an address iptables cannot read is skipped. */
    method OpenAll(es: seq<Exemption>) returns (ok: bool)
      requires Resting() && forall e | e in es :: Modest(resolvers, e)
      modifies fw.ipt4, fw`policy, fw`granted, `met, `brackets
      ensures ok == old(Free()) && met == (old(met) || (ok && Tunnelled())) && brackets == old(brackets) + Count(ok)
      ensures if ok then Open() && fw.policy == old(fw.policy).(exempt := Held(Fitting(es)))
              else Resting() && fw.policy == old(fw.policy)
      ensures ok ==> fw.ipt4.collisions == old(fw.ipt4.collisions) && forall e | e in es :: Lets(e)
      ensures Widened(resolvers, old(fw.granted), fw.granted)
    {
      hide Table4, Table6, Sealed, Asked, Widened, Fitting, PassesFor;
      ChainThere(fw.policy, fw.tails);
      AskedIsModest(resolvers, fw.granted, es);
      ok := fw.AddExemptions(es);
      if ok { BatchPasses(fw.policy, fw.tails, es); }
      met, brackets := met || (ok && Tunnelled()), brackets + Count(ok);
    }

    /** The single form fails and leaves its chain, empty, for an address iptables cannot read. */
    method OpenOne(ip: Address, port: nat) returns (ok: bool)
      requires Resting() && port in {HTTPS, ADD_KEY}
      modifies fw.ipt4, fw`policy, fw`granted, `met, `brackets
      ensures ok == (old(Free()) && ip.Numeric?) && met == (old(met) || (ok && Tunnelled()))
      ensures brackets == old(brackets) + Count(ok)
      ensures if ok then Open() && fw.policy == old(fw.policy).(exempt := Held([Exemption(ip, port, Tcp)]))
              else Resting() && fw.policy == if old(Free()) then old(fw.policy).(exempt := Held([])) else old(fw.policy)
      ensures ok ==> Lets(Exemption(ip, port, Tcp))
      ensures old(Free()) ==> fw.ipt4.collisions == old(fw.ipt4.collisions)
      ensures Widened(resolvers, old(fw.granted), fw.granted)
    {
      hide Table4, Table6, Sealed, Asked, Widened, Fitting, PassesFor;
      var e := Exemption(ip, port, Tcp);
      ChainThere(fw.policy, fw.tails);
      OneFits(e);
      assert Modest(resolvers, e);
      AskedIsModest(resolvers, fw.granted, [e]);
      ok := fw.AddExemption(e);
      if ok { HeldPasses(fw.policy, fw.tails, e); }
      met, brackets := met || (ok && Tunnelled()), brackets + Count(ok);
    }

    method Close()
      requires Open()
      modifies fw.ipt4`table, fw`policy, `met
      ensures Resting() && fw.policy == old(fw.policy).(exempt := Absent)
      ensures met == (old(met) || Tunnelled())
    {
      hide Table4, Table6, Sealed, FlushedFrom, Unjumped;
      met := met || Tunnelled();
      fw.RemoveExemptions();
    }
  }
}
