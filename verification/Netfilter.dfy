/** The filter table of one address family: user chains as lists of rules,
    first match first, with jumps that fall through.  The primitives are those
    the killswitch uses (NewChain, Append, Insert, Delete, ClearAndDelete, List). */
module Netfilter {
  import opened Sequences


  type Addr = nat

  /** An address as callers write it, which need not be one: nobody checks the addresses in
      the environment or in PIA's answers before iptables does. */
  datatype Address = Numeric(a: Addr) | Unparsable

  /** An address range, as a CIDR denotes one. */
  datatype Net = Net(lo: Addr, hi: Addr) {
    predicate Contains(a: Addr) { lo <= a <= hi }
  }

  function Host(a: Addr): Net { Net(a, a) }

  datatype Iface = NoIface | Lo | Pia0 | Dev(name: string)
  datatype Proto = Tcp | Udp | Icmp6 | OtherProto(n: nat)

  /** What the filter can see of a packet.  `foreign` holds the matchers of
      other programs' rules that this packet satisfies. */
  datatype Packet = Packet(inIf: Iface, outIf: Iface, src: Addr, dst: Addr, proto: Proto,
                           dport: nat, mark: nat, established: bool, foreign: set<nat>)

  datatype Chain = INPUT | OUTPUT | VPN_IN | VPN_OUT | VPN_IN6 | VPN_OUT6 | VPN_EXEMPTIONS

  /** Jumps go strictly down: the kernel refuses a rule that closes a loop. */
  function Level(c: Chain): nat {
    match c
    case INPUT => 2
    case OUTPUT => 2
    case VPN_EXEMPTIONS => 0
    case _ => 1
  }

  datatype Match =
    | Established | InIface(i: Iface) | OutIface(i: Iface) | Src(net: Net) | Dst(net: Net)
    | ProtoIs(p: Proto) | DPort(n: nat) | Mark(m: nat) | Foreign(id: nat) | Unreadable
  {
    predicate Holds(k: Packet) {
      match this
      case Established => k.established
      case InIface(i) => k.inIf == i
      case OutIface(i) => k.outIf == i
      case Src(net) => net.Contains(k.src)
      case Dst(net) => net.Contains(k.dst)
      case ProtoIs(p) => k.proto == p
      case DPort(n) => k.dport == n
      case Mark(m) => k.mark == m
      case Foreign(id) => id in k.foreign
      case Unreadable => false
    }
  }

  datatype Target = Accept | Drop | Jump(chain: Chain)

  datatype Rule = Rule(matches: seq<Match>, target: Target) {
    predicate Hits(k: Packet) { forall i | 0 <= i < |matches| :: matches[i].Holds(k) }

    /** iptables refuses a port outside 16 bits and an address it cannot read. */
    predicate WellFormed() {
      forall i | 0 <= i < |matches| :: matches[i] != Unreadable && (matches[i].DPort? ==> matches[i].n <= 65535)
    }
  }

  type Table = map<Chain, seq<Rule>>

  datatype Verdict = Accepted | Dropped | Fallthrough

  /** First match first; a jump whose chain does not decide resumes after it. */
  function Walk(t: Table, level: nat, rules: seq<Rule>, k: Packet): Verdict
    decreases level, |rules|
  {
    if rules == [] then Fallthrough
    else
      var rest := rules[1..];
      if !rules[0].Hits(k) then Walk(t, level, rest, k)
      else match rules[0].target
        case Accept => Accepted
        case Drop => Dropped
        case Jump(d) =>
          var v := if d in t && Level(d) < level then Walk(t, Level(d), t[d], k) else Fallthrough;
          if v == Fallthrough then Walk(t, level, rest, k) else v
  }

  /** The verdict of a built-in chain; its policy is ACCEPT. */
  predicate Passes(t: Table, hook: Chain, k: Packet)
    requires hook in t
  {
    Walk(t, Level(hook), t[hook], k) != Dropped
  }

  // ---- The primitives, on values ----

  predicate CanHold(t: Table, c: Chain, r: Rule) {
    c in t && r.WellFormed() && (r.target.Jump? ==> r.target.chain in t && Level(r.target.chain) < Level(c))
  }

  function InsertAt(rules: seq<Rule>, pos: int, r: Rule): seq<Rule>
    requires 1 <= pos <= |rules| + 1
  {
    rules[..pos - 1] + [r] + rules[pos - 1..]
  }

  predicate Referenced(t: Table, c: Chain) {
    exists d | d in t :: exists i | 0 <= i < |t[d]| :: t[d][i].target == Jump(c)
  }

  function Cleared(t: Table, c: Chain): Table {
    if c !in t then t
    else
      var flushed := t[c := []];
      if Referenced(flushed, c) then flushed else flushed - {c}
  }

  /** A line of `iptables -S chain`: the chain's declaration, then its rules. */
  datatype Line = Declares(chain: Chain) | Appends(rule: Rule)

  function Listing(c: Chain, rules: seq<Rule>): seq<Line> {
    [Declares(c)] + seq(|rules|, i requires 0 <= i < |rules| => Appends(rules[i]))
  }

  // ---- The primitives, on the kernel ----

  /** One family's filter table.  When `flaky`, any command may fail without effect
      (the xtables lock, a missing module); otherwise a command fails only when
      the table cannot accept it. */
  class Iptables {
    var table: Table
    const flaky: bool
    /** How often NewChain found the chain already there. */
    ghost var collisions: nat

    constructor (table: Table, flaky: bool)
      ensures this.table == table && this.flaky == flaky && collisions == 0
    {
      this.table, this.flaky, collisions := table, flaky, 0;
    }

    method Glitch() returns (b: bool)
      ensures b ==> flaky
    {
      b := *;
      b := b && flaky;
    }

    method NewChain(c: Chain) returns (ok: bool)
      modifies this
      ensures ok ==> c !in old(table) && table == old(table)[c := []]
      ensures !ok ==> table == old(table)
      ensures !flaky ==> ok == (c !in old(table))
      ensures collisions == old(collisions) + (if c in old(table) then 1 else 0)
    {
      var glitch := Glitch();
      if c in table { collisions := collisions + 1; }
      ok := !glitch && c !in table;
      if ok { table := table[c := []]; }
    }

    method Insert(c: Chain, pos: int, r: Rule) returns (ok: bool)
      modifies `table
      ensures ok ==> CanHold(old(table), c, r) && 1 <= pos <= |old(table)[c]| + 1
                     && table == old(table)[c := InsertAt(old(table)[c], pos, r)]
      ensures !ok ==> table == old(table)
      ensures !flaky ==> ok == (CanHold(old(table), c, r) && 1 <= pos <= |old(table)[c]| + 1)
    {
      var glitch := Glitch();
      ok := !glitch && CanHold(table, c, r) && 1 <= pos <= |table[c]| + 1;
      if ok { table := table[c := InsertAt(table[c], pos, r)]; }
    }

    method Append(c: Chain, r: Rule) returns (ok: bool)
      modifies `table
      ensures ok ==> CanHold(old(table), c, r) && table == old(table)[c := old(table)[c] + [r]]
      ensures !ok ==> table == old(table)
      ensures !flaky ==> ok == CanHold(old(table), c, r)
    {
      var glitch := Glitch();
      ok := !glitch && CanHold(table, c, r);
      if ok { table := table[c := table[c] + [r]]; }
    }

    method Delete(c: Chain, r: Rule) returns (ok: bool)
      modifies `table
      ensures ok ==> c in old(table) && r in old(table)[c] && table == old(table)[c := Without(old(table)[c], r)]
      ensures !ok ==> table == old(table)
      ensures !flaky ==> ok == (c in old(table) && r in old(table)[c])
    {
      var glitch := Glitch();
      ok := !glitch && c in table && r in table[c];
      if ok { table := table[c := Without(table[c], r)]; }
    }

    /** Flushes the chain, then deletes it; the kernel keeps a chain still jumped to. */
    method ClearAndDelete(c: Chain)
      modifies `table
      ensures !flaky ==> table == Cleared(old(table), c)
      ensures table == old(table) || (c in old(table) && table == old(table)[c := []])
              || table == Cleared(old(table), c)
    {
      var glitch := Glitch();
      if glitch || c !in table { return; }
      table := table[c := []];
      glitch := Glitch();
      if !glitch && !Referenced(table, c) { table := table - {c}; }
    }

    method List(c: Chain) returns (ok: bool, lines: seq<Line>)
      ensures ok ==> c in table && lines == Listing(c, table[c])
      ensures !flaky ==> ok == (c in table)
    {
      var glitch := Glitch();
      ok, lines := !glitch && c in table, [];
      if ok { lines := Listing(c, table[c]); }
    }
  }

  // ---- Facts about walking ----

  /** Walking two lists one after the other. */
  lemma {:induction false} WalkConcat(t: Table, level: nat, a: seq<Rule>, b: seq<Rule>, k: Packet)
    ensures Walk(t, level, a + b, k)
         == if Walk(t, level, a, k) == Fallthrough then Walk(t, level, b, k) else Walk(t, level, a, k)
    decreases |a|
  {
    if a == [] {
      assert a + b == b;
    } else {
      assert (a + b)[0] == a[0] && (a + b)[1..] == a[1..] + b;
      WalkConcat(t, level, a[1..], b, k);
    }
  }

  predicate SomeHit(rules: seq<Rule>, k: Packet) { exists i | 0 <= i < |rules| :: rules[i].Hits(k) }

  predicate AllAccept(rules: seq<Rule>) { forall i | 0 <= i < |rules| :: rules[i].target == Accept }

  /** A list of ACCEPT rules accepts what any of them matches and decides nothing else. */
  lemma {:induction false} WalkAccepts(t: Table, level: nat, rules: seq<Rule>, k: Packet)
    requires AllAccept(rules)
    ensures Walk(t, level, rules, k) == if SomeHit(rules, k) then Accepted else Fallthrough
    decreases |rules|
  {
    if rules != [] {
      var rest := rules[1..];
      WalkAccepts(t, level, rest, k);
      if rules[0].Hits(k) {
      } else if SomeHit(rules, k) {
        var i :| 0 <= i < |rules| && rules[i].Hits(k);
        assert rest[i - 1].Hits(k);
      }
    }
  }
}
