/** What is kept across reconnections: addresses of PIA's hosts and the server list. */
module ServerCache {
  import opened Netfilter
  import opened Sequences

  const MAX_CACHED_IPS := 5

  datatype Server = Server(cn: string, ip: Address, region: string, pf: bool)

  // ---- Addresses ----

  function Merged<T(==)>(existing: seq<T>, newIPs: seq<T>, max: nat): seq<T> {
    Take(Onto([], newIPs + existing), max)
  }

  method MergeIPs(existing: seq<Addr>, newIPs: seq<Addr>, max: nat) returns (merged: seq<Addr>)
    ensures merged == Merged(existing, newIPs, max)
  {
    var seen: set<Addr> := {};
    merged := [];
    var i := 0;
    while i < |newIPs|
      invariant 0 <= i <= |newIPs| && merged == Onto([], newIPs[..i])
      invariant forall x :: x in seen <==> x in merged
    {
      OntoSnoc([], newIPs[..i], newIPs[i]);
      assert newIPs[..i + 1] == newIPs[..i] + [newIPs[i]];
      if newIPs[i] !in seen {
        seen := seen + {newIPs[i]};
        merged := merged + [newIPs[i]];
      }
      i := i + 1;
    }
    assert newIPs[..i] == newIPs && newIPs + existing[..0] == newIPs;
    i := 0;
    while i < |existing|
      invariant 0 <= i <= |existing| && merged == Onto([], newIPs + existing[..i])
      invariant forall x :: x in seen <==> x in merged
    {
      OntoSnoc([], newIPs + existing[..i], existing[i]);
      assert newIPs + existing[..i + 1] == newIPs + existing[..i] + [existing[i]];
      if existing[i] !in seen {
        seen := seen + {existing[i]};
        merged := merged + [existing[i]];
      }
      i := i + 1;
    }
    assert existing[..i] == existing;
    if |merged| > max { merged := merged[..max]; }
  }

  /** Merging the same addresses again changes nothing. */
  lemma MergeTwice<T>(existing: seq<T>, newIPs: seq<T>, max: nat)
    ensures Merged(Merged(existing, newIPs, max), newIPs, max) == Merged(existing, newIPs, max)
  {
    hide Onto, Distinct;
    var r, d := Merged(existing, newIPs, max), Onto([], newIPs);
    OntoConcat([], newIPs, existing);
    OntoConcat([], newIPs, r);
    OntoStays([], newIPs);
    OntoStays(d, existing);
    if |d| >= max { OntoPrefix(d, r); } else { OntoExtension(d, r); }
  }

  lemma OntoStays<T>(acc: seq<T>, s: seq<T>)
    requires Distinct(acc)
    ensures Distinct(Onto(acc, s)) && acc <= Onto(acc, s)
  {
    OntoKeeps(acc, s);
  }

  lemma OntoPrefix<T>(d: seq<T>, r: seq<T>)
    requires r <= d
    ensures Onto(d, r) == d
  {
    forall x | x in r ensures x in d { var i :| 0 <= i < |r| && r[i] == x; assert d[i] == x; }
    OntoOld(d, r);
  }

  lemma OntoExtension<T>(d: seq<T>, r: seq<T>)
    requires d <= r && Distinct(r)
    ensures Onto(d, r) == r
  {
    assert r == d + r[|d|..];
    OntoConcat(d, d, r[|d|..]);
    OntoOld(d, d);
    OntoNew(d, r[|d|..]);
  }

  /** The newest addresses survive: a merge keeps distinct addresses, only known ones, and all
      the new ones as far as there is room. */
  lemma MergeKeepsNewest<T>(existing: seq<T>, newIPs: seq<T>, max: nat)
    ensures var r := Merged(existing, newIPs, max);
      && |r| <= max && Distinct(r) && (forall x | x in r :: x in newIPs || x in existing)
      && Take(Onto([], newIPs), max) <= r
      && (|r| < max ==> forall x | x in newIPs || x in existing :: x in r)
  {
    var r, d := Merged(existing, newIPs, max), Onto([], newIPs);
    var all := Onto(d, existing);
    OntoConcat([], newIPs, existing);
    OntoKeeps([], newIPs);
    OntoKeeps(d, existing);
    forall x | x in r ensures x in d || x in existing { assert x in all; OntoHas(d, existing, x); }
    forall x | x in d ensures x in newIPs {}
  }

  // ---- Servers ----

  function Names(servers: seq<Server>): seq<string> { seq(|servers|, i requires 0 <= i < |servers| => servers[i].cn) }

  /** What a server list says of each CN; the last entry counts. */
  function ByName(servers: seq<Server>): map<string, Server> {
    if servers == [] then map[]
    else ByName(servers[..|servers| - 1])[servers[|servers| - 1].cn := servers[|servers| - 1]]
  }

  /** An index that agrees with the list. */
  ghost predicate Indexes(index: map<string, nat>, servers: seq<Server>) {
    && (forall cn | cn in index :: index[cn] < |servers| && servers[index[cn]].cn == cn)
    && (forall i | 0 <= i < |servers| :: servers[i].cn in index)
  }

  lemma {:induction false} ByNameIs(servers: seq<Server>)
    requires Distinct(Names(servers))
    ensures ByName(servers).Keys == set i | 0 <= i < |servers| :: servers[i].cn
    ensures forall i | 0 <= i < |servers| ::
        servers[i].cn in ByName(servers) && ByName(servers)[servers[i].cn] == servers[i]
  {
    if servers != [] {
      var n := |servers| - 1;
      var init := servers[..n];
      assert Distinct(Names(init)) by {
        forall i, j | 0 <= i < j < n ensures Names(init)[i] != Names(init)[j] {
          assert Names(servers)[i] != Names(servers)[j];
        }
      }
      ByNameIs(init);
      forall i | 0 <= i < |servers|
        ensures servers[i].cn in ByName(servers) && ByName(servers)[servers[i].cn] == servers[i]
      {
        if i < n { assert init[i] == servers[i] && Names(servers)[i] != Names(servers)[n]; }
      }
      assert forall i | 0 <= i < n :: init[i].cn == servers[i].cn;
    }
  }

  lemma ReplaceByName(servers: seq<Server>, i: nat, s: Server)
    requires i < |servers| && servers[i].cn == s.cn && Distinct(Names(servers))
    ensures Names(servers[i := s]) == Names(servers)
    ensures ByName(servers[i := s]) == ByName(servers)[s.cn := s]
  {
    hide ByName;
    var t := servers[i := s];
    assert Names(t) == Names(servers);
    ByNameIs(servers);
    ByNameIs(t);
    assert forall j | 0 <= j < |t| :: t[j].cn == servers[j].cn;
    forall cn | cn in ByName(t) ensures ByName(t)[cn] == ByName(servers)[s.cn := s][cn] {
      var j :| 0 <= j < |t| && t[j].cn == cn;
      if j != i { assert Names(servers)[j] != Names(servers)[i]; }
    }
  }

  lemma IndexMore(index: map<string, nat>, servers: seq<Server>, s: Server)
    requires Indexes(index, servers)
    ensures Indexes(index[s.cn := |servers|], servers + [s])
  {
  }

  lemma Snoc(servers: seq<Server>, s: Server)
    ensures Names(servers + [s]) == Names(servers) + [s.cn]
    ensures ByName(servers + [s]) == ByName(servers)[s.cn := s]
  {
  }

  lemma MergeNone(servers: seq<Server>)
    ensures Onto(Names(servers), Names([])) == Names(servers) && ByName(servers) + ByName([]) == ByName(servers)
  {
  }

  /** Where a merge stands after the servers in `done`. */
  ghost predicate MergedSoFar(was: seq<Server>, done: seq<Server>, servers: seq<Server>) {
    && Distinct(Names(servers))
    && Names(servers) == Onto(Names(was), Names(done))
    && ByName(servers) == ByName(was) + ByName(done)
  }

  lemma IndexKept(index: map<string, nat>, servers: seq<Server>, s: Server)
    requires Indexes(index, servers) && s.cn in index
    ensures Indexes(index, servers[index[s.cn] := s])
  {
  }

  /** A CN the index knows is in the list's names, and no other is. */
  lemma IndexNames(index: map<string, nat>, servers: seq<Server>, cn: string)
    requires Indexes(index, servers)
    ensures cn in index <==> cn in Names(servers)
  {
    if cn in index { assert Names(servers)[index[cn]] == cn; }
  }

  lemma MergeKnown(index: map<string, nat>, was: seq<Server>, done: seq<Server>, servers: seq<Server>, s: Server)
    requires MergedSoFar(was, done, servers) && Indexes(index, servers) && s.cn in index
    ensures MergedSoFar(was, done + [s], servers[index[s.cn] := s]) && Indexes(index, servers[index[s.cn] := s])
  {
    hide Names, ByName, Onto, Distinct;
    IndexKept(index, servers, s);
    IndexNames(index, servers, s.cn);
    ReplaceByName(servers, index[s.cn], s);
    Snoc(done, s);
    OntoSnoc(Names(was), Names(done), s.cn);
  }

  lemma MergeNew(index: map<string, nat>, was: seq<Server>, done: seq<Server>, servers: seq<Server>, s: Server)
    requires MergedSoFar(was, done, servers) && Indexes(index, servers) && s.cn !in index
    ensures MergedSoFar(was, done + [s], servers + [s]) && Indexes(index[s.cn := |servers|], servers + [s])
  {
    hide Names, ByName, Onto, Distinct, Indexes;
    IndexMore(index, servers, s);
    IndexNames(index, servers, s.cn);
    Snoc(done, s);
    Snoc(servers, s);
    OntoSnoc(Names(was), Names(done), s.cn);
    DistinctMore(Names(servers), s.cn);
  }

  class Cache {
    var authIPs: seq<Addr>
    var serverListIPs: seq<Addr>
    var servers: seq<Server>
    /** There is a token; it may have expired. */
    var token: bool

    ghost predicate Valid()
      reads this`servers
    {
      Distinct(Names(servers))
    }

    constructor ()
      ensures Valid() && authIPs == [] && serverListIPs == [] && servers == [] && !token
    {
      authIPs, serverListIPs, servers, token := [], [], [], false;
    }

    method MergeAuthIPs(newIPs: seq<Addr>)
      modifies this`authIPs
      ensures authIPs == Merged(old(authIPs), newIPs, 5)
    {
      authIPs := MergeIPs(authIPs, newIPs, MAX_CACHED_IPS);
    }

    method MergeServerListIPs(newIPs: seq<Addr>)
      modifies this`serverListIPs
      ensures serverListIPs == Merged(old(serverListIPs), newIPs, 5)
    {
      serverListIPs := MergeIPs(serverListIPs, newIPs, MAX_CACHED_IPS);
    }

    method ClearServerListIPs()
      modifies this`serverListIPs
      ensures serverListIPs == []
    {
      serverListIPs := [];
    }

    /** CNs stay distinct, known servers stay where they are and new ones follow in order, and
        as a map the list is the old one overridden by the new. */
    method MergeServers(newServers: seq<Server>)
      requires Valid()
      modifies this`servers
      ensures Valid()
      ensures Names(servers) == Onto(Names(old(servers)), Names(newServers))
      ensures ByName(servers) == ByName(old(servers)) + ByName(newServers)
    {
      hide ByName, Names, Distinct, Onto;
      var byCN: map<string, nat>, i := map[], 0;
      while i < |servers|
        invariant 0 <= i <= |servers| && servers == old(servers) && Indexes(byCN, servers[..i])
      {
        IndexMore(byCN, servers[..i], servers[i]);
        assert servers[..i + 1] == servers[..i] + [servers[i]];
        byCN := byCN[servers[i].cn := i];
        i := i + 1;
      }
      assert servers[..i] == servers;
      MergeNone(servers);
      assert newServers[..0] == [];
      i := 0;
      while i < |newServers|
        invariant 0 <= i <= |newServers| && Indexes(byCN, servers) &&
            MergedSoFar(old(servers), newServers[..i], servers)
      {
        var srv := newServers[i];
        if srv.cn in byCN {
          MergeKnown(byCN, old(servers), newServers[..i], servers, srv);
          servers := servers[byCN[srv.cn] := srv];
        } else {
          MergeNew(byCN, old(servers), newServers[..i], servers, srv);
          byCN := byCN[srv.cn := |servers|];
          servers := servers + [srv];
        }
        assert newServers[..i + 1] == newServers[..i] + [srv];
        i := i + 1;
      }
      assert newServers[..i] == newServers;
    }
  }
}
