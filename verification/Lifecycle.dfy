/** The connection lifecycle: initialize, connect with its exemption brackets, services,
    retries and cleanup.  Every network call may succeed or fail; the parent context may be
    cancelled whenever it is looked at. */
module Lifecycle {
  import opened Wrappers
  import opened Netfilter
  import opened Routing
  import opened Sequences
  import opened Policy
  import opened PolicySteps
  import opened FailClosed
  import opened Killswitch
  import opened KillswitchSetup
  import opened FirewallRoutes
  import opened Tunnel
  import opened Brackets
  import opened Resolver
  import opened Backoff
  import opened ServerCache
  import opened ServerSelect
  import Services

  datatype ConnInfo = ConnInfo(serverIP: Address, gateway: Option<Address>, dns: seq<Address>)

  /** How servers are chosen: by hand, by a dedicated-IP token, or by latency. */
  datatype Selection = Manual(ip: Address) | Dedicated | Fastest(location: string)

  datatype Settings = Settings(mode: DnsMode, dns: seq<Address>, upstreams: seq<string>, choice: Selection,
                               pfEnabled: bool, realIP: bool, backend: Backend)

  datatype Ending = Clean | Fault(why: Failure) | Unfinished

  /** What a retry loop tries: to set up DNS, or to connect. */
  datatype Task = DnsTask | ConnectTask

  /** What a request is for: a token, the server list or a dedicated server, each searched for
      in a list of addresses, or the registration of the key. */
  datatype Purpose = AuthSearch | ListSearch | DipSearch | AddKey

  /** One HTTPS request, whether its bracket could be opened, and what was exempted meanwhile. */
  datatype Sent = Sent(purpose: Purpose, ip: Address, port: nat, exempted: bool, held: Exempt, outcome: Outcome)

  /** A request is made exactly under its own exemption. */
  predicate Covered(s: Sent) {
    if s.exempted then s.held == Held([Exemption(s.ip, s.port, Tcp)]) else s.outcome == Failed(Other)
  }

  const AUTH_HOST := "www.privateinternetaccess.com"
  const LIST_HOST := "serverlist.piaservers.net"
  const IP_SERVICES := ["api.ipify.org", "icanhazip.com"]

  /** What ends a search. */
  predicate StopsAt(q: Purpose, exempted: bool, outcome: Outcome) {
    match q
    case AuthSearch => outcome in {Done, Failed(Fatal), Failed(RateLimited)}
    case ListSearch => outcome == Done
    case DipSearch => !exempted || outcome in {Done, Failed(Fatal)}
    case AddKey => true
  }

  predicate Stops(q: Purpose, s: Sent) { StopsAt(q, s.exempted, s.outcome) }

  /** The requests went to the addresses in order, up to the first that ended the search. */
  ghost predicate Tries(q: Purpose, ss: seq<Sent>, ips: seq<Addr>) {
    && |ss| <= |ips|
    && (forall i | 0 <= i < |ss| ::
          ss[i].purpose == q && ss[i].ip == Numeric(ips[i]) && ss[i].port == 443 && Covered(ss[i]))
    && forall i | 0 <= i < |ss| - 1 :: !Stops(q, ss[i])
  }

  predicate Ended(q: Purpose, ss: seq<Sent>) { ss != [] && Stops(q, ss[|ss| - 1]) }

  /** How often an exemption was asked for that iptables could not read. */
  function Junk(ss: seq<Sent>): nat {
    if ss == [] then 0 else Junk(ss[..|ss| - 1]) + if ss[|ss| - 1].ip == Unparsable then 1 else 0
  }

  /** A search through the addresses, and its result: the outcome that ended it, if any did. */
  ghost predicate Searched(q: Purpose, was: seq<Sent>, now: seq<Sent>, ips: seq<Addr>, r: Outcome, ended: bool) {
    && was <= now && Tries(q, now[|was|..], ips) && (ended <==> Ended(q, now[|was|..]))
    && if ended then r == now[|now| - 1].outcome else |now| == |was| + |ips| && r == Failed(Other)
  }

  /** Requests were added, all of them searches at addresses that can be read. */
  ghost predicate Legible(was: seq<Sent>, now: seq<Sent>) {
    && was <= now && Junk(now) == Junk(was)
    && forall i | |was| <= i < |now| :: now[i].ip.Numeric? && now[i].purpose != AddKey
  }

  /** All that was asked since was for one purpose. */
  ghost predicate Only(was: seq<Sent>, now: seq<Sent>, q: Purpose) {
    was <= now && forall i | |was| <= i < |now| :: now[i].purpose == q
  }

  ghost predicate Sought(was: seq<Sent>, now: seq<Sent>, q: Purpose) {
    was <= now && exists i | |was| <= i < |now| :: now[i].purpose == q
  }

  /** It has been asked for, and granted. */
  ghost predicate Won(was: seq<Sent>, now: seq<Sent>, q: Purpose) {
    was <= now && exists i | |was| <= i < |now| :: now[i].purpose == q && now[i].outcome == Done
  }

  /** A failure that is neither fatal nor ordinary is the answer to some request. */
  ghost predicate Stems(r: Outcome, was: seq<Sent>, now: seq<Sent>) {
    r in {Done, Failed(Fatal), Failed(Other)} || exists i | |was| <= i < |now| :: now[i].outcome == r
  }

  /** The exemption chain after requests that found it as `e`: an unreadable address leaves it
      behind if it was not there, and what is there stays. */
  function Left(e: Exempt, junk: bool): Exempt { if e == Absent && junk then Held([]) else e }

  /** The kernel refuses a rule for a gateway it cannot read as there is none without a gateway. */
  function Readable(g: Option<Address>): Option<Addr> {
    if g.Some? && g.value.Numeric? then Some(g.value.a) else None
  }

  /** The address is that of a fastest candidate that answered, or of the first if none did. */
  ghost predicate Wins(ip: Address, candidates: seq<Server>, reports: seq<Report>) {
    if reports == [] then candidates != [] && ip == candidates[0].ip
    else exists b | b in reports && b.idx < |candidates| ::
           ip == candidates[b.idx].ip && forall r | r in reports :: b.latency <= r.latency
  }

  class App {
    const fw: Firewall
    const ctx: Context
    const cfg: Settings
    const cache: Cache
    const gate: Gate
    const resolver: ExemptResolver
    /** Somebody else may delete pia0 while commands run. */
    const foreign: bool
    var conn: Option<ConnInfo>
    var connectionUp: bool
    var exitedCleanly: bool
    var threads: Services.Threads
    ghost var base: seq<Addr>
    ghost var trace: seq<Event>
    ghost var sent: seq<Sent>

    constructor (fw: Firewall, ctx: Context, cfg: Settings, bootstrap: seq<Address>, foreign: bool)
      requires !ctx.background
      ensures this.fw == fw && this.ctx == ctx && this.cfg == cfg && this.foreign == foreign && Wired()
      ensures !exitedCleanly && !connectionUp && trace == [] && conn == None && !gate.met
      ensures gate.resolvers == Servers(bootstrap) && threads == Services.Idling()
      ensures fresh(gate) && fresh(cache) && fresh(resolver) && cache.Valid()
    {
      var g := new Gate(fw, ctx, Servers(bootstrap));
      var r := new ExemptResolver(g);
      var c := new Cache();
      this.fw, this.ctx, this.cfg, this.cache, this.gate, this.resolver := fw, ctx, cfg, c, g, r;
      this.foreign, conn, connectionUp, exitedCleanly := foreign, None, false, false;
      threads, base, trace, sent := Services.Idling(), [], [], [];
    }

    /** The parts belong together. */
    predicate Wired() {
      gate.fw == fw && gate.ctx == ctx && resolver.gate == gate && gate.resolvers != [] && !ctx.background
    }

    /** The state between brackets: exact chains, no exemption, perhaps a left-over chain. */
    ghost predicate Ready()
      reads fw, fw.ipt4, fw.ipt6, fw.kernel, cache`servers
    {
      Wired() && gate.Resting() && fw.kernel.Rendered() && fw.kernel.Coherent() && cache.Valid()
    }

    /** What brackets leave: the chains as they were, nothing granted but modest exemptions, no
        collision unless there was a left-over chain, and, if pia0 was away to begin with, none
        of them open while it was there. */
    twostate predicate Undisturbed()
      reads gate, fw, fw.ipt4, fw.ipt6, fw.kernel, cache`servers
    {
      && Ready() && gate.Kept()
      && (!old(gate.Tunnelled()) ==> gate.met == old(gate.met))
    }

    /** The same where an address may be unreadable: the exemption chain is left behind exactly
        if it was not there and an exemption was asked for such an address. */
    twostate predicate Bracketed()
      reads `sent, gate, fw, fw.ipt4, fw.ipt6, fw.kernel, cache`servers
    {
      && Ready() && old(sent) <= sent && Junk(old(sent)) <= Junk(sent)
      && fw.policy == old(fw.policy).(exempt := Left(old(fw.policy.exempt), Junk(old(sent)) < Junk(sent)))
      && (gate.Free() ==> fw.ipt4.collisions == old(fw.ipt4.collisions))
      && (!old(gate.Free()) ==> gate.brackets == old(gate.brackets))
      && Widened(gate.resolvers, old(fw.granted), fw.granted)
      && (!old(gate.Tunnelled()) ==> gate.met == old(gate.met))
    }

    // ---- Requests ----

    /** The HTTPS request itself, which the killswitch must let through. */
    method Post(q: Purpose, ip: Address, port: nat) returns (r: Outcome)
      requires gate.Lets(Exemption(ip, port, Tcp))
      modifies `sent
      ensures sent == old(sent) + [Sent(q, ip, port, true, fw.policy.exempt, r)]
    {
      r := *;
      sent := sent + [Sent(q, ip, port, true, fw.policy.exempt, r)];
    }

    /** A bracket around one HTTPS request. */
    method Request(q: Purpose, ip: Address, port: nat) returns (r: Outcome, exempted: bool)
      requires Ready() && port in {HTTPS, ADD_KEY}
      modifies fw.ipt4, fw`policy, fw`granted, gate, `sent
      ensures Bracketed() && (ip.Numeric? ==> Undisturbed())
      ensures Junk(sent) == Junk(old(sent)) + Count(ip == Unparsable)
      ensures exempted == (old(gate.Free()) && ip.Numeric?) && (!exempted ==> r == Failed(Other))
      ensures |sent| == |old(sent)| + 1
      ensures var s := sent[|old(sent)|]; s == Sent(q, ip, port, exempted, s.held, r) && Covered(s)
    {
      hide Table4, Table6, Render, Sealed, Widened, Junk, PassesFor;
      exempted := gate.OpenOne(ip, port);
      if exempted {
        r := Post(q, ip, port);
        gate.Close();
      } else {
        r := Failed(Other);
        sent := sent + [Sent(q, ip, port, false, fw.policy.exempt, r)];
      }
      JunkMore(old(sent), sent[|old(sent)|]);
    }

    method TryAll(q: Purpose, ips: seq<Addr>) returns (r: Outcome, ended: bool)
      requires Ready() && q != AddKey
      modifies fw.ipt4, fw`policy, fw`granted, gate, `sent
      ensures Undisturbed() && Legible(old(sent), sent) && Searched(q, old(sent), sent, ips, r, ended)
      ensures !old(gate.Free()) || !ended ==> r == Failed(Other)
    {
      hide Table4, Table6, Render, Sealed, Widened, Junk, Searched, Covered;
      WidenedNot(gate.resolvers, fw.granted);
      NothingSearched(q, sent, ips);
      var i := 0;
      while i < |ips|
        invariant 0 <= i <= |ips| && Undisturbed() && Legible(old(sent), sent)
        invariant Searched(q, old(sent), sent, ips[..i], Failed(Other), false)
      {
        ghost var was, asked := fw.granted, sent;
        var exempted;
        r, exempted := Request(q, Numeric(ips[i]), HTTPS);
        WidenedTwice(gate.resolvers, old(fw.granted), was, fw.granted);
        SearchedMore(q, old(sent), asked, ips, i, sent[|asked|]);
        assert sent == asked + [sent[|asked|]];
        if StopsAt(q, exempted, r) { return r, true; }
        i := i + 1;
      }
      assert ips[..i] == ips;
      r, ended := Failed(Other), false;
    }

    /** Cached addresses in order, then, if none of them ends the search, freshly resolved ones. */
    method Authenticate() returns (r: Outcome, ghost ips: seq<Addr>, ghost ended: bool)
      requires Ready()
      modifies fw.ipt4, fw`policy, fw`granted, gate, resolver, cache`authIPs, `sent
      ensures Undisturbed() && Legible(old(sent), sent) && old(resolver.asked) <= resolver.asked
      ensures Searched(AuthSearch, old(sent), sent, old(cache.authIPs) + ips, r, ended)
      ensures resolver.asked == old(resolver.asked) <==> ended && |sent| <= |old(sent)| + |old(cache.authIPs)|
      ensures cache.authIPs == if ips == [] then old(cache.authIPs) else Merged(old(cache.authIPs), ips, 5)
      ensures if resolver.asked == old(resolver.asked) then ips == []
              else var l := resolver.asked[|resolver.asked| - 1];
                   ips == if Answers(l, AUTH_HOST)
                     then l.results[AUTH_HOST].ips else []
      ensures forall i | |old(sent)| <= i < |sent| && sent[i].outcome in {Done, Failed(Fatal), Failed(RateLimited)} ::
        i == |sent| - 1 && r == sent[i].outcome
      ensures r == Failed(Other) <==> forall i | |old(sent)| <= i < |sent| ::
        sent[i].outcome !in {Done, Failed(Fatal), Failed(RateLimited)}
    {
      hide Table4, Table6, Render, Sealed, Widened, Merged, Junk, Searched;
      ghost var cached := cache.authIPs;
      var over;
      r, over := TryAll(AuthSearch, cache.authIPs);
      assert cached + [] == cached;
      SearchedBound(AuthSearch, old(sent), sent, cached, r, over);
      TokenDecides(old(sent), sent, cached, r, over);
      ips, ended := [], over;
      if over { return; }
      ghost var was := fw.granted;
      var found := resolver.Resolve(AUTH_HOST);
      WidenedTwice(gate.resolvers, old(fw.granted), was, fw.granted);
      if found.None? { return Failed(Other), [], false; }
      ips := found.value;
      cache.MergeAuthIPs(found.value);
      was := fw.granted;
      ghost var asked := sent;
      r, over := TryAll(AuthSearch, found.value);
      ended := over;
      WidenedTwice(gate.resolvers, old(fw.granted), was, fw.granted);
      SearchedTwice(AuthSearch, old(sent), asked, sent, cached, ips, r, over);
      TokenDecides(old(sent), sent, cached + ips, r, over);
    }

    /** The cached addresses of the server list's host, resolved first if there are none. */
    method ListAddresses() returns (found: bool)
      requires Ready()
      modifies fw.ipt4, fw`policy, fw`granted, gate, resolver, cache`serverListIPs
      ensures Undisturbed()
      ensures if old(cache.serverListIPs) != [] then found && cache.serverListIPs == old(cache.serverListIPs)
              else && old(resolver.asked) < resolver.asked
                   && var l := resolver.asked[|resolver.asked| - 1];
                      && found == Answers(l, LIST_HOST)
                      && cache.serverListIPs == if found then Merged([], l.results[LIST_HOST].ips, 5) else []
    {
      hide Table4, Table6, Render, Sealed, Widened, Merged;
      WidenedNot(gate.resolvers, fw.granted);
      found := true;
      if cache.serverListIPs == [] {
        var ips := resolver.Resolve(LIST_HOST);
        if ips.None? { return false; }
        cache.MergeServerListIPs(ips.value);
      }
    }

    /** The cached addresses, resolved first if there are none, in order until one has the list;
        it is merged into the cache, and if there is none the addresses are forgotten. */
    method GetServers() returns (r: Outcome, ghost ips: seq<Addr>, ghost list: seq<Server>)
      requires Ready()
      modifies fw.ipt4, fw`policy, fw`granted, gate, resolver, cache`serverListIPs, cache`servers, `sent
      ensures Undisturbed() && Legible(old(sent), sent)
      ensures old(cache.serverListIPs) != [] ==> ips == old(cache.serverListIPs)
      ensures old(cache.serverListIPs) == [] ==>
        && old(resolver.asked) < resolver.asked
        && var l := resolver.asked[|resolver.asked| - 1];
           ips == if Answers(l, LIST_HOST) then Merged([], l.results[LIST_HOST].ips, 5) else []
      ensures Searched(ListSearch, old(sent), sent, ips, r, r == Done)
      ensures if r == Done
              then cache.serverListIPs == ips && ByName(cache.servers) == ByName(old(cache.servers)) + ByName(list)
              else cache.serverListIPs == [] && cache.servers == old(cache.servers)
    {
      hide Table4, Table6, Render, Sealed, Widened, Merged, Junk, ByName, Searched;
      ips, list := [], [];
      NothingSearched(ListSearch, sent, []);
      var found := ListAddresses();
      if !found { return Failed(Other), [], []; }
      ips := cache.serverListIPs;
      ghost var was := fw.granted;
      var ended;
      r, ended := TryAll(ListSearch, cache.serverListIPs);
      ListDecides(old(sent), sent, ips, r, ended);
      WidenedTwice(gate.resolvers, old(fw.granted), was, fw.granted);
      if ended {
        var fetched: seq<Server> := *;
        list := fetched;
        cache.MergeServers(fetched);
      } else {
        cache.ClearServerListIPs();
      }
    }

    /** The race itself: the killswitch must let every candidate be asked. */
    method Measure(candidates: seq<Server>) returns (r: Option<(Server, nat)>,
        ghost measured: Server -> nat, ghost reports: seq<Report>, ghost held: Exempt)
      requires forall c | c in candidates :: gate.Lets(Exemption(c.ip, 1337, Tcp))
      ensures r.Some? <==> candidates != []
      ensures r.Some? ==> r.value.0 in candidates && Wins(r.value.0.ip, candidates, reports)
      ensures Collected(candidates, measured, reports) && held == fw.policy.exempt
    {
      var latencies: Server -> nat := *;
      measured, held := latencies, fw.policy.exempt;
      var best, rs, _, _ := Race(candidates, latencies);
      r, reports := best, rs;
    }

    /** One batch of exemptions, for all candidates that can be read, held while they race. */
    method RaceServers(candidates: seq<Server>) returns (winner: Option<Server>,
        ghost measured: Server -> nat, ghost reports: seq<Report>, ghost held: Exempt)
      requires Ready()
      modifies fw.ipt4, fw`policy, fw`granted, gate
      ensures Undisturbed()
      ensures winner.Some? <==> candidates != [] && gate.Free()
      ensures winner.Some? ==> winner.value in candidates && Wins(winner.value.ip, candidates, reports)
      ensures winner.Some? ==>
        held.Held? && forall e :: e in held.specs <==>
          exists c | c in candidates && c.ip.Numeric? :: e == Exemption(c.ip, 1337, Tcp)
      ensures Collected(candidates, measured, reports)
    {
      hide Table4, Table6, Render, Sealed, Widened, Wins, Collected, PassesFor, Fitting;
      WidenedNot(gate.resolvers, fw.granted);
      measured, reports, held, winner := (s: Server) => 0, [], Absent, None;
      NothingCollected(candidates);
      if candidates != [] {
        var es := seq(|candidates|, i requires 0 <= i < |candidates| => Exemption(candidates[i].ip, ADD_KEY, Tcp));
        var ok := gate.OpenAll(es);
        if ok {
          forall c | c in candidates ensures gate.Lets(Exemption(c.ip, 1337, Tcp)) {
            var i :| 0 <= i < |candidates| && candidates[i] == c;
            assert es[i] == Exemption(c.ip, 1337, Tcp);
          }
          forall e ensures e in Fitting(es)
                      <==> exists c | c in candidates && c.ip.Numeric? :: e == Exemption(c.ip, 1337, Tcp) {
            FittingHas(es, e);
            if c :| c in candidates && c.ip.Numeric? && e == Exemption(c.ip, 1337, Tcp) {
              var i :| 0 <= i < |candidates| && candidates[i] == c;
              assert es[i] == e;
            }
          }
          var best;
          best, measured, reports, held := Measure(candidates);
          gate.Close();
          winner := Some(best.value.0);
        }
      }
    }

    predicate Wanted(s: Server) {
      cfg.choice.Fastest? && Eligible(s, Tokens(cfg.choice.location, ""), cfg.pfEnabled)
    }

    /** By latency: a fastest of the candidates that answered, all of them listed servers of the
        requested regions, or the first of them; and a failure exactly when there is none or a
        left-over chain stops the race.  By token: the first answer of the cached addresses. */
    method SelectServer() returns (r: Outcome, ip: Address, ghost candidates: seq<Server>, ghost reports: seq<Report>,
        ghost region: string)
      requires Ready()
      modifies fw.ipt4, fw`policy, fw`granted, gate, `sent
      ensures Undisturbed() && Legible(old(sent), sent)
      ensures cfg.choice.Manual? ==> r == Done && ip == cfg.choice.ip
      ensures cfg.choice.Dedicated? ==> Tries(DipSearch, sent[|old(sent)|..], cache.authIPs)
      ensures cfg.choice.Dedicated? ==>
        forall i | |old(sent)| <= i < |sent| && (!sent[i].exempted || sent[i].outcome in {Done, Failed(Fatal)}) ::
          var o := sent[i].outcome;
          && i == |sent| - 1
          && r == if o == Done && cfg.pfEnabled && !Forwards(cache.servers, region) then Failed(Fatal) else o
      ensures cfg.choice.Dedicated? && (forall i | |old(sent)| <= i < |sent| ::
          sent[i].exempted && sent[i].outcome !in {Done, Failed(Fatal)}) ==>
        |sent| == |old(sent)| + |cache.authIPs| && r == Failed(Other)
      ensures cfg.choice.Fastest? ==>
        && (forall s | s in candidates :: s in cache.servers && Wanted(s))
        && (exists measured: Server -> nat :: Collected(candidates, measured, reports))
        && (r == Done ==> Wins(ip, candidates, reports))
        && (r == Done <==> gate.Free() && exists s | s in cache.servers :: Wanted(s))
        && (r != Done ==>
              var chosen := cfg.choice.location == "all" || exists s | s in cache.servers :: Wanted(s);
              r == Failed(if chosen then Other else Fatal))
      ensures Only(old(sent), sent, DipSearch) && (!cfg.choice.Dedicated? ==> sent == old(sent))
      ensures Stems(r, old(sent), sent)
    {
      hide Table4, Table6, Render, Sealed, Widened, Tokens, Wins, Collected, Junk;
      WidenedNot(gate.resolvers, fw.granted);
      ip, candidates, reports, region := *, [], [], "";
      match cfg.choice {
        case Manual(a) => r, ip := Done, a;
        case Dedicated =>
          var ended;
          r, ended := TryAll(DipSearch, cache.authIPs);
          DipDecides(old(sent), sent, cache.authIPs, r, ended);
          SearchedOnly(DipSearch, old(sent), sent, cache.authIPs, r, ended);
          if r == Done && cfg.pfEnabled {
            var place: string := *;
            region := place;
            var forwards := RegionForwards(cache.servers, place);
            if !forwards { r := Failed(Fatal); }
          }
        case Fastest(location) =>
          NoReports([]);
          var picked := PickCandidates(cache.servers, location, cfg.pfEnabled);
          if !picked.Candidates? { return Failed(Fatal), ip, [], [], ""; }
          candidates := picked.list;
          if candidates != [] { assert Wanted(candidates[0]); }
          var winner;
          ghost var measured;
          ghost var held;
          winner, measured, reports, held := RaceServers(picked.list);
          if winner.None? { return Failed(Other), ip, candidates, reports, ""; }
          r, ip := Done, winner.value.ip;
      }
    }

    /** The fetches themselves, from any of the services. */
    method Fetch(es: seq<Exemption>) returns (ghost held: Exempt)
      requires forall e | e in es :: gate.Lets(e)
      ensures held == fw.policy.exempt
    {
      held := fw.policy.exempt;
    }

    /** The address before the VPN: a lookup, then one batch for the first address of every
        service that was found. */
    method CaptureRealIP() returns (ghost held: Exempt)
      requires Ready()
      modifies fw.ipt4, fw`policy, fw`granted, gate, resolver
      ensures Undisturbed() && gate.met == (old(gate.met) || (gate.Free() && old(gate.Tunnelled())))
      ensures resolver.asked != []
      ensures var l := resolver.asked[|resolver.asked| - 1];
        l.results != map[] ==> held.Held? && forall e :: e in held.specs <==>
          exists h | h in IP_SERVICES && Answers(l, h) && l.results[h].ips != [] ::
            e == Exemption(Numeric(l.results[h].ips[0]), 443, Tcp)
    {
      hide Table4, Table6, Render, Sealed, Widened, InTurn, PassesFor, Fitting;
      held := Absent;
      var results := resolver.ResolveAll(IP_SERVICES);
      if results == map[] { return; }
      var es: seq<Exemption>, i := [], 0;
      while i < |IP_SERVICES|
        modifies {}
        invariant 0 <= i <= |IP_SERVICES|
        invariant forall e :: e in es <==> exists j | 0 <= j < i ::
          var h := IP_SERVICES[j];
          h in results && results[h].Found? && e == Exemption(Numeric(results[h].ips[0]), HTTPS, Tcp)
      {
        var h := IP_SERVICES[i];
        if h in results && results[h].Found? { es := es + [Exemption(Numeric(results[h].ips[0]), HTTPS, Tcp)]; }
        i := i + 1;
      }
      ghost var was := fw.granted;
      var ok := gate.OpenAll(es);
      forall e ensures e in Fitting(es) <==> e in es { FittingHas(es, e); }
      held := Fetch(es);
      WidenedTwice(gate.resolvers, old(fw.granted), was, fw.granted);
      gate.Close();
    }

    // ---- Connecting ----

    /** The attempt came to the key service of its server. */
    ghost predicate Keyed(was: seq<Sent>)
      reads this
    {
      |was| < |sent| && sent[|sent| - 1].purpose == AddKey
    }

    /** It did so for an address iptables cannot read. */
    ghost predicate Stuck(was: seq<Sent>)
      reads this
    {
      Keyed(was) && sent[|sent| - 1].ip == Unparsable
    }

    /** The token, unless there is a fresh one. */
    method GetToken() returns (r: Outcome, unexpired: bool)
      requires Ready()
      modifies fw.ipt4, fw`policy, fw`granted, gate, resolver, cache`authIPs, cache`token, `sent
      ensures Undisturbed() && Legible(old(sent), sent) && Only(old(sent), sent, AuthSearch)
      ensures if unexpired then old(cache.token) && sent == old(sent) && r == Done
              else r == Done <==> Won(old(sent), sent, AuthSearch)
      ensures cache.token == (old(cache.token) || Won(old(sent), sent, AuthSearch)) && Stems(r, old(sent), sent)
    {
      hide Table4, Table6, Render, Sealed, Widened, Merged, Answers, Junk, Searched;
      WidenedNot(gate.resolvers, fw.granted);
      unexpired := *;
      unexpired := unexpired && cache.token;
      if unexpired { return Done, unexpired; }
      ghost var ips, ended, cached := [], false, cache.authIPs;
      r, ips, ended := Authenticate();
      SearchedOnly(AuthSearch, old(sent), sent, cached + ips, r, ended);
      if r == Done { cache.token := true; }
    }

    /** The server list, unless there is one. */
    method GetList() returns (r: Outcome)
      requires Ready()
      modifies fw.ipt4, fw`policy, fw`granted, gate, resolver, cache`serverListIPs, cache`servers, `sent
      ensures Undisturbed() && Legible(old(sent), sent) && Only(old(sent), sent, ListSearch)
      ensures if old(cache.servers) != [] then r == Done && sent == old(sent) && cache.servers == old(cache.servers)
              else r == Done ==> Won(old(sent), sent, ListSearch)
      ensures Stems(r, old(sent), sent)
    {
      hide Table4, Table6, Render, Sealed, Widened, Merged, Answers, Junk, Searched, ByName;
      WidenedNot(gate.resolvers, fw.granted);
      r := Done;
      if cache.servers == [] {
        ghost var ips, list;
        r, ips, list := GetServers();
        SearchedOnly(ListSearch, old(sent), sent, ips, r, r == Done);
      }
    }

    /** Up to the choice of a server: the token, the server list unless there is one, and what
        the settings ask for. */
    method FindServer() returns (r: Outcome, ip: Address, unexpired: bool)
      requires Ready()
      modifies fw.ipt4, fw`policy, fw`granted, gate, resolver, cache, `sent
      ensures Undisturbed() && Legible(old(sent), sent)
      ensures Sought(old(sent), sent, AuthSearch) ==> !unexpired
      ensures Sought(old(sent), sent, ListSearch) ==> old(cache.servers) == []
      ensures Sought(old(sent), sent, DipSearch) ==> cfg.choice.Dedicated?
      ensures (unexpired ==> old(cache.token)) && cache.token == (old(cache.token) || Won(old(sent), sent, AuthSearch))
      ensures r == Done ==>
        && (unexpired || Won(old(sent), sent, AuthSearch))
        && if old(cache.servers) == [] then Won(old(sent), sent, ListSearch) else cache.servers == old(cache.servers)
      ensures Stems(r, old(sent), sent)
      ensures r == Done && cfg.choice.Manual? ==> ip == cfg.choice.ip
      ensures r == Done && cfg.choice.Fastest? ==> exists s | s in cache.servers :: Wanted(s) && s.ip == ip
    {
      hide Ready;
      hide Table4, Table6, Render, Sealed, Widened, Tries, Searched, Merged, Collected, Tokens, Wins, Answers, Eligible;
      hide Junk, Forwards, ByName, Won, Stems, Sought, Only;
      WhenReady();
      ip := Unparsable;
      r, unexpired := GetToken();
      ghost var was, asked := fw.granted, sent;
      OnlySought(old(sent), asked, AuthSearch);
      if r != Done { return; }
      r := GetList();
      WidenedTwice(gate.resolvers, old(fw.granted), was, fw.granted);
      OnlySought(asked, sent, ListSearch);
      SoughtBoth(old(sent), asked, sent, r);
      if r != Done { return; }
      was, asked := fw.granted, sent;
      ghost var candidates, reports, region;
      r, ip, candidates, reports, region := SelectServer();
      WidenedTwice(gate.resolvers, old(fw.granted), was, fw.granted);
      OnlySought(asked, sent, DipSearch);
      SoughtBoth(old(sent), asked, sent, r);
      if r == Done && cfg.choice.Fastest? { WinnerWanted(ip, candidates, reports); }
    }

    /** `vpn.Setup`: no bracket is open once the interface is there.  The exemption chain is left
        behind if and only if the attempt came to the key service of a server whose address
        cannot be read; and with a left-over chain no attempt succeeds.  A token the key service
        rejects is forgotten, and what it answers otherwise is the outcome, but that a tunnel
        which does not come up is fatal. */
    method VpnSetup() returns (r: Outcome, info: ConnInfo)
      requires Ready()
      modifies fw.ipt4, fw`policy, fw`granted, gate, resolver, cache, `sent
      modifies fw.kernel`link, fw.kernel`up, fw.kernel`tunnel, fw.kernel`rules, fw.kernel`view, ctx
      ensures Bracketed() && OutsideTunnel(fw.kernel.view, old(fw.kernel.view))
      ensures Junk(old(sent)) < Junk(sent) <==> Stuck(old(sent))
      ensures old(gate.Free()) ==> fw.policy.exempt == if Stuck(old(sent)) then Held([]) else Absent
      ensures cfg.choice.Manual? ==> (Stuck(old(sent)) <==> Keyed(old(sent)) && cfg.choice.ip == Unparsable)
      ensures Stuck(old(sent)) ==> r == Failed(Other)
      ensures r == Done ==> Keyed(old(sent)) && cache.token
      ensures r == Done ==>
          gate.Free() && info.serverIP.Numeric? && (cfg.choice.Manual? ==> info.serverIP == cfg.choice.ip)
      ensures r == Done ==> fw.kernel.view.vpn && (!foreign ==> fw.kernel.tunnel)
      ensures r == Done && cfg.choice.Fastest? ==> exists s | s in cache.servers :: Wanted(s) && s.ip == info.serverIP
      ensures Settled(r, old(sent))
    {
      hide Table4, Table6, Render, Sealed, Widened, Eligible, Tokens, Junk, Won, Stems;
      info := ConnInfo(Unparsable, None, []);
      var ip, unexpired;
      r, ip, unexpired := FindServer();
      if r != Done { return; }
      var keys: bool := *;
      if !keys {
        FatalStems(old(sent), sent);
        return Failed(Fatal), info;
      }
      ghost var was := fw.granted;
      var exempted;
      r, exempted := Request(AddKey, ip, ADD_KEY);
      WidenedTwice(gate.resolvers, old(fw.granted), was, fw.granted);
      if r == Failed(TokenRejected) { cache.token := false; }
      if r != Done { return; }
      var up, _, _, _ := Up(fw.kernel, ctx, cfg.backend, foreign);
      if !up { return Failed(Fatal), info; }
      var gateway: Option<Address>, dns: seq<Address> := *, *;
      info := ConnInfo(ip, gateway, dns);
    }

    /** How an attempt has ended so far. */
    ghost predicate Settled(r: Outcome, was: seq<Sent>)
      reads `sent, cache`token
    {
      if was < sent && sent[|sent| - 1].purpose == AddKey then
        var o := sent[|sent| - 1].outcome;
        && (o == Failed(TokenRejected) ==> !cache.token)
        && if o == Done then r in {Done, Failed(Fatal)} else r == o
      else r != Done && Stems(r, was, sent)
    }

    /** With a live context nothing of the tunnel is left, so no bracket meets pia0. */
    method TakeDown()
      requires Ready()
      modifies fw.kernel`link, fw.kernel`up, fw.kernel`tunnel, fw.kernel`rules, fw.kernel`view, ctx
      ensures Ready() && OutsideTunnel(fw.kernel.view, old(fw.kernel.view)) && !gate.Tunnelled()
    {
      hide Table4, Table6, Render, Sealed;
      Down(fw.kernel, ctx, foreign);
    }

    /** One connection attempt: pia0 goes first. */
    method Establish() returns (r: Outcome, ghost setup: Outcome)
      requires Ready() && Services.Idle(threads.forward)
      modifies fw.ipt4, fw`policy, fw`granted, gate, resolver, cache, `sent, `conn, `connectionUp
      modifies fw.kernel`link, fw.kernel`up, fw.kernel`tunnel, fw.kernel`rules, fw.kernel`view, ctx
      ensures Bracketed() && gate.met == old(gate.met)
      ensures Junk(old(sent)) < Junk(sent) <==> Stuck(old(sent))
      ensures old(gate.Free()) ==> fw.policy.exempt == if Stuck(old(sent)) then Held([]) else Absent
      ensures cfg.choice.Manual? ==> (Stuck(old(sent)) <==> Keyed(old(sent)) && cfg.choice.ip == Unparsable)
      ensures Stuck(old(sent)) ==> r == Failed(Other)
      ensures r == Done ==> gate.Free() && (cfg.choice.Manual? ==> cfg.choice.ip.Numeric?)
      ensures r == Done ==> connectionUp && conn.Some? && fw.kernel.view.vpn && (!foreign ==> fw.kernel.tunnel)
      ensures r == Done && cfg.mode == Pia ==>
          forall a | a in conn.value.dns :: a.Numeric? && a.a in fw.kernel.view.guards
      ensures fw.kernel.view.(vpn := false, suppress := false, pia := [], guards := [])
           == old(fw.kernel.view).(vpn := false, suppress := false, pia := [], guards := [])
      ensures cfg.mode != Pia ==> fw.kernel.view.pia == old(fw.kernel.view).pia
      ensures Settled(setup, old(sent)) && if setup == Done then r in {Done, Failed(Other)} else r == setup
    {
      hide Ready;
      hide Table4, Table6, Render, Sealed, Widened, Junk, Settled;
      WhenReady();
      TakeDown();
      var info;
      r, info := VpnSetup();
      setup := r;
      if r != Done { return; }
      conn := Some(info);
      if cfg.mode == Pia {
        var written: bool := *;
        if !written { return Failed(Other), setup; }
        var ok := AddPiaDns(info.dns);
        if !ok { return Failed(Other), setup; }
      }
      var verified: bool := *;
      if !verified { return Failed(Other), setup; }
      connectionUp := true;
    }

    /** Clears every rule at 75 and 76 first: the port-forward goroutine must have returned. */
    method AddPiaDns(dns: seq<Address>) returns (ok: bool)
      requires Ready() && Services.Idle(threads.forward)
      modifies fw.kernel`rules, fw.kernel`view
      ensures Ready()
      ensures fw.kernel.view.(pia := [], guards := []) == old(fw.kernel.view).(pia := [], guards := [])
      ensures ok ==> forall a | a in dns :: a.Numeric? && a.a in fw.kernel.view.guards
    {
      ok := AddPiaDnsRoutes(fw.kernel, dns);
    }

    /** DNS before the first connection; only the proxy for DNS over TLS resolves anything, with
        pia0 taken down. */
    method SetupDns() returns (r: Outcome)
      requires Ready()
      modifies fw.ipt4, fw`policy, fw`granted, gate, resolver
      modifies fw.kernel`link, fw.kernel`up, fw.kernel`tunnel, fw.kernel`rules, fw.kernel`view, ctx
      ensures Undisturbed() && gate.met == old(gate.met) && OutsideTunnel(fw.kernel.view, old(fw.kernel.view))
      ensures cfg.mode != Dot ==>
          fw.kernel.view == old(fw.kernel.view) && ctx.done == old(ctx.done) && r in {Done, Failed(Fatal)}
      ensures gate.Tunnelled() == (cfg.mode != Dot && old(gate.Tunnelled()))
      ensures cfg.mode == Dot && r == Done ==> gate.Free()
      ensures cfg.mode == Pia ==> r == Done
      ensures cfg.mode == Dot && cfg.upstreams == [] ==> r == Failed(Fatal)
      ensures cfg.mode == Dot && cfg.upstreams != [] ==>
        && old(resolver.asked) < resolver.asked
        && var answers := resolver.asked[|resolver.asked| - 1].results;
           if answers == map[] then r == Failed(Other)
           else if exists h | h in answers :: answers[h].Found? then r in {Done, Failed(Fatal)}
           else r == Failed(Fatal)
    {
      hide Table4, Table6, Render, Sealed, Widened, InTurn;
      WidenedNot(gate.resolvers, fw.granted);
      var written: bool := *;
      match cfg.mode {
        case Pia => r := Done;
        case System => r := if written then Done else Failed(Fatal);
        case Do53 => r := if written then Done else Failed(Fatal);
        case Dot =>
          TakeDown();
          if cfg.upstreams == [] { return Failed(Fatal); }
          var results := resolver.ResolveAll(cfg.upstreams);
          if results == map[] { return Failed(Other); }
          r := if written && exists h | h in results :: results[h].Found? then Done else Failed(Fatal);
      }
    }

    // ---- Services ----

    /** What the goroutines share, as it is in the kernel and the firewall. */
    ghost function Shared(): Services.Net
      reads fw, fw.kernel
    {
      Services.Net(fw.kernel.view, fw.kernel.link, fw.policy.port)
    }

    /** The goroutines' state, on the real chains and rules. */
    ghost predicate Serving()
      reads this, ctx, fw, fw.ipt4, fw.ipt6, fw.kernel, cache`servers
    {
      Ready() && Services.Inv(Services.State(threads, Shared(), base)) && threads.parent == ctx.done
    }

    /** The commands of a step. */
    method Act(step: Services.Step) returns (taken: Services.Step)
      requires Ready() && Services.CanTake(threads, step) && threads.main.Waiting? && !step.WaitEnds?
      requires step.Announce? ==> threads.forward.port > 0
      modifies fw.ipt4, fw`policy, fw`granted, fw`activePort, fw.kernel, ctx
      ensures Ready() && ctx.done == (old(ctx.done) || taken.Cancel?)
      ensures fw.policy.(port := None) == old(fw.policy).(port := None) && fw.ipt4.collisions == old(fw.ipt4.collisions)
      ensures fw.kernel.view.(pia := []) == old(fw.kernel.view).(pia := [])
      ensures taken == step || (step.AddRoute? && taken.AddRoute?)
      ensures Services.Enabled(Services.State(threads, old(Shared()), base), taken)
      ensures Shared() == Services.Change(threads, old(Shared()), taken)
    {
      hide Table4, Table6, Render, Sealed, Widened, Asked, Without;
      taken := step;
      match step {
        case Cancel => ctx.Cancel();
        case Vanish => Vanish(fw.kernel);
        case AddRoute(_) =>
          var ok := false;
          if threads.gateway.Some? { ok := AddPfRoute(fw.kernel, threads.gateway.value); }
          taken := Services.AddRoute(ok);
        case Announce => var _ := fw.AllowForwardedPort(threads.forward.port);
        case Unroute => RemovePfRoute(fw.kernel, threads.gateway);
        case ClosePort => fw.RemoveForwardedPort();
        case _ =>
      }
    }

    /** One step of one goroutine, or of the world around them, is what it is in Services. */
    method Perform(step: Services.Step) returns (ghost taken: Services.Step)
      requires Serving() && threads.main.Waiting? && !step.WaitEnds?
      requires Services.CanTake(threads, step)
      modifies fw.ipt4, fw`policy, fw`granted, fw`activePort, fw.kernel, ctx, `threads
      ensures Serving() && threads.main.Waiting? && threads.steps == old(threads.steps) + 1 &&
          threads.gateway == old(threads.gateway)
      ensures fw.policy.(port := None) == old(fw.policy).(port := None) && fw.ipt4.collisions == old(fw.ipt4.collisions)
      ensures fw.kernel.view.(pia := []) == old(fw.kernel.view).(pia := [])
      ensures var s := Services.State(old(threads), old(Shared()), base);
        && Services.Enabled(s, taken) && !taken.Launch? && !taken.WaitEnds?
        && Services.State(threads, Shared(), base) == Services.Next(s, taken)
    {
      hide Table4, Table6, Render, Sealed, Widened, Asked, Services.Change, Services.RouteFits, Services.PortFits;
      ghost var s := Services.State(threads, Shared(), base);
      var done := Act(step);
      Services.StepKeepsInv(s, done);
      Services.WhoWaits(threads, done);
      Services.ParentIs(threads, done);
      Services.GatewayStays(threads, done);
      threads, taken := Services.Move(threads, done), done;
    }

    /** The goroutines at work, in any order, until all have returned or the budget is used up. */
    method Serve(budget: nat) returns (ghost run: seq<Services.State>, ghost steps: seq<Services.Step>)
      requires Serving() && threads.main.Waiting? && Services.Started(threads, cfg.pfEnabled, threads.gateway)
      modifies fw.ipt4, fw`policy, fw`granted, fw`activePort, fw.kernel, ctx, `threads
      ensures Serving() && threads.main.Waiting? && threads.gateway == old(threads.gateway)
      ensures fw.policy.(port := None) == old(fw.policy).(port := None) && fw.ipt4.collisions == old(fw.ipt4.collisions)
      ensures fw.kernel.view.(pia := []) == old(fw.kernel.view).(pia := [])
      ensures Services.Served(run, steps, cfg.pfEnabled, threads.gateway) && |run| == |steps| + 1
      ensures run[0] == Services.State(old(threads), old(Shared()), base)
      ensures run[|steps|] == Services.State(threads, Shared(), base)
      ensures threads.steps == old(threads.steps) + |steps|
      ensures Services.AllReturned(threads) || |steps| == budget
    {
      hide Table4, Table6, Render, Sealed, Widened, Asked, Services.Next, Services.Enabled, Services.Inv;
      hide Services.Served, Services.Started;
      run, steps := [Services.State(threads, Shared(), base)], [];
      Services.ServedNothing(run[0], cfg.pfEnabled, threads.gateway);
      var n := 0;
      while n < budget && !Services.AllReturned(threads)
        invariant |steps| == n <= budget && threads.steps == old(threads.steps) + |steps| && |run| == |steps| + 1
        invariant Serving() && threads.main.Waiting? && threads.gateway == old(threads.gateway)
        invariant fw.policy.(port := None) == old(fw.policy).(port := None) &&
            fw.ipt4.collisions == old(fw.ipt4.collisions)
        invariant fw.kernel.view.(pia := []) == old(fw.kernel.view).(pia := [])
        invariant Services.Served(run, steps, cfg.pfEnabled, threads.gateway)
        invariant run[0] == Services.State(old(threads), old(Shared()), base)
        invariant run[|steps|] == Services.State(threads, Shared(), base)
      {
        var step: Services.Step := *;
        if step.WaitEnds? || !Services.CanTake(threads, step) { step := Services.Pass; }
        ghost var taken := Perform(step);
        Services.ServedMore(run, steps, cfg.pfEnabled, threads.gateway, taken);
        run, steps := run + [Services.State(threads, Shared(), base)], steps + [taken];
        n := n + 1;
      }
    }

    /** The goroutines are started, on the tunnel as it is. */
    method StartServices()
      requires Ready() && conn.Some? && fw.policy.port == None && threads.main.Connecting? && Services.Fits(threads)
      modifies `threads, `base
      ensures Serving() && threads.main.Waiting? && base == fw.kernel.view.pia
      ensures Services.Started(threads, cfg.pfEnabled, Readable(conn.value.gateway))
      ensures threads.gateway == Readable(conn.value.gateway) && threads.steps == old(threads.steps) + 1
    {
      hide Table4, Table6, Render, Sealed;
      hide Services.Move, Services.RouteFits, Services.PortFits, Services.Fits, Services.Started;
      base := fw.kernel.view.pia;
      var x := threads.(parent := ctx.done);
      Services.Resumed(threads, ctx.done);
      Services.Launched(x, fw.kernel.view, cfg.pfEnabled, Readable(conn.value.gateway));
      threads := Services.Move(x, Services.Launch(cfg.pfEnabled, Readable(conn.value.gateway)));
    }

    /** `runServices`, every interleaving of it, watched for at most `budget` steps.  It ends when
        all goroutines have returned: then nothing is left of the forwarded port, nor of its
        gateway's rule unless the HTTP client could not be built, and unless the parent context
        was cancelled the error is that of the goroutine first to return one. */
    method RunServices(budget: nat) returns (finished: bool, why: Option<Failure>,
        ghost run: seq<Services.State>, ghost steps: seq<Services.Step>)
      requires Ready() && conn.Some? && fw.policy.port == None && threads.main.Connecting? && Services.Fits(threads)
      modifies fw.ipt4, fw`policy, fw`granted, fw`activePort, fw.kernel, ctx, `threads, `base, `connectionUp
      ensures Ready() && fw.policy.(port := None) == old(fw.policy) && fw.ipt4.collisions == old(fw.ipt4.collisions)
      ensures Services.Served(run, steps, cfg.pfEnabled, Readable(conn.value.gateway))
      ensures finished ==>
        && fw.policy == old(fw.policy) && Services.AllReturned(threads) && Services.Fits(threads)
        && (Services.Build(false) !in steps ==> fw.kernel.view == old(fw.kernel.view))
        && (Services.Build(false) in steps ==>
              && Readable(conn.value.gateway).Some?
              && fw.kernel.view ==
                   old(fw.kernel.view).(pia := old(fw.kernel.view).pia + [Readable(conn.value.gateway).value]))
        && (ctx.done ==> why == None) && (!ctx.done ==> why == Services.FirstError(steps, 0, |steps|) && why.Some?)
        && (why == Some(Reconnect) ==> threads.main.Connecting?)
        && (why.Some? ==> !connectionUp)
      ensures threads.steps > old(threads.steps) && (!finished ==> threads.steps > old(threads.steps) + budget)
    {
      hide Table4, Table6, Render, Sealed, Widened, Asked;
      hide Services.Move, Services.RouteFits, Services.PortFits, Services.Fits, Services.AllReturned;
      hide Services.Served, Services.Started, Services.FirstError;
      StartServices();
      run, steps := Serve(budget);
      finished := Services.AllReturned(threads);
      if !finished { return false, None, run, steps; }
      Services.ServedWhy(run, steps, cfg.pfEnabled, threads.gateway);
      Services.Ending(Services.State(threads, Shared(), base));
      threads := Services.Move(threads, Services.WaitEnds);
      if ctx.done { return true, None, run, steps; }
      connectionUp := false;
      why := threads.err;
    }

    // ---- Retrying ----

    /** What a successful attempt has achieved; neither it nor DNS over TLS gets past a left-over
        chain, nor a connection past a server named by an address that cannot be read. */
    ghost predicate Reached(task: Task)
      reads this, fw, gate.fw, fw.kernel
    {
      if task.ConnectTask?
      then conn.Some? && fw.kernel.view.vpn && gate.Free() && cfg.choice != Manual(Unparsable)
      else cfg.mode == Dot ==> gate.Free()
    }

    /** The server is named by an address that can be read. */
    predicate Plain() { cfg.choice.Manual? && cfg.choice.ip.Numeric? }

    /** One attempt of a retry loop, logged. */
    method Attempt(task: Task) returns (r: Outcome)
      requires Ready() && (task.ConnectTask? ==> Services.Idle(threads.forward))
      modifies fw.ipt4, fw`policy, fw`granted, gate, resolver, cache, `sent, `conn, `connectionUp, `trace
      modifies fw.kernel`link, fw.kernel`up, fw.kernel`tunnel, fw.kernel`rules, fw.kernel`view, ctx
      ensures Bracketed() && gate.met == old(gate.met) && trace == old(trace) + [Tried(r)]
      ensures r == Done ==> Reached(task)
      ensures task.DnsTask? ==> sent == old(sent)
      ensures Plain() ==> Junk(sent) == Junk(old(sent))
      ensures task.DnsTask? ==> gate.Tunnelled() == (cfg.mode != Dot && old(gate.Tunnelled()))
      ensures task.DnsTask? && cfg.mode != Dot ==> r in {Done, Failed(Fatal)}
    {
      hide Ready;
      hide Table4, Table6, Render, Sealed, Widened, Junk;
      WhenReady();
      ghost var setup;
      if task.ConnectTask? { r, setup := Establish(); } else { r := SetupDns(); }
      trace := trace + [Tried(r)];
    }

    /** Sits out a ban, waits for the WAN (which resets the delay, and goes on to another
        attempt even when cancelled), or sleeps. */
    method Pause(o: Outcome, delay: nat) returns (next: nat, cancelled: bool, ghost e: Event)
      requires delay == Delay(SinceReset(trace)) && o !in {Done, Failed(Fatal)}
      modifies ctx, `trace
      ensures trace == old(trace) + [e] && MayFollow(Some(Tried(o)), e) && !e.Served?
      ensures (e.Slept? ==> e.seconds == delay) && (e.SatOutBan? ==> e.seconds == 3600)
      ensures next == Delay(SinceReset(trace)) && (old(ctx.done) ==> ctx.done)
      ensures cancelled <==> ctx.done && !e.WaitedForWan?
    {
      hide Delay, SinceReset;
      DelayDoubles(SinceReset(trace));
      DelayDoubles(0);
      var wan: bool := *;
      var p := if o == Failed(RateLimited) then SatOutBan(BAN) else if !wan then WaitedForWan else Slept(delay);
      e := p;
      Backoff.Snoc(trace, e);
      trace := trace + [e];
      next := if p.WaitedForWan? then FIRST_DELAY
              else if !p.Slept? then delay
              else if 2 * delay > MAX_DELAY then MAX_DELAY else 2 * delay;
      ctx.Tick();
      cancelled := ctx.done && !p.WaitedForWan?;
    }

    /** One attempt and, unless it ends the loop, the pause behind it. */
    method Round(task: Task, delay: nat) returns (r: Option<Ending>, next: nat)
      requires Ready() && (task.ConnectTask? ==> Services.Idle(threads.forward))
      requires Paced(trace) && MayFollow(Last(trace), Tried(Done)) && delay == Delay(SinceReset(trace))
      modifies fw.ipt4, fw`policy, fw`granted, gate, resolver, cache, `sent, `conn, `connectionUp, `trace
      modifies fw.kernel`link, fw.kernel`up, fw.kernel`tunnel, fw.kernel`rules, fw.kernel`view, ctx
      ensures Bracketed() && gate.met == old(gate.met)
      ensures task.DnsTask? ==> sent == old(sent)
      ensures Plain() ==> Junk(sent) == Junk(old(sent))
      ensures Stretch(old(trace), trace) && Attempts(trace) == Attempts(old(trace)) + 1
      ensures r.None? ==> MayFollow(Last(trace), Tried(Done)) && next == Delay(SinceReset(trace))
      ensures r.None? && ctx.done ==> Last(trace) == Some(WaitedForWan)
      ensures r == Some(Clean) ==> Last(trace) == Some(Tried(Done)) && Reached(task)
      ensures r == Some(Fault(Fatal)) ==> Last(trace) == Some(Tried(Failed(Fatal)))
      ensures r.Some? && r.value !in {Clean, Fault(Fatal)} ==> r == Some(Fault(Other)) && ctx.done
      ensures task.DnsTask? && r == Some(Clean) ==> gate.Tunnelled() == (cfg.mode != Dot && old(gate.Tunnelled()))
      ensures task.DnsTask? && cfg.mode != Dot ==> r.Some?
    {
      hide Ready;
      hide Table4, Table6, Render, Sealed, Stretch, Paced, Delay, SinceReset, Attempts, Rounds, Widened, Junk;
      ghost var es := trace;
      StretchNone(es);
      var o := Attempt(task);
      StretchMore(es, es, Tried(o));
      Backoff.Snoc(es, Tried(o));
      next := delay;
      if o == Done { return Some(Clean), next; }
      ctx.Tick();
      if ctx.done { return Some(Fault(Other)), next; }
      if o == Failed(Fatal) { return Some(Fault(Fatal)), next; }
      ghost var e;
      var cancelled;
      next, cancelled, e := Pause(o, delay);
      StretchMore(es, es + [Tried(o)], e);
      Backoff.Snoc(es + [Tried(o)], e);
      r := if cancelled then Some(Fault(Other)) else None;
    }

    /** `retryWithWANCheck(ctx, fn)`, watched for at most `attempts` rounds. */
    method Retry(task: Task, attempts: nat) returns (r: Ending)
      requires Ready() && (task.ConnectTask? ==> Services.Idle(threads.forward))
      requires Paced(trace) && MayFollow(Last(trace), Tried(Done)) && SinceReset(trace) == 0
      modifies fw.ipt4, fw`policy, fw`granted, gate, resolver, cache, `sent, `conn, `connectionUp, `trace
      modifies fw.kernel`link, fw.kernel`up, fw.kernel`tunnel, fw.kernel`rules, fw.kernel`view, ctx
      ensures Bracketed() && gate.met == old(gate.met) && Stretch(old(trace), trace)
      ensures task.DnsTask? ==> sent == old(sent)
      ensures Plain() ==> Junk(sent) == Junk(old(sent))
      ensures r.Clean? ==> Last(trace) == Some(Tried(Done)) && Reached(task)
      ensures r == Fault(Fatal) ==> Last(trace) == Some(Tried(Failed(Fatal)))
      ensures r.Fault? && r != Fault(Fatal) ==> ctx.done
      ensures r.Unfinished? ==> Attempts(trace) == Attempts(old(trace)) + attempts
      ensures attempts > 0 ==> trace != old(trace)
      ensures task.DnsTask? && r.Clean? ==> gate.Tunnelled() == (cfg.mode != Dot && old(gate.Tunnelled()))
    {
      hide Ready;
      hide Table4, Table6, Render, Sealed, Stretch, Paced, Delay;
      hide SinceReset, Attempts, Rounds, Widened, MayFollow, Last, Junk;
      var delay, n := FIRST_DELAY, 0;
      DelayDoubles(0);
      StretchNone(trace);
      WidenedNot(gate.resolvers, fw.granted);
      while n < attempts
        invariant 0 <= n <= attempts && Bracketed() && gate.met == old(gate.met)
        invariant task.DnsTask? ==> sent == old(sent)
        invariant Plain() ==> Junk(sent) == Junk(old(sent))
        invariant Stretch(old(trace), trace) && MayFollow(Last(trace), Tried(Done)) && delay == Delay(SinceReset(trace))
        invariant Attempts(trace) == Attempts(old(trace)) + n && (n > 0 ==> trace != old(trace))
        invariant task.DnsTask? && cfg.mode != Dot ==> n == 0 && gate.Tunnelled() == old(gate.Tunnelled())
      {
        ghost var was, es := fw.granted, trace;
        StretchPaced(old(trace), es);
        var over;
        over, delay := Round(task, delay);
        WidenedTwice(gate.resolvers, old(fw.granted), was, fw.granted);
        StretchTwice(old(trace), es, trace);
        if over.Some? { return over.value; }
        n := n + 1;
      }
      r := Unfinished;
    }

    // ---- The whole run ----

    /** Run looks at the parent context, right after the services. */
    method ServicesEnded(why: Option<Failure>) returns (f: Finding)
      modifies ctx, `trace
      ensures trace == old(trace) + [Served(f)] && (old(ctx.done) ==> ctx.done)
      ensures f.Shutdown? <==> ctx.done
      ensures f.Reconnecting? <==> !ctx.done && why == Some(Reconnect)
    {
      ctx.Tick();
      f := if ctx.done then Shutdown else if why == Some(Reconnect) then Reconnecting else Broken;
      trace := trace + [Served(f)];
    }

    method WaitForWan()
      modifies ctx, `trace
      ensures trace == old(trace) + [WaitedForWan] && (old(ctx.done) ==> ctx.done)
    {
      ctx.Tick();
      trace := trace + [WaitedForWan];
    }

    /** The deferred cleanup: always the tunnel, the killswitch only after a clean exit. */
    method CleanupApp()
      requires Ready()
      modifies fw, fw.ipt4, fw.ipt6, fw.kernel
      ensures !fw.kernel.link && !fw.kernel.tunnel && fw.kernel.Rendered()
      ensures !exitedCleanly ==> Ready() && fw.policy == old(fw.policy) && fw.active == old(fw.active)
      ensures exitedCleanly ==> Removed(old(fw.tails))
    {
      hide Table4, Table6, Render, Asked, Sealed;
      var background := new Context(true);
      Down(fw.kernel, background, false);
      if exitedCleanly { Cleanup(fw); }
    }

    /** The killswitch is down: other programs' rules are all that is left. */
    ghost predicate Removed(ts: Tails)
      reads fw, fw.ipt4, fw.ipt6, fw.kernel
    {
      && !fw.active && fw.kernel.view == View([], [], [], [], false, false)
      && fw.ipt4.table == map[INPUT := ts.in4, OUTPUT := ts.out4]
      && fw.ipt6.table == map[INPUT := ts.in6, OUTPUT := ts.out6]
    }

    /** The killswitch stands as it was. */
    twostate predicate Standing()
      reads this, fw, fw.ipt4, fw.ipt6, fw.kernel, cache`servers, gate
    {
      && Ready() && gate.Free() && !exitedCleanly && gate.met == old(gate.met) && Junk(sent) == Junk(old(sent))
      && fw.policy == old(fw.policy) && fw.tails == old(fw.tails) && fw.active == old(fw.active)
    }

    /** How a run ends: the killswitch goes exactly when the last thing that happened was to find
        the parent context cancelled after services.  Where it stands it is as it was, but for an
        exemption chain left behind by an address that cannot be read. */
    twostate predicate Concluded(end: Ending)
      reads this, fw, fw.ipt4, fw.ipt6, fw.kernel, cache`servers, gate, ctx
    {
      && gate.met == old(gate.met) && Junk(old(sent)) <= Junk(sent) && (Plain() ==> Junk(sent) == Junk(old(sent)))
      && (end.Fault? ==> !fw.kernel.link && fw.policy.port == None)
      && Last(trace) != Some(Served(Reconnecting)) && (Last(trace) == Some(Served(Broken)) ==> end.Fault?)
      && if Last(trace) == Some(Served(Shutdown)) then end == Clean && ctx.done &&
          !fw.kernel.link && Removed(old(fw.tails))
         else && end != Clean && Ready() && fw.active == old(fw.active)
              && fw.policy.(port := None)
                   == old(fw.policy).(exempt := Left(old(fw.policy.exempt), Junk(old(sent)) < Junk(sent)))
    }

    /** A connection, or the end of the run. */
    method Connection(attempts: nat, ghost was: seq<Event>, ghost n: nat) returns (end: Option<Ending>)
      requires Ready() && !exitedCleanly && fw.policy.port == None
      requires Services.Fits(threads) && threads.main.Connecting?
      requires Grown(was, trace, n) && Paced(trace)
      requires MayFollow(Last(trace), Tried(Done)) && SinceReset(trace) == 0
      modifies this`conn, this`connectionUp, this`trace, this`sent
      modifies cache, gate, resolver, fw, fw.ipt4, fw.ipt6, fw.kernel, ctx
      ensures end.None? ==>
        && old(gate.Free()) && cfg.choice != Manual(Unparsable)
        && Standing() && conn.Some? && Last(trace) == Some(Tried(Done))
      ensures end.Some? ==> Concluded(end.value) && !end.value.Clean?
      ensures !old(gate.Free()) ==> gate.brackets == old(gate.brackets)
      ensures Grown(was, trace, n) && (end == Some(Unfinished) ==> Attempts(trace) >= Attempts(was) + attempts)
      ensures old(trace) <= trace && (attempts > 0 ==> |trace| > |old(trace)| && trace[|old(trace)|].Tried?)
    {
      hide Ready;
      hide Table4, Table6, Render, Asked, Sealed, Paced, Stretch;
      hide Grown, Delay, SinceReset, Attempts, MayFollow, Last, Removed;
      hide Widened, Services.AllReturned, Services.Fits, Junk;
      WhenReady();
      Services.ReturnedIdle(threads);
      ghost var es := trace;
      GrownAttempts(was, es, n);
      var r := Retry(ConnectTask, attempts);
      GrownBy(was, es, n, trace);
      StretchEnd(es, trace);
      AttemptNext(es, trace);
      if r.Clean? { return None; }
      if r.Fault? { CleanupApp(); }
      end := Some(r);
    }

    /** What follows services: the end of the run, or another connection behind a wait for the WAN. */
    method Aftermath(f: Finding, why: Option<Failure>, attempts: nat, ghost was: seq<Event>, ghost n: nat)
      returns (end: Option<Ending>)
      requires Ready() && gate.Free() && !exitedCleanly && fw.policy.port == None
      requires Services.Fits(threads) && (f.Reconnecting? ==> threads.main.Connecting?) && (f.Broken? ==> why.Some?)
      requires Grown(was, trace, n) && Last(trace) == Some(Served(f)) && (f.Shutdown? ==> ctx.done)
      modifies this`conn, this`connectionUp, this`trace, this`sent, this`exitedCleanly
      modifies cache, gate, resolver, fw, fw.ipt4, fw.ipt6, fw.kernel, ctx
      ensures end.None? ==> f.Reconnecting? && Standing() && conn.Some? && Last(trace) == Some(Tried(Done))
      ensures end.Some? ==> Concluded(end.value) && (end.value.Unfinished? ==> f.Reconnecting?)
      ensures Grown(was, trace, n) && (end == Some(Unfinished) ==> Attempts(trace) >= Attempts(was) + attempts)
      ensures if f.Reconnecting?
              then old(trace) + [WaitedForWan] <= trace
                   && (attempts > 0 ==> |trace| > |old(trace)| + 1 && trace[|old(trace)| + 1].Tried?)
              else trace == old(trace)
    {
      hide Ready;
      hide Table4, Table6, Render, Asked, Sealed, Paced, Stretch;
      hide Grown, Delay, SinceReset, Attempts, MayFollow, Last, Removed;
      hide Widened, Services.AllReturned, Services.Fits, Junk;
      WhenReady();
      LastIs(trace, Served(f));
      if f.Shutdown? {
        exitedCleanly := true;
        CleanupApp();
        return Some(Clean);
      }
      if f.Broken? {
        CleanupApp();
        return Some(Fault(why.value));
      }
      GrownWan(was, trace, n);
      WaitForWan();
      end := Connection(attempts, was, n);
    }

    /** One service period and, if the services ask for it, the reconnection behind it: a wait for
        the WAN and an attempt follow exactly if, without a shutdown, the goroutine first to return
        an error returned one that asks for it. */
    method Period(attempts: nat, budget: nat, ghost was: seq<Event>, ghost n: nat)
      returns (end: Option<Ending>, ghost steps: seq<Services.Step>)
      requires Ready() && gate.Free() && !exitedCleanly && fw.policy.port == None && conn.Some?
      requires Services.Fits(threads) && threads.main.Connecting?
      requires Grown(was, trace, n) && Last(trace) == Some(Tried(Done))
      modifies this, cache, gate, resolver, fw, fw.ipt4, fw.ipt6, fw.kernel, ctx
      ensures end.None? ==>
        && Standing() && Services.Fits(threads) && threads.main.Connecting? && conn.Some?
        && Grown(was, trace, n + 1) && Last(trace) == Some(Tried(Done)) && threads.steps >= old(threads.steps)
      ensures end.Some? ==> Concluded(end.value) && (Grown(was, trace, n) || Grown(was, trace, n + 1))
      ensures end == Some(Unfinished) ==>
        threads.steps > old(threads.steps) + budget || Attempts(trace) >= Attempts(was) + attempts
      ensures exists run :: Services.Served(run, steps, cfg.pfEnabled, Readable(old(conn.value.gateway)))
      ensures trace == old(trace) || Continues(old(trace), trace, Services.FirstError(steps, 0, |steps|), attempts)
    {
      hide Ready;
      hide Table4, Table6, Render, Asked, Sealed, Paced, Stretch;
      hide Grown, Delay, SinceReset, Attempts, MayFollow, Last, Removed;
      hide Widened, Services.AllReturned, Services.Fits, Services.Served, Services.FirstError, Junk, Continues;
      WhenReady();
      LastIs(trace, Tried(Done));
      var finished, why;
      ghost var run;
      finished, why, run, steps := RunServices(budget);
      if !finished { return Some(Unfinished), steps; }
      var f := ServicesEnded(why);
      GrownServed(was, old(trace), n, f);
      end := Aftermath(f, why, attempts, was, n + 1);
      if f.Reconnecting? {
        RunGoesOn(old(trace), trace, attempts);
      } else {
        ServicesWereLast(old(trace), f, Services.FirstError(steps, 0, |steps|), attempts);
      }
    }

    /** `Run` after initialize, watched for at most `rounds` service periods.  The killswitch is
        taken down if and only if the parent context was found cancelled right after services,
        which is then the last thing that happens; on every other path it stands as it was, but
        for a chain left behind.  With a left-over chain, or a server named by an address that
        cannot be read, services never start. */
    method Run(rounds: nat, attempts: nat, budget: nat) returns (end: Ending)
      requires Ready() && !exitedCleanly && fw.policy.port == None
      requires Services.Fits(threads) && threads.main.Connecting?
      requires Paced(trace) && MayFollow(Last(trace), Tried(Done)) && SinceReset(trace) == 0
      modifies this, cache, gate, resolver, fw, fw.ipt4, fw.ipt6, fw.kernel, ctx
      ensures old(trace) <= trace && Paced(trace) && Concluded(end)
      ensures Last(trace) == Some(Served(Shutdown)) <==> VPN_OUT !in fw.ipt4.table
      ensures forall i | 0 <= i < |trace| - 1 :: trace[i] != Served(Shutdown)
      ensures !old(gate.Free()) || cfg.choice == Manual(Unparsable) ==>
          end != Clean && Rounds(trace) == Rounds(old(trace))
      ensures !old(gate.Free()) ==> gate.brackets == old(gate.brackets)
      ensures end.Unfinished? ==>
        || Rounds(trace) == Rounds(old(trace)) + rounds || Attempts(trace) >= Attempts(old(trace)) + attempts
        || threads.steps > old(threads.steps) + budget
    {
      hide Ready;
      hide Table4, Table6, Render, Asked, Sealed, Paced, Stretch, Grown;
      hide Delay, SinceReset, Attempts, Rounds, MayFollow, Last, Removed;
      hide Widened, Services.AllReturned, Services.Fits, Junk;
      WhenReady();
      ghost var was := trace;
      GrownNone(was);
      var over := Connection(attempts, was, 0);
      if over.Some? {
        GrownEnds(was, trace, 0);
        UpOrGone();
        return over.value;
      }
      var i := 0;
      while i < rounds
        invariant 0 <= i <= rounds && Standing() && conn.Some? && Last(trace) == Some(Tried(Done))
        invariant Services.Fits(threads) && threads.main.Connecting? && threads.steps >= old(threads.steps)
        invariant Grown(was, trace, i)
      {
        ghost var steps;
        over, steps := Period(attempts, budget, was, i);
        if over.Some? {
          GrownEnds(was, trace, if Grown(was, trace, i) then i else i + 1);
          UpOrGone();
          return over.value;
        }
        i := i + 1;
      }
      GrownEnds(was, trace, i);
      LastIs(trace, Tried(Done));
      UpOrGone();
      end := Unfinished;
    }

    /** The steps of initialize behind the killswitch: DNS, its check, the real address. */
    method Prepare(attempts: nat) returns (r: Ending)
      requires Ready() && Paced(trace) && MayFollow(Last(trace), Tried(Done)) && SinceReset(trace) == 0
      modifies fw.ipt4, fw`policy, fw`granted, gate, resolver, cache, `sent, `conn, `connectionUp, `trace
      modifies fw.kernel`link, fw.kernel`up, fw.kernel`tunnel, fw.kernel`rules, fw.kernel`view, ctx
      ensures Ready() && fw.policy == old(fw.policy)
      ensures r.Clean? ==>
        && (cfg.mode in {System, Do53} ==> forall a | a in cfg.dns :: a !in gate.resolvers)
        && (cfg.mode == Dot ==> gate.Free())
        && old(trace) <= trace && Paced(trace) && MayFollow(Last(trace), Tried(Done)) && SinceReset(trace) == 0
      ensures gate.met <==>
        old(gate.met) || (r.Clean? && cfg.realIP && cfg.mode != Dot && old(gate.Tunnelled()) && gate.Free())
      ensures !gate.Free() ==> gate.brackets == old(gate.brackets)
      ensures r == Fault(Fatal) ==> Last(trace) == Some(Tried(Failed(Fatal)))
    {
      hide Ready;
      hide Table4, Table6, Render, Sealed, Widened, Junk, Stretch, Paced, Delay, SinceReset, Attempts, Rounds;
      WhenReady();
      ghost var es := trace;
      r := Retry(DnsTask, attempts);
      if !r.Clean? { return; }
      StretchPaced(es, trace);
      var ok := resolver.ValidateDNS(cfg.dns, cfg.mode);
      if !ok { return Fault(Other); }
      if cfg.realIP { ghost var held := CaptureRealIP(); }
      PacedMore(trace, SetUp);
      Backoff.Snoc(trace, SetUp);
      trace := trace + [SetUp];
    }

    /** `initialize`: from whatever an earlier run left to the state between brackets.  A bracket
        meets pia0 exactly if one was left over, the context is alive, the real address is to be
        captured, DNS is not over TLS, no exemption chain was left over, and nothing failed before
        that.  With an exemption chain left over there is no bracket at all, and no DNS over TLS. */
    method Initialize(lans: Config, none: bool, attempts: nat, ghost ts: Tails) returns (r: Ending)
      requires Wired() && fw.ipt4 != fw.ipt6 && Outside(ts) && fw.Reliable() && cache.Valid()
      requires Prior(fw.ipt4.table, VPN_IN, VPN_OUT, ts.in4, ts.out4)
      requires Prior(fw.ipt6.table, VPN_IN6, VPN_OUT6, ts.in6, ts.out6) && VPN_EXEMPTIONS !in fw.ipt6.table
      requires fw.kernel.Rendered() && fw.kernel.Coherent()
      requires Paced(trace) && MayFollow(Last(trace), Tried(Done)) && SinceReset(trace) == 0
      modifies this, cache, gate, resolver, fw, fw.ipt4, fw.ipt6, fw.kernel, ctx
      ensures r.Clean? ==>
          Ready() && fw.active && fw.policy.exempt == LeftOver(old(fw.ipt4.table)) && fw.policy.port == None
      ensures r.Clean? ==> fw.policy.cfg == if none then Config([], [], lans.ipv6) else lans
      ensures r.Clean? ==> none || (Distinct(lans.lans4) && Distinct(lans.lans6))
      ensures r.Clean? ==> cfg.mode in {System, Do53} ==> forall a | a in cfg.dns :: a !in gate.resolvers
      ensures r.Clean? ==>
        old(trace) <= trace && Paced(trace) && MayFollow(Last(trace), Tried(Done)) && SinceReset(trace) == 0
      ensures gate.met <==>
        || old(gate.met)
        || (r.Clean? && cfg.realIP && cfg.mode != Dot && old(gate.Tunnelled()) && VPN_EXEMPTIONS !in old(fw.ipt4.table))
      ensures VPN_EXEMPTIONS in old(fw.ipt4.table) ==>
        gate.brackets == old(gate.brackets) && (r.Clean? ==> cfg.mode != Dot && fw.policy.exempt.Stale?)
      ensures r == Fault(Fatal) ==> Last(trace) == Some(Tried(Failed(Fatal)))
    {
      hide Table4, Table6, Render, Prior, Sealed, Grants4, Grants6, Distinct, Widened;
      hide Stretch, Paced, Delay, SinceReset, Attempts, Rounds, Outside, Asked, Blocks, LeftOver;
      LeftIff(fw.ipt4.table);
      LeftAccepts(fw.ipt4.table, VPN_IN, VPN_OUT, ts.in4, ts.out4);
      var ok := Setup(fw, lans, none, ts);
      if !ok { return Fault(Other); }
      r := Prepare(attempts);
    }

    lemma WhenReady()
      requires Ready()
      ensures Wired()
    {
    }

    lemma UpOrGone()
      ensures Ready() ==> VPN_OUT in fw.ipt4.table
      ensures forall ts :: Removed(ts) ==> VPN_OUT !in fw.ipt4.table
    {
      if Ready() { ChainThere(fw.policy, fw.tails); }
    }
  }

  lemma LeftIff(t: Table)
    ensures if VPN_EXEMPTIONS in t then LeftOver(t).Stale? else LeftOver(t).Absent?
  {
  }

  lemma WinnerWanted(ip: Address, candidates: seq<Server>, reports: seq<Report>)
    requires Wins(ip, candidates, reports)
    ensures exists s | s in candidates :: s.ip == ip
  {
  }

  lemma NothingSearched(q: Purpose, ss: seq<Sent>, ips: seq<Addr>)
    ensures Searched(q, ss, ss, ips[..0], Failed(Other), false)
  {
  }

  lemma SearchedMore(q: Purpose, was: seq<Sent>, now: seq<Sent>, ips: seq<Addr>, i: nat, s: Sent)
    requires i < |ips| && Searched(q, was, now, ips[..i], Failed(Other), false)
    requires s.purpose == q && s.ip == Numeric(ips[i]) && s.port == 443 && Covered(s)
    ensures if Stops(q, s) then Searched(q, was, now + [s], ips, s.outcome, true)
            else Searched(q, was, now + [s], ips[..i + 1], Failed(Other), false)
  {
    hide Covered;
    var ss := now[|was|..];
    assert (now + [s])[|was|..] == ss + [s];
    forall k | 0 <= k < |ss| ensures !Stops(q, ss[k]) {}
  }

  lemma SearchedBound(q: Purpose, was: seq<Sent>, now: seq<Sent>, ips: seq<Addr>, r: Outcome, ended: bool)
    requires Searched(q, was, now, ips, r, ended)
    ensures |now| <= |was| + |ips| && (ended ==> |was| < |now|)
  {
  }

  lemma SearchedTwice(q: Purpose, a: seq<Sent>, b: seq<Sent>, c: seq<Sent>, xs: seq<Addr>, ys: seq<Addr>,
                      r: Outcome, ended: bool)
    requires Searched(q, a, b, xs, Failed(Other), false) && Searched(q, b, c, ys, r, ended)
    ensures Searched(q, a, c, xs + ys, r, ended) && (ended ==> |c| > |a| + |xs|)
  {
    var ss, x, y := c[|a|..], b[|a|..], c[|b|..];
    assert ss == x + y;
    forall i | 0 <= i < |ss| - 1 ensures !Stops(q, ss[i]) {
      if i >= |x| { assert ss[i] == y[i - |x|]; } else { assert ss[i] == x[i]; }
    }
  }

  lemma SearchedOnly(q: Purpose, was: seq<Sent>, now: seq<Sent>, ips: seq<Addr>, r: Outcome, ended: bool)
    requires Searched(q, was, now, ips, r, ended) && q != AddKey
    ensures Only(was, now, q) && (r == Done <==> Won(was, now, q)) && Stems(r, was, now)
  {
    var ss := now[|was|..];
    forall i | |was| <= i < |now| ensures now[i].purpose == q { assert now[i] == ss[i - |was|]; }
    forall i | |was| <= i < |now| - 1 ensures now[i].outcome != Done { assert now[i] == ss[i - |was|]; }
  }

  lemma ListDecides(was: seq<Sent>, now: seq<Sent>, ips: seq<Addr>, r: Outcome, ended: bool)
    requires Searched(ListSearch, was, now, ips, r, ended)
    ensures ended <==> r == Done
  {
  }

  lemma FatalStems(was: seq<Sent>, now: seq<Sent>)
    ensures Stems(Failed(Fatal), was, now)
  {
  }

  lemma SoughtBoth(a: seq<Sent>, b: seq<Sent>, c: seq<Sent>, r: Outcome)
    requires a <= b <= c
    ensures forall q :: Won(a, c, q) <==> Won(a, b, q) || Won(b, c, q)
    ensures forall q :: Sought(a, c, q) <==> Sought(a, b, q) || Sought(b, c, q)
    ensures Stems(r, b, c) ==> Stems(r, a, c)
  {
  }

  lemma OnlySought(was: seq<Sent>, now: seq<Sent>, q: Purpose)
    requires Only(was, now, q)
    ensures forall p :: (Won(was, now, p) ==> Sought(was, now, p)) && (Sought(was, now, p) ==> p == q && was != now)
  {
  }

  /** A definite answer to a request for a token is the last and the result. */
  lemma TokenDecides(was: seq<Sent>, now: seq<Sent>, ips: seq<Addr>, r: Outcome, ended: bool)
    requires Searched(AuthSearch, was, now, ips, r, ended)
    ensures forall i | |was| <= i < |now| && now[i].outcome in {Done, Failed(Fatal), Failed(RateLimited)} ::
      i == |now| - 1 && r == now[i].outcome
    ensures r == Failed(Other) <==>
      forall i | |was| <= i < |now| :: now[i].outcome !in {Done, Failed(Fatal), Failed(RateLimited)}
  {
    var ss := now[|was|..];
    forall i | |was| <= i < |now| - 1 ensures now[i].outcome !in {Done, Failed(Fatal), Failed(RateLimited)} {
      assert now[i] == ss[i - |was|];
    }
  }

  /** So is a definite answer about a dedicated server, and a refused exemption. */
  lemma DipDecides(was: seq<Sent>, now: seq<Sent>, ips: seq<Addr>, r: Outcome, ended: bool)
    requires Searched(DipSearch, was, now, ips, r, ended)
    ensures forall i | |was| <= i < |now| && (!now[i].exempted || now[i].outcome in {Done, Failed(Fatal)}) ::
      i == |now| - 1 && r == now[i].outcome
    ensures (forall i | |was| <= i < |now| :: now[i].exempted && now[i].outcome !in {Done, Failed(Fatal)}) ==>
      r == Failed(Other) && |now| == |was| + |ips|
  {
    var ss := now[|was|..];
    forall i | |was| <= i < |now| - 1 ensures now[i].exempted && now[i].outcome !in {Done, Failed(Fatal)} {
      assert now[i] == ss[i - |was|];
    }
  }

  lemma JunkMore(ss: seq<Sent>, s: Sent)
    ensures Junk(ss + [s]) == Junk(ss) + Count(s.ip == Unparsable)
  {
    assert (ss + [s])[..|ss|] == ss;
  }

  lemma NothingCollected(candidates: seq<Server>)
    ensures Collected(candidates, (s: Server) => 0, [])
  {
  }

  lemma NoReports(candidates: seq<Server>)
    ensures exists measured: Server -> nat :: Collected(candidates, measured, [])
  {
    assert Collected(candidates, (s: Server) => 0, []);
  }
}
