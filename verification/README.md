# pia-tun in Dafny

pia-tun is a VPN container: a killswitch of iptables chains and policy-routing
rules, a WireGuard tunnel, an orchestrator that connects, watches and
reconnects, a DNS-over-TLS proxy, port forwarding with its syncer, and small
proxies. This project models the parts that carry state, time or interleaving
and proves what they are for. `dafny verify dfyconfig.toml` checks all of it.

## How the model is built

**Killswitch.** `Netfilter` is one family's filter table: chains of rules,
evaluated first match first, with jumps that resume when the chain they enter
does not decide, and the primitives the program uses. A primitive marked
`flaky` may also fail without effect. `Policy` says what the killswitch is
meant to allow, `Table4`/`Table6` which chains a policy stands for, and
`VerdictIsPolicy` that first-match evaluation of these chains passes exactly
the packets the policy allows. `Killswitch` and `KillswitchSetup` hold the code
that edits the chains, step by step, proved against `Table4`/`Table6`; the
hard-coded positions 1 and 3 and "position = rule count" are right because the
edited list is again the list of a policy. `FailClosed` gives the part that
survives failing commands: DROP stays last and only rules the program asked
for can accept.

**Routing.** `Routing` evaluates `ip rule` lists by priority. `RouteIsSpec`
equates the evaluation with a case distinction on the destination. `IpStack`
is the kernel with its rule list; every method is proved to keep the rule list
equal to the rendering of the address lists it stands for.
`Egress` composes routing with OUTPUT.

**Lifecycle.** `Lifecycle.App` runs `initialize`, `connect`, the services, the
retry loops and the cleanup over the two machines above. Network calls, dials,
clocks and cancellation are arbitrary. Every exemption bracket is opened and
closed by a `Brackets.Gate`, whose `met` records whether pia0 was there to take
a bracket's packets and whose `brackets` counts them; `fw.ipt4.collisions` counts
the times NewChain met an existing chain. An address in an exemption may be one
iptables cannot read (`Unparsable`), since the program passes strings on
unchecked. `Backoff.Event` logs what was tried, waited for and served;
attempts, pauses and the look at the parent context log themselves, and `Paced`
says which logs a run may leave.

**Services.** `Services` is a transition system of the errgroup: the
port-forward goroutine with its gateway's rule, monitor, cacher and syncer, the
group's context, the main goroutine that waits for all of them and otherwise
connects, and a pia0 that may vanish. `Lifecycle.App.Serve` schedules its steps
in any order on the real chains and rules, each step proved to do what it does
in the transition system.

**DoT proxy.** `DotSlots` is a transition system: workers that hold an
upstream's mutex, `CloseUpstreams` calls that do not, one atomic step at a
time. `DnsWire` has the framing and the round robin.

**Timed loops.** `HealthMonitor` and `PortLease` run on integer nanoseconds
(`Clock`). A loop that runs until cancelled takes the number of ticks after
which it is looked at, so every contract speaks of every prefix of every run.

**Scanners.** `JsonEnd` relates the scanner to the grammar of sections 4 and 7
of RFC 8259; `Socks5` relates the server to an encoder of sections 3 and 4 of
RFC 1928 and section 2 of RFC 1929.

**Caches, selection, mailbox.** `ServerCache`, `ServerSelect` and `PortSync`;
`Sequences` has the first-occurrence list both of the former use.

## What the proofs found

Where a promise does not hold everywhere, the code is modelled as it is and the
exact condition is proved.

- An exemption bracket restores VPN_OUT exactly when it found no exemption
  chain. A single exemption whose rule iptables refuses, or a crash inside a
  bracket, leaves VPN_EXEMPTIONS behind; from then on every exemption is refused
  until `RemoveExemptions` runs (`BracketRestores`, `FailedAppendBlocks`,
  `LeftOverBlocks`, `CrashInsideBracket`). The refused rule is one with an address
  that cannot be read: no caller passes a port above 65535, but `PIA_IP`, a
  dedicated-IP answer and the server list go unchecked to the exemption for the
  key service (`UnreadableServer`). A connection attempt leaves the chain, empty,
  if and only if it found none and came to the key service of a server with such
  an address; with `PIA_IP` set, that means exactly such a `PIA_IP`
  (`Lifecycle.App.VpnSetup`, `Establish`).
- With a chain left over no bracket ever opens, no connection attempt succeeds and
  services never start (`Lifecycle.App.Establish`, `Initialize`, `Run`).
  Nothing in such a run removes it: `captureRealIP` gives up before its
  `RemoveExemptions`, since its lookup is refused, and `Cleanup` needs services
  that were cancelled.
- `Setup` succeeds exactly when no local network is listed twice: the kernel
  refuses an equal rule. The same holds for `AddPIADNSRoutes` and a repeated DNS
  address.
- `RemoveForwardedPort` keeps `activePort`, so a later call deletes what is no
  longer there, harmlessly. If the first of the two inserts succeeds and the
  second fails, the port is not recorded and the first rule is never deleted;
  default deny (`KillswitchRuns.Run`) covers that state.
- `RemovePFRoute` on its own takes the lookup of an equal PIA DNS address; the
  guard rule stays, so such packets become unreachable rather than leaving by
  main. The program does not come to this: `AddPFRoute` has refused an equal
  lookup, and the port-forward goroutine returned, before.
- The port-forward goroutine leaves its gateway's rule behind exactly if its HTTP
  client could not be built since the services were started, over every
  interleaving (`Services.LeakIff`). The next connect removes it if
  PIA's DNS is in use; in other modes the next port-forward goroutine with the
  same gateway finds an equal rule and fails.
- A bracket meets a pia0 that can take its packets only in `initialize`, and there
  exactly if pia0 was left over by a killed run and an exemption chain was not, the
  context is alive, the real address is to be captured, DNS is not over TLS, and
  nothing failed before (`Lifecycle.App.Initialize`): neither that lookup nor its caller takes pia0
  down. `Egress.LeftOverTunnel` is a packet that then goes into the old tunnel.
- `wg.Down` with a cancelled context runs no command, so brackets may then be
  opened beside pia0; their requests fail at once. `wg.Up` does not clean up
  after its own failures, since the deferred test looks at a variable that later
  errors shadow.
- `verifyKillswitch` looks up to four times, 250 ms apart, where its comment says
  three retries 300 ms apart; the code is followed.
- A framed message round-trips exactly when it has at most 16384 bytes.
- The round robin works until its counter reaches 2^63; from there the converted
  index is negative unless the remainder happens to be 0, and indexing panics.
- The signature margin covers every keepalive bind exactly when it is at least
  one hour.
- `NotifyPort` never waits with one notifier; with two it may.
- `handleSOCKS5` looks at the greeting's version only: neither the method list,
  nor the version bytes of the login and the request matter.

## Model

| member | source | states |
|---|---|---|
| Netfilter.Iptables.NewChain | internal/firewall/chains.go:38-40 | creates an empty chain, fails exactly on an existing one when commands work, and counts such collisions |
| Netfilter.Iptables.ClearAndDelete | internal/firewall/vpnrules.go:79 | flushes, and deletes only a chain nothing jumps to |
| Netfilter.WalkConcat | internal/firewall/chains.go:34-62 | evaluating two rule lists in a row: the second is consulted only if the first falls through |
| Netfilter.WalkAccepts | internal/firewall/chains.go:42-50 | a list of ACCEPT rules accepts what any of them matches and otherwise falls through |
| Policy.VerdictIsPolicy | internal/firewall/killswitch.go:18-80 | first-match evaluation of INPUT and OUTPUT, both families, passes a packet if and only if the policy allows it, whatever other programs keep in those chains |
| Policy.WalkOut | internal/firewall/vpnrules.go:20-31 | VPN_OUT with its exemption jump decides every packet, accepting exactly the allowed ones |
| Policy.PassesThrough | internal/firewall/chains.go:55-58 | with our jump first, the verdict of a built-in chain is the verdict of our chain |
| PolicySteps.OpenChain | internal/firewall/vpnrules.go:20-31 | NewChain and the jump at position 1 turn the chains of a policy into those of the policy with an open, empty bracket |
| PolicySteps.AppendExemption | internal/firewall/vpnrules.go:41-46 | appending adds one exemption, possible exactly for an address that can be read and a 16-bit port |
| PolicySteps.CloseChain | internal/firewall/vpnrules.go:76-80 | removing the jump and the chain gives back the chains of the policy without exemptions, rule for rule |
| PolicySteps.OpenPort | internal/firewall/vpnrules.go:113-121 | the two inserts at position 3 are the chains of the policy with that port |
| PolicySteps.ClosePort | internal/firewall/vpnrules.go:129-136 | the two deletes are the chains of the policy without a port |
| FailClosed.SealedDrops | internal/firewall/chains.go:42-58 | default deny: in a sealed table a packet that no granted rule matches passes neither hook |
| FailClosed.WalkGranted | internal/firewall/chains.go:52-54 | with DROP last the walk always decides, and accepts only by a granted rule |
| FailClosed.InsertSealed | internal/firewall/vpnrules.go:27-118 | inserting at position 1 to 3 keeps DROP last and the table sealed |
| FailClosed.DeleteSealed | internal/firewall/vpnrules.go:76-136 | deleting a jump or a port rule never takes DROP or the baseline |
| FailClosed.PolicySealed | internal/firewall/killswitch.go:18-69 | the chains of any policy are sealed with just its own rules granted |
| Killswitch.Firewall.CreateExemptChain | internal/firewall/vpnrules.go:20-31 | opens an empty bracket exactly when there is no exemption chain; failing commands leave the table sealed |
| Killswitch.Firewall.AddExemption | internal/firewall/vpnrules.go:33-49 | one exemption in a new bracket; succeeds exactly if no chain was there, the address can be read and the port has 16 bits, and otherwise leaves what chain there is |
| Killswitch.Firewall.AddExemptions | internal/firewall/vpnrules.go:52-74 | a batch in one bracket, the specifications that iptables refuses, for address or port, skipped |
| Killswitch.Firewall.RemoveExemptions | internal/firewall/vpnrules.go:76-80 | back to the policy without exemptions; with failing commands still sealed |
| Killswitch.Firewall.AllowForwardedPort | internal/firewall/vpnrules.go:108-126 | replaces the forwarded port in the policy; recorded only after both inserts, so that, whatever failed, success means both rules are there |
| Killswitch.Firewall.RemoveForwardedPort | internal/firewall/vpnrules.go:129-136 | the policy without a forwarded port |
| KillswitchSetup.RuleCount | internal/firewall/chains.go:76-94 | the number of rules, which is the position of the last; an error for an empty or missing chain |
| KillswitchSetup.InsertBeforeDrop | internal/firewall/chains.go:66-72 | the rule stands between the accepts and DROP |
| KillswitchSetup.CleanupChains | internal/firewall/chains.go:98-105 | removes our four chains and their jumps from whatever an earlier run left; an exemption chain stays |
| KillswitchSetup.SetupBaselineChains | internal/firewall/chains.go:34-63 | from such a state to established, loopback and DROP in all four chains, wired first; it cannot fail when commands work |
| KillswitchSetup.BuiltIsStage | internal/firewall/chains.go:25-32 | the four chain definitions, applied in order, give the baseline of both families |
| KillswitchSetup.SetupLocalRules4 | internal/firewall/localnetworks.go:72-101 | source rules in VPN_IN and destination rules in VPN_OUT, one per network, in order |
| KillswitchSetup.AddVpn | internal/firewall/vpnrules.go:83-105 | interface rule before mark rule, both right behind the baseline; the interface rule for IPv6 only if enabled |
| KillswitchSetup.InsertBypassRules | internal/firewall/bypass.go:58-72 | the two WAN-check rules end up in order, right before DROP |
| KillswitchSetup.InsertIcmp6 | internal/firewall/killswitch.go:49-56 | ICMPv6 right before DROP in both IPv6 chains |
| KillswitchSetup.CheckChainsPresent | internal/firewall/chains.go:126-164 | true exactly if each chain has a DROP rule and a jump in its parent |
| KillswitchSetup.VerifyKillswitch | internal/firewall/chains.go:109-123 | up to four looks, until one finds the chains; they answer the same question |
| KillswitchSetup.Setup | internal/firewall/killswitch.go:18-69 | on success the chains are exactly those of the configured networks (none of them if they are not wanted) and IPv6 switch, and the routing rules those of the WAN checks and networks; with IPv6 disabled a new IPv6 packet passes only by loopback or a listed network; it succeeds if and only if no network is listed twice |
| KillswitchSetup.Cleanup | internal/firewall/killswitch.go:72-80 | INPUT and OUTPUT are handed back with only the other programs' rules, and priorities 50, 75, 76 and 100 are empty |
| KillswitchSetup.PolicyPrior | internal/firewall/chains.go:98-105 | whatever policy a run stopped in, Setup and Cleanup start from a state they handle |
| KillswitchRuns.Run | internal/firewall/vpnrules.go:20-136 | over every run of exemption and port operations the verdict is the folded policy's; with failing commands, no packet passes unless a rule asked for matches it |
| KillswitchRuns.BracketRestores | internal/firewall/vpnrules.go:52-80 | a bracket restores the chains if and only if it found no exemption chain |
| KillswitchRuns.LeftOverBlocks | internal/firewall/vpnrules.go:20-24 | once a chain is left over no exemption changes until RemoveExemptions |
| KillswitchRuns.FailedAppendBlocks | internal/firewall/vpnrules.go:36-46 | an exemption leaves an empty chain exactly when its address cannot be read or its port exceeds 16 bits, and the chain then blocks every later one |
| KillswitchRuns.UnreadableServer | internal/vpn/setup.go:115-121 | the input: a PIA_IP that is no IPv4 address leaves the chain wired into VPN_OUT, and then a good address is refused too |
| KillswitchRuns.CrashInsideBracket | internal/firewall/chains.go:98-105 | after a crash inside a bracket the exemptions are dead but block new ones |
| Routing.RouteIsSpec | internal/firewall/routing.go:9-34 | the priority list 0, 50, 75, 76, 100, 200, 300, 32766 routes as the case distinction on destination, mark and tunnel says |
| Routing.RouteTunnel | internal/wg/wg.go:144-158 | priorities 200 and 300: unmarked packets take the tunnel while it has a route, everything else main |
| IpStack.AddToBlock | internal/firewall/routing.go:20-27 | a rule added by priority lands behind its equals and is refused exactly if an equal one is there |
| IpStack.DeleteFromView | internal/firewall/routing.go:49-65 | deleting by priority fails exactly when none is left, and otherwise takes the oldest |
| IpStack.DeletePia | internal/firewall/routing.go:71-72 | deleting by specification takes the first equal rule and nothing else |
| FirewallRoutes.DeleteAll | internal/firewall/routing.go:50-55 | the loop ends, counted by the rules at that priority, and changes no other priority |
| FirewallRoutes.RemovePiaRoutes | internal/firewall/routing.go:49-65 | priorities 75 and 76 are empty, the rest as before |
| FirewallRoutes.AddPiaDnsRoutes | internal/firewall/routing.go:14-34 | on success every address has its guard and its lookup; even when it fails no new lookup stands without a guard; it succeeds exactly for distinct addresses that can be read |
| FirewallRoutes.AddPfRoute | internal/firewall/routing.go:38-45 | one lookup more, refused exactly if an equal one is there |
| FirewallRoutes.RemovePfRoute | internal/firewall/routing.go:67-74 | one lookup for the gateway less; no guard is touched |
| FirewallRoutes.SetupLocalRoutes | internal/firewall/localnetworks.go:37-54 | priority 100 holds exactly the networks of both families, if each is listed once |
| FirewallRoutes.SetupBypassRoutes | internal/firewall/bypass.go:32-44 | priority 50 holds exactly the WAN-check addresses |
| Tunnel.Up | internal/wg/wg.go:63-162 | success means the backend asked for, all settings, interface, route and the rules at 200 and 300; with nothing left over it fails only if a command is refused or the context is cancelled; any failure touches nothing at 50, 75, 76 and 100 |
| Tunnel.CreateInterface | internal/wg/wg.go:184-239 | the kernel's backend first and the userspace one only where it is wanted or, detecting, the kernel's failed; with nothing left over it fails only if what was tried was refused or the context is cancelled |
| Tunnel.Configure | internal/wg/wg.go:79-126 | key, address, MTU, mark and peer in this order, the mark before the peer, up to the first that fails |
| Tunnel.Down | internal/wg/wg.go:167-282 | no pia0, table 51820 empty, nothing at 200 and 300, the other priorities untouched; with a cancelled context nothing happens |
| Tunnel.UpAgainThenDown | internal/wg/wg.go:63-282 | the same after any number of attempts to come up, each stopping anywhere, pia0 vanishing at any time |
| Egress.TunnelTakesAll | internal/wg/wg.go:144-158 | with the tunnel up every unmarked packet to an ordinary destination leaves by pia0 |
| Egress.NoLeak | internal/firewall/vpnrules.go:83-105 | a packet leaves by another device only if it is established, marked, to a network of the LAN list, a WAN check or a held exemption |
| Egress.VanishedTunnelDrops | internal/firewall/chains.go:42-58 | without pia0 any other new packet is dropped by VPN_OUT or goes nowhere |
| Egress.ExemptionNeedsTunnelDown | internal/app/app.go:175 | an exempted packet leaves by main exactly while pia0 is away, which is why connect takes it down first |
| Egress.LeftOverTunnel | internal/app/network.go:27-60 | a tunnel left over by a killed run takes the packets of the first bracket, which would leave by the uplink without it |
| Egress.MarkedAvoidsTunnel | internal/wg/wg.go:111-116 | WireGuard's own packets never enter the tunnel unless sent to a PIA DNS or gateway address |
| Egress.PiaDnsNeverThroughMain | internal/firewall/routing.go:14-34 | over every run of route and interface events, a guarded address is reached through pia0 or not at all, for every mark and LAN list |
| Backoff.DelayDoubles | internal/app/app.go:365-368 | doubling with a cap computes min(5 * 2^k, 60) |
| Backoff.PacedMore | internal/app/app.go:318-370 | an event that fits its place, a pause of the length that place demands, keeps a run paced |
| Backoff.CancelledIsLast | internal/app/app.go:78-83 | in a paced run nothing comes after services that were found cancelled |
| Brackets.AskedIsModest | internal/vpn/setup.go:116-131 | a batch of modest exemptions grants nothing but DNS to configured resolvers and TCP to ports 443 and 1337 |
| Brackets.BatchPasses | internal/firewall/vpnrules.go:52-74 | while a batch is held OUTPUT passes every packet it was asked for, as far as iptables could read it |
| Brackets.Gate.OpenAll | internal/firewall/vpnrules.go:52-74 | opens exactly if no chain is left over, with just the exemptions that iptables takes; recorded if pia0 is there; while it is open OUTPUT passes the packets of each |
| Brackets.Gate.OpenOne | internal/firewall/vpnrules.go:33-49 | opens exactly if no chain is left over and the address can be read; an unreadable address leaves an empty chain where there was none; while it is open OUTPUT passes the packets to that address and port |
| Brackets.Gate.Close | internal/firewall/vpnrules.go:76-80 | the chains are those from before the bracket, and it is recorded if pia0 came up inside it |
| Resolver.ExemptResolver.Query | internal/dns/resolver.go:82-139 | one server asked for all hosts, a definite answer for some of them, while exactly DNS to it over UDP and TCP is exempted and passes; the bracket closes and leaves the chains as they were; no answer with a left-over chain |
| Resolver.ExemptResolver.Resolve | internal/dns/resolver.go:50-61 | the servers in order, each once, up to the first that has addresses for the host, whose addresses are the result; all of them if none has |
| Resolver.ExemptResolver.ResolveAll | internal/dns/resolver.go:66-77 | the servers in order up to the first with any definite answer, whose answers are the result |
| Resolver.ExemptResolver.ValidateDNS | internal/dns/resolver.go:142-157 | refuses exactly an overlap, and only where DNS servers are plain addresses |
| Lifecycle.App.CaptureRealIP | internal/app/network.go:27-97 | brackets for the lookup and then for the first address of each service found, exactly these on port 443; they meet pia0 exactly if it is there with a live context and no chain is left over |
| Lifecycle.App.Post | internal/vpn/setup.go:116-131 | the network call itself: only while OUTPUT passes TCP to that address and port; logged with the exemptions held meanwhile |
| Lifecycle.App.Request | internal/vpn/setup.go:230-239 | one HTTPS request, logged, in a bracket that opens exactly if no chain is left over and the address can be read; it is made while exactly its address and port are exempted; chains as they were but for the chain an unreadable address leaves |
| Lifecycle.App.TryAll | internal/vpn/setup.go:184-258 | the addresses in order up to the first answer that ends the search, whose outcome is the result: for a token also a fatal answer or a rate limit, for a dedicated server also a refused exemption |
| Lifecycle.App.Authenticate | internal/vpn/setup.go:182-227 | cached addresses in order, then, exactly if none of them ended the search, freshly resolved ones, which are merged into the cache; a success, a fatal answer or a rate limit is the last answer and the result |
| Lifecycle.App.GetToken | internal/vpn/setup.go:162-180 | nothing is asked with a fresh token; otherwise there is a token exactly if a request for one succeeded |
| Lifecycle.App.GetServers | internal/vpn/servers.go:21-43 | the cached addresses, or else freshly resolved ones, in order until one has the list; it is merged into the cache, and the addresses are forgotten exactly if none had it |
| Lifecycle.App.RaceServers | internal/vpn/servers.go:152-242 | one bracket for exactly the candidates that can be read, on port 1337, held while they race; a fastest that answered wins, or the first if none did |
| Lifecycle.App.SelectServer | internal/vpn/servers.go:46-77 | a fastest of the candidates that answered, all of them listed servers of a requested region that forward ports if required; it fails exactly if there is none, fatally unless the location is "all", or a left-over chain stops the race; about a dedicated server a success, a fatal answer or a refused exemption is the last answer and the result, fatal too if its region must forward ports and does not |
| Lifecycle.App.FindServer | internal/vpn/setup.go:59-104 | a token unless there is a fresh one, the list unless there is one, a dedicated server only with a DIP token: nothing else is asked, and success means all that was needed was granted |
| Lifecycle.App.VpnSetup | internal/vpn/setup.go:48-159 | if pia0 was away, no bracket is open once it is there; an empty exemption chain is left behind if and only if none was there and the attempt came to the key service of a server whose address cannot be read; success means no left-over chain, a registered key, a suitable server and a tunnel; a token the key service rejects is forgotten, its other answers are the outcome, and a tunnel that does not come up is fatal |
| Lifecycle.App.Establish | internal/app/app.go:174-221 | on every return the exemptions are those it found, but for the chain it leaves under the same exact condition; without a left-over chain NewChain meets none, and with one nothing succeeds; no bracket meets pia0, only modest exemptions were granted, on success every PIA DNS address is guarded, and what fails behind the tunnel is never fatal |
| Lifecycle.App.AddPiaDns | internal/app/app.go:203-206 | clearing priorities 75 and 76 needs a port-forward goroutine that has returned |
| Lifecycle.App.SetupDns | internal/app/app.go:282-314 | brackets only for DNS over TLS, with pia0 taken down, which a left-over chain never lets succeed; there no upstream, or none that resolves to an address, is fatal, and no answer at all is retried; in other modes nothing is touched and a failure is fatal, and PIA's own DNS cannot fail |
| Services.StepKeepsInv | internal/portforward/portforward.go:87-152 | every step of every goroutine keeps the gateway's rule with its owner, and the group cancelled exactly by an error or its parent |
| Services.EveryInterleaving | internal/app/app.go:225-280 | over every interleaving, RemovePIARoutes runs only when the port-forward goroutine has returned; when Wait ends its rule is gone unless the HTTP client could not be built, its port is closed, and there is an error unless the parent was cancelled |
| Services.LeakIff | internal/portforward/portforward.go:105-108 | over every interleaving: when Wait ends, the rule is left behind if and only if the HTTP client could not be built since the services were last started |
| Services.WaitDecides | internal/app/app.go:77-103 | over every interleaving, from the steps alone: when Wait ends, the program ends cleanly exactly after a cancellation, and otherwise reconnects exactly if the goroutine first to return an error did so after an outage, a refused bind or a signature it could not get, not because port forwarding could not start |
| Services.InOrder | internal/portforward/portforward.go:87-152 | over every interleaving the port-forward goroutine's steps come in its order: route, client, port, announcement, renewals and binds, and at the end the route before the port; what it opens is the port it has just acquired |
| Services.ReturnOnce | internal/app/app.go:228-259 | over every interleaving the monitor can report an outage until it has returned, and the others return once, after the group is cancelled |
| Services.ComeToEnd | internal/app/app.go:259 | once the group is cancelled, a bounded number of the goroutines' own steps ends Wait, from every reachable state |
| Lifecycle.App.Act | internal/portforward/portforward.go:87-227 | the commands of a step change chains, rules and interface as the transition system says |
| Lifecycle.App.Perform | internal/app/app.go:228-259 | one step on the real chains and rules is one step of the transition system and keeps its invariant |
| Lifecycle.App.RunServices | internal/app/app.go:225-280 | it ends when all goroutines have returned: no forwarded port, and the gateway's rule left exactly if the HTTP client could not be built; the error is that of the goroutine first to return one, and none exactly after a cancellation |
| Lifecycle.App.Pause | internal/app/app.go:335-369 | an hour exactly after a rate limit, else the delay of its place or a wait for the WAN, and the next delay; a cancellation found ends the loop exactly unless it waited for the WAN |
| Lifecycle.App.Round | internal/app/app.go:322-369 | one attempt and, unless it ends the loop, the pause behind it |
| Lifecycle.App.Retry | internal/app/app.go:318-370 | the run stays paced: delays min(5 * 2^k, 60) since the last reset, an hour after a rate limit, nothing after success, a fatal error or a cancellation found; unfinished only after all attempts; no connection with a left-over chain or a PIA_IP that cannot be read |
| Lifecycle.App.CleanupApp | internal/app/app.go:415-427 | the tunnel always goes, the killswitch only after a clean exit |
| Lifecycle.App.Connection | internal/app/app.go:66-95 | a connection, with the killswitch as it was, or the end of the run; none with a left-over chain or a PIA_IP that cannot be read |
| Lifecycle.App.Aftermath | internal/app/app.go:79-103 | the three continuations behind services: clean exit without the killswitch, error exit with it, or a wait for the WAN and a connection |
| Lifecycle.App.Period | internal/app/app.go:78-103 | one service period: a wait for the WAN and an attempt follow exactly if, without a cancellation, the first error asks for a reconnection; otherwise it is the end of the run |
| Lifecycle.App.Run | internal/app/app.go:50-104 | the killswitch is down at the end if and only if the last event is services found cancelled; such an event comes last or not at all; on every other path the killswitch stands unchanged but for a chain left behind by an unreadable address, no bracket meets pia0, and the whole log is paced; with a left-over chain, or a PIA_IP that cannot be read, services never start |
| Lifecycle.App.Initialize | internal/app/app.go:107-170 | from whatever an earlier run left to the exact killswitch of the configured networks and IPv6 switch; a bracket meets pia0 exactly under the condition given above; a left-over exemption chain stays, and with it no bracket opens at all |
| DotSlots.NextInv | internal/dns/proxy.go:127-144 | every step of every thread keeps slots, mutexes and owners consistent |
| DotSlots.StoreNilStep | internal/dns/proxy.go:279-289 | a worker's clearing of its slot drops no connection but its own |
| DotSlots.SwapInv | internal/dns/proxy.go:137-143 | swapping a slot out without the mutex hands its connection to the closer |
| DotSlots.EveryInterleaving | internal/dns/proxy.go:262-294 | over every interleaving a slot never holds a locally closed connection, every open one has exactly one owner, and once all threads rest the open connections are those in the slots, one per slot at most |
| DotSlots.OneRetry | internal/dns/proxy.go:262-294 | over every interleaving a query uses at most two connections, and gives up after a failed dial or the second failure, never after the first |
| DotSlots.NobodyStuck | internal/dns/proxy.go:262-294 | in every reachable state a worker with a mutex and a closer at work have a step to take, and a waiting worker has one when the mutex is free |
| DnsWire.WriteMsg | internal/dns/proxy.go:297-303 | appends the frame of the message to the stream |
| DnsWire.ReadMsg | internal/dns/proxy.go:306-318 | takes exactly one frame off the stream, or fails when there is none of at most 16384 bytes |
| DnsWire.FrameRoundTrip | internal/dns/proxy.go:297-318 | reading undoes writing if and only if the message has at most 16384 bytes |
| DnsWire.StreamRoundTrip | internal/dns/proxy.go:216-232 | any list of such messages written to a stream is read back as it was (section 4.2.2 of RFC 1035) |
| DnsWire.Servfail | internal/dns/proxy.go:321-330 | ID, opcode and RD as asked, QR and RA set, RCODE 2, nothing else; none for a query without a header |
| DnsWire.StartInRange | internal/dns/proxy.go:241 | the converted counter is an index exactly below 2^63, or by a remainder of 0 |
| DnsWire.RoundRobin.Dispatch | internal/dns/proxy.go:235-258 | upstreams in cyclic order, each once, up to the first answer, all failures or cancellation |
| DnsWire.Cyclic | internal/dns/proxy.go:243-244 | n consecutive positions are a permutation of the upstreams |
| DnsWire.ConsecutiveStarts | internal/dns/proxy.go:240-241 | n consecutive calls start at n different upstreams |
| HealthMonitor.Monitor.CheckConnectivity | internal/monitor/monitor.go:149-187 | one check of three probes, up to the first that succeeds, recorded with its times and answers, over by its timeout |
| HealthMonitor.Monitor.PerformRapidChecks | internal/monitor/monitor.go:103-147 | an error means failing checks covered the whole window without a gap, and ends with it; otherwise the last check succeeded or the context was cancelled; none begins after the context was cancelled |
| HealthMonitor.Monitor.PerformCheck | internal/monitor/monitor.go:61-101 | an error means a failed check and then an outage of the full window |
| HealthMonitor.Monitor.Run | internal/monitor/monitor.go:28-57 | if every check started after T fails, it has returned for a reconnect by T + max(Interval, Timeout) + Timeout + FailureWindow; it does so only after an outage; every round begins at the ticker's next tick, or at once if that is past, and after a cancellation only if it was past |
| HealthMonitor.OutageInTime | tests/integration/metrics_test.go:20 | the bound, from the time the failing check was due |
| Clock.TickBounds | internal/monitor/monitor.go:38-53 | the next tick comes after, within one interval, a whole number of intervals from the epoch |
| PortLease.Manager.RetryWithDeadline | internal/portforward/client.go:180-212 | one attempt whatever the deadline, then one every 15 seconds up to it, all of the same request, none after a cancellation; ends at once on an API error, and no later than the deadline and one attempt |
| PortLease.Manager.AcquirePort | internal/portforward/portforward.go:155-191 | done or failed by the deadline and two attempts; success is a new lease, bound with the payload just signed, whose port and expiry are what is recorded |
| PortLease.Manager.OnTick | internal/portforward/portforward.go:136-150 | a tick renews exactly if the signed payload expires within the margin, and otherwise binds with that payload again; it is over by the deadline and two attempts |
| PortLease.Manager.Begin | internal/portforward/portforward.go:110-117 | the deadline of the first acquisition is exactly a minute after the start |
| PortLease.Manager.Beat | internal/portforward/portforward.go:127-151 | a cancellation before the tick stops it; otherwise the tick is taken, and everything that holds from the first bind on still does |
| PortLease.Manager.Run | internal/portforward/portforward.go:87-152 | the first bind succeeds or Run has failed within 1 min + 6 s; successful binds, and the end of Run, follow within max(BindInterval, 20 min) + 6 s; every lease is bound with a signed payload, and no keepalive bind outlives the expiry of the payload it presents if the margin is at least an hour; it fails exactly when an acquisition or a bind has; ticks are taken when they are due, and after a cancellation only if they already were |
| PortLease.MarginIff | internal/portforward/portforward.go:137-148 | no keepalive bind, with all its retries, outlives the payload it presents if and only if the margin is at least an hour |
| PortSync.RefinesLoop | internal/portsync/portsync.go:81-111 | every step of the recursive handler is a step of a loop over the latest port, and its returns are no steps |
| PortSync.StepKeepsWork | internal/portsync/portsync.go:114-134 | the flags say what succeeded, and nothing that succeeded is repeated |
| PortSync.EveryInterleaving | internal/portsync/portsync.go:59-78 | one notifier never waits, the latest port is in the mailbox or taken, and a resting syncer has passed it on every configured way |
| PortSync.InOrder | internal/portsync/portsync.go:81-134 | over every interleaving the handler looks for a new port and the shutdown before every round, and a round is the client and then the script |
| PortSync.ComesToRest | internal/portsync/portsync.go:81-134 | from every reachable state, if what is configured succeeds, at most four steps and the returns bring the syncer to rest with the port passed on |
| PortSync.TwoNotifiersMayBlock | internal/portsync/portsync.go:59-66 | with two notifiers a send can find the mailbox full |
| ServerCache.MergeIPs | internal/cacher/cacher.go:190-209 | the first occurrences of new then old, cut at the maximum |
| ServerCache.MergeTwice | internal/cacher/cacher.go:190-209 | merging again changes nothing |
| ServerCache.MergeKeepsNewest | internal/cacher/cacher.go:190-209 | distinct, known addresses, the new ones first and all of them as far as there is room |
| ServerCache.Cache.MergeServers | internal/cacher/cacher.go:213-226 | CNs stay distinct, known servers keep their places, new ones follow in order, and as a map the list is old overridden by new |
| ServerCache.MergeKnown | internal/cacher/cacher.go:219-220 | overwriting through the index keeps the index right |
| ServerCache.MergeNew | internal/cacher/cacher.go:221-224 | so does appending |
| Sequences.WithoutMiddle | internal/firewall/vpnrules.go:134-135 | deleting by specification undoes an insertion that stood behind no equal element |
| Sequences.OntoKeeps | internal/cacher/cacher.go:190-205 | every element once, none lost or invented, the old ones in front |
| ServerSelect.FilterServers | internal/vpn/servers.go:102-136 | exactly the servers of the named regions, forwarding ports if required, in order |
| ServerSelect.TokensOfListed | internal/vpn/servers.go:108-116 | reading a list gives its names, whatever runs of commas and blanks separate them, stand before or behind, and whatever white space pads them |
| ServerSelect.OnePerRegion | internal/vpn/servers.go:138-148 | the first server of every region, no region lost, in order |
| ServerSelect.PickCandidates | internal/vpn/servers.go:53-75 | unknown regions and regions without forwarding are told apart; otherwise all eligible servers, or every eligible region for "all" |
| ServerSelect.Race | internal/vpn/servers.go:152-242 | over every order of reports, timers and cancellation: it ends at the first event that ends it, the 25th answer, the last report, the first timer once anybody has answered, the second timer or the cancellation; a fastest one of those collected, the first candidate if none; all that answered if all reported |
| ServerSelect.RegionForwards | internal/vpn/setup.go:88-94 | the first listed server of the region decides |
| JsonEnd.FindJsonEnd | internal/pia/client.go:369-401 | on arbitrary bytes, just behind the first closing brace outside strings that brings the depth to zero, or -1 if there is none |
| JsonEnd.ObjectEnd | internal/pia/client.go:369-401 | for every object text, any white space before and any bytes behind it, that brace is the object's own |
| JsonEnd.NeutralString | internal/pia/client.go:376-390 | a string is skipped as a whole whatever braces, quotes or escapes it holds |
| JsonEnd.SplitResponse | internal/pia/client.go:120-130 | the server list's signature is cut off exactly behind the object |
| Socks5.ParseIs | internal/proxy/socks5.go:40-138 | the parser accepts exactly the encoded handshakes and leaves exactly the bytes behind them |
| Socks5.OnTheWire | internal/proxy/socks5.go:40-138 | the encoding byte for byte, as the two standards lay it out |
| Socks5.RequestIs | internal/proxy/socks5.go:93-138 | the same for a CONNECT request to an IPv4 address or a domain |
| Socks5.LoginIs | internal/proxy/socks5.go:66-83 | the same for user name and password |
| Socks5.ReadLogin | internal/proxy/socks5.go:64-91 | accepts exactly the configured credentials and says so |
| Socks5.ReadRequest | internal/proxy/socks5.go:93-138 | host and port of a CONNECT request; other commands get reply 7, other address types reply 8 |
| Socks5.HandleSocks5 | internal/proxy/socks5.go:40-149 | for every handshake the encoded host and port are dialled, with exactly its bytes consumed, if and only if the credentials match; where both parts are configured nothing is dialled without exactly these; nothing else is ever dialled |

## Left out

- Lifecycle.App.Run, Retry, RunServices: watched for a given number of rounds, attempts or steps, so every prefix of a run is covered but not its infinite continuation.
- Lifecycle.App.Establish: like the rest of the lifecycle it is stated for iptables and ip commands that work; what holds when any of them may fail is KillswitchRuns.Run and the unconditional clauses of Killswitch, FirewallRoutes and Tunnel.
- Lifecycle.App.SelectServer: address and region of a dedicated IP are arbitrary, as its lookup is.
- Lifecycle.App.GetToken: whether a token has expired is arbitrary, and the cacher's renewals during services are not modelled.
- Lifecycle.App.VpnSetup: an address that cannot be read is any that iptables refuses; which strings those are is not modelled.
- KillswitchSetup.CheckChainsPresent: compares jump targets, where the source looks for "-j" and the chain's name anywhere in a listed rule, so that a jump to a foreign chain whose name begins with ours would satisfy it; foreign chains are not modelled.
- KillswitchSetup.Setup: takes the local networks already resolved, and does not model MSS clamping, which affects no verdict.
- Tunnel.Up: key, address, MTU, mark and peer settings are steps that may fail and no more; waiting for the userspace backend is one more, and whether pia0 is there when that gives up is open.
- HealthMonitor.Monitor.CheckConnectivity: a check takes at least a nanosecond; the bounds count no time for local work.
- PortLease.Manager.Run: attempts are limited to the client's 3 seconds and local work takes no time.
- ServerSelect.TokensOfListed: white space beyond ASCII is not trimmed.
- IPv6 routing: pia-tun installs IPv6 rules for local networks only; their rule list is modelled, no routing claim is made.
- internal/dns/resolv.go: backup and restore of resolv.conf rewrites one file at a time; no other operation depends on its contents here.
- HTTP, TLS, JSON decoding, certificates, base64, process execution and sysctl parsing: library or kernel behaviour, arbitrary outcomes here.
- Token files, metrics, logging, API server, HTTP proxy, qBittorrent, Transmission, Deluge and script clients: no property that spans operations.
- A dial that completes just as it is cancelled may store its connection after CloseUpstreams has swapped the slot: no claim that none survives it.
