/** Bringing the WireGuard interface up and down, step by step. */
module Tunnel {
  import opened Routing
  import opened IpStack

  /** A cancellable context.  Once done it stays done, and commands run under it fail. */
  class Context {
    var done: bool
    const background: bool

    constructor (background: bool)
      ensures !done && this.background == background
    {
      done, this.background := false, background;
    }

    method Cancel()
      requires !background
      modifies this
      ensures done
    {
      done := true;
    }

    /** Time passes; a context that is not the background one may be cancelled. */
    method Tick()
      modifies this
      ensures old(done) ==> done
      ensures background && !old(done) ==> !done
    {
      var cancelled: bool := *;
      done := done || (cancelled && !background);
    }
  }

  /** Somebody else deletes pia0; the kernel drops its route with it. */
  method Vanish(k: Kernel)
    requires k.Coherent()
    modifies k`link, k`up, k`tunnel
    ensures !k.link && !k.up && !k.tunnel
  {
    k.link, k.up, k.tunnel := false, false, false;
  }

  /** What may happen between two commands: the context is cancelled and, if somebody else
      is at work, pia0 vanishes. */
  method Meanwhile(k: Kernel, ctx: Context, foreign: bool)
    requires k.Coherent()
    modifies k`link, k`up, k`tunnel, ctx
    ensures k.Coherent() && (old(ctx.done) ==> ctx.done)
    ensures ctx.background && !old(ctx.done) ==> !ctx.done
    ensures (k.link, k.up, k.tunnel) == old((k.link, k.up, k.tunnel)) || (foreign && !k.link && !k.up && !k.tunnel)
  {
    ctx.Tick();
    var vanishes: bool := *;
    if foreign && vanishes { Vanish(k); }
  }

  datatype Backend = KernelOnly | Userspace | Auto

  ghost predicate OutsideTunnel(v: View, w: View) {
    v.(vpn := false, suppress := false) == w.(vpn := false, suppress := false)
  }

  /** By which backend pia0 came up. */
  datatype Used = Kernelspace | Wireguardgo

  /** The kernel's backend first, unless it is not wanted; the userspace one only if it is wanted
      or, detecting, if the kernel's failed.  The userspace backend may come up too late to be
      waited for, and then pia0 is there all the same.  `fault` says that every backend that was
      wanted was refused or too late. */
  method CreateInterface(k: Kernel, ctx: Context, backend: Backend, foreign: bool)
    returns (ok: bool, used: Used, ghost fault: bool)
    requires k.Coherent()
    modifies k`link, k`up, k`tunnel, ctx
    ensures ok ==> k.link && (!foreign ==> !old(k.link))
    ensures ok ==> (backend == KernelOnly ==> used == Kernelspace) && (backend == Userspace ==> used == Wireguardgo)
    ensures k.Coherent() && (old(ctx.done) ==> !ok && ctx.done && (!foreign ==> k.link == old(k.link)))
    ensures !foreign ==> (k.up, k.tunnel) == old((k.up, k.tunnel))
    ensures !ok && !fault && !foreign ==> ctx.done || old(k.link)
    ensures ok && !foreign ==> !fault
  {
    ok, used, fault := false, Kernelspace, false;
    ghost var refused := true;
    if backend != Userspace {
      Meanwhile(k, ctx, foreign);
      if ctx.done { return; }
      ok, refused := k.LinkAdd();
      fault := backend == KernelOnly && refused;
      if ok || backend == KernelOnly { return; }
    }
    used := Wireguardgo;
    Meanwhile(k, ctx, foreign);
    if ctx.done { return; }
    ghost var before := refused;
    ok, refused := k.LinkAdd();
    var inTime: bool := *;
    fault := before && (refused || !inTime);
    ok := ok && inTime;
  }

  /** Settings of pia0 that touch neither routes nor rules. */
  datatype Setting = PrivateKey | PeerAddress | Mtu | Fwmark | Peer

  /** The settings in their order, the mark before the peer, up to the first that fails. */
  method Configure(k: Kernel, ctx: Context, foreign: bool) returns (ok: bool,
      ghost made: seq<Setting>, ghost fault: bool)
    requires k.Coherent()
    modifies k`link, k`up, k`tunnel, ctx
    ensures k.Coherent() && (!foreign ==> (k.link, k.up, k.tunnel) == old((k.link, k.up, k.tunnel)))
    ensures old(ctx.done) ==> !ok && ctx.done
    ensures ok <==> made == [PrivateKey, PeerAddress, Mtu, Fwmark, Peer]
    ensures !ok && !fault ==> ctx.done
    ensures ok ==> !fault
  {
    var settings, i := [PrivateKey, PeerAddress, Mtu, Fwmark, Peer], 0;
    ok, made, fault := true, [], false;
    while i < |settings|
      invariant 0 <= i <= 5 && ok && made == settings[..i]
      invariant k.Coherent() && (!foreign ==> (k.link, k.up, k.tunnel) == old((k.link, k.up, k.tunnel)))
      invariant old(ctx.done) ==> ctx.done && i == 0
    {
      Meanwhile(k, ctx, foreign);
      var refused: bool := *;
      if refused || ctx.done { return false, made, refused; }
      made, i := made + [settings[i]], i + 1;
    }
  }

  /** `wg.Up`.  Every step may fail, and pia0 may vanish between any two if somebody else is at
      work.  A failure after the interface exists leaves it behind: the deferred cleanup never
      sees the error.  With nobody else at work and nothing left over it fails only if a command
      is refused (`fault`) or the context is cancelled. */
  method Up(k: Kernel, ctx: Context, backend: Backend, foreign: bool)
    returns (ok: bool, used: Used, ghost made: seq<Setting>, ghost fault: bool)
    requires k.Rendered() && k.Coherent()
    modifies k`link, k`up, k`tunnel, k`rules, k`view, ctx
    ensures k.Rendered() && k.Coherent() && OutsideTunnel(k.view, old(k.view))
    ensures ok ==> k.view.vpn && k.view.suppress && !old(k.view.vpn)
    ensures ok ==> made == [PrivateKey, PeerAddress, Mtu, Fwmark, Peer]
    ensures ok ==> (backend == KernelOnly ==> used == Kernelspace) && (backend == Userspace ==> used == Wireguardgo)
    ensures ok && !foreign ==> !old(k.link) && k.link && k.up && k.tunnel
    ensures old(ctx.done) ==> !ok && ctx.done && (!foreign ==> k.link == old(k.link))
    ensures ok && !foreign ==> !fault
    ensures !ok && !fault && !foreign && !k.flaky ==>
      ctx.done || old(k.link) || old(k.view.vpn) || old(k.view.suppress)
  {
    hide Render, Adding;
    ok, used, fault := CreateInterface(k, ctx, backend, foreign);
    made := [];
    if !ok { return; }
    ghost var refused;
    ok, made, refused := Configure(k, ctx, foreign);
    fault := fault || refused;
    if !ok { return; }
    Meanwhile(k, ctx, foreign);
    if ctx.done { return false, used, made, fault; }
    ok, refused := k.LinkSetUp();
    fault := fault || refused;
    if !ok { return; }
    Meanwhile(k, ctx, foreign);
    var rpStrict: bool := *;
    fault := fault || rpStrict;
    if rpStrict || ctx.done { return false, used, made, fault; }
    ok, refused := k.RouteAdd();
    fault := fault || refused;
    if !ok { return; }
    Meanwhile(k, ctx, foreign);
    if ctx.done { return false, used, made, fault; }
    AddVpnRule(k.view);
    ok := k.RuleAdd(VpnRule);
    if !ok { return; }
    k.view := k.view.(vpn := true);
    Meanwhile(k, ctx, foreign);
    if ctx.done { return false, used, made, fault; }
    AddSuppressRule(k.view);
    ok := k.RuleAdd(SuppressRule);
    if !ok { return; }
    k.view := k.view.(suppress := true);
  }

  method DeleteAllUnder(k: Kernel, ctx: Context, p: nat, foreign: bool)
    requires k.Rendered() && k.Coherent() && Ours(p)
    modifies k`link, k`up, k`tunnel, k`rules, k`view, ctx
    ensures k.Rendered() && k.Coherent()
    ensures Emptied(k.view, p) == Emptied(old(k.view), p)
    ensures !k.flaky && !ctx.done ==> k.view == Emptied(old(k.view), p)
    ensures old(ctx.done) ==> ctx.done && k.view == old(k.view)
    ensures ctx.background && !old(ctx.done) ==> !ctx.done
    ensures (k.link, k.up, k.tunnel) == old((k.link, k.up, k.tunnel)) || (foreign && !k.link && !k.up && !k.tunnel)
  {
    hide Render, Cut, Emptied, HasPriority, Deleting;
    var ok := true;
    while ok
      invariant k.Rendered() && k.Coherent()
      invariant Emptied(k.view, p) == Emptied(old(k.view), p)
      invariant !ok && !k.flaky && !ctx.done ==> Count(k.view, p) == 0
      invariant old(ctx.done) ==> ctx.done && k.view == old(k.view)
      invariant ctx.background && !old(ctx.done) ==> !ctx.done
      invariant (k.link, k.up, k.tunnel) == old((k.link, k.up, k.tunnel)) || (foreign && !k.link && !k.up && !k.tunnel)
      decreases ok, Count(k.view, p)
    {
      DeleteFromView(k.view, p);
      Meanwhile(k, ctx, foreign);
      ok := false;
      if !ctx.done { ok := k.RuleDelPriority(p); }
      if ok { k.view := Cut(k.view, p); }
    }
    DeleteFromView(k.view, p);
  }

  /** `wg.Down`: best effort.  Unless its context is cancelled, nothing of the tunnel is left,
      from whatever prefix of Up it starts; with a cancelled context it does nothing at all. */
  method Down(k: Kernel, ctx: Context, foreign: bool)
    requires k.Rendered() && k.Coherent()
    modifies k`link, k`up, k`tunnel, k`rules, k`view, ctx
    ensures k.Rendered() && k.Coherent() && OutsideTunnel(k.view, old(k.view))
    ensures !k.flaky && !ctx.done ==> !k.link && !k.up && !k.tunnel && !k.view.vpn && !k.view.suppress
    ensures old(ctx.done) ==> ctx.done && k.view == old(k.view)
    ensures old(ctx.done) && !foreign ==> (k.link, k.up, k.tunnel) == old((k.link, k.up, k.tunnel))
    ensures !old(k.link) ==> !k.link
    ensures ctx.background && !old(ctx.done) ==> !ctx.done
  {
    hide Render;
    Meanwhile(k, ctx, foreign);
    if !ctx.done { k.LinkSetDown(); }
    Meanwhile(k, ctx, foreign);
    if !ctx.done { k.LinkDel(); }
    DeleteAllUnder(k, ctx, PRIORITY_VPN, foreign);
    DeleteAllUnder(k, ctx, PRIORITY_SUPPRESS, foreign);
  }

  /** Any number of attempts to come up, each stopping anywhere, with pia0 free to vanish
      between any two commands; then Down removes whatever they left and touches no other
      priority. */
  method UpAgainThenDown(k: Kernel, ctx: Context, attempts: nat, backend: Backend)
    requires k.Rendered() && k.Coherent()
    modifies k`link, k`up, k`tunnel, k`rules, k`view, ctx
    ensures k.Rendered() && OutsideTunnel(k.view, old(k.view))
    ensures !k.flaky && !ctx.done ==> !k.link && !k.up && !k.tunnel && !k.view.vpn && !k.view.suppress
  {
    var i := 0;
    while i < attempts
      invariant k.Rendered() && k.Coherent() && OutsideTunnel(k.view, old(k.view))
    {
      var _, _, _, _ := Up(k, ctx, backend, true);
      i := i + 1;
    }
    Down(k, ctx, true);
  }
}
