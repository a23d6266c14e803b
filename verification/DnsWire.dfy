/** The DoT proxy's wire format and its round robin over the upstreams. */
module DnsWire {
  import opened ByteStream
  import opened Wrappers

  const MAX_MSG := 16384

  // ---- Framing (section 4.2.2 of RFC 1035) ----

  /** uint16(len(msg)): the length modulo 2^16. */
  function Length(msg: seq<Byte>): (n: nat)
    ensures n < 65536 && (|msg| < 65536 ==> n == |msg|)
  {
    |msg| % 65536
  }

  /** What writeMsg puts on the wire: the 16-bit length, then the whole message. */
  function Frame(msg: seq<Byte>): seq<Byte> {
    [Length(msg) / 256, Length(msg) % 256] + msg
  }

  /** What readMsg takes off the wire: a message and the bytes behind it. */
  function Unframe(data: seq<Byte>): Option<(seq<Byte>, seq<Byte>)> {
    if |data| < 2 then None
    else
      var n := Word(data[0], data[1]);
      if n > 16384 || |data| < 2 + n then None else Some((data[2..2 + n], data[2 + n..]))
  }

  method WriteMsg(conn: Conn, msg: seq<Byte>)
    modifies conn`output
    ensures conn.output == old(conn.output) + Frame(msg)
  {
    var buf := new Byte[2 + |msg|](_ => 0);
    buf[0], buf[1] := Length(msg) / 256, Length(msg) % 256;
    var i := 0;
    while i < |msg|
      modifies buf
      invariant 0 <= i <= |msg|
      invariant buf[0] == Length(msg) / 256 && buf[1] == Length(msg) % 256
      invariant forall j | 0 <= j < i :: buf[2 + j] == msg[j]
    {
      buf[2 + i] := msg[i];
      i := i + 1;
    }
    assert buf[2..] == msg by {
      forall j | 0 <= j < |msg| ensures buf[2..][j] == msg[j] { assert buf[2 + j] == msg[j]; }
    }
    assert buf[..] == buf[..2] + buf[2..];
    conn.Write(buf[..]);
  }

  method ReadMsg(conn: Conn) returns (ok: bool, msg: seq<Byte>)
    modifies conn`input
    ensures ok == Unframe(old(conn.input)).Some?
    ensures ok ==> (msg, conn.input) == Unframe(old(conn.input)).value
  {
    var hdr;
    msg := [];
    ok, hdr := conn.ReadFull(2);
    if !ok { return; }
    var n := Word(hdr[0], hdr[1]);
    if n > MAX_MSG { return false, []; }
    ghost var behind := conn.input;
    ok, msg := conn.ReadFull(n);
    if ok {
      assert old(conn.input)[2..2 + n] == behind[..n];
      assert old(conn.input)[2 + n..] == behind[n..];
    }
  }

  /** Reading undoes writing exactly for messages the reader accepts: beyond 16384 bytes the
      reader refuses, and beyond 65535 the length no longer fits and a prefix may come back. */
  lemma FrameRoundTrip(msg: seq<Byte>, rest: seq<Byte>)
    ensures Unframe(Frame(msg) + rest) == Some((msg, rest)) <==> |msg| <= 16384
  {
  }

  function Frames(msgs: seq<seq<Byte>>): seq<Byte> {
    if msgs == [] then [] else Frame(msgs[0]) + Frames(msgs[1..])
  }

  /** Reading n messages in a row. */
  function UnframeAll(data: seq<Byte>, n: nat): Option<(seq<seq<Byte>>, seq<Byte>)> {
    if n == 0 then Some(([], data))
    else match Unframe(data)
      case None => None
      case Some((msg, rest)) =>
        match UnframeAll(rest, n - 1)
        case None => None
        case Some((msgs, left)) => Some(([msg] + msgs, left))
  }

  /** Any list of messages written to a connection comes back as it was, in order. */
  lemma {:induction false} StreamRoundTrip(msgs: seq<seq<Byte>>, rest: seq<Byte>)
    requires forall i | 0 <= i < |msgs| :: |msgs[i]| <= 16384
    ensures UnframeAll(Frames(msgs) + rest, |msgs|) == Some((msgs, rest))
    decreases |msgs|
  {
    if msgs == [] {
      assert Frames(msgs) + rest == rest;
    } else {
      var behind := Frames(msgs[1..]) + rest;
      assert Frames(msgs) + rest == Frame(msgs[0]) + behind;
      FrameRoundTrip(msgs[0], behind);
      StreamRoundTrip(msgs[1..], rest);
      assert [msgs[0]] + msgs[1..] == msgs;
    }
  }

  // ---- SERVFAIL ----

  function Or80(b: Byte): Byte { if b < 128 then b + 128 else b }

  /** The reply has the query's ID, QR set, opcode and RD as asked, RA set, RCODE 2, no sections;
      a query too short to carry a header gets none. */
  method Servfail(query: seq<Byte>) returns (resp: Option<seq<Byte>>)
    ensures |query| < 12 <==> resp.None?
    ensures resp.Some? ==>
      && |resp.value| == 12 && resp.value[..2] == query[..2]
      && resp.value[2] >= 128 && resp.value[2] % 128 == query[2] % 128
      && resp.value[3] == 0x82
      && forall i | 4 <= i < 12 :: resp.value[i] == 0
  {
    if |query| < 12 { return None; }
    var buf := new Byte[12](_ => 0);
    buf[0], buf[1] := query[0], query[1];
    buf[2] := Or80(query[2]);
    buf[3] := 0x82;
    assert buf[..][..2] == query[..2];
    resp := Some(buf[..]);
  }

  // ---- Round robin ----

  const INT64 := 0x8000_0000_0000_0000
  const UINT64 := 0x1_0000_0000_0000_0000

  /** Go's `int(c) % n` on a 64-bit machine: the conversion wraps, the remainder follows the dividend's sign. */
  function Start(c: nat, n: nat): int
    requires n > 0 && c < UINT64
  {
    if c < INT64 then c % n else -((UINT64 - c) % n)
  }

  /** The start is an index exactly while the counter has not passed 2^63, or by luck. */
  lemma StartInRange(c: nat, n: nat)
    requires n > 0 && c < UINT64
    ensures 0 <= Start(c, n) < n <==> c < 0x8000_0000_0000_0000 || (0x1_0000_0000_0000_0000 - c) % n == 0
  {
  }

  /** One upstream tried: did it answer, and was the dial context cancelled by then? */
  datatype Try = Try(up: nat, answered: bool, cancelled: bool)

  class RoundRobin {
    /** An atomic uint64. */
    var idx: nat

    constructor ()
      ensures idx == 0
    {
      idx := 0;
    }

    /** Tries the upstreams in cyclic order from the counter's; stops at the first answer and
        gives up only after all failed or once the dial context is cancelled. A negative start,
        out of reach before 2^63 calls, is an index out of range: the call panics. */
    method Dispatch(n: nat) returns (tries: seq<Try>, served: bool, panicked: bool)
      requires n > 0 && idx < UINT64
      modifies this
      ensures idx == (old(idx) + 1) % UINT64
      ensures panicked <==> old(idx) >= 0x8000_0000_0000_0000 && (0x1_0000_0000_0000_0000 - old(idx)) % n != 0
      ensures panicked ==> tries == [] && !served
      ensures !panicked ==> 0 < |tries| <= n && Start(old(idx), n) >= 0
      ensures !panicked ==> forall i | 0 <= i < |tries| :: tries[i].up == Pos(Start(old(idx), n), i, n)
      ensures forall i | 0 <= i < |tries| - 1 :: !tries[i].answered && !tries[i].cancelled
      ensures served == (tries != [] && tries[|tries| - 1].answered)
      ensures !served && !panicked ==> |tries| == n || tries[|tries| - 1].cancelled
    {
      var start := Start(idx, n);
      StartInRange(idx, n);
      idx := (idx + 1) % UINT64;
      tries, served, panicked := [], false, start < 0;
      if panicked { return; }
      var i := 0;
      while i < n
        invariant 0 <= i <= n && |tries| == i
        invariant forall j | 0 <= j < i :: tries[j].up == Pos(start, j, n) && !tries[j].answered && !tries[j].cancelled
      {
        var up := (start + i) % n;
        var answered: bool, cancelled: bool := *, *;
        tries := tries + [Try(up, answered, cancelled)];
        if answered { return tries, true, false; }
        if cancelled { return tries, false, false; }
        i := i + 1;
      }
    }
  }

  /** The i-th upstream counted cyclically from a. */
  function Pos(a: nat, i: nat, n: nat): nat
    requires n > 0
  {
    (a + i) % n
  }

  /** A remainder is determined by the equation it satisfies. */
  lemma RemainderIs(x: nat, n: nat, q: int, r: nat)
    requires n > 0 && r < n && x == n * q + r
    ensures x % n == r
  {
    var d := q - x / n;
    assert n * d == x % n - r;
    assert d == 0;
  }

  lemma PosWraps(a: nat, i: nat, n: nat)
    requires i < n
    ensures Pos(a, i, n) == if a % n + i < n then a % n + i else a % n + i - n
  {
    var q, r := a / n, a % n;
    if r + i < n { RemainderIs(a + i, n, q, r + i); }
    else {
      assert n * (q + 1) == n * q + n;
      RemainderIs(a + i, n, q + 1, r + i - n);
    }
  }

  /** From any start, n consecutive positions are n different upstreams, and every upstream is
      one of them: a dispatch that meets only failures tries a cyclic permutation of all. */
  lemma Cyclic(a: nat, n: nat, u: nat)
    requires u < n
    ensures forall i, j | 0 <= i < j < n :: Pos(a, i, n) != Pos(a, j, n)
    ensures exists i | 0 <= i < n :: Pos(a, i, n) == u
  {
    forall i, j | 0 <= i < j < n ensures Pos(a, i, n) != Pos(a, j, n) {
      PosWraps(a, i, n);
      PosWraps(a, j, n);
    }
    var i := if a % n <= u then u - a % n else u + n - a % n;
    PosWraps(a, i, n);
  }

  /** Where the i-th of several consecutive dispatches starts. */
  function StartOf(c: nat, i: nat, n: nat): int
    requires n > 0 && c + i < UINT64
  {
    Start(c + i, n)
  }

  /** Any n consecutive dispatches, the counter below 2^63, start at n different upstreams, each
      upstream once. */
  lemma ConsecutiveStarts(c: nat, n: nat, u: nat)
    requires u < n && c + n <= 0x8000_0000_0000_0000
    ensures forall i, j | 0 <= i < j < n :: StartOf(c, i, n) != StartOf(c, j, n)
    ensures exists i | 0 <= i < n :: StartOf(c, i, n) == u
  {
    Cyclic(c, n, u);
    forall i, j | 0 <= i < j < n ensures StartOf(c, i, n) != StartOf(c, j, n) {
      assert Pos(c, i, n) != Pos(c, j, n);
    }
    var i :| 0 <= i < n && Pos(c, i, n) == u;
    assert StartOf(c, i, n) == u;
  }
}
