/** The SOCKS5 handshake as a parser of the client's bytes, against its encoder
    (sections 3 and 4 of RFC 1928, section 2 of RFC 1929). */
module Socks5 {
  import opened ByteStream
  import opened Wrappers

  const VERSION: Byte := 5
  const CONNECT: Byte := 1
  const IPV4: Byte := 1
  const DOMAIN: Byte := 3

  datatype Target = IPv4(addr: seq<Byte>) | Domain(name: seq<Byte>)

  /** The user name and password sub-negotiation; the version byte is not looked at. */
  datatype Login = Login(version: Byte, user: seq<Byte>, pass: seq<Byte>)

  /** A CONNECT request; neither the version nor the reserved byte is looked at. */
  datatype Request = Request(version: Byte, reserved: Byte, target: Target, port: nat)

  /** All a client sends before the tunnel; a login exactly if one is asked for. */
  datatype Handshake = Handshake(methods: seq<Byte>, login: Option<Login>, request: Request)

  predicate FitsTarget(t: Target) { if t.IPv4? then |t.addr| == 4 else |t.name| < 256 }

  predicate Fits(h: Handshake, authRequired: bool) {
    && |h.methods| < 256 && h.login.Some? == authRequired
    && (h.login.Some? ==> |h.login.value.user| < 256 && |h.login.value.pass| < 256)
    && FitsTarget(h.request.target) && h.request.port < 65536
  }

  // ---- Encoder ----

  function Counted(b: seq<Byte>): seq<Byte>
    requires |b| < 256
  {
    [|b|] + b
  }

  function Greeting(methods: seq<Byte>): seq<Byte>
    requires |methods| < 256
  {
    [VERSION] + Counted(methods)
  }

  function EncodeLogin(l: Login): seq<Byte>
    requires |l.user| < 256 && |l.pass| < 256
  {
    [l.version] + Counted(l.user) + Counted(l.pass)
  }

  function EncodeTarget(t: Target): (b: seq<Byte>)
    requires FitsTarget(t)
    ensures b != []
  {
    match t
    case IPv4(addr) => [IPV4] + addr
    case Domain(name) => [DOMAIN] + Counted(name)
  }

  function EncodeRequest(r: Request): seq<Byte>
    requires FitsTarget(r.target) && r.port < 65536
  {
    [r.version, CONNECT, r.reserved] + EncodeTarget(r.target) + [r.port / 256, r.port % 256]
  }

  function Encode(h: Handshake, authRequired: bool): seq<Byte>
    requires Fits(h, authRequired)
  {
    Greeting(h.methods) + (if authRequired then EncodeLogin(h.login.value) else []) + EncodeRequest(h.request)
  }

  lemma LoginBytes(l: Login)
    requires |l.user| < 256 && |l.pass| < 256
    ensures EncodeLogin(l) == [l.version, |l.user|] + l.user + [|l.pass|] + l.pass
  {
    assert [l.version] + Counted(l.user) == [l.version, |l.user|] + l.user;
  }

  lemma RequestBytes(r: Request)
    requires FitsTarget(r.target) && r.port < 65536
    ensures EncodeRequest(r)
         == [r.version, 1, r.reserved]
            + (match r.target case IPv4(addr) => [1] + addr case Domain(name) => [3, |name|] + name)
            + [r.port / 256, r.port % 256]
  {
    if r.target.Domain? { assert EncodeTarget(r.target) == [3, |r.target.name|] + r.target.name; }
  }

  /** The handshake byte for byte, as the two standards lay it out. */
  lemma OnTheWire(h: Handshake, authRequired: bool)
    requires Fits(h, authRequired)
    ensures Encode(h, authRequired)
         == [5, |h.methods|] + h.methods
            + (if authRequired
               then var l := h.login.value; [l.version, |l.user|] + l.user + [|l.pass|] + l.pass
               else [])
            + ([h.request.version, 1, h.request.reserved]
               + (match h.request.target case IPv4(addr) => [1] + addr case Domain(name) => [3, |name|] + name)
               + [h.request.port / 256, h.request.port % 256])
  {
    hide EncodeLogin, EncodeRequest;
    assert Greeting(h.methods) == [5, |h.methods|] + h.methods;
    if authRequired { LoginBytes(h.login.value); }
    RequestBytes(h.request);
  }

  // ---- Parser ----

  type Parsed<T> = Option<(T, seq<Byte>)>

  function Block(s: seq<Byte>): Parsed<seq<Byte>> {
    if |s| < 1 then None
    else
      var end: nat := 1 + s[0] as nat;
      if |s| < end then None else Some((s[1..end], s[end..]))
  }

  function ParseGreeting(s: seq<Byte>): Parsed<seq<Byte>> {
    if |s| < 2 || s[0] != VERSION then None else Block(s[1..])
  }

  function ParseLogin(s: seq<Byte>): Parsed<Login> {
    if |s| < 2 then None
    else match Block(s[1..])
      case None => None
      case Some((user, behind)) =>
        match Block(behind)
        case None => None
        case Some((pass, rest)) => Some((Login(s[0], user, pass), rest))
  }

  /** Behind the address type. */
  function ParseTarget(atyp: Byte, s: seq<Byte>): Parsed<Target> {
    if atyp == IPV4 then if |s| < 4 then None else Some((IPv4(s[..4]), s[4..]))
    else if atyp == DOMAIN then
      match Block(s)
      case None => None
      case Some((name, rest)) => Some((Domain(name), rest))
    else None
  }

  function ParseRequest(s: seq<Byte>): Parsed<Request> {
    if |s| < 4 || s[1] != CONNECT then None
    else match ParseTarget(s[3], s[4..])
      case None => None
      case Some((target, rest)) =>
        if |rest| < 2 then None else Some((Request(s[0], s[2], target, Word(rest[0], rest[1])), rest[2..]))
  }

  function Parse(s: seq<Byte>, authRequired: bool): Parsed<Handshake> {
    match ParseGreeting(s)
    case None => None
    case Some((methods, behind)) =>
      var login := if authRequired then ParseLogin(behind) else None;
      if authRequired && login.None? then None
      else
        match ParseRequest(if authRequired then login.value.1 else behind)
        case None => None
        case Some((request, rest)) =>
          Some((Handshake(methods, if authRequired then Some(login.value.0) else None, request), rest))
  }

  lemma BlockIs(s: seq<Byte>, b: seq<Byte>, rest: seq<Byte>)
    ensures Block(s) == Some((b, rest)) <==> |b| < 256 && s == Counted(b) + rest
  {
  }

  lemma GreetingIs(s: seq<Byte>, methods: seq<Byte>, rest: seq<Byte>)
    ensures ParseGreeting(s) == Some((methods, rest)) <==> |methods| < 256 && s == Greeting(methods) + rest
  {
    if s != [] { BlockIs(s[1..], methods, rest); }
    if |s| >= 2 && s[0] == VERSION { assert s == [VERSION] + s[1..]; }
    if |methods| < 256 && s == Greeting(methods) + rest { assert s[1..] == Counted(methods) + rest; }
  }

  lemma LoginIs(s: seq<Byte>, l: Login, rest: seq<Byte>)
    ensures ParseLogin(s) == Some((l, rest)) <==> |l.user| < 256 && |l.pass| < 256 && s == EncodeLogin(l) + rest
  {
    hide Block, Counted;
    if ParseLogin(s) == Some((l, rest)) {
      var behind := Block(s[1..]).value.1;
      BlockIs(s[1..], l.user, behind);
      BlockIs(behind, l.pass, rest);
      assert s == [l.version] + (Counted(l.user) + (Counted(l.pass) + rest));
      assert s == [l.version] + Counted(l.user) + Counted(l.pass) + rest;
    }
    if |l.user| < 256 && |l.pass| < 256 && s == EncodeLogin(l) + rest {
      var behind := Counted(l.pass) + rest;
      assert s == [l.version] + (Counted(l.user) + behind);
      assert s[1..] == Counted(l.user) + behind;
      BlockIs(s[1..], l.user, behind);
      BlockIs(behind, l.pass, rest);
      CountedSize(l.user);
    }
  }

  lemma CountedSize(b: seq<Byte>)
    requires |b| < 256
    ensures |Counted(b)| == 1 + |b|
  {
  }

  lemma TargetIs(atyp: Byte, s: seq<Byte>, t: Target, rest: seq<Byte>)
    ensures ParseTarget(atyp, s) == Some((t, rest)) <==> FitsTarget(t) && [atyp] + s == EncodeTarget(t) + rest
  {
    assert ([atyp] + s)[0] == atyp && ([atyp] + s)[1..] == s;
    match t {
      case IPv4(addr) =>
        if FitsTarget(t) && [atyp] + s == EncodeTarget(t) + rest { assert s == addr + rest; }
        if ParseTarget(atyp, s) == Some((t, rest)) { assert s == addr + rest; }
      case Domain(name) =>
        BlockIs(s, name, rest);
        if FitsTarget(t) && [atyp] + s == EncodeTarget(t) + rest { assert s == Counted(name) + rest; }
    }
  }

  lemma WordBytes(w: nat)
    requires w < 65536
    ensures Word(w / 256, w % 256) == w
    ensures forall hi: Byte, lo: Byte :: Word(hi, lo) == w ==> hi == w / 256 && lo == w % 256
  {
  }

  /** A request the parser reads is the encoding of what it returns. */
  lemma RequestRead(s: seq<Byte>, r: Request, rest: seq<Byte>)
    requires ParseRequest(s) == Some((r, rest))
    ensures FitsTarget(r.target) && r.port < 65536 && s == EncodeRequest(r) + rest
  {
    hide ParseTarget, EncodeTarget, FitsTarget;
    var behind := ParseTarget(s[3], s[4..]).value.1;
    TargetIs(s[3], s[4..], r.target, behind);
    WordBytes(r.port);
    assert behind == [behind[0], behind[1]] + rest;
    assert s == [s[0], s[1], s[2]] + ([s[3]] + s[4..]);
  }

  /** And it reads every encoding. */
  lemma RequestWritten(r: Request, rest: seq<Byte>)
    requires FitsTarget(r.target) && r.port < 65536
    ensures ParseRequest(EncodeRequest(r) + rest) == Some((r, rest))
  {
    hide ParseTarget, EncodeTarget, FitsTarget, Word;
    var s, behind := EncodeRequest(r) + rest, [r.port / 256, r.port % 256] + rest;
    WordBytes(r.port);
    assert s[3..] == EncodeTarget(r.target) + behind;
    assert s[3..] == [s[3]] + s[4..];
    TargetIs(s[3], s[4..], r.target, behind);
    assert behind[2..] == rest;
  }

  lemma RequestIs(s: seq<Byte>, r: Request, rest: seq<Byte>)
    ensures ParseRequest(s) == Some((r, rest)) <==>
            FitsTarget(r.target) && r.port < 65536 && s == EncodeRequest(r) + rest
  {
    hide ParseRequest, EncodeRequest, FitsTarget;
    if ParseRequest(s) == Some((r, rest)) { RequestRead(s, r, rest); }
    if FitsTarget(r.target) && r.port < 65536 { RequestWritten(r, rest); }
  }

  /** The parser accepts exactly the encodings, and takes exactly the handshake off the stream. */
  lemma ParseIs(s: seq<Byte>, authRequired: bool, h: Handshake, rest: seq<Byte>)
    ensures Parse(s, authRequired) == Some((h, rest)) <==> Fits(h, authRequired) && s == Encode(h, authRequired) + rest
  {
    hide ParseGreeting, ParseLogin, ParseRequest, Greeting, EncodeLogin, EncodeRequest;
    if Parse(s, authRequired) == Some((h, rest)) {
      var behind := ParseGreeting(s).value.1;
      GreetingIs(s, h.methods, behind);
      if authRequired {
        var last := ParseLogin(behind).value.1;
        LoginIs(behind, h.login.value, last);
        RequestIs(last, h.request, rest);
      } else {
        RequestIs(behind, h.request, rest);
      }
    }
    if Fits(h, authRequired) && s == Encode(h, authRequired) + rest {
      var last := EncodeRequest(h.request) + rest;
      RequestIs(last, h.request, rest);
      if authRequired {
        var behind := EncodeLogin(h.login.value) + last;
        assert s == Greeting(h.methods) + behind;
        GreetingIs(s, h.methods, behind);
        LoginIs(behind, h.login.value, last);
      } else {
        assert s == Greeting(h.methods) + last;
        GreetingIs(s, h.methods, last);
      }
    }
  }

  // ---- The server ----

  const COMMAND_REFUSED: Byte := 7
  const ADDRESS_REFUSED: Byte := 8
  const DIAL_REFUSED: Byte := 5
  const GRANTED: Byte := 0

  function Reply(code: Byte): seq<Byte> { [VERSION, code, 0, 1, 0, 0, 0, 0, 0, 0] }

  /** Credentials are asked for only if both parts are configured, and then they must be these. */
  predicate Admits(user: seq<Byte>, pass: seq<Byte>, login: Option<Login>) {
    user != [] && pass != [] ==> login.Some? && login.value.user == user && login.value.pass == pass
  }

  lemma BlockBehind(s: seq<Byte>)
    requires |s| >= 2
    ensures Block(s[1..]) == if |s| < 2 + s[1] as nat then None else Some((s[2..2 + s[1] as nat], s[2 + s[1] as nat..]))
  {
    var end: nat := 1 + s[1] as nat;
    if |s| >= 1 + end { assert s[1..][1..end] == s[2..1 + end] && s[1..][end..] == s[1 + end..]; }
  }

  method ReadGreeting(conn: Conn) returns (ok: bool)
    modifies conn`input
    ensures ok == ParseGreeting(old(conn.input)).Some?
    ensures ok ==> conn.input == ParseGreeting(old(conn.input)).value.1
  {
    ghost var all := conn.input;
    var header, methods;
    ok, header := conn.ReadFull(2);
    if !ok { return; }
    if header[0] != VERSION { return false; }
    BlockBehind(all);
    ok, methods := conn.ReadFull(header[1]);
    assert ok ==> all[2..][header[1]..] == all[2 + header[1] as nat..];
  }

  method ReadLogin(conn: Conn, user: seq<Byte>, pass: seq<Byte>) returns (ok: bool)
    modifies conn
    ensures var l := ParseLogin(old(conn.input));
      && (ok <==> l.Some? && l.value.0.user == user && l.value.0.pass == pass)
      && (ok ==> conn.input == l.value.1)
      && conn.output == old(conn.output) + if l.None? then [] else if ok then [1, 0] else [1, 1]
  {
    ghost var all := conn.input;
    var header, name, length, word;
    ok, header := conn.ReadFull(2);
    if !ok { return; }
    BlockBehind(all);
    ok, name := conn.ReadFull(header[1]);
    if !ok { return; }
    assert all[2..][header[1]..] == all[2 + header[1] as nat..] &&
        all[2..][..header[1]] == all[2..2 + header[1] as nat];
    ghost var behind := conn.input;
    ok, length := conn.ReadFull(1);
    if !ok { return; }
    ok, word := conn.ReadFull(length[0]);
    if !ok { return; }
    assert behind[1..][length[0]..] == behind[1 + length[0] as nat..];
    assert behind[1..][..length[0]] == behind[1..1 + length[0] as nat];
    if name != user || word != pass {
      conn.Write([1, 1]);
      return false;
    }
    conn.Write([1, 0]);
  }

  method ReadTarget(conn: Conn, atyp: Byte) returns (t: Option<Target>)
    modifies conn
    ensures var p := ParseTarget(atyp, old(conn.input));
      && (t.Some? <==> p.Some?) && (t.Some? ==> p == Some((t.value, conn.input)))
    ensures conn.output == old(conn.output) + if atyp in {1, 3} then [] else [5, 8, 0, 1, 0, 0, 0, 0, 0, 0]
  {
    ghost var all := conn.input;
    if atyp == IPV4 {
      var ok, addr := conn.ReadFull(4);
      t := if ok then Some(IPv4(addr)) else None;
    } else if atyp == DOMAIN {
      t := None;
      var ok, length := conn.ReadFull(1);
      if ok {
        var name;
        ok, name := conn.ReadFull(length[0]);
        if ok {
          assert all[1..][length[0]..] == all[1 + length[0] as nat..] &&
              all[1..][..length[0]] == all[1..1 + length[0] as nat];
          t := Some(Domain(name));
        }
      }
    } else {
      conn.Write(Reply(ADDRESS_REFUSED));
      t := None;
    }
  }

  method ReadRequest(conn: Conn) returns (r: Option<(Target, nat)>)
    modifies conn
    ensures var p := ParseRequest(old(conn.input));
      && (r.Some? <==> p.Some?)
      && (r.Some? ==> r == Some((p.value.0.target, p.value.0.port)) && conn.input == p.value.1)
    ensures r.Some? ==> conn.output == old(conn.output)
    ensures var s := old(conn.input);
      conn.output == old(conn.output) + if |s| < 4 then []
                                        else if s[1] != 1 then [5, 7, 0, 1, 0, 0, 0, 0, 0, 0]
                                        else if s[3] !in {1, 3} then [5, 8, 0, 1, 0, 0, 0, 0, 0, 0]
                                        else []
  {
    var ok, header := conn.ReadFull(4);
    if !ok { return None; }
    if header[1] != CONNECT {
      conn.Write(Reply(COMMAND_REFUSED));
      return None;
    }
    var target := ReadTarget(conn, header[3]);
    if target.None? { return None; }
    var port;
    ok, port := conn.ReadFull(2);
    if !ok { return None; }
    r := Some((target.value, Word(port[0], port[1])));
  }

  /** The handshake, up to the dial.  A client that sends a handshake gets the host and port it
      encoded dialled, with exactly its bytes taken off the stream, if and only if its
      credentials are the configured ones; and nothing else is ever dialled. */
  method HandleSocks5(conn: Conn, user: seq<Byte>, pass: seq<Byte>, dials: bool) returns (dialed: Option<(Target, nat)>)
    modifies conn
    ensures var auth := user != [] && pass != [];
      forall h, rest | Fits(h, auth) && old(conn.input) == Encode(h, auth) + rest ::
        && (dialed.Some? <==> Admits(user, pass, h.login))
        && (dialed.Some? ==> dialed == Some((h.request.target, h.request.port)) && conn.input == rest)
    ensures var auth := user != [] && pass != [];
      dialed.Some? ==> exists h ::
        && Fits(h, auth) && Admits(user, pass, h.login) && dialed == Some((h.request.target, h.request.port))
        && old(conn.input) == Encode(h, auth) + conn.input
    ensures user != [] && pass != [] && dialed.Some? ==> exists h ::
      && Fits(h, true) && h.login.value.user == user && h.login.value.pass == pass
      && old(conn.input) == Encode(h, true) + conn.input
    ensures dialed.Some? ==>
      conn.output == old(conn.output) + (if user != [] && pass != [] then [5, 2, 1, 0] else [5, 0])
                     + [5, if dials then 0 else 5, 0, 1, 0, 0, 0, 0, 0, 0]
  {
    hide ParseGreeting, ParseLogin, ParseRequest, Encode, Fits;
    var auth := user != [] && pass != [];
    ghost var all := conn.input;
    forall h, rest ensures Parse(all, auth) == Some((h, rest)) <==> Fits(h, auth) && all == Encode(h, auth) + rest {
      ParseIs(all, auth, h, rest);
    }
    ghost var said := conn.output;
    dialed := None;
    var ok := ReadGreeting(conn);
    if !ok { return; }
    conn.Write([VERSION, if auth then 2 else 0]);
    if auth {
      ok := ReadLogin(conn, user, pass);
      if !ok { return; }
    }
    dialed := ReadRequest(conn);
    if dialed.None? { return; }
    ghost var h := Parse(all, auth).value.0;
    assert Fits(h, auth) && all == Encode(h, auth) + conn.input;
    assert conn.output == said + if auth then [VERSION, 2, 1, 0] else [VERSION, 0];
    conn.Write(Reply(if dials then GRANTED else DIAL_REFUSED));
  }
}
