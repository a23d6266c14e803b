/** Finding where the server list's JSON object ends and its signature begins, against
    the grammar of RFC 8259. */
module JsonEnd {
  import opened ByteStream

  const QUOTE: Byte := 0x22
  const BACKSLASH: Byte := 0x5C
  const OPEN: Byte := 0x7B
  const CLOSE: Byte := 0x7D

  // ---- The scanner ----

  datatype Scan = Scan(depth: int, inString: bool, escaped: bool)

  const START := Scan(0, false, false)

  /** The scanner's state after one more byte. */
  function Feed(s: Scan, b: Byte): Scan {
    if s.escaped then s.(escaped := false)
    else if b == BACKSLASH && s.inString then s.(escaped := true)
    else if b == QUOTE then s.(inString := !s.inString)
    else if s.inString then s
    else if b == OPEN then s.(depth := s.depth + 1)
    else if b == CLOSE then s.(depth := s.depth - 1)
    else s
  }

  /** A closing brace outside strings that brings the depth to zero. */
  predicate Ends(s: Scan, b: Byte) {
    !s.escaped && !s.inString && b == CLOSE && s.depth == 1
  }

  function After(data: seq<Byte>): Scan {
    if data == [] then START else Feed(After(data[..|data| - 1]), data[|data| - 1])
  }

  predicate EndsAt(data: seq<Byte>, i: nat)
    requires i < |data|
  {
    Ends(After(data[..i]), data[i])
  }

  /** The end is just behind the first closing brace outside strings that brings the
      depth to zero; -1 exactly when there is none. */
  method FindJsonEnd(data: seq<Byte>) returns (end: int)
    ensures end == -1 <==> forall i | 0 <= i < |data| :: !EndsAt(data, i)
    ensures end != -1 ==> 0 < end <= |data| && EndsAt(data, end - 1) && forall i | 0 <= i < end - 1 :: !EndsAt(data, i)
  {
    var depth, inString, escaped := 0, false, false;
    var i := 0;
    while i < |data|
      invariant 0 <= i <= |data|
      invariant Scan(depth, inString, escaped) == After(data[..i])
      invariant forall j | 0 <= j < i :: !EndsAt(data, j)
    {
      var b := data[i];
      assert data[..i + 1][..i] == data[..i];
      if escaped {
        escaped := false;
      } else if b == BACKSLASH && inString {
        escaped := true;
      } else if b == QUOTE {
        inString := !inString;
      } else if !inString {
        if b == OPEN {
          depth := depth + 1;
        } else if b == CLOSE {
          depth := depth - 1;
          if depth == 0 {
            assert EndsAt(data, i);
            return i + 1;
          }
        }
      }
      i := i + 1;
    }
    end := -1;
  }

  // ---- JSON texts ----

  type Text = seq<Byte>

  predicate IsWs(t: Text) { forall i | 0 <= i < |t| :: t[i] in {0x20, 0x09, 0x0A, 0x0D} }

  predicate IsHex(b: Byte) { 0x30 <= b <= 0x39 || 0x41 <= b <= 0x46 || 0x61 <= b <= 0x66 }

  /** One character of a string, as written: unescaped, a two-byte escape, or \uXXXX. */
  datatype StrChar = Unescaped(b: Byte) | Escape(b: Byte) | Unicode(h1: Byte, h2: Byte, h3: Byte, h4: Byte) {
    predicate Valid() {
      match this
      case Unescaped(b) => b >= 0x20 && b != 0x22 && b != 0x5C
      case Escape(b) => b in {0x22, 0x5C, 0x2F, 0x62, 0x66, 0x6E, 0x72, 0x74}
      case Unicode(h1, h2, h3, h4) => IsHex(h1) && IsHex(h2) && IsHex(h3) && IsHex(h4)
    }

    function Text(): Text {
      match this
      case Unescaped(b) => [b]
      case Escape(b) => [0x5C, b]
      case Unicode(h1, h2, h3, h4) => [0x5C, 0x75, h1, h2, h3, h4]
    }
  }

  /** `inner` is the white space behind the opening bracket. */
  datatype Json =
    | Literal(text: Text)
    | Number(text: Text)
    | Str(chars: seq<StrChar>)
    | Array(inner: Text, items: Items)
    | Object(inner: Text, members: Members)

  datatype Items = NoItems | Item(before: Text, value: Json, behind: Text, rest: Items)

  datatype Members =
    | NoMembers
    | Member(before: Text, key: seq<StrChar>, mid: Text, pre: Text, value: Json, behind: Text, rest: Members)

  const NULL: Text := [0x6E, 0x75, 0x6C, 0x6C]
  const TRUE: Text := [0x74, 0x72, 0x75, 0x65]
  const FALSE: Text := [0x66, 0x61, 0x6C, 0x73, 0x65]

  /** Digits, signs, point and exponent: more than the grammar's numbers, and all of them. */
  predicate NumberText(t: Text) {
    forall i | 0 <= i < |t| :: 0x30 <= t[i] <= 0x39 || t[i] in {0x2B, 0x2D, 0x2E, 0x45, 0x65}
  }

  predicate ValidChars(cs: seq<StrChar>) { forall i | 0 <= i < |cs| :: cs[i].Valid() }

  predicate Valid(v: Json) {
    match v
    case Literal(t) => t in {NULL, TRUE, FALSE}
    case Number(t) => NumberText(t)
    case Str(cs) => ValidChars(cs)
    case Array(inner, items) => IsWs(inner) && ValidItems(items)
    case Object(inner, members) => IsWs(inner) && ValidMembers(members)
  }

  predicate ValidItems(xs: Items) {
    match xs
    case NoItems => true
    case Item(before, v, behind, rest) => IsWs(before) && Valid(v) && IsWs(behind) && ValidItems(rest)
  }

  predicate ValidMembers(ms: Members) {
    match ms
    case NoMembers => true
    case Member(before, key, mid, pre, v, behind, rest) =>
      IsWs(before) && ValidChars(key) && IsWs(mid) && IsWs(pre) && Valid(v) && IsWs(behind) && ValidMembers(rest)
  }

  function CharsText(cs: seq<StrChar>): Text {
    if cs == [] then [] else cs[0].Text() + CharsText(cs[1..])
  }

  function StrText(cs: seq<StrChar>): Text { [0x22] + CharsText(cs) + [0x22] }

  function Render(v: Json): Text {
    match v
    case Literal(t) => t
    case Number(t) => t
    case Str(cs) => StrText(cs)
    case Array(inner, items) => [0x5B] + inner + RenderItems(items) + [0x5D]
    case Object(inner, members) => [0x7B] + (inner + RenderMembers(members)) + [0x7D]
  }

  function RenderItems(xs: Items): Text {
    match xs
    case NoItems => []
    case Item(before, v, behind, rest) =>
      before + Render(v) + behind + (if rest.NoItems? then [] else [0x2C] + RenderItems(rest))
  }

  function RenderMembers(ms: Members): Text {
    match ms
    case NoMembers => []
    case Member(before, key, mid, pre, v, behind, rest) =>
      before + StrText(key) + mid + [0x3A] + pre + Render(v) + behind
      + (if rest.NoMembers? then [] else [0x2C] + RenderMembers(rest))
  }

  // ---- Scanning a text ----

  /** The state after a text, read from state `s`. */
  function Run(s: Scan, t: Text): Scan
    decreases |t|
  {
    if t == [] then s else Run(Feed(s, t[0]), t[1..])
  }

  /** No byte of the text, read from state `s`, ends the object. */
  predicate Silent(s: Scan, t: Text)
    decreases |t|
  {
    t == [] || (!Ends(s, t[0]) && Silent(Feed(s, t[0]), t[1..]))
  }

  lemma {:induction false} RunConcat(s: Scan, a: Text, b: Text)
    ensures Run(s, a + b) == Run(Run(s, a), b)
    ensures Silent(s, a + b) <==> Silent(s, a) && Silent(Run(s, a), b)
    decreases |a|
  {
    if a == [] {
      assert a + b == b;
    } else {
      assert (a + b)[0] == a[0] && (a + b)[1..] == a[1..] + b;
      RunConcat(Feed(s, a[0]), a[1..], b);
    }
  }

  /** Reading the text at depth d >= 1 outside strings comes back to just that. */
  predicate Neutral(d: int, t: Text) {
    Run(Scan(d, false, false), t) == Scan(d, false, false) && Silent(Scan(d, false, false), t)
  }

  lemma NeutralConcat(d: int, a: Text, b: Text)
    requires Neutral(d, a) && Neutral(d, b)
    ensures Neutral(d, a + b)
  {
    RunConcat(Scan(d, false, false), a, b);
  }

  lemma {:induction false} NeutralPlain(d: int, t: Text)
    requires forall i | 0 <= i < |t| :: t[i] !in {QUOTE, OPEN, CLOSE}
    ensures Neutral(d, t)
  {
    if t != [] { NeutralPlain(d, t[1..]); }
  }

  lemma CharInside(d: int, c: StrChar)
    requires c.Valid()
    ensures Run(Scan(d, true, false), c.Text()) == Scan(d, true, false) && Silent(Scan(d, true, false), c.Text())
  {
    var s := Scan(d, true, false);
    match c
    case Unescaped(b) => assert c.Text()[1..] == [];
    case Escape(b) =>
      assert c.Text()[1..] == [b] && [b][1..] == [];
      assert Feed(s, BACKSLASH) == Scan(d, true, true) && Feed(Scan(d, true, true), b) == s;
      assert Run(Scan(d, true, true), [b]) == s && Silent(Scan(d, true, true), [b]);
    case Unicode(h1, h2, h3, h4) =>
      RunConcat(s, [BACKSLASH, 0x75], [h1, h2, h3, h4]);
      assert c.Text() == [BACKSLASH, 0x75] + [h1, h2, h3, h4];
      assert [BACKSLASH, 0x75][1..] == [0x75];
      Letters(d, [h1, h2, h3, h4]);
  }

  lemma {:induction false} Letters(d: int, t: Text)
    requires forall i | 0 <= i < |t| :: t[i] !in {QUOTE, BACKSLASH}
    ensures Run(Scan(d, true, false), t) == Scan(d, true, false) && Silent(Scan(d, true, false), t)
  {
    if t != [] { Letters(d, t[1..]); }
  }

  lemma {:induction false} CharsInside(d: int, cs: seq<StrChar>)
    requires ValidChars(cs)
    ensures Run(Scan(d, true, false), CharsText(cs)) == Scan(d, true, false) &&
        Silent(Scan(d, true, false), CharsText(cs))
  {
    if cs != [] {
      CharInside(d, cs[0]);
      CharsInside(d, cs[1..]);
      RunConcat(Scan(d, true, false), cs[0].Text(), CharsText(cs[1..]));
    }
  }

  /** Whatever braces, quotes or escapes a string holds, it is neutral as a whole. */
  lemma NeutralString(d: int, cs: seq<StrChar>)
    requires ValidChars(cs)
    ensures Neutral(d, StrText(cs))
  {
    CharsInside(d, cs);
    var s := Scan(d, false, false);
    RunConcat(s, [QUOTE], CharsText(cs));
    RunConcat(s, [QUOTE] + CharsText(cs), [QUOTE]);
    assert [QUOTE][1..] == [];
  }

  lemma {:induction false} NeutralValue(d: int, v: Json)
    requires Valid(v) && d >= 1
    ensures Neutral(d, Render(v))
    decreases v, 1
  {
    hide Neutral;
    match v {
      case Literal(t) => NeutralPlain(d, t);
      case Number(t) => NeutralPlain(d, t);
      case Str(cs) => NeutralString(d, cs);
      case Array(inner, items) =>
        NeutralPlain(d, [0x5B]);
        NeutralPlain(d, inner);
        NeutralItems(d, items);
        NeutralPlain(d, [0x5D]);
        NeutralConcat(d, [0x5B], inner);
        NeutralConcat(d, [0x5B] + inner, RenderItems(items));
        NeutralConcat(d, [0x5B] + inner + RenderItems(items), [0x5D]);
      case Object(inner, members) =>
        NeutralPlain(d + 1, inner);
        NeutralMembers(d + 1, members);
        NeutralConcat(d + 1, inner, RenderMembers(members));
        Braced(d, inner + RenderMembers(members));
    }
  }

  /** An object read at depth d: its closing brace leaves depth d and ends the scan only at 0. */
  lemma Braced(d: int, body: Text)
    requires d >= 0 && Neutral(d + 1, body)
    ensures d >= 1 ==> Neutral(d, [OPEN] + body + [CLOSE])
    ensures Silent(Scan(d, false, false), [OPEN] + body)
    ensures Run(Scan(d, false, false), [OPEN] + body) == Scan(d + 1, false, false)
  {
    var s := Scan(d, false, false);
    RunConcat(s, [OPEN], body);
    assert [OPEN][1..] == [] && [CLOSE][1..] == [];
    RunConcat(s, [OPEN] + body, [CLOSE]);
  }

  lemma {:induction false} NeutralItems(d: int, xs: Items)
    requires ValidItems(xs) && d >= 1
    ensures Neutral(d, RenderItems(xs))
    decreases xs, 0
  {
    hide Neutral;
    match xs {
      case NoItems => NeutralPlain(d, []);
      case Item(before, v, behind, rest) =>
        NeutralPlain(d, before);
        NeutralValue(d, v);
        NeutralPlain(d, behind);
        NeutralConcat(d, before, Render(v));
        NeutralConcat(d, before + Render(v), behind);
        NeutralItems(d, rest);
        NeutralPlain(d, [0x2C]);
        NeutralConcat(d, [0x2C], RenderItems(rest));
        var tail := if rest.NoItems? then [] else [0x2C] + RenderItems(rest);
        NeutralPlain(d, []);
        NeutralConcat(d, before + Render(v) + behind, tail);
    }
  }

  lemma {:induction false} NeutralMembers(d: int, ms: Members)
    requires ValidMembers(ms) && d >= 1
    ensures Neutral(d, RenderMembers(ms))
    decreases ms, 0
  {
    hide Neutral;
    match ms {
      case NoMembers => NeutralPlain(d, []);
      case Member(before, key, mid, pre, v, behind, rest) =>
        NeutralKey(d, before, key, mid, pre);
        NeutralValue(d, v);
        NeutralPlain(d, behind);
        var head := before + StrText(key) + mid + [0x3A] + pre;
        NeutralConcat(d, head, Render(v));
        NeutralConcat(d, head + Render(v), behind);
        NeutralMembers(d, rest);
        NeutralPlain(d, [0x2C]);
        NeutralConcat(d, [0x2C], RenderMembers(rest));
        var tail := if rest.NoMembers? then [] else [0x2C] + RenderMembers(rest);
        NeutralPlain(d, []);
        NeutralConcat(d, head + Render(v) + behind, tail);
    }
  }

  lemma NeutralKey(d: int, before: Text, key: seq<StrChar>, mid: Text, pre: Text)
    requires IsWs(before) && ValidChars(key) && IsWs(mid) && IsWs(pre)
    ensures Neutral(d, before + StrText(key) + mid + [0x3A] + pre)
  {
    hide Neutral;
    NeutralPlain(d, before);
    NeutralString(d, key);
    NeutralPlain(d, mid);
    NeutralPlain(d, [0x3A]);
    NeutralPlain(d, pre);
    NeutralConcat(d, before, StrText(key));
    NeutralConcat(d, before + StrText(key), mid);
    NeutralConcat(d, before + StrText(key) + mid, [0x3A]);
    NeutralConcat(d, before + StrText(key) + mid + [0x3A], pre);
  }

  // ---- The end of an object ----

  lemma {:induction false} AfterIsRun(t: Text)
    ensures After(t) == Run(START, t)
  {
    if t != [] {
      var n := |t| - 1;
      AfterIsRun(t[..n]);
      assert t == t[..n] + [t[n]];
      RunConcat(START, t[..n], [t[n]]);
      assert [t[n]][1..] == [];
    }
  }

  lemma {:induction false} SilentHasNoEnd(s: Scan, t: Text, i: nat)
    requires Silent(s, t) && i < |t|
    ensures !Ends(Run(s, t[..i]), t[i])
    decreases i
  {
    if i > 0 {
      assert t[..i][0] == t[0] && t[..i][1..] == t[1..][..i - 1];
      SilentHasNoEnd(Feed(s, t[0]), t[1..], i - 1);
    }
  }

  /** The text of an object up to its closing brace: nothing in it ends anything, and behind it
      one brace is open. */
  lemma BeforeEnd(ws: Text, inner: Text, members: Members)
    requires IsWs(ws) && Valid(Object(inner, members))
    ensures var before := ws + ([OPEN] + (inner + RenderMembers(members)));
      Silent(START, before) && Ends(Run(START, before), CLOSE)
  {
    var body := inner + RenderMembers(members);
    NeutralPlain(0, ws);
    NeutralPlain(1, inner);
    NeutralMembers(1, members);
    NeutralConcat(1, inner, RenderMembers(members));
    Braced(0, body);
    RunConcat(START, ws, [OPEN] + body);
  }

  lemma FirstEnd(before: Text, rest: Text)
    requires Silent(START, before) && Ends(Run(START, before), CLOSE)
    ensures var data := before + ([CLOSE] + rest);
      EndsAt(data, |before|) && forall i | 0 <= i < |before| :: !EndsAt(data, i)
  {
    hide Silent, Ends, Run, After;
    var data := before + ([CLOSE] + rest);
    assert data[..|before|] == before;
    AfterIsRun(before);
    forall i | 0 <= i < |before| ensures !EndsAt(data, i) {
      assert data[..i] == before[..i] && data[i] == before[i];
      AfterIsRun(before[..i]);
      SilentHasNoEnd(START, before, i);
    }
  }

  /** For every object text, any leading white space and any trailing bytes, the first ending
      brace is the object's own. */
  lemma ObjectEnd(ws: Text, inner: Text, members: Members, trailing: Text)
    requires IsWs(ws) && Valid(Object(inner, members))
    ensures var n := |ws| + |Render(Object(inner, members))|;
            var data := ws + Render(Object(inner, members)) + trailing;
            0 < n <= |data| && EndsAt(data, n - 1) && forall i | 0 <= i < n - 1 :: !EndsAt(data, i)
  {
    hide Valid, RenderMembers, Silent, Ends, Run, EndsAt;
    var before := ws + ([OPEN] + (inner + RenderMembers(members)));
    BeforeEnd(ws, inner, members);
    FirstEnd(before, trailing);
    assert ws + Render(Object(inner, members)) + trailing == before + ([CLOSE] + trailing);
  }

  /** So the program cuts the signature off exactly where the object ends. */
  method SplitResponse(ws: Text, inner: Text, members: Members, signature: Text) returns (end: int)
    requires IsWs(ws) && Valid(Object(inner, members))
    ensures end == |ws| + |Render(Object(inner, members))|
  {
    ObjectEnd(ws, inner, members, signature);
    end := FindJsonEnd(ws + Render(Object(inner, members)) + signature);
  }
}
