/** Choosing a server: by region, then by a race for the lowest latency. */
module ServerSelect {
  import opened Sequences
  import opened ServerCache
  import opened Wrappers

  const ALL := "all"
  const COLLECT_MAX := 25

  // ---- The location list ----

  predicate Separator(c: char) { c == ',' || c == ' ' }

  predicate Space(c: char) { c in {'\t', '\n', '\U{000B}', '\U{000C}', '\r', ' '} }

  function Trim(w: string): string
    decreases |w|
  {
    if w == "" then w
    else if Space(w[0]) then Trim(w[1..])
    else if Space(w[|w| - 1]) then Trim(w[..|w| - 1])
    else w
  }

  function Named(w: string): set<string> { if Trim(w) == "" then {} else {Trim(w)} }

  /** The names in a list separated by commas and blanks; `word` is the name read so far. */
  function Tokens(s: string, word: string): set<string>
    decreases |s|
  {
    if s == "" then Named(word)
    else if Separator(s[0]) then Named(word) + Tokens(s[1..], "")
    else Tokens(s[1..], word + [s[0]])
  }

  lemma {:induction false} TokensOfWord(word: string, name: string, rest: string)
    requires forall c | c in name :: !Separator(c)
    ensures Tokens(name + rest, word) == Tokens(rest, word + name)
    decreases |name|
  {
    if name == "" {
      assert name + rest == rest && word + name == word;
    } else {
      assert (name + rest)[1..] == name[1..] + rest && word + [name[0]] + name[1..] == word + name;
      TokensOfWord(word + [name[0]], name[1..], rest);
    }
  }

  /** A run of separators ends the word before it and names nothing itself. */
  lemma {:induction false} TokensOfGap(word: string, gap: string, rest: string)
    requires forall c | c in gap :: Separator(c)
    ensures Tokens(gap + rest, word) == if gap == "" then Tokens(rest, word) else Named(word) + Tokens(rest, "")
    decreases |gap|
  {
    if gap == "" {
      assert gap + rest == rest;
    } else {
      assert (gap + rest)[1..] == gap[1..] + rest;
      TokensOfGap("", gap[1..], rest);
    }
  }

  /** White space as Go's TrimSpace has it, within ASCII. */
  predicate Blank(s: string) {
    forall i | 0 <= i < |s| :: s[i] in ['\t', '\n', '\U{000B}', '\U{000C}', '\r', ' ']
  }

  /** The word is the name with white space around it; the empty name if it is nothing else. */
  ghost predicate Pads(word: string, name: string) {
    && (name != "" ==> !Blank([name[0]]) && !Blank([name[|name| - 1]]))
    && exists l, r | Blank(l) && Blank(r) :: word == l + name + r
  }

  lemma {:induction false} TrimBlank(r: string)
    requires Blank(r)
    ensures Trim(r) == ""
    decreases |r|
  {
    if r != "" {
      assert Space(r[0]);
      TrimBlank(r[1..]);
    }
  }

  lemma {:induction false} TrimRight(name: string, r: string)
    requires Blank(r) && name != "" && !Blank([name[0]]) && !Blank([name[|name| - 1]])
    ensures Trim(name + r) == name
    decreases |r|
  {
    var w := name + r;
    assert !Space(w[0]);
    if r == "" {
      assert w == name;
    } else {
      assert Space(w[|w| - 1]) && w[..|w| - 1] == name + r[..|r| - 1];
      TrimRight(name, r[..|r| - 1]);
    }
  }

  lemma {:induction false} TrimPads(l: string, name: string, r: string)
    requires Blank(l) && Blank(r) && (name != "" ==> !Blank([name[0]]) && !Blank([name[|name| - 1]]))
    ensures Trim(l + name + r) == name
    decreases |l|
  {
    var w := l + name + r;
    if name == "" {
      assert w == l + r;
      TrimBlank(w);
    } else if l == "" {
      assert w == name + r;
      TrimRight(name, r);
    } else {
      assert Space(w[0]) && w[1..] == l[1..] + name + r;
      TrimPads(l[1..], name, r);
    }
  }

  /** Words between gaps; there is one gap more. */
  function Joined(gaps: seq<string>, words: seq<string>): string
    requires |gaps| == |words| + 1
    decreases |words|
  {
    if words == [] then gaps[0] else gaps[0] + (words[0] + Joined(gaps[1..], words[1..]))
  }

  /** Gaps are commas and blanks, at least one between two words; words have neither. */
  predicate Splits(gaps: seq<string>, words: seq<string>) {
    && |gaps| == |words| + 1
    && (forall i | 0 <= i < |gaps| :: forall c | c in gaps[i] :: c == ',' || c == ' ')
    && (forall i | 0 < i < |words| :: gaps[i] != "")
    && forall i | 0 <= i < |words| :: ',' !in words[i] && ' ' !in words[i]
  }

  lemma SplitsRest(gaps: seq<string>, words: seq<string>)
    requires Splits(gaps, words) && words != []
    ensures Splits(gaps[1..], words[1..]) && (|words| > 1 ==> gaps[1] != "")
    ensures forall c | c in gaps[0] :: Separator(c)
    ensures forall c | c in words[0] :: !Separator(c)
  {
    forall i | 0 < i < |words[1..]| ensures gaps[1..][i] != "" { assert gaps[i + 1] != ""; }
  }

  lemma NamedIs(word: string, name: string)
    requires Pads(word, name)
    ensures Named(word) == if name == "" then {} else {name}
  {
    var l, r :| Blank(l) && Blank(r) && word == l + name + r;
    TrimPads(l, name, r);
  }

  /** Reading a list gives its names, however they are separated and padded.  `word` is what was
      read of a name before the list. */
  lemma {:induction false} TokensOfListed(gaps: seq<string>, words: seq<string>, names: seq<string>, word: string)
    requires Splits(gaps, words) && |names| == |words| && (word != "" && words != [] ==> gaps[0] != "")
    requires forall i | 0 <= i < |words| :: Pads(words[i], names[i])
    ensures Tokens(Joined(gaps, words), word) == Named(word) + set n | n in names && n != ""
    decreases |words|
  {
    hide Named, Tokens, Pads;
    NothingNamed();
    if words == [] {
      assert gaps[0] + "" == gaps[0] && names == [];
      TokensOfGap(word, gaps[0], "");
      LastWord(word);
      LastWord("");
    } else {
      SplitsRest(gaps, words);
      var rest := Joined(gaps[1..], words[1..]);
      TokensOfGap(word, gaps[0], words[0] + rest);
      if gaps[0] == "" { assert word == ""; }
      TokensOfWord("", words[0], rest);
      assert "" + words[0] == words[0];
      TokensOfListed(gaps[1..], words[1..], names[1..], words[0]);
      NamedIs(words[0], names[0]);
      assert names == [names[0]] + names[1..];
    }
  }

  lemma NothingNamed()
    ensures Named("") == {}
  {
  }

  lemma LastWord(word: string)
    ensures Tokens("", word) == Named(word)
  {
  }

  // ---- Candidates ----

  predicate Eligible(s: Server, regions: set<string>, pfRequired: bool) {
    ("all" in regions || s.region in regions) && (pfRequired ==> s.pf)
  }

  /** The eligible servers, in order. */
  function Wanted(servers: seq<Server>, regions: set<string>, pfRequired: bool): (r: seq<Server>)
    ensures forall s :: s in r <==> s in servers && Eligible(s, regions, pfRequired)
  {
    if servers == [] then []
    else
      var n := |servers| - 1;
      Wanted(servers[..n], regions, pfRequired) + if Eligible(servers[n], regions, pfRequired) then [servers[n]] else []
  }

  method FilterServers(servers: seq<Server>, locations: string, pfRequired: bool) returns (filtered: seq<Server>)
    ensures filtered == Wanted(servers, Tokens(locations, ""), pfRequired)
  {
    filtered := [];
    var regions, i := Tokens(locations, ""), 0;
    while i < |servers|
      invariant 0 <= i <= |servers| && filtered == Wanted(servers[..i], regions, pfRequired)
    {
      assert servers[..i + 1][..i] == servers[..i];
      if (ALL in regions || servers[i].region in regions) && (!pfRequired || servers[i].pf) {
        filtered := filtered + [servers[i]];
      }
      i := i + 1;
    }
    assert servers[..i] == servers;
  }

  function Regions(servers: seq<Server>): seq<string> {
    seq(|servers|, i requires 0 <= i < |servers| => servers[i].region)
  }

  /** s is the first server of its region. */
  predicate Leads(servers: seq<Server>, s: Server) {
    exists i | 0 <= i < |servers| :: servers[i] == s && s.region !in Regions(servers[..i])
  }

  /** One server for every region, the first, in the regions' order: no region is lost. */
  method OnePerRegion(candidates: seq<Server>) returns (out: seq<Server>)
    ensures Regions(out) == Onto([], Regions(candidates))
    ensures forall s | s in out :: Leads(candidates, s)
    ensures Distinct(Regions(out)) && (forall s | s in candidates :: s.region in Regions(out)) && |out| <= |candidates|
  {
    out := [];
    var seen: set<string>, i := {}, 0;
    while i < |candidates|
      invariant 0 <= i <= |candidates| && |out| <= i
      invariant Regions(out) == Onto([], Regions(candidates[..i]))
      invariant forall r :: r in seen <==> r in Regions(out)
      invariant forall s | s in out :: Leads(candidates, s)
    {
      var s := candidates[i];
      OntoSnoc([], Regions(candidates[..i]), s.region);
      OntoHas([], Regions(candidates[..i]), s.region);
      assert Regions(candidates[..i + 1]) == Regions(candidates[..i]) + [s.region];
      assert Regions(out + [s]) == Regions(out) + [s.region];
      if s.region !in seen {
        assert Leads(candidates, s);
        seen := seen + {s.region};
        out := out + [s];
      }
      i := i + 1;
    }
    assert candidates[..i] == candidates;
    OntoKeeps([], Regions(candidates));
    forall s | s in candidates ensures s.region in Regions(out) {
      var j :| 0 <= j < |candidates| && candidates[j] == s;
      assert Regions(candidates)[j] == s.region;
      OntoHas([], Regions(candidates), s.region);
    }
  }

  datatype Choice = NotFound | NoForwarding | Candidates(list: seq<Server>)

  /** Which servers race.  "all" alone means one server of every region, anything else all
      servers of the regions named. */
  method PickCandidates(servers: seq<Server>, location: string, pfRequired: bool) returns (r: Choice)
    ensures r == NotFound <==> location != "all" && Wanted(servers, Tokens(location, ""), false) == []
    ensures r == NoForwarding <==>
      location != "all" && r != NotFound && pfRequired && Wanted(servers, Tokens(location, ""), true) == []
    ensures r.Candidates? ==> forall s | s in r.list :: s in servers && Eligible(s, Tokens(location, ""), pfRequired)
    ensures r.Candidates? ==> forall s | s in servers && Eligible(s, Tokens(location, ""), pfRequired) ::
      if location != "all" then s in r.list else s.region in Regions(r.list)
    ensures r.Candidates? ==> if location == "all" then Distinct(Regions(r.list)) else r.list != []
  {
    if location != ALL {
      var list := FilterServers(servers, location, false);
      if list == [] { return NotFound; }
      if pfRequired {
        list := FilterServers(servers, location, true);
        if list == [] { return NoForwarding; }
      }
      return Candidates(list);
    }
    var eligible := FilterServers(servers, location, pfRequired);
    var list := OnePerRegion(eligible);
    r := Candidates(list);
  }

  // ---- The race ----

  datatype Report = Report(idx: nat, latency: nat)

  /** What the race sees: a candidate's report, 0 if its dial failed; the end of all reports; the
      two timers; the cancellation. */
  datatype Sight = Reported(report: Report) | AllReported | MinTimer | MaxTimer | Cancelled

  /** The reports of candidates that answered. */
  function Answered(events: seq<Sight>): seq<Report> {
    if events == [] then []
    else
      var n := |events| - 1;
      Answered(events[..n])
      + if events[n].Reported? && events[n].report.latency > 0 then [events[n].report] else []
  }

  /** The race is over with its last event: with 25 answers, or none more to come; at the first
      timer if anybody has answered, at the second in any case; or cancelled. */
  predicate Over(events: seq<Sight>) {
    events != [] && match events[|events| - 1]
      case Reported(r) => r.latency > 0 && |Answered(events)| >= 25
      case MinTimer => Answered(events) != []
      case _ => true
  }

  /** It was not over before its last event. */
  ghost predicate Prompt(events: seq<Sight>) { forall n | 0 <= n < |events| :: !Over(events[..n]) }

  lemma NothingSeen()
    ensures Answered([]) == [] && !Over([]) && Prompt([])
  {
  }

  lemma AnsweredMore(events: seq<Sight>, e: Sight)
    ensures Answered(events + [e]) == Answered(events) + if e.Reported? && e.report.latency > 0 then [e.report] else []
    ensures Over(events + [e]) <==>
      match e
      case Reported(r) => r.latency > 0 && |Answered(events)| >= 24
      case MinTimer => Answered(events) != []
      case _ => true
    ensures Prompt(events) && !Over(events) ==> Prompt(events + [e])
  {
    var more := events + [e];
    assert more[..|events|] == events;
    if Prompt(events) && !Over(events) {
      forall n | 0 <= n < |more| ensures !Over(more[..n]) {
        if n < |events| { assert more[..n] == events[..n]; }
      }
    }
  }

  ghost predicate Collected(candidates: seq<Server>, measured: Server -> nat, reports: seq<Report>) {
    && |reports| <= COLLECT_MAX
    && (forall r | r in reports :: r.idx < |candidates| && r.latency > 0 && r.latency == measured(candidates[r.idx]))
    && forall i, j | 0 <= i < j < |reports| :: reports[i].idx != reports[j].idx
  }

  lemma FastestExists(reports: seq<Report>) returns (best: Report)
    requires reports != []
    ensures best in reports && forall r | r in reports :: best.latency <= r.latency
  {
    best := reports[|reports| - 1];
    if |reports| > 1 {
      var other := FastestExists(reports[..|reports| - 1]);
      assert reports == reports[..|reports| - 1] + [reports[|reports| - 1]];
      if other.latency < best.latency { best := other; }
    }
  }

  /** The race over every order of reports, timers and cancellation.  `measured` is what each
      candidate's dial takes, 0 if it fails; after a cancellation dials report 0. */
  method Race(candidates: seq<Server>, measured: Server -> nat)
      returns (r: Option<(Server, nat)>, ghost reports: seq<Report>, ghost events: seq<Sight>, ghost cancelled: bool)
    ensures r.None? <==> candidates == []
    ensures Collected(candidates, measured, reports)
    ensures candidates != [] && reports == [] ==> r == Some((candidates[0], 0))
    ensures reports != [] ==>
      && (exists b | b in reports :: r == Some((candidates[b.idx], b.latency)))
      && forall b | b in reports :: r.value.1 <= b.latency
    ensures reports == Answered(events)
    ensures candidates != [] ==> Over(events) && Prompt(events)
    ensures AllReported in events && !cancelled ==>
      forall i | 0 <= i < |candidates| && measured(candidates[i]) > 0 :: Report(i, measured(candidates[i])) in reports
  {
    hide Answered, Over, Prompt;
    reports, events, cancelled := [], [], false;
    NothingSeen();
    if candidates == [] { return None, [], [], false; }
    var collected: seq<Report> := [];
    var pending: set<nat>, minFired, done := {}, false, false;
    for i := 0 to |candidates|
      invariant forall j :: j in pending <==> 0 <= j < i
    {
      pending := pending + {i};
    }
    var over := false;
    while !over
      invariant reports == collected == Answered(events) && Collected(candidates, measured, collected)
      invariant !over ==> |collected| < COLLECT_MAX
      invariant over == Over(events) && Prompt(events)
      invariant forall i | i in pending :: 0 <= i < |candidates|
      invariant forall b | b in collected :: b.idx !in pending
      invariant AllReported in events ==> over && pending == {}
      invariant !done ==> forall i | 0 <= i < |candidates| && i !in pending && measured(candidates[i]) > 0 ::
        Report(i, measured(candidates[i])) in collected
      decreases !over, |pending|, !minFired
    {
      var event: nat, cancels: bool, late: bool := *, *, *;
      done := done || cancels;
      ghost var e := MaxTimer;
      if event == 0 && pending != {} {
        var i :| i in pending;
        pending := pending - {i};
        var latency := if done && late then 0 else measured(candidates[i]);
        e := Reported(Report(i, latency));
        if latency > 0 {
          collected := collected + [Report(i, latency)];
          reports := collected;
          over := |collected| >= COLLECT_MAX;
        }
      } else if event == 1 && pending == {} {
        e, over := AllReported, true;
      } else if event == 2 && !minFired {
        e, minFired, over := MinTimer, true, collected != [];
      } else if event == 3 && done {
        e, over := Cancelled, true;
      } else {
        over := true;
      }
      AnsweredMore(events, e);
      events := events + [e];
    }
    cancelled := done;
    if collected == [] { return Some((candidates[0], 0)), reports, events, cancelled; }
    // sort.Slice is not stable: any of the fastest may come first.
    var best :| best in collected && forall b | b in collected :: best.latency <= b.latency
      by { var b := FastestExists(collected); }
    r := Some((candidates[best.idx], best.latency));
  }

  /** A dedicated server forwards ports if the first listed server of its region does. */
  predicate Forwards(servers: seq<Server>, region: string) {
    exists s | s in servers :: s.region == region && s.pf && Leads(servers, s)
  }

  method RegionForwards(servers: seq<Server>, region: string) returns (forwards: bool)
    ensures forwards <==> Forwards(servers, region)
  {
    var i := 0;
    while i < |servers|
      invariant 0 <= i <= |servers| && region !in Regions(servers[..i])
    {
      if servers[i].region == region {
        assert Leads(servers, servers[i]);
        LeaderIsFirst(servers, i);
        return servers[i].pf;
      }
      assert Regions(servers[..i + 1]) == Regions(servers[..i]) + [servers[i].region];
      i := i + 1;
    }
    assert servers[..i] == servers;
    forall s | s in servers ensures s.region != region {
      var j :| 0 <= j < |servers| && servers[j] == s;
      assert Regions(servers)[j] == s.region;
    }
    forwards := false;
  }

  lemma RegionSeen(servers: seq<Server>, i: nat, j: nat)
    requires j < |servers|
    ensures i < j ==> servers[i].region in Regions(servers[..j])
  {
    if i < j { assert Regions(servers[..j])[i] == servers[i].region; }
  }

  lemma LeaderIsFirst(servers: seq<Server>, i: nat)
    requires i < |servers| && servers[i].region !in Regions(servers[..i])
    ensures forall s | Leads(servers, s) && s.region == servers[i].region :: s == servers[i]
  {
    forall s | Leads(servers, s) && s.region == servers[i].region ensures s == servers[i] {
      var j :| 0 <= j < |servers| && servers[j] == s && s.region !in Regions(servers[..j]);
      RegionSeen(servers, i, j);
      RegionSeen(servers, j, i);
    }
  }
}
