/** Exactly where the decision tree can be relied on.

    The keys "" and "*" stand for wildcards in the tree (routing_tree.go:34-37), but they are
    also possible literals and path segments.  The precedence rules hold for a path exactly
    if it has no empty segment and does not end in "*", and for a pattern exactly if it has no
    literal "" or "*". */
module RoutingLimits {
  import opened Foundations
  import opened Patterns
  import opened RoutingTree
  import opened RoutingTheorems

  // ----- Paths

  /** The search honours precedence on this path, whatever patterns are registered. */
  ghost predicate ReliablePath(unescape: string -> string, path: string) {
    forall routes, host, verb :: Table(routes) && TableReservedFree(routes) ==>
      Best(unescape, routes, host, verb, path, Match(unescape, routes, host, verb, path))
  }

  function Name(i: nat): (s: string)
    ensures |s| == i + 1 && forall j :: 0 <= j < |s| ==> s[j] == 'x'
  {
    seq(i + 1, _ => 'x')
  }

  /** A pattern segment for each path segment: a wildcard, or "{$}" for a slash. */
  function Probe(toks: Path): (segs: seq<Segment>)
    ensures |segs| == |toks|
    ensures forall i :: 0 <= i < |segs| ==>
              segs[i] == if toks[i] == SLASH then Segment(SLASH, false, false) else Segment(Name(i), true, false)
  {
    seq(|toks|, i requires 0 <= i < |toks| =>
      if toks[i] == SLASH then Segment(SLASH, false, false) else Segment(Name(i), true, false))
  }

  function AnyRoute(segs: seq<Segment>): Route {
    Route(Pattern("", "", segs), 0)
  }

  lemma ProbeOk(toks: Path)
    ensures SegmentsOk(Probe(toks)) && NamesDistinct(Probe(toks)) && ReservedFree(Probe(toks))
    ensures MatchesPath(Probe(toks), toks)
  {
    var segs := Probe(toks);
    assert forall i :: 0 <= i < |segs| && segs[i].wild ==> |segs[i].s| == i + 1;
    PointwiseMatches(segs, toks);
  }

  lemma {:induction false} PointwiseMatches(segs: seq<Segment>, toks: Path)
    requires |segs| == |toks|
    requires forall i :: 0 <= i < |segs| ==> !segs[i].multi && SegmentMatches(segs[i], toks[i])
    ensures MatchesPath(segs, toks)
  {
    if segs != [] {
      PointwiseMatches(segs[1..], toks[1..]);
    }
  }

  /** The number of path segments that are neither empty nor a slash. */
  function Recorded(toks: Path): nat {
    if toks == [] then 0 else (if toks[0] == SLASH || toks[0] == "" then 0 else 1) + Recorded(toks[1..])
  }

  function Wilds(toks: Path): nat {
    if toks == [] then 0 else (if toks[0] == SLASH then 0 else 1) + Wilds(toks[1..])
  }

  lemma {:induction false} EmptyNotRecorded(toks: Path)
    ensures Recorded(toks) <= Wilds(toks)
    ensures "" in toks ==> Recorded(toks) < Wilds(toks)
  {
    if toks != [] {
      EmptyNotRecorded(toks[1..]);
    }
  }

  /** All the given routes have the key k at this depth. */
  ghost predicate AllBelow(routes: set<Route>, depth: nat, k: string) {
    forall r :: r in routes ==> depth < |r.pattern.segments| && SegmentKey(r.pattern.segments[depth]) == k
  }

  lemma AllBelowSets(routes: set<Route>, depth: nat, k: string, other: string)
    requires AllBelow(routes, depth, k)
    ensures Below(routes, depth + 2, other) == if other == k then routes else {}
  {
    forall r | r in routes
      ensures r in Below(routes, depth + 2, other) <==> other == k
    {
      BelowIff(routes, depth, other, r);
    }
  }

  /** The search follows a literal that all routes share. */
  lemma FollowLiteral(unescape: string -> string, routes: set<Route>, depth: nat, path: string, values: seq<string>, seg: string, rest: string)
    requires path != "" && (seg, rest) == FirstSegment(unescape, path) && AllBelow(routes, depth, seg)
    requires MatchPath(unescape, routes, depth + 3, rest, values) != NotFound
    ensures MatchPath(unescape, routes, depth + 2, path, values) == MatchPath(unescape, routes, depth + 3, rest, values)
  {
    AllBelowSets(routes, depth, seg, seg);
    MatchPathUnfold(unescape, routes, depth + 2, path, values, seg, rest);
  }

  /** The search follows a single wildcard that all routes share. */
  lemma FollowWild(unescape: string -> string, routes: set<Route>, depth: nat, path: string, values: seq<string>, seg: string, rest: string)
    requires path != "" && (seg, rest) == FirstSegment(unescape, path) && AllBelow(routes, depth, WILD_KEY)
    requires seg != SLASH && seg != WILD_KEY
    requires MatchPath(unescape, routes, depth + 3, rest, values + [seg]) != NotFound
    ensures MatchPath(unescape, routes, depth + 2, path, values) == MatchPath(unescape, routes, depth + 3, rest, values + [seg])
  {
    AllBelowSets(routes, depth, WILD_KEY, seg);
    AllBelowSets(routes, depth, WILD_KEY, WILD_KEY);
    EmptyNotFound(unescape, depth + 3, rest, values);
    MatchPathUnfold(unescape, routes, depth + 2, path, values, seg, rest);
  }

  /** The search ends at a child "*" that all routes share. */
  lemma FollowMulti(unescape: string -> string, routes: set<Route>, depth: nat, path: string, values: seq<string>, seg: string, rest: string)
    requires path != "" && (seg, rest) == FirstSegment(unescape, path) && AllBelow(routes, depth, MULTI_KEY)
    requires seg != MULTI_KEY && routes != {}
    ensures MatchPath(unescape, routes, depth + 2, path, values) != NotFound
  {
    AllBelowSets(routes, depth, MULTI_KEY, seg);
    AllBelowSets(routes, depth, MULTI_KEY, WILD_KEY);
    AllBelowSets(routes, depth, MULTI_KEY, MULTI_KEY);
    EmptyNotFound(unescape, depth + 3, rest, values);
    EmptyNotFound(unescape, depth + 3, rest, values + [seg]);
    MatchPathUnfold(unescape, routes, depth + 2, path, values, seg, rest);
  }

  lemma AtLeaf(unescape: string -> string, r: Route, depth: nat, values: seq<string>)
    requires |r.pattern.segments| == depth
    ensures MatchPath(unescape, {r}, depth + 2, "", values) == Found(r, values)
  {
    assert |FullKey(r.pattern)| == depth + 2;
    assert r in {r};
    assert Leaf({r}, depth + 2).Some?;
  }

  /** The keys of the segments are those of the wildcards and slashes of Probe. */
  ghost predicate KeysFollow(segs: seq<Segment>, toks: Path) {
    && |segs| == |toks|
    && forall i :: 0 <= i < |segs| ==> SegmentKey(segs[i]) == if toks[i] == SLASH then SLASH else WILD_KEY
  }

  lemma KeysFollowTail(r: Route, depth: nat, seg: string, toks: Path)
    requires depth <= |r.pattern.segments| && KeysFollow(Rest(r, depth), [seg] + toks)
    ensures depth < |r.pattern.segments| && KeysFollow(Rest(r, depth + 1), toks)
    ensures SegmentKey(r.pattern.segments[depth]) == if seg == SLASH then SLASH else WILD_KEY
  {
    assert |Rest(r, depth)| == 1 + |toks|;
    RestStep(r, depth);
    assert ([seg] + toks)[0] == seg;
    forall i | 0 <= i < |toks|
      ensures SegmentKey(Rest(r, depth + 1)[i]) == if toks[i] == SLASH then SLASH else WILD_KEY
    {
      assert Rest(r, depth + 1)[i] == Rest(r, depth)[i + 1] && toks[i] == ([seg] + toks)[i + 1];
    }
  }

  lemma RecordedStep(seg: string, toks: Path)
    ensures Recorded([seg] + toks) == (if seg == SLASH || seg == "" then 0 else 1) + Recorded(toks)
  {
    assert ([seg] + toks)[1..] == toks;
  }

  /** The search takes the wildcard branch for an empty segment without recording a value. */
  lemma {:induction false} EmptySegmentLosesValue(unescape: string -> string, r: Route, depth: nat, path: string, values: seq<string>)
    requires depth <= |r.pattern.segments| && KeysFollow(Rest(r, depth), Tokens(unescape, path))
    ensures var m := MatchPath(unescape, {r}, depth + 2, path, values);
            m.Found? && |m.values| == |values| + Recorded(Tokens(unescape, path))
    decreases |path|
  {
    if path != "" {
      var (seg, rest) := FirstSegment(unescape, path);
      KeysFollowTail(r, depth, seg, Tokens(unescape, rest));
      RecordedStep(seg, Tokens(unescape, rest));
      if seg == SLASH || seg == "" {
        EmptySegmentLosesValue(unescape, r, depth + 1, rest, values);
        FollowLiteral(unescape, {r}, depth, path, values, seg, rest);
      } else {
        EmptySegmentLosesValue(unescape, r, depth + 1, rest, values + [seg]);
        FollowWild(unescape, {r}, depth, path, values, seg, rest);
      }
    } else {
      AtLeaf(unescape, r, depth, values);
    }
  }

  lemma {:induction false} ProbeCaptures(unescape: string -> string, segs: seq<Segment>, path: string)
    requires |segs| == |Tokens(unescape, path)|
    requires forall i :: 0 <= i < |segs| ==> !segs[i].multi && (segs[i].wild <==> Tokens(unescape, path)[i] != SLASH)
    ensures |Captures(unescape, segs, path)| == Wilds(Tokens(unescape, path))
    decreases |path|
  {
    if path != "" {
      var (seg, rest) := FirstSegment(unescape, path);
      assert Tokens(unescape, path)[1..] == Tokens(unescape, rest);
      ProbeCaptures(unescape, segs[1..], rest);
    }
  }

  lemma AnyHostAnyMethod(unescape: string -> string, routes: set<Route>, path: string)
    requires forall r :: r in routes ==> r.pattern.host == "" && r.pattern.verb == ""
    requires MatchPath(unescape, routes, 2, path, []) != NotFound
    ensures Match(unescape, routes, "", "", path) == MatchPath(unescape, routes, 2, path, [])
  {
    forall r | r in routes
      ensures r in Below(routes, 0, "") && r in Below(routes, 1, "")
    {
      KeysOf(r.pattern);
    }
    assert Below(routes, 0, "") == routes && Below(routes, 1, "") == routes;
  }

  lemma Unreliable(unescape: string -> string, routes: set<Route>, host: string, verb: string, path: string)
    requires Table(routes) && TableReservedFree(routes)
    requires !Best(unescape, routes, host, verb, path, Match(unescape, routes, host, verb, path))
    ensures !ReliablePath(unescape, path)
  {
  }

  lemma ProbeTable(toks: Path)
    requires toks != []
    ensures Table({AnyRoute(Probe(toks))}) && TableReservedFree({AnyRoute(Probe(toks))})
    ensures Rest(AnyRoute(Probe(toks)), 0) == Probe(toks) && KeysFollow(Probe(toks), toks)
  {
    ProbeOk(toks);
  }

  lemma WrongValues(unescape: string -> string, r: Route, path: string, m: Outcome)
    requires m.Found? && |m.values| != |Captures(unescape, r.pattern.segments, path)|
    ensures !Best(unescape, {r}, "", "", path, m)
  {
  }

  lemma ProbeLosesValue(unescape: string -> string, path: string, toks: Path, r: Route)
    requires toks == Tokens(unescape, path) && "" in toks && r == AnyRoute(Probe(toks))
    ensures var m := MatchPath(unescape, {r}, 2, path, []);
            m.Found? && |m.values| < |Captures(unescape, r.pattern.segments, path)|
  {
    assert |Captures(unescape, r.pattern.segments, path)| == Wilds(toks) by {
      ProbeCaptures(unescape, Probe(toks), path);
    }
    ProbeTable(toks);
    EmptyNotRecorded(toks);
    EmptySegmentLosesValue(unescape, r, 0, path, []);
  }

  lemma EmptySegmentUnreliable(unescape: string -> string, path: string)
    requires "" in Tokens(unescape, path)
    ensures !ReliablePath(unescape, path)
  {
    var toks := Tokens(unescape, path);
    var r := AnyRoute(Probe(toks));
    ProbeTable(toks);
    ProbeLosesValue(unescape, path, toks, r);
    AnyHostAnyMethod(unescape, {r}, path);
    WrongValues(unescape, r, path, MatchPath(unescape, {r}, 2, path, []));
    Unreliable(unescape, {r}, "", "", path);
  }

  /** Two patterns of the same length that differ in their last segment only, a multi in the second. */
  ghost predicate StarPair(r1: Route, r2: Route) {
    var n := |r1.pattern.segments|;
    && |r2.pattern.segments| == n > 0
    && (forall i :: 0 <= i < n - 1 ==> r2.pattern.segments[i] == r1.pattern.segments[i])
    && SegmentKey(r2.pattern.segments[n - 1]) == MULTI_KEY
  }

  /** Segments that end in "*", none of them empty. */
  ghost predicate EndsInStar(toks: Path) {
    toks != [] && toks[|toks| - 1] == MULTI_KEY && forall i :: 0 <= i < |toks| ==> toks[i] != WILD_KEY
  }

  lemma EndsInStarTail(seg: string, tail: Path)
    requires EndsInStar([seg] + tail)
    ensures seg != WILD_KEY && (if tail == [] then seg == MULTI_KEY else EndsInStar(tail))
  {
    var toks := [seg] + tail;
    assert toks[0] == seg && toks[|toks| - 1] == (if tail == [] then seg else tail[|tail| - 1]);
    assert forall i :: 0 <= i < |tail| ==> tail[i] == toks[i + 1];
  }

  lemma StarPairKeys(r1: Route, r2: Route, depth: nat, k: string)
    requires StarPair(r1, r2) && depth < |r1.pattern.segments| - 1 && SegmentKey(r1.pattern.segments[depth]) == k
    ensures AllBelow({r1, r2}, depth, k)
  {
  }

  /** A last segment "*" is looked up as a key and finds the multi wildcard first. */
  lemma {:induction false} LastStarTakesMulti(unescape: string -> string, r1: Route, r2: Route, depth: nat, path: string, values: seq<string>)
    requires StarPair(r1, r2) && depth <= |r1.pattern.segments|
    requires KeysFollow(Rest(r1, depth), Tokens(unescape, path)) && EndsInStar(Tokens(unescape, path))
    ensures var m := MatchPath(unescape, {r1, r2}, depth + 2, path, values);
            m.Found? && m.route == r2
    decreases |path|
  {
    var (seg, rest) := FirstSegment(unescape, path);
    KeysFollowTail(r1, depth, seg, Tokens(unescape, rest));
    EndsInStarTail(seg, Tokens(unescape, rest));
    if rest == "" {
      StarLast(unescape, r1, r2, depth, path, values);
    } else if seg == SLASH {
      StarPairKeys(r1, r2, depth, SLASH);
      LastStarTakesMulti(unescape, r1, r2, depth + 1, rest, values);
      FollowLiteral(unescape, {r1, r2}, depth, path, values, seg, rest);
    } else {
      StarPairKeys(r1, r2, depth, WILD_KEY);
      LastStarTakesMulti(unescape, r1, r2, depth + 1, rest, values + [seg]);
      FollowWild(unescape, {r1, r2}, depth, path, values, seg, rest);
    }
  }

  lemma StarLast(unescape: string -> string, r1: Route, r2: Route, depth: nat, path: string, values: seq<string>)
    requires |r1.pattern.segments| == |r2.pattern.segments| == depth + 1
    requires path != "" && FirstSegment(unescape, path) == (MULTI_KEY, "")
    requires SegmentKey(r1.pattern.segments[depth]) == WILD_KEY && SegmentKey(r2.pattern.segments[depth]) == MULTI_KEY
    ensures MatchPath(unescape, {r1, r2}, depth + 2, path, values) == Found(r2, values)
  {
    var both := {r1, r2};
    BelowIff(both, depth, MULTI_KEY, r1);
    BelowIff(both, depth, MULTI_KEY, r2);
    assert Below(both, depth + 2, MULTI_KEY) == {r2};
    AtLeaf(unescape, r2, depth + 1, values);
    MatchPathUnfold(unescape, both, depth + 2, path, values, MULTI_KEY, "");
  }

  lemma {:induction false} LastMultiMoreGeneral(a: seq<Segment>, b: seq<Segment>)
    requires |a| == |b| > 0
    requires forall i :: 0 <= i < |a| ==> !a[i].multi
    requires forall i :: 0 <= i < |a| - 1 ==> a[i] == b[i]
    requires b[|b| - 1].multi
    ensures Relation(a, b) == MoreSpecific
  {
    if |a| > 1 {
      LastMultiMoreGeneral(a[1..], b[1..]);
    }
  }

  /** The probe with its last segment replaced by an anonymous multi wildcard. */
  function MultiProbe(toks: Path): seq<Segment>
    requires toks != []
  {
    Probe(toks)[|toks| - 1 := Segment("", true, true)]
  }

  lemma MultiProbeOk(toks: Path)
    requires toks != []
    ensures WellFormed(Pattern("", "", MultiProbe(toks))) && ReservedFree(MultiProbe(toks))
    ensures Relation(Probe(toks), MultiProbe(toks)) == MoreSpecific
    ensures StarPair(AnyRoute(Probe(toks)), AnyRoute(MultiProbe(toks)))
  {
    ProbeOk(toks);
    LastMultiMoreGeneral(Probe(toks), MultiProbe(toks));
  }

  lemma StarTable(toks: Path, r1: Route, r2: Route)
    requires toks != [] && r1 == AnyRoute(Probe(toks)) && r2 == AnyRoute(MultiProbe(toks))
    ensures Table({r1, r2}) && TableReservedFree({r1, r2})
    ensures MatchesRequest(r1.pattern, "", "", toks) && !Precedes(r2.pattern, r1.pattern) && r1 != r2
  {
    ProbeOk(toks);
    MultiProbeOk(toks);
    ComparisonExact(r1.pattern, r2.pattern);
    assert Probe(toks)[|toks| - 1] != MultiProbe(toks)[|toks| - 1];
  }

  lemma LastStarUnreliable(unescape: string -> string, path: string)
    requires EndsInStar(Tokens(unescape, path))
    ensures !ReliablePath(unescape, path)
  {
    var toks := Tokens(unescape, path);
    var r1, r2 := AnyRoute(Probe(toks)), AnyRoute(MultiProbe(toks));
    StarTable(toks, r1, r2);
    MultiProbeOk(toks);
    ProbeTable(toks);
    LastStarTakesMulti(unescape, r1, r2, 0, path, []);
    AnyHostAnyMethod(unescape, {r1, r2}, path);
    WrongRoute(unescape, r1, r2, path, MatchPath(unescape, {r1, r2}, 2, path, []));
    Unreliable(unescape, {r1, r2}, "", "", path);
  }

  lemma WrongRoute(unescape: string -> string, r1: Route, r2: Route, path: string, m: Outcome)
    requires m.Found? && m.route == r2 && r1 != r2
    requires MatchesRequest(r1.pattern, "", "", Tokens(unescape, path)) && !Precedes(r2.pattern, r1.pattern)
    ensures !Best(unescape, {r1, r2}, "", "", path, m)
  {
    assert r1 in {r1, r2};
  }

  /** Precedence is honoured on a path, for every table of routes, exactly if the path is clean. */
  lemma ReliableExactlyIfClean(unescape: string -> string, path: string)
    ensures ReliablePath(unescape, path) <==> CleanPath(Tokens(unescape, path))
  {
    var toks := Tokens(unescape, path);
    if CleanPath(toks) {
      forall routes, host, verb | Table(routes) && TableReservedFree(routes)
        ensures Best(unescape, routes, host, verb, path, Match(unescape, routes, host, verb, path))
      {
        MatchBest(unescape, routes, host, verb, path);
      }
    } else if "" in toks {
      EmptySegmentUnreliable(unescape, path);
    } else {
      LastStarUnreliable(unescape, path);
    }
  }

  // ----- Patterns

  /** The search honours precedence for this pattern alone, on every clean path. */
  ghost predicate ReliablePattern(unescape: string -> string, p: Pattern) {
    forall host, verb, path :: CleanPath(Tokens(unescape, path)) ==>
      Best(unescape, {Route(p, 0)}, host, verb, path, Match(unescape, {Route(p, 0)}, host, verb, path))
  }

  /** Every segment can be written in a path so that it is read back, as with percent encoding. */
  ghost predicate Escapes(unescape: string -> string, escape: string -> string) {
    forall t :: unescape(escape(t)) == t && '/' !in escape(t) && (t != "" ==> escape(t) != "")
  }

  /** A path that follows the pattern's keys, taking literals "" and "*" for wildcards, and
      stopping at the first literal "*". */
  function Misled(segs: seq<Segment>): Path {
    if segs == [] then []
    else if !segs[0].wild && segs[0].s == MULTI_KEY then ["x"]
    else [if !segs[0].wild && segs[0].s == WILD_KEY then "x" else TokenOf(segs[0])] + Misled(segs[1..])
  }

  lemma {:induction false} MisledProperties(segs: seq<Segment>)
    requires SegmentsOk(segs)
    ensures CleanPath(Misled(segs))
    ensures !ReservedFree(segs) ==> !MatchesPath(segs, Misled(segs))
    ensures segs != [] ==> Misled(segs) != []
  {
    if segs != [] {
      assert SegmentOk(segs[0]);
      MisledProperties(segs[1..]);
      var path, tail := Misled(segs), Misled(segs[1..]);
      if segs[0].wild || segs[0].s != MULTI_KEY {
        assert path[1..] == tail;
        assert forall i :: 0 < i < |path| ==> path[i] == tail[i - 1];
        assert segs[0].multi ==> segs[1..] == [];
      }
    }
  }

  lemma {:induction false} MisledFindsSomething(unescape: string -> string, r: Route, depth: nat, path: string, values: seq<string>)
    requires depth <= |r.pattern.segments| && SegmentsOk(r.pattern.segments)
    requires Tokens(unescape, path) == Misled(r.pattern.segments[depth..])
    ensures MatchPath(unescape, {r}, depth + 2, path, values) != NotFound
    decreases |path|
  {
    var segs := r.pattern.segments[depth..];
    if segs == [] {
      assert path == "";
      AtLeaf(unescape, r, depth, values);
    } else {
      assert SegmentOk(r.pattern.segments[depth]) && segs[0] == r.pattern.segments[depth];
      var (seg, rest) := FirstSegment(unescape, path);
      assert seg == Misled(segs)[0] && Tokens(unescape, rest) == Misled(segs)[1..];
      assert r.pattern.segments[depth + 1..] == segs[1..];
      if SegmentKey(segs[0]) == MULTI_KEY {
        FollowMulti(unescape, {r}, depth, path, values, seg, rest);
      } else if SegmentKey(segs[0]) == WILD_KEY {
        MisledFindsSomething(unescape, r, depth + 1, rest, values + [seg]);
        FollowWild(unescape, {r}, depth, path, values, seg, rest);
      } else {
        MisledFindsSomething(unescape, r, depth + 1, rest, values);
        FollowLiteral(unescape, {r}, depth, path, values, seg, rest);
      }
    }
  }

  // Every sequence of segments is the reading of some path.

  function RenderEscaped(escape: string -> string, toks: Path): (path: string)
    ensures path == "" || path[0] == '/'
  {
    if toks == [] then "" else "/" + escape(toks[0]) + RenderEscaped(escape, toks[1..])
  }

  lemma FirstOfRaw(unescape: string -> string, name: string, rest: string)
    requires name != "" && '/' !in name && (rest == "" || rest[0] == '/')
    ensures FirstSegment(unescape, "/" + name + rest) == (unescape(name), rest)
  {
    var raw := "/" + name + rest;
    assert raw[1..] == name + rest;
    assert raw != "/" by {
      assert |raw| > 1;
    }
    var i := IndexOf(name + rest, '/');
    assert rest != "" ==> (name + rest)[|name|] == '/';
    assert forall j :: 0 <= j < |name| ==> (name + rest)[j] == name[j];
    assert i == |name|;
    assert (name + rest)[..i] == name && (name + rest)[i..] == rest;
  }

  lemma TokensOfRaw(unescape: string -> string, name: string, rest: string)
    requires name != "" && '/' !in name && (rest == "" || rest[0] == '/')
    ensures Tokens(unescape, "/" + name + rest) == [unescape(name)] + Tokens(unescape, rest)
  {
    FirstOfRaw(unescape, name, rest);
  }

  lemma {:induction false} EscapedTokens(unescape: string -> string, escape: string -> string, toks: Path)
    requires Escapes(unescape, escape) && "" !in toks
    ensures Tokens(unescape, RenderEscaped(escape, toks)) == toks
  {
    if toks != [] {
      TokensOfRaw(unescape, escape(toks[0]), RenderEscaped(escape, toks[1..]));
      EscapedTokens(unescape, escape, toks[1..]);
    }
  }

  /** The search honours precedence for a pattern, on every clean path, exactly if the pattern
      has no literal "" or "*". */
  lemma ReliableExactlyIfReservedFree(unescape: string -> string, escape: string -> string, p: Pattern)
    requires WellFormed(p) && Escapes(unescape, escape)
    ensures ReliablePattern(unescape, p) <==> ReservedFree(p.segments)
  {
    var r := Route(p, 0);
    assert Table({r});
    if ReservedFree(p.segments) {
      forall host, verb, path | CleanPath(Tokens(unescape, path))
        ensures Best(unescape, {r}, host, verb, path, Match(unescape, {r}, host, verb, path))
      {
        MatchBest(unescape, {r}, host, verb, path);
      }
    } else {
      MisledPath(unescape, escape, p);
    }
  }

  /** The path on which such a pattern is found although it does not match. */
  lemma MisledPath(unescape: string -> string, escape: string -> string, p: Pattern)
    requires WellFormed(p) && Escapes(unescape, escape) && !ReservedFree(p.segments)
    ensures var r, path := Route(p, 0), RenderEscaped(escape, Misled(p.segments));
            && CleanPath(Tokens(unescape, path)) && !MatchesPath(p.segments, Tokens(unescape, path))
            && Match(unescape, {r}, p.host, p.verb, path) != NotFound
            && !Best(unescape, {r}, p.host, p.verb, path, Match(unescape, {r}, p.host, p.verb, path))
  {
    var r, toks := Route(p, 0), Misled(p.segments);
    var path := RenderEscaped(escape, toks);
    MisledProperties(p.segments);
    EscapedTokens(unescape, escape, toks);
    assert p.segments[0..] == p.segments;
    MisledFindsSomething(unescape, r, 0, path, []);
    OwnHostAndMethod(unescape, r, path);
  }

  lemma OwnHostAndMethod(unescape: string -> string, r: Route, path: string)
    requires MatchPath(unescape, {r}, 2, path, []) != NotFound
    ensures Match(unescape, {r}, r.pattern.host, r.pattern.verb, path) != NotFound
  {
    KeysOf(r.pattern);
    assert Below({r}, 0, r.pattern.host) == {r} && Below({r}, 1, r.pattern.verb) == {r};
  }

  // ----- The path that differencePath writes

  predicate Legible(unescape: string -> string, t: string) {
    t != "" && '/' !in t && unescape(t) == t
  }

  /** A slash only at the end, and else segments that are read as they are written. */
  predicate LegiblePath(unescape: string -> string, toks: Path) {
    forall i :: 0 <= i < |toks| ==> if toks[i] == SLASH then i == |toks| - 1 else Legible(unescape, toks[i])
  }

  predicate LegibleSegment(unescape: string -> string, seg: Segment) {
    (seg.multi && seg.s == "") || (Legible(unescape, seg.s) && Legible(unescape, seg.s + "x"))
  }

  /** Literals and names that are read as they are written; "{$}" only at the end. */
  predicate LegibleSegments(unescape: string -> string, segs: seq<Segment>) {
    forall i :: 0 <= i < |segs| ==>
      if !segs[i].wild && segs[i].s == SLASH then i == |segs| - 1 else LegibleSegment(unescape, segs[i])
  }

  lemma {:induction false} LegibleReads(unescape: string -> string, toks: Path)
    requires LegiblePath(unescape, toks)
    ensures Tokens(unescape, Render(toks)) == toks
  {
    if toks != [] {
      var rest := Render(toks[1..]);
      assert LegiblePath(unescape, toks[1..]) by {
        assert forall i :: 0 <= i < |toks[1..]| ==> toks[1..][i] == toks[i + 1];
      }
      LegibleReads(unescape, toks[1..]);
      if toks[0] == SLASH {
        assert toks[1..] == [] && Render(toks) == "/";
      } else {
        assert rest != "" ==> rest[0] == '/';
        TokensOfRaw(unescape, toks[0], rest);
      }
    }
  }

  lemma LegibleTail(unescape: string -> string, segs: seq<Segment>)
    requires segs != [] && SegmentsOk(segs) && LegibleSegments(unescape, segs)
    ensures SegmentsOk(segs[1..]) && LegibleSegments(unescape, segs[1..])
    ensures !segs[0].wild && segs[0].s == SLASH ==> segs[1..] == []
  {
    assert forall i :: 0 <= i < |segs[1..]| ==> segs[1..][i] == segs[i + 1];
  }

  lemma LegibleCons(unescape: string -> string, t: string, toks: Path)
    requires LegiblePath(unescape, toks) && (if t == SLASH then toks == [] else Legible(unescape, t))
    ensures LegiblePath(unescape, [t] + toks)
  {
  }

  lemma {:induction false} MatchingLegible(unescape: string -> string, segs: seq<Segment>)
    requires SegmentsOk(segs) && LegibleSegments(unescape, segs)
    ensures LegiblePath(unescape, MatchingPath(segs))
  {
    if segs != [] {
      LegibleTail(unescape, segs);
      MatchingLegible(unescape, segs[1..]);
      LegibleCons(unescape, TokenOf(segs[0]), MatchingPath(segs[1..]));
    }
  }

  lemma {:induction false} DifferenceLegible(unescape: string -> string, a: seq<Segment>, b: seq<Segment>)
    requires SegmentsOk(a) && SegmentsOk(b) && LegibleSegments(unescape, a) && LegibleSegments(unescape, b)
    requires Legible(unescape, "x") && Relation(a, b) != Disjoint
    ensures LegiblePath(unescape, DifferenceTokens(a, b))
  {
    if a == [] {
      MatchingLegible(unescape, b);
    } else if b == [] || (b[0].multi && !a[0].multi) {
      MatchingLegible(unescape, a);
    } else if !a[0].multi {
      LegibleTail(unescape, a);
      LegibleTail(unescape, b);
      DifferenceLegible(unescape, a[1..], b[1..]);
      LegibleCons(unescape, DifferenceToken(a[0], b[0]), DifferenceTokens(a[1..], b[1..]));
    }
  }

  /** The string that differencePath writes is a path that the first pattern matches and the second
      does not, if literals and names are read as they are written. */
  lemma DifferenceReads(unescape: string -> string, p1: Pattern, p2: Pattern)
    requires WellFormed(p1) && WellFormed(p2)
    requires Relation(p1.segments, p2.segments) == Overlaps || Relation(p1.segments, p2.segments) == MoreGeneral
    requires LegibleSegments(unescape, p1.segments) && LegibleSegments(unescape, p2.segments) && Legible(unescape, "x")
    ensures var path := Render(DifferenceTokens(p1.segments, p2.segments));
            MatchesPath(p1.segments, Tokens(unescape, path)) && !MatchesPath(p2.segments, Tokens(unescape, path))
  {
    DifferenceLegible(unescape, p1.segments, p2.segments);
    LegibleReads(unescape, DifferenceTokens(p1.segments, p2.segments));
    DifferenceTokensSeparate(p1.segments, p2.segments);
  }
}
