/** The decision tree that matches requests to patterns (routing_tree.go).

    The keys of a pattern are its host, its method, and one key per segment, where "" stands
    for a single wildcard and "*" for a multi wildcard.  A node of the tree is described by
    its level and by the routes stored at or below it, which all agree on the keys above.
 */
module RoutingTree {
  import opened Foundations
  import opened Patterns

  datatype Route = Route(pattern: Pattern, handler: nat)

  type Key = seq<string>

  const MULTI_KEY: string := "*"
  const WILD_KEY: string := ""

  // ----- Paths

  /** firstSegment: the first decoded segment of a path, and the rest of the path. */
  function FirstSegment(unescape: string -> string, path: string): (r: (string, string))
    requires path != ""
    ensures |r.1| < |path|
  {
    if path == "/" then ("/", "")
    else
      var i := IndexOf(path[1..], '/');
      (unescape(path[1..][..i]), path[1..][i..])
  }

  function Tokens(unescape: string -> string, path: string): Path
    decreases |path|
  {
    if path == "" then []
    else
      var (seg, rest) := FirstSegment(unescape, path);
      [seg] + Tokens(unescape, rest)
  }

  // ----- Keys

  function SegmentKey(seg: Segment): string {
    if seg.multi then MULTI_KEY else if seg.wild then WILD_KEY else seg.s
  }

  function PathKey(segs: seq<Segment>): (key: Key)
    ensures |key| == |segs|
  {
    if segs == [] then [] else [SegmentKey(segs[0])] + PathKey(segs[1..])
  }

  function FullKey(p: Pattern): Key {
    [p.host, p.verb] + PathKey(p.segments)
  }

  lemma {:induction false} PathKeyAt(segs: seq<Segment>, i: nat)
    requires i < |segs|
    ensures PathKey(segs)[i] == SegmentKey(segs[i])
  {
    if i > 0 {
      PathKeyAt(segs[1..], i - 1);
    }
  }

  /** The routes below the child with key k of a node at the given level. */
  function Below(routes: set<Route>, level: nat, k: string): set<Route> {
    set r | r in routes && level < |FullKey(r.pattern)| && FullKey(r.pattern)[level] == k
  }

  /** The route stored at a node of the given level. */
  ghost function Leaf(routes: set<Route>, level: nat): (leaf: Option<Route>)
    ensures leaf.Some? ==> leaf.value in routes && |FullKey(leaf.value.pattern)| == level
    ensures leaf.None? ==> forall r :: r in routes ==> |FullKey(r.pattern)| != level
  {
    if exists r :: r in routes && |FullKey(r.pattern)| == level then
      var r :| r in routes && |FullKey(r.pattern)| == level; Some(r)
    else None
  }

  // ----- The search

  datatype Outcome = NotFound | Found(route: Route, values: seq<string>) | NilDereference

  /** matchPath on the node of the given level that holds the given routes. */
  ghost function MatchPath(unescape: string -> string, routes: set<Route>, level: nat, path: string, values: seq<string>): Outcome
    decreases |path|
  {
    if path == "" then
      var leaf := Leaf(routes, level);
      if leaf.Some? then Found(leaf.value, values) else NotFound
    else
      var (seg, rest) := FirstSegment(unescape, path);
      var literal := MatchPath(unescape, Below(routes, level, seg), level + 1, rest, values);
      if literal != NotFound then literal
      else
        var wild := if seg != SLASH then MatchPath(unescape, Below(routes, level, WILD_KEY), level + 1, rest, values + [seg])
                    else NotFound;
        if wild != NotFound then wild
        else MatchMulti(unescape, Below(routes, level, MULTI_KEY), level + 1, path, values)
  }

  lemma MatchPathUnfold(unescape: string -> string, routes: set<Route>, level: nat, path: string, values: seq<string>,
                        seg: string, rest: string)
    requires path != "" && (seg, rest) == FirstSegment(unescape, path)
    ensures var literal := MatchPath(unescape, Below(routes, level, seg), level + 1, rest, values);
            var wild := MatchPath(unescape, Below(routes, level, WILD_KEY), level + 1, rest, values + [seg]);
            MatchPath(unescape, routes, level, path, values) ==
            if literal != NotFound then literal
            else if seg != SLASH && wild != NotFound then wild
            else MatchMulti(unescape, Below(routes, level, MULTI_KEY), level + 1, path, values)
  {
  }

  /** The last step of matchPath, on the child "*". */
  ghost function MatchMulti(unescape: string -> string, multi: set<Route>, level: nat, path: string, values: seq<string>): Outcome
    requires path != ""
  {
    var leaf := Leaf(multi, level);
    if multi == {} then NotFound
    else if leaf.None? || leaf.value.pattern.segments == [] then NilDereference
    else if LastSegment(leaf.value.pattern).s != "" then Found(leaf.value, values + [unescape(path[1..])])
    else Found(leaf.value, values)
  }

  /** matchMethodAndPath on the node of one host. */
  ghost function MatchMethodAndPath(unescape: string -> string, routes: set<Route>, verb: string, path: string): Outcome {
    var exact := MatchPath(unescape, Below(routes, 1, verb), 2, path, []);
    if exact != NotFound then exact
    else
      var get := if verb == "HEAD" then MatchPath(unescape, Below(routes, 1, "GET"), 2, path, []) else NotFound;
      if get != NotFound then get
      else MatchPath(unescape, Below(routes, 1, ""), 2, path, [])
  }

  /** match on the root. */
  ghost function Match(unescape: string -> string, routes: set<Route>, host: string, verb: string, path: string): Outcome {
    var byHost := if host != "" then MatchMethodAndPath(unescape, Below(routes, 0, host), verb, path) else NotFound;
    if byHost != NotFound then byHost
    else MatchMethodAndPath(unescape, Below(routes, 0, ""), verb, path)
  }

  // ----- What the search is for

  /** The strings that matchPath gives a special meaning as keys. */
  predicate Reserved(s: string) {
    s == WILD_KEY || s == MULTI_KEY
  }

  predicate ReservedFree(segs: seq<Segment>) {
    forall i :: 0 <= i < |segs| && !segs[i].wild ==> !Reserved(segs[i].s)
  }

  /** Paths on which the search can be relied on: no empty segment, and the last one is not "*". */
  predicate CleanPath(path: Path) {
    && (forall i :: 0 <= i < |path| ==> path[i] != WILD_KEY)
    && (path != [] ==> path[|path| - 1] != MULTI_KEY)
  }

  /** The wildcard values of a path, in the order of the wildcards. */
  function Captures(unescape: string -> string, segs: seq<Segment>, path: string): seq<string>
    decreases |path|
  {
    if segs == [] || path == "" then []
    else if segs[0].multi then (if segs[0].s != "" then [unescape(path[1..])] else [])
    else
      var (seg, rest) := FirstSegment(unescape, path);
      (if segs[0].wild then [seg] else []) + Captures(unescape, segs[1..], rest)
  }

  predicate MatchesRequest(p: Pattern, host: string, verb: string, path: Path) {
    (p.host == "" || p.host == host) && Matches(p, verb, path)
  }

  /** The two precedence rules, in terms of sets of requests. */
  ghost predicate Precedes(p: Pattern, q: Pattern) {
    || (p.host != "" && q.host == "")
    || (p.host == q.host && Covers(q, p) && !Covers(p, q))
  }

  /** Routes whose patterns are well formed and do not conflict. */
  ghost predicate Table(routes: set<Route>) {
    && (forall r :: r in routes ==> WellFormed(r.pattern))
    && (forall r1, r2 :: r1 in routes && r2 in routes && r1 != r2 ==> !Conflicts(r1.pattern, r2.pattern))
  }

  ghost predicate TableReservedFree(routes: set<Route>) {
    forall r :: r in routes ==> ReservedFree(r.pattern.segments)
  }

  /** What match must return: the matching route that takes precedence over every other. */
  ghost predicate Best(unescape: string -> string, routes: set<Route>, host: string, verb: string, path: string, r: Outcome) {
    match r
    case NilDereference => false
    case NotFound => forall q :: q in routes ==> !MatchesRequest(q.pattern, host, verb, Tokens(unescape, path))
    case Found(route, values) =>
      && route in routes
      && MatchesRequest(route.pattern, host, verb, Tokens(unescape, path))
      && values == Captures(unescape, route.pattern.segments, path)
      && forall q :: q in routes && q != route && MatchesRequest(q.pattern, host, verb, Tokens(unescape, path)) ==>
           Precedes(route.pattern, q.pattern)
  }

  // ----- One path node

  /** The routes of a path node at the given depth: what is left of their patterns is well
      formed and without conflicts. */
  ghost predicate PathNode(routes: set<Route>, depth: nat) {
    && (forall r :: r in routes ==>
          && depth <= |r.pattern.segments| && r.pattern.segments != []
          && SegmentsOk(r.pattern.segments) && ReservedFree(r.pattern.segments))
    && (forall r1, r2 :: r1 in routes && r2 in routes && r1 != r2 ==> Ordered(Rest(r1, depth), Rest(r2, depth)))
  }

  predicate Ordered(a: seq<Segment>, b: seq<Segment>) {
    Relation(a, b) != Equivalent && Relation(a, b) != Overlaps
  }

  function Rest(r: Route, depth: nat): seq<Segment> {
    if depth <= |r.pattern.segments| then r.pattern.segments[depth..] else []
  }

  lemma BelowIff(routes: set<Route>, depth: nat, k: string, r: Route)
    requires r in routes
    ensures r in Below(routes, depth + 2, k) <==>
            depth < |r.pattern.segments| && SegmentKey(r.pattern.segments[depth]) == k
  {
    if depth < |r.pattern.segments| {
      PathKeyAt(r.pattern.segments, depth);
    }
  }

  lemma RestStep(r: Route, depth: nat)
    requires depth < |r.pattern.segments|
    ensures Rest(r, depth) != []
    ensures Rest(r, depth)[0] == r.pattern.segments[depth]
    ensures Rest(r, depth)[1..] == Rest(r, depth + 1)
  {
  }

  lemma BelowPathNode(routes: set<Route>, depth: nat, k: string)
    requires PathNode(routes, depth) && k != MULTI_KEY
    ensures PathNode(Below(routes, depth + 2, k), depth + 1)
  {
    var sub := Below(routes, depth + 2, k);
    forall r1, r2 | r1 in sub && r2 in sub && r1 != r2
      ensures Ordered(Rest(r1, depth + 1), Rest(r2, depth + 1))
    {
      BelowIff(routes, depth, k, r1);
      BelowIff(routes, depth, k, r2);
      RestStep(r1, depth);
      RestStep(r2, depth);
      assert SegmentOk(r1.pattern.segments[depth]) && SegmentOk(r2.pattern.segments[depth]);
      assert Ordered(Rest(r1, depth), Rest(r2, depth));
    }
    forall r | r in sub
      ensures depth + 1 <= |r.pattern.segments|
    {
      BelowIff(routes, depth, k, r);
    }
  }

  /** The child "*" holds the routes whose last segment, a multi wildcard, is at this depth. */
  lemma BelowMulti(routes: set<Route>, depth: nat, r: Route)
    requires PathNode(routes, depth) && r in Below(routes, depth + 2, MULTI_KEY)
    ensures depth + 1 == |r.pattern.segments| && r.pattern.segments[depth].multi
  {
    BelowIff(routes, depth, MULTI_KEY, r);
  }

  lemma EmptyNotFound(unescape: string -> string, level: nat, path: string, values: seq<string>)
    ensures MatchPath(unescape, {}, level, path, values) == NotFound
    decreases |path|
  {
    if path != "" {
      var (seg, rest) := FirstSegment(unescape, path);
      assert forall k :: Below({}, level, k) == {};
      EmptyNotFound(unescape, level + 1, rest, values);
      EmptyNotFound(unescape, level + 1, rest, values + [seg]);
    }
  }

  lemma LeafOnlyNotFound(unescape: string -> string, routes: set<Route>, level: nat, path: string, values: seq<string>)
    requires path != ""
    requires forall r :: r in routes ==> |FullKey(r.pattern)| <= level
    ensures MatchPath(unescape, routes, level, path, values) == NotFound
  {
    var (seg, rest) := FirstSegment(unescape, path);
    assert forall k :: Below(routes, level, k) == {};
    EmptyNotFound(unescape, level + 1, rest, values);
    EmptyNotFound(unescape, level + 1, rest, values + [seg]);
  }

  ghost predicate NoneMatches(routes: set<Route>, depth: nat, toks: Path) {
    forall r :: r in routes ==> !MatchesPath(Rest(r, depth), toks)
  }

  /** What a search from one path node must return. */
  ghost predicate BestFrom(unescape: string -> string, routes: set<Route>, depth: nat, path: string, values: seq<string>, r: Outcome) {
    match r
    case NilDereference => false
    case NotFound => NoneMatches(routes, depth, Tokens(unescape, path))
    case Found(route, found) =>
      && route in routes
      && MatchesPath(Rest(route, depth), Tokens(unescape, path))
      && found == values + Captures(unescape, Rest(route, depth), path)
      && MostSpecific(routes, depth, Tokens(unescape, path), route)
  }

  ghost predicate MostSpecific(routes: set<Route>, depth: nat, toks: Path, route: Route) {
    forall q :: q in routes && q != route && MatchesPath(Rest(q, depth), toks) ==>
      Relation(Rest(route, depth), Rest(q, depth)) == MoreSpecific
  }

  /** Two lists match the same path and are ordered; if the first starts with a more specific
      segment, it is more specific. */
  lemma HeadDecides(a: seq<Segment>, b: seq<Segment>, path: Path)
    requires SegmentsOk(a) && SegmentsOk(b) && a != [] && b != []
    requires MatchesPath(a, path) && MatchesPath(b, path)
    requires Ordered(a, b) && CompareSegments(a[0], b[0]) == MoreSpecific
    ensures Relation(a, b) == MoreSpecific
  {
    if Relation(a, b) == Disjoint {
      DisjointApart(a, b, path);
    }
  }

  /** Two routes of a node whose remaining segments are equivalent are the same route. */
  lemma EquivalentSame(routes: set<Route>, depth: nat, r1: Route, r2: Route)
    requires PathNode(routes, depth) && r1 in routes && r2 in routes
    requires Relation(Rest(r1, depth), Rest(r2, depth)) == Equivalent
    ensures r1 == r2
  {
    assert r1 != r2 ==> Ordered(Rest(r1, depth), Rest(r2, depth));
  }

  /** A route below the child k, and any other route that matches the same path: the order of
      the two is decided below the child, or by the segment at this depth. */
  lemma LiftOther(routes: set<Route>, depth: nat, toks: Path, k: string, route: Route, q: Route)
    requires PathNode(routes, depth) && toks != [] && k != MULTI_KEY && (k == WILD_KEY || k == toks[0])
    requires route in Below(routes, depth + 2, k) && MatchesPath(Rest(route, depth), toks)
    requires q in routes && q != route && MatchesPath(Rest(q, depth), toks)
    requires k == WILD_KEY && toks[0] != MULTI_KEY ==> q !in Below(routes, depth + 2, toks[0])
    requires q in Below(routes, depth + 2, k) ==> Relation(Rest(route, depth + 1), Rest(q, depth + 1)) == MoreSpecific
    ensures Relation(Rest(route, depth), Rest(q, depth)) == MoreSpecific
  {
    BelowIff(routes, depth, k, route);
    BelowIff(routes, depth, k, q);
    BelowIff(routes, depth, toks[0], q);
    RestStep(route, depth);
    RestStep(q, depth);
    assert SegmentOk(route.pattern.segments[depth]) && SegmentOk(q.pattern.segments[depth]);
    assert Ordered(Rest(route, depth), Rest(q, depth));
    if q !in Below(routes, depth + 2, k) {
      HeadDecides(Rest(route, depth), Rest(q, depth), toks);
    }
  }

  /** A route below the child k whose remaining segments match the rest of the path. */
  lemma LiftRoute(unescape: string -> string, routes: set<Route>, depth: nat, path: string, k: string, route: Route,
                  seg: string, rest: string)
    requires PathNode(routes, depth) && path != "" && k != MULTI_KEY && (seg, rest) == FirstSegment(unescape, path)
    requires route in Below(routes, depth + 2, k) && MatchesPath(Rest(route, depth + 1), Tokens(unescape, rest))
    requires if k == WILD_KEY then seg != SLASH else k == seg
    ensures MatchesPath(Rest(route, depth), Tokens(unescape, path))
    ensures Captures(unescape, Rest(route, depth), path) ==
            (if k == WILD_KEY then [seg] else []) + Captures(unescape, Rest(route, depth + 1), rest)
  {
    var toks := Tokens(unescape, path);
    assert toks[0] == seg && toks[1..] == Tokens(unescape, rest);
    BelowIff(routes, depth, k, route);
    RestStep(route, depth);
    assert SegmentOk(route.pattern.segments[depth]);
  }

  lemma Associative(a: seq<string>, b: seq<string>, c: seq<string>)
    ensures (a + b) + c == a + (b + c) && a + [] == a
  {
  }

  lemma LiftMostSpecific(routes: set<Route>, depth: nat, toks: Path, k: string, route: Route)
    requires PathNode(routes, depth) && toks != [] && k != MULTI_KEY
    requires k == WILD_KEY || k == toks[0]
    requires route in Below(routes, depth + 2, k) && MatchesPath(Rest(route, depth), toks)
    requires MostSpecific(Below(routes, depth + 2, k), depth + 1, toks[1..], route)
    requires k == WILD_KEY ==> NoneMatches(Below(routes, depth + 2, toks[0]), depth + 1, toks[1..])
    ensures MostSpecific(routes, depth, toks, route)
  {
    forall q | q in routes && q != route && MatchesPath(Rest(q, depth), toks)
      ensures Relation(Rest(route, depth), Rest(q, depth)) == MoreSpecific
    {
      LiftRest(routes, depth, toks, k, q);
      LiftRest(routes, depth, toks, toks[0], q);
      LiftOther(routes, depth, toks, k, route, q);
    }
  }

  /** The literal and wildcard steps: the best route of the child is the best of the node. */
  lemma LiftBest(unescape: string -> string, routes: set<Route>, depth: nat, path: string, values: seq<string>,
                 k: string, childValues: seq<string>, r: Outcome, seg: string, rest: string)
    requires PathNode(routes, depth) && path != "" && k != MULTI_KEY && (seg, rest) == FirstSegment(unescape, path)
    requires r.Found? && BestFrom(unescape, Below(routes, depth + 2, k), depth + 1, rest, childValues, r)
    requires if k == WILD_KEY
             then seg != SLASH && childValues == values + [seg] && NoneMatches(Below(routes, depth + 2, seg), depth + 1, Tokens(unescape, rest))
             else k == seg && childValues == values
    ensures BestFrom(unescape, routes, depth, path, values, r)
  {
    var toks := Tokens(unescape, path);
    assert toks[0] == seg && toks[1..] == Tokens(unescape, rest);
    LiftRoute(unescape, routes, depth, path, k, r.route, seg, rest);
    Associative(values, if k == WILD_KEY then [seg] else [], Captures(unescape, Rest(r.route, depth + 1), rest));
    LiftMostSpecific(routes, depth, toks, k, r.route);
  }

  lemma LiftRest(routes: set<Route>, depth: nat, toks: Path, k: string, q: Route)
    requires PathNode(routes, depth) && toks != []
    requires q in Below(routes, depth + 2, k) && k != MULTI_KEY ==> q in routes
    requires MatchesPath(Rest(q, depth), toks)
    ensures q in Below(routes, depth + 2, k) && k != MULTI_KEY ==> MatchesPath(Rest(q, depth + 1), toks[1..])
  {
    if q in Below(routes, depth + 2, k) {
      BelowIff(routes, depth, k, q);
      RestStep(q, depth);
    }
  }

  /** When no route starting with a literal or a single wildcard matches, only multis do. */
  lemma OnlyMultis(routes: set<Route>, depth: nat, toks: Path, q: Route)
    requires PathNode(routes, depth) && toks != [] && q in routes && MatchesPath(Rest(q, depth), toks)
    requires NoneMatches(Below(routes, depth + 2, toks[0]), depth + 1, toks[1..])
    requires toks[0] != SLASH ==> NoneMatches(Below(routes, depth + 2, WILD_KEY), depth + 1, toks[1..])
    ensures q in Below(routes, depth + 2, MULTI_KEY)
  {
    RestStep(q, depth);
    BelowIff(routes, depth, toks[0], q);
    BelowIff(routes, depth, WILD_KEY, q);
    BelowIff(routes, depth, MULTI_KEY, q);
  }

  lemma MultiUnique(routes: set<Route>, depth: nat, r1: Route, r2: Route)
    requires PathNode(routes, depth)
    requires r1 in Below(routes, depth + 2, MULTI_KEY) && r2 in Below(routes, depth + 2, MULTI_KEY)
    ensures r1 == r2
    ensures depth + 1 == |r1.pattern.segments| && Rest(r1, depth) == [LastSegment(r1.pattern)] && LastSegment(r1.pattern).multi
  {
    BelowMulti(routes, depth, r1);
    BelowMulti(routes, depth, r2);
    RestStep(r1, depth);
    RestStep(r2, depth);
    EquivalentSame(routes, depth, r1, r2);
  }

  /** The leaf below a multi wildcard is the only route there. */
  lemma OnlyRoute(routes: set<Route>, depth: nat) returns (route: Route)
    requires PathNode(routes, depth) && Below(routes, depth + 2, MULTI_KEY) != {}
    ensures var multi := Below(routes, depth + 2, MULTI_KEY);
            && Leaf(multi, depth + 3) == Some(route) && multi == {route}
            && route in routes
  {
    var multi := Below(routes, depth + 2, MULTI_KEY);
    var q :| q in multi;
    MultiUnique(routes, depth, q, q);
    assert |FullKey(q.pattern)| == depth + 3;
    route := Leaf(multi, depth + 3).value;
    forall q | q in multi
      ensures q == route
    {
      MultiUnique(routes, depth, route, q);
    }
  }

  /** The last step of matchPath, when no route starting with a literal or a single wildcard matches. */
  lemma MultiBest(unescape: string -> string, routes: set<Route>, depth: nat, path: string, values: seq<string>,
                  seg: string, rest: string)
    requires PathNode(routes, depth) && path != "" && (seg, rest) == FirstSegment(unescape, path)
    requires NoneMatches(Below(routes, depth + 2, seg), depth + 1, Tokens(unescape, rest))
    requires seg != SLASH ==> NoneMatches(Below(routes, depth + 2, WILD_KEY), depth + 1, Tokens(unescape, rest))
    ensures BestFrom(unescape, routes, depth, path, values,
                     MatchMulti(unescape, Below(routes, depth + 2, MULTI_KEY), depth + 3, path, values))
  {
    var toks := Tokens(unescape, path);
    assert toks[0] == seg && toks[1..] == Tokens(unescape, rest);
    var multi := Below(routes, depth + 2, MULTI_KEY);
    forall q | q in routes && MatchesPath(Rest(q, depth), toks)
      ensures q in multi
    {
      OnlyMultis(routes, depth, toks, q);
    }
    if multi != {} {
      var route := OnlyRoute(routes, depth);
      MultiUnique(routes, depth, route, route);
      assert Captures(unescape, Rest(route, depth), path) ==
             if LastSegment(route.pattern).s != "" then [unescape(path[1..])] else [];
    }
  }

  /** One step of matchPath, from what the searches of the two children return. */
  lemma StepBest(unescape: string -> string, routes: set<Route>, depth: nat, path: string, values: seq<string>,
                 seg: string, rest: string, literal: Outcome, wild: Outcome)
    requires PathNode(routes, depth) && path != "" && (seg, rest) == FirstSegment(unescape, path)
    requires BestFrom(unescape, Below(routes, depth + 2, seg), depth + 1, rest, values, literal)
    requires literal.Found? ==> seg != MULTI_KEY && seg != WILD_KEY
    requires if seg == SLASH then wild == NotFound
             else BestFrom(unescape, Below(routes, depth + 2, WILD_KEY), depth + 1, rest, values + [seg], wild)
    ensures BestFrom(unescape, routes, depth, path, values,
                     if literal != NotFound then literal
                     else if wild != NotFound then wild
                     else MatchMulti(unescape, Below(routes, depth + 2, MULTI_KEY), depth + 3, path, values))
  {
    if literal.Found? {
      LiftBest(unescape, routes, depth, path, values, seg, values, literal, seg, rest);
    } else if wild.Found? {
      LiftBest(unescape, routes, depth, path, values, WILD_KEY, values + [seg], wild, seg, rest);
    } else {
      MultiBest(unescape, routes, depth, path, values, seg, rest);
    }
  }

  /** matchPath finds the most specific of the routes below a node, if any of them matches. */
  lemma {:induction false} MatchPathBest(unescape: string -> string, routes: set<Route>, depth: nat, path: string, values: seq<string>)
    requires PathNode(routes, depth)
    requires CleanPath(Tokens(unescape, path))
    ensures BestFrom(unescape, routes, depth, path, values, MatchPath(unescape, routes, depth + 2, path, values))
    decreases |path|
  {
    if path == "" {
      LeafBest(unescape, routes, depth, values);
    } else {
      var (seg, rest) := FirstSegment(unescape, path);
      CleanTail(seg, Tokens(unescape, rest));
      var literal := MatchPath(unescape, Below(routes, depth + 2, seg), depth + 3, rest, values);
      if seg == MULTI_KEY {
        StarNotFound(unescape, routes, depth, rest, values);
      } else {
        BelowPathNode(routes, depth, seg);
        MatchPathBest(unescape, Below(routes, depth + 2, seg), depth + 1, rest, values);
      }
      var wild := NotFound;
      if seg != SLASH {
        BelowPathNode(routes, depth, WILD_KEY);
        MatchPathBest(unescape, Below(routes, depth + 2, WILD_KEY), depth + 1, rest, values + [seg]);
        wild := MatchPath(unescape, Below(routes, depth + 2, WILD_KEY), depth + 3, rest, values + [seg]);
      }
      StepBest(unescape, routes, depth, path, values, seg, rest, literal, wild);
    }
  }

  lemma CleanTail(seg: string, tail: Path)
    requires CleanPath([seg] + tail)
    ensures CleanPath(tail) && seg != WILD_KEY && (seg == MULTI_KEY ==> tail != [])
  {
    assert ([seg] + tail)[0] == seg;
    assert forall i :: 0 <= i < |tail| ==> tail[i] == ([seg] + tail)[i + 1];
  }

  lemma LeafBest(unescape: string -> string, routes: set<Route>, depth: nat, values: seq<string>)
    requires PathNode(routes, depth)
    ensures BestFrom(unescape, routes, depth, "", values, MatchPath(unescape, routes, depth + 2, "", values))
  {
    forall q | q in routes && |FullKey(q.pattern)| == depth + 2
      ensures Rest(q, depth) == []
    {
    }
    forall q | q in routes && MatchesPath(Rest(q, depth), [])
      ensures |FullKey(q.pattern)| == depth + 2
    {
    }
    var leaf := Leaf(routes, depth + 2);
    if leaf.Some? {
      forall q | q in routes && MatchesPath(Rest(q, depth), [])
        ensures q == leaf.value
      {
        EquivalentSame(routes, depth, leaf.value, q);
      }
    }
  }

  /** A segment "*" that is not the last one leads to a leaf and no further. */
  lemma StarNotFound(unescape: string -> string, routes: set<Route>, depth: nat, rest: string, values: seq<string>)
    requires PathNode(routes, depth) && rest != ""
    ensures MatchPath(unescape, Below(routes, depth + 2, MULTI_KEY), depth + 3, rest, values) == NotFound
    ensures NoneMatches(Below(routes, depth + 2, MULTI_KEY), depth + 1, Tokens(unescape, rest))
  {
    var sub := Below(routes, depth + 2, MULTI_KEY);
    forall r | r in sub
      ensures |FullKey(r.pattern)| <= depth + 3 && Rest(r, depth + 1) == []
    {
      BelowMulti(routes, depth, r);
    }
    LeafOnlyNotFound(unescape, sub, depth + 3, rest, values);
  }
}
