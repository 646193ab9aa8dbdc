/** Registration of patterns and lookup of requests (server.go, type ServeMux). */
module ServeMuxes {
  import opened Patterns
  import opened RoutingTree
  import opened RoutingTheorems
  import opened RoutingNodes
  import opened RoutingIndexes

  datatype Registration = Registered | Conflict(pattern: Pattern) | LeafPanic

  ghost function PatternsOf(routes: set<Route>): set<Pattern> {
    set r | r in routes :: r.pattern
  }

  /** Patterns without reserved literals have equal keys only if they match the same requests. */
  lemma SameKeyConflicts(p: Pattern, q: Pattern)
    requires WellFormed(p) && WellFormed(q) && ReservedFree(p.segments) && ReservedFree(q.segments)
    requires FullKey(p) == FullKey(q)
    ensures Conflicts(p, q)
  {
    assert FullKey(p)[0] == p.host && FullKey(q)[0] == q.host;
    assert FullKey(p)[1] == p.verb && FullKey(q)[1] == q.verb;
    assert PathKey(p.segments) == FullKey(p)[2..] && PathKey(q.segments) == FullKey(q)[2..];
    SamePathKeyEquivalent(p.segments, q.segments);
  }

  lemma {:induction false} SamePathKeyEquivalent(a: seq<Segment>, b: seq<Segment>)
    requires SegmentsOk(a) && SegmentsOk(b) && ReservedFree(a) && ReservedFree(b)
    requires PathKey(a) == PathKey(b)
    ensures Relation(a, b) == Equivalent
  {
    if a != [] && b != [] {
      assert SegmentOk(a[0]) && SegmentOk(b[0]);
      assert PathKey(a)[0] == SegmentKey(a[0]) && PathKey(b)[0] == SegmentKey(b[0]);
      assert PathKey(a)[1..] == PathKey(a[1..]) && PathKey(b)[1..] == PathKey(b[1..]);
      SamePathKeyEquivalent(a[1..], b[1..]);
    }
  }

  lemma ConflictsSymmetric(p: Pattern, q: Pattern)
    requires WellFormed(p) && WellFormed(q)
    ensures Conflicts(p, q) <==> Conflicts(q, p)
  {
    ComparisonExact(p, q);
  }

  class ServeMux {
    const tree: RoutingNode
    const index: RoutingIndex
    var patterns: seq<Pattern>

    ghost var nodes: Nodes
    ghost var routes: set<Route>

    ghost predicate Valid()
      reads this, index, Heap(nodes)
    {
      && Tree(tree, nodes, routes)
      && Table(routes)
      && index.Indexes(PatternsOf(routes))
    }

    constructor ()
      ensures Valid() && routes == {} && fresh(index) && fresh(Heap(nodes))
    {
      tree := new RoutingNode();
      index := new RoutingIndex();
      patterns, routes := [], {};
      new;
      nodes := map[[] := tree];
      assert forall key :: Under({}, key) == {};
      assert PatternsOf({}) == {};
    }

    /** registerErr, from the parsed pattern on: it is refused exactly if it conflicts with a
        registered one, and otherwise the leaf panic is reached exactly if a registered one has the
        same keys, which takes a reserved literal. */
    method RegisterErr(pat: Pattern, handler: nat) returns (r: Registration)
      requires Valid() && WellFormed(pat)
      modifies this, index, Heap(nodes)
      ensures r.Conflict? <==> exists q :: q in old(routes) && Conflicts(pat, q.pattern)
      ensures r.Conflict? ==> Conflicts(pat, r.pattern) && Valid() && routes == old(routes) && nodes == old(nodes)
      ensures r.Registered? ==> Valid() && routes == old(routes) + {Route(pat, handler)} && patterns == old(patterns) + [pat]
      ensures r.LeafPanic? <==>
        && (forall q :: q in old(routes) ==> !Conflicts(pat, q.pattern))
        && (exists q :: q in old(routes) && FullKey(q.pattern) == FullKey(pat))
      ensures r.LeafPanic? ==> !(ReservedFree(pat.segments) && TableReservedFree(old(routes)))
      ensures forall key :: key in nodes && key !in old(nodes) ==> fresh(nodes[key]) && fresh(nodes[key].children)
      ensures forall key :: key in old(nodes) ==> key in nodes && nodes[key] == old(nodes)[key]
    {
      var err := index.FindConflict(pat, PatternsOf(routes));
      if err.Some? {
        return Conflict(err.value);
      }
      assert forall q :: q in routes ==> q.pattern in PatternsOf(routes);
      var ok := AddChecked(Route(pat, handler));
      return if ok then Registered else LeafPanic;
    }

    /** The last three statements of registerErr. */
    method AddChecked(route: Route) returns (ok: bool)
      requires Valid() && WellFormed(route.pattern)
      requires forall q :: q in routes ==> !Conflicts(route.pattern, q.pattern)
      modifies this, index, Heap(nodes)
      ensures ok ==> Valid() && routes == old(routes) + {route} && patterns == old(patterns) + [route.pattern]
      ensures ok <==> forall q :: q in old(routes) ==> FullKey(q.pattern) != FullKey(route.pattern)
      ensures !ok ==> !(ReservedFree(route.pattern.segments) && TableReservedFree(old(routes)))
      ensures forall key :: key in nodes && key !in old(nodes) ==> fresh(nodes[key]) && fresh(nodes[key].children)
      ensures forall key :: key in old(nodes) ==> key in nodes && nodes[key] == old(nodes)[key]
    {
      ghost var at;
      ok, at := AddPattern(tree, route, nodes, routes);
      if ok {
        AddToIndex(route, at);
        AddToPatterns(route, at);
      } else {
        KeyTaken(routes, route);
      }
    }

    method AddToIndex(route: Route, ghost at: Nodes)
      requires Tree(tree, at, routes + {route}) && Table(routes) && index.Indexes(PatternsOf(routes))
      requires WellFormed(route.pattern) && forall q :: q in routes ==> !Conflicts(route.pattern, q.pattern)
      modifies index
      ensures Tree(tree, at, routes + {route}) && Table(routes + {route}) && index.Indexes(PatternsOf(routes + {route}))
    {
      TableGrows(routes, route);
      index.AddPattern(route.pattern, PatternsOf(routes));
    }

    method AddToPatterns(route: Route, ghost at: Nodes)
      requires Tree(tree, at, routes + {route}) && Table(routes + {route}) && index.Indexes(PatternsOf(routes + {route}))
      modifies this
      ensures Valid() && routes == old(routes) + {route} && patterns == old(patterns) + [route.pattern] && nodes == at
    {
      nodes, routes, patterns := at, routes + {route}, patterns + [route.pattern];
    }

    /** The match at the heart of findHandler. */
    method FindRoute(unescape: string -> string, host: string, verb: string, path: string) returns (r: Outcome)
      requires Valid() && TableReservedFree(routes)
      requires CleanPath(Tokens(unescape, path))
      ensures Best(unescape, routes, host, verb, path, r)
    {
      r := MatchFrom(unescape, tree, host, verb, path, nodes, routes);
      MatchBest(unescape, routes, host, verb, path);
    }
  }

  const STAR := Pattern("", "", [Segment("*", false, false)])
  const ANY_PATH := Pattern("", "", [Segment("", true, true)])

  /** One reserved literal is enough: the pattern of the single path whose segment is a star and that
      of all paths have the same keys and do not conflict. */
  lemma LeafTakenByStar()
    ensures WellFormed(STAR) && WellFormed(ANY_PATH) && !Conflicts(STAR, ANY_PATH) && FullKey(STAR) == FullKey(ANY_PATH)
    ensures ReservedFree(ANY_PATH.segments) && !ReservedFree(STAR.segments)
  {
  }

  /** So registering one after the other reaches the leaf panic. */
  method RegisterStar(handler: nat) returns (first: Registration, second: Registration)
    ensures first.Registered? && second.LeafPanic?
  {
    LeafTakenByStar();
    var mux := new ServeMux();
    first := mux.RegisterErr(ANY_PATH, handler);
    second := mux.RegisterErr(STAR, handler);
  }

  lemma KeyTaken(routes: set<Route>, route: Route)
    requires Table(routes) && WellFormed(route.pattern)
    requires forall q :: q in routes ==> !Conflicts(route.pattern, q.pattern)
    requires exists q :: q in routes && FullKey(q.pattern) == FullKey(route.pattern)
    ensures !(ReservedFree(route.pattern.segments) && TableReservedFree(routes))
  {
    var q :| q in routes && FullKey(q.pattern) == FullKey(route.pattern);
    if ReservedFree(route.pattern.segments) && ReservedFree(q.pattern.segments) {
      SameKeyConflicts(route.pattern, q.pattern);
      assert false;
    }
  }

  lemma TableGrows(routes: set<Route>, route: Route)
    requires Table(routes) && WellFormed(route.pattern)
    requires forall q :: q in routes ==> !Conflicts(route.pattern, q.pattern)
    ensures Table(routes + {route})
    ensures PatternsOf(routes + {route}) == PatternsOf(routes) + {route.pattern}
  {
    forall q | q in routes
      ensures !Conflicts(q.pattern, route.pattern)
    {
      ConflictsSymmetric(q.pattern, route.pattern);
    }
    forall p | p in PatternsOf(routes) + {route.pattern}
      ensures p in PatternsOf(routes + {route})
    {
      if p == route.pattern {
        assert route in routes + {route};
      } else {
        var r :| r in routes && r.pattern == p;
        assert r in routes + {route};
      }
    }
  }
}
