/** The nodes of the decision tree (routing_tree.go), proved to implement the search of RoutingTree. */
module RoutingNodes {
  import opened Foundations
  import opened Patterns
  import opened RoutingTree
  import opened Mappings

  class RoutingNode {
    var leaf: Option<Route>
    const children: Mapping<string, RoutingNode>
    var emptyChild: RoutingNode?

    constructor ()
      ensures leaf == None && Empty() && fresh(children)
    {
      children := new Mapping();
      leaf, emptyChild := None, null;
    }

    ghost function Child(key: string): RoutingNode?
      reads this, children
    {
      if key == "" then emptyChild else if key in children.Contents() then children.Contents()[key] else null
    }

    ghost predicate Empty()
      reads this, children
    {
      children.Valid() && children.Contents() == map[] && emptyChild == null
    }

    /** findChild. */
    method FindChild(key: string) returns (c: RoutingNode?)
      requires children.Valid()
      ensures c == Child(key)
    {
      if key == "" {
        return emptyChild;
      }
      var found := children.Find(key);
      return if found.Some? then found.value else null;
    }

    /** addChild. */
    method AddChild(key: string) returns (c: RoutingNode)
      requires children.Valid()
      modifies this`emptyChild, children
      ensures old(Child(key)) != null ==> c == old(Child(key))
      ensures old(Child(key)) == null ==> fresh(c) && fresh(c.children) && c.leaf == None && c.Empty()
      ensures children.Valid() && Child(key) == c
      ensures "" !in old(children.Contents()) ==> "" !in children.Contents()
      ensures forall k :: k != key ==> Child(k) == old(Child(k))
    {
      if key == "" {
        if emptyChild == null {
          emptyChild := new RoutingNode();
        }
        return emptyChild;
      }
      var found := FindChild(key);
      if found != null {
        return found;
      }
      c := new RoutingNode();
      children.Add(key, c);
    }

    /** set; false stands for the "non-nil leaf fields" panic. */
    method Set(route: Route) returns (ok: bool)
      modifies this`leaf
      ensures ok <==> old(leaf) == None
      ensures leaf == if ok then Some(route) else old(leaf)
    {
      if leaf.Some? {
        return false;
      }
      leaf := Some(route);
      return true;
    }
  }

  // ----- Trees

  type Nodes = map<Key, RoutingNode>

  /** The routes whose key path starts with key. */
  function Under(routes: set<Route>, key: Key): set<Route> {
    set r | r in routes && key <= FullKey(r.pattern)
  }

  /** The nodes and the mappings of their children. */
  ghost function Heap(at: Nodes): set<object> {
    at.Values + set n | n in at.Values :: n.children
  }

  /** The nodes at key, one per key path, hold the given routes; there are also nodes along the
      key path being added. */
  ghost predicate TreeWith(at: Nodes, routes: set<Route>, path: Key)
    reads Heap(at)
  {
    && (forall key :: key in at <==> key == [] || Under(routes, key) != {} || key <= path)
    && (forall key :: key in at ==> Linked(at, key))
    && (forall key :: key in at ==> LeafOk(at[key].leaf, routes, key))
    && (forall key1, key2 :: key1 in at && key2 in at && key1 != key2 ==> Apart(at[key1], at[key2]))
  }

  ghost predicate Apart(n: RoutingNode, other: RoutingNode) {
    n != other && n.children != other.children
  }

  /** The children of the node at key are the nodes one key further. */
  ghost predicate Linked(at: Nodes, key: Key)
    requires key in at
    reads at[key], at[key].children
  {
    && at[key].children.Valid() && "" !in at[key].children.Contents()
    && forall k :: at[key].Child(k) == Next(at, key, k)
  }

  function Next(at: Nodes, key: Key, k: string): RoutingNode? {
    if key + [k] in at then at[key + [k]] else null
  }

  ghost predicate LeafOk(leaf: Option<Route>, routes: set<Route>, key: Key) {
    match leaf
    case Some(route) => route in routes && FullKey(route.pattern) == key && forall r :: r in routes && FullKey(r.pattern) == key ==> r == route
    case None => forall r :: r in routes ==> FullKey(r.pattern) != key
  }

  function Node(at: Nodes, key: Key): RoutingNode? {
    if key in at then at[key] else null
  }

  ghost predicate Tree(root: RoutingNode, at: Nodes, routes: set<Route>)
    reads Heap(at)
  {
    TreeWith(at, routes, []) && at[[]] == root
  }

  lemma UnderBelow(routes: set<Route>, key: Key, k: string)
    ensures Below(Under(routes, key), |key|, k) == Under(routes, key + [k])
  {
    forall r | r in routes
      ensures r in Below(Under(routes, key), |key|, k) <==> r in Under(routes, key + [k])
    {
      var full := FullKey(r.pattern);
      if key <= full && |key| < |full| && full[|key|] == k {
        assert full[..|key| + 1] == key + [k];
      }
    }
  }

  lemma LeafUnder(leaf: Option<Route>, routes: set<Route>, key: Key)
    requires LeafOk(leaf, routes, key)
    ensures Leaf(Under(routes, key), |key|) == leaf
  {
    forall r | r in Under(routes, key) && |FullKey(r.pattern)| == |key|
      ensures FullKey(r.pattern) == key
    {
      assert FullKey(r.pattern)[..|key|] == FullKey(r.pattern);
    }
  }

  // ----- Adding a route

  /** There is no node below a missing node. */
  lemma NoNodeBelow(at: Nodes, routes: set<Route>, path: Key, next: Key, j: string)
    requires forall key :: key in at <==> key == [] || Under(routes, key) != {} || key <= path
    requires next !in at
    ensures next + [j] !in at
  {
    UnderShrinks(routes, next, j);
    PrefixShrinks(next, j, path);
  }

  lemma PrefixShrinks(key: Key, j: string, path: Key)
    ensures key + [j] <= path ==> key <= path
  {
  }

  lemma UnderShrinks(routes: set<Route>, key: Key, j: string)
    ensures Under(routes, key + [j]) <= Under(routes, key)
  {
    forall r | r in Under(routes, key + [j])
      ensures r in Under(routes, key)
    {
      PrefixShrinks(key, j, FullKey(r.pattern));
    }
  }

  lemma ExtendsByOne(path: Key, k: string, key: Key, j: string)
    ensures key + [j] == path + [k] <==> key == path && j == k
    ensures key <= path + [k] <==> key <= path || key == path + [k]
  {
    if key + [j] == path + [k] {
      assert key == (key + [j])[..|key|];
      assert path == (path + [k])[..|path|];
      assert j == (key + [j])[|key|];
    }
    if key <= path + [k] && key != path + [k] {
      assert |key| <= |path|;
    }
  }

  /** One addChild on the way down the key path. */
  method Descend(n: RoutingNode, ghost at: Nodes, ghost routes: set<Route>, ghost path: Key, k: string)
    returns (c: RoutingNode, ghost at': Nodes)
    requires TreeWith(at, routes, path) && path in at && at[path] == n
    modifies n`emptyChild, n.children
    ensures TreeWith(at', routes, path + [k]) && path + [k] in at' && at'[path + [k]] == c
    ensures forall key :: key in at ==> key in at' && at'[key] == at[key]
    ensures forall key :: key in at' && key !in at ==> fresh(at'[key]) && fresh(at'[key].children)
  {
    assert Linked(at, path);
    c := n.AddChild(k);
    TreeBelow(at, routes, path, k, c);
    at' := at[path + [k] := c];
  }

  /** The tree when the node at path has the child c for k. */
  lemma TreeBelow(at: Nodes, routes: set<Route>, path: Key, k: string, c: RoutingNode)
    requires forall key :: key in at <==> key == [] || Under(routes, key) != {} || key <= path
    requires forall key :: key in at ==> LeafOk(at[key].leaf, routes, key)
    requires forall key1, key2 :: key1 in at && key2 in at && key1 != key2 ==> Apart(at[key1], at[key2])
    requires path in at && at[path].children.Valid() && "" !in at[path].children.Contents()
    requires forall key :: key in at && key != path ==> Linked(at, key)
    requires forall j :: at[path].Child(j) == if j == k then c else Next(at, path, j)
    requires if path + [k] in at then at[path + [k]] == c
             else c.Empty() && c.leaf == None && forall key :: key in at ==> Apart(at[key], c)
    ensures TreeWith(at[path + [k] := c], routes, path + [k])
  {
    LinkedBelow(at, routes, path, k, c);
    if path + [k] !in at {
      NewLeafOk(at, routes, path, path + [k]);
    }
    hide Under, LeafOk, Linked;
    forall key
      ensures key in at[path + [k] := c] <==> key == [] || Under(routes, key) != {} || key <= path + [k]
    {
      ExtendsByOne(path, k, key, k);
    }
  }

  /** The links stay right when the node at path has a child c for k. */
  lemma LinkedBelow(at: Nodes, routes: set<Route>, path: Key, k: string, c: RoutingNode)
    requires forall key :: key in at <==> key == [] || Under(routes, key) != {} || key <= path
    requires path in at && at[path].children.Valid() && "" !in at[path].children.Contents()
    requires forall key :: key in at && key != path ==> Linked(at, key)
    requires forall j :: at[path].Child(j) == if j == k then c else Next(at, path, j)
    requires if path + [k] in at then at[path + [k]] == c else c.Empty()
    ensures var at' := at[path + [k] := c]; forall key :: key in at' ==> Linked(at', key)
  {
    var next := path + [k];
    var at' := at[next := c];
    forall key | key in at'
      ensures Linked(at', key)
    {
      assert key in at && key != path ==> Linked(at, key);
      forall j
        ensures at'[key].Child(j) == Next(at', key, j)
      {
        ExtendsByOne(path, k, key, j);
        if next !in at {
          NoNodeBelow(at, routes, path, next, j);
        }
      }
    }
  }

  lemma NewLeafOk(at: Nodes, routes: set<Route>, path: Key, next: Key)
    requires forall key :: key in at <==> key == [] || Under(routes, key) != {} || key <= path
    requires next !in at
    ensures LeafOk(None, routes, next)
  {
    assert forall r :: r in routes && FullKey(r.pattern) == next ==> r in Under(routes, next);
  }

  /** set, on the node at the end of the key path. */
  method SetLeaf(n: RoutingNode, route: Route, ghost at: Nodes, ghost routes: set<Route>) returns (ok: bool)
    requires TreeWith(at, routes, FullKey(route.pattern))
    requires FullKey(route.pattern) in at && at[FullKey(route.pattern)] == n
    modifies n`leaf
    ensures ok <==> forall r :: r in routes ==> FullKey(r.pattern) != FullKey(route.pattern)
    ensures ok ==> TreeWith(at, routes + {route}, [])
  {
    ok := n.Set(route);
    if ok {
      Finish(at, routes, route);
    }
  }

  /** addSegments, on the node of the given key path. */
  method AddSegments(n: RoutingNode, segs: seq<Segment>, route: Route, ghost at: Nodes, ghost routes: set<Route>, ghost path: Key)
    returns (ok: bool, ghost at': Nodes)
    requires SegmentsOk(segs) && path + PathKey(segs) == FullKey(route.pattern)
    requires TreeWith(at, routes, path) && path in at && at[path] == n
    modifies Heap(at)
    ensures ok <==> forall r :: r in routes ==> FullKey(r.pattern) != FullKey(route.pattern)
    ensures ok ==> TreeWith(at', routes + {route}, [])
    ensures forall key :: key in at ==> key in at' && at'[key] == at[key]
    ensures forall key :: key in at' && key !in at ==> fresh(at'[key]) && fresh(at'[key].children)
    decreases |segs|
  {
    hide Linked, LeafOk, Under, Apart;
    at' := at;
    if |segs| == 0 {
      assert path + [] == path;
      ok := SetLeaf(n, route, at, routes);
      return;
    }
    var seg := segs[0];
    assert path + PathKey(segs) == path + [SegmentKey(seg)] + PathKey(segs[1..]);
    var c;
    if seg.multi {
      c, at' := Descend(n, at, routes, path, MULTI_KEY);
      assert path + [MULTI_KEY] == FullKey(route.pattern);
      ok := SetLeaf(c, route, at', routes);
    } else {
      c, at' := Descend(n, at, routes, path, if seg.wild then WILD_KEY else seg.s);
      ok, at' := AddSegments(c, segs[1..], route, at', routes, path + [SegmentKey(seg)]);
    }
  }

  /** The route is in place at the end of its key path. */
  lemma Finish(at: Nodes, routes: set<Route>, route: Route)
    requires forall key :: key in at <==> key == [] || Under(routes, key) != {} || key <= FullKey(route.pattern)
    requires forall key :: key in at ==> Linked(at, key)
    requires forall key :: key in at && key != FullKey(route.pattern) ==> LeafOk(at[key].leaf, routes, key)
    requires forall key1, key2 :: key1 in at && key2 in at && key1 != key2 ==> Apart(at[key1], at[key2])
    requires FullKey(route.pattern) in at && at[FullKey(route.pattern)].leaf == Some(route)
    requires LeafOk(None, routes, FullKey(route.pattern))
    ensures TreeWith(at, routes + {route}, [])
  {
    forall key
      ensures Under(routes + {route}, key) == Under(routes, key) + if key <= FullKey(route.pattern) then {route} else {}
    {
    }
    forall key | key in at
      ensures LeafOk(at[key].leaf, routes + {route}, key)
    {
    }
  }

  /** addPattern. */
  method AddPattern(root: RoutingNode, route: Route, ghost at: Nodes, ghost routes: set<Route>)
    returns (ok: bool, ghost at': Nodes)
    requires Tree(root, at, routes) && WellFormed(route.pattern)
    modifies Heap(at)
    ensures ok <==> forall r :: r in routes ==> FullKey(r.pattern) != FullKey(route.pattern)
    ensures ok ==> Tree(root, at', routes + {route})
    ensures forall key :: key in at ==> key in at' && at'[key] == at[key]
    ensures forall key :: key in at' && key !in at ==> fresh(at'[key]) && fresh(at'[key].children)
  {
    hide Linked, LeafOk, Under, Apart;
    var p := route.pattern;
    var n;
    n, at' := Descend(root, at, routes, [], p.host);
    n, at' := Descend(n, at', routes, [] + [p.host], p.verb);
    assert [] + [p.host] + [p.verb] + PathKey(p.segments) == FullKey(p);
    ok, at' := AddSegments(n, p.segments, route, at', routes, [] + [p.host] + [p.verb]);
  }

  // ----- The search

  /** One step of the search, in terms of the routes below the three children tried. */
  lemma MatchPathStep(unescape: string -> string, routes: set<Route>, key: Key, path: string, values: seq<string>,
                      seg: string, rest: string)
    requires path != "" && (seg, rest) == FirstSegment(unescape, path)
    ensures var literal := MatchPath(unescape, Under(routes, key + [seg]), |key| + 1, rest, values);
            var wild := MatchPath(unescape, Under(routes, key + [WILD_KEY]), |key| + 1, rest, values + [seg]);
            MatchPath(unescape, Under(routes, key), |key|, path, values) ==
            if literal != NotFound then literal
            else if seg != SLASH && wild != NotFound then wild
            else MatchMulti(unescape, Under(routes, key + [MULTI_KEY]), |key| + 1, path, values)
  {
    UnderBelow(routes, key, seg);
    UnderBelow(routes, key, WILD_KEY);
    UnderBelow(routes, key, MULTI_KEY);
    MatchPathUnfold(unescape, Under(routes, key), |key|, path, values, seg, rest);
  }

  /** matchPath, on the node of the given key path; a nil dereference is reported as an outcome. */
  method MatchPathFrom(unescape: string -> string, n: RoutingNode?, path: string, values: seq<string>,
                       ghost at: Nodes, ghost routes: set<Route>, ghost key: Key)
    returns (r: Outcome)
    requires TreeWith(at, routes, [])
    requires n == Node(at, key)
    ensures r == MatchPath(unescape, Under(routes, key), |key|, path, values)
    decreases |path|, 1
  {
    if n == null {
      assert Under(routes, key) == {};
      EmptyNotFound(unescape, |key|, path, values);
      return NotFound;
    }
    if path == "" {
      LeafUnder(n.leaf, routes, key);
      return if n.leaf.None? then NotFound else Found(n.leaf.value, values);
    }
    r := MatchChildren(unescape, n, path, values, at, routes, key);
  }

  /** The rest of matchPath, for a node and a path that is not empty. */
  method MatchChildren(unescape: string -> string, n: RoutingNode, path: string, values: seq<string>,
                       ghost at: Nodes, ghost routes: set<Route>, ghost key: Key)
    returns (r: Outcome)
    requires TreeWith(at, routes, []) && path != ""
    requires key in at && n == at[key]
    ensures r == MatchPath(unescape, Under(routes, key), |key|, path, values)
    decreases |path|, 0
  {
    hide MatchPath, MatchMulti, Linked, LeafOk, Under, Apart;
    var (seg, rest) := FirstSegment(unescape, path);
    MatchPathStep(unescape, routes, key, path, values, seg, rest);
    r := MatchChild(unescape, n, seg, rest, values, at, routes, key);
    if r != NotFound {
      return;
    }
    if seg != SLASH {
      r := MatchChild(unescape, n, WILD_KEY, rest, values + [seg], at, routes, key);
      if r != NotFound {
        return;
      }
    }
    var c := ChildAt(n, MULTI_KEY, at, routes, key);
    r := MatchMultiFrom(unescape, c, path, values, at, routes, key + [MULTI_KEY]);
  }

  /** findChild, on the node of the given key path. */
  method ChildAt(n: RoutingNode, k: string, ghost at: Nodes, ghost routes: set<Route>, ghost key: Key)
    returns (c: RoutingNode?)
    requires TreeWith(at, routes, []) && key in at && n == at[key]
    ensures c == Node(at, key + [k])
  {
    assert Linked(at, key);
    c := n.FindChild(k);
  }

  /** matchPath on one child. */
  method MatchChild(unescape: string -> string, n: RoutingNode, k: string, path: string, values: seq<string>,
                    ghost at: Nodes, ghost routes: set<Route>, ghost key: Key)
    returns (r: Outcome)
    requires TreeWith(at, routes, [])
    requires key in at && n == at[key]
    ensures r == MatchPath(unescape, Under(routes, key + [k]), |key| + 1, path, values)
    decreases |path|, 2
  {
    var c := ChildAt(n, k, at, routes, key);
    r := MatchPathFrom(unescape, c, path, values, at, routes, key + [k]);
  }

  method MatchMultiFrom(unescape: string -> string, c: RoutingNode?, path: string, values: seq<string>,
                        ghost at: Nodes, ghost routes: set<Route>, ghost key: Key)
    returns (r: Outcome)
    requires TreeWith(at, routes, []) && key != [] && path != ""
    requires c == Node(at, key)
    ensures r == MatchMulti(unescape, Under(routes, key), |key|, path, values)
  {
    if c == null {
      return NotFound;
    }
    LeafUnder(c.leaf, routes, key);
    if c.leaf.None? || c.leaf.value.pattern.segments == [] {
      return NilDereference;
    }
    if LastSegment(c.leaf.value.pattern).s != "" {
      return Found(c.leaf.value, values + [unescape(path[1..])]);
    }
    return Found(c.leaf.value, values);
  }

  lemma MatchMethodStep(unescape: string -> string, routes: set<Route>, key: Key, verb: string, path: string)
    requires |key| == 1
    ensures var exact := MatchPath(unescape, Under(routes, key + [verb]), 2, path, []);
            var get := MatchPath(unescape, Under(routes, key + ["GET"]), 2, path, []);
            MatchMethodAndPath(unescape, Under(routes, key), verb, path) ==
            if exact != NotFound then exact
            else if verb == "HEAD" && get != NotFound then get
            else MatchPath(unescape, Under(routes, key + [""]), 2, path, [])
  {
    UnderBelow(routes, key, verb);
    UnderBelow(routes, key, "GET");
    UnderBelow(routes, key, "");
  }

  lemma NoHostNotFound(unescape: string -> string, verb: string, path: string)
    ensures MatchMethodAndPath(unescape, {}, verb, path) == NotFound
  {
    assert forall k :: Below({}, 1, k) == {};
    EmptyNotFound(unescape, 2, path, []);
  }

  /** matchMethodAndPath, on the node of one host. */
  method MatchMethodAndPathFrom(unescape: string -> string, n: RoutingNode?, verb: string, path: string,
                                ghost at: Nodes, ghost routes: set<Route>, ghost key: Key)
    returns (r: Outcome)
    requires TreeWith(at, routes, []) && |key| == 1
    requires n == Node(at, key)
    ensures r == MatchMethodAndPath(unescape, Under(routes, key), verb, path)
  {
    if n == null {
      assert Under(routes, key) == {};
      NoHostNotFound(unescape, verb, path);
      return NotFound;
    }
    r := MatchMethods(unescape, n, verb, path, at, routes, key);
  }

  method MatchMethods(unescape: string -> string, n: RoutingNode, verb: string, path: string,
                      ghost at: Nodes, ghost routes: set<Route>, ghost key: Key)
    returns (r: Outcome)
    requires TreeWith(at, routes, []) && |key| == 1
    requires key in at && n == at[key]
    ensures r == MatchMethodAndPath(unescape, Under(routes, key), verb, path)
  {
    hide MatchPath, MatchMethodAndPath, Linked, LeafOk, Under, Apart;
    r := MatchChild(unescape, n, verb, path, [], at, routes, key);
    if r == NotFound && verb == "HEAD" {
      r := MatchChild(unescape, n, "GET", path, [], at, routes, key);
    }
    if r == NotFound {
      r := MatchChild(unescape, n, "", path, [], at, routes, key);
    }
    MatchMethodStep(unescape, routes, key, verb, path);
  }

  /** match. */
  method MatchFrom(unescape: string -> string, root: RoutingNode, host: string, verb: string, path: string,
                   ghost at: Nodes, ghost routes: set<Route>)
    returns (r: Outcome)
    requires Tree(root, at, routes)
    ensures r == Match(unescape, routes, host, verb, path)
  {
    assert Under(routes, []) == routes;
    UnderBelow(routes, [], host);
    UnderBelow(routes, [], "");
    if host != "" {
      var c := ChildAt(root, host, at, routes, []);
      r := MatchMethodAndPathFrom(unescape, c, verb, path, at, routes, [] + [host]);
      if r != NotFound {
        return;
      }
    }
    var c := ChildAt(root, "", at, routes, []);
    r := MatchMethodAndPathFrom(unescape, c, verb, path, at, routes, [] + [""]);
  }
}
