/** The methods that would match a path (routing_tree.go, server.go), which the Allow header lists. */
module RoutingMethods {
  import opened Patterns
  import opened Mappings
  import opened RoutingTree
  import opened RoutingTheorems
  import opened RoutingNodes
  import opened ServeMuxes

  // ----- One host

  /** What the search finds under one method. */
  ghost function UnderMethod(unescape: string -> string, routes: set<Route>, verb: string, path: string): Outcome {
    MatchPath(unescape, Below(routes, 1, verb), 2, path, [])
  }

  ghost predicate Answers(unescape: string -> string, routes: set<Route>, verb: string, path: string) {
    verb != "" && UnderMethod(unescape, routes, verb, path).Found?
  }

  /** The methods under which the search finds something; patterns for any method are not asked. */
  ghost function MethodsFound(unescape: string -> string, routes: set<Route>, path: string): set<string> {
    set r | r in routes && Answers(unescape, routes, r.pattern.verb, path) :: r.pattern.verb
  }

  /** A method under which the search dereferences nil. */
  ghost predicate Derefs(unescape: string -> string, routes: set<Route>, path: string) {
    exists verb :: verb != "" && UnderMethod(unescape, routes, verb, path).NilDereference?
  }

  lemma FoundIffAnswers(unescape: string -> string, routes: set<Route>, verb: string, path: string)
    ensures verb in MethodsFound(unescape, routes, path) <==> Answers(unescape, routes, verb, path)
  {
    if Answers(unescape, routes, verb, path) {
      if Below(routes, 1, verb) == {} {
        EmptyNotFound(unescape, 2, path, []);
        assert false;
      }
      var r :| r in Below(routes, 1, verb);
      KeysOf(r.pattern);
      assert r.pattern.verb == verb;
    }
  }

  /** A pattern for the method and path there is. */
  ghost predicate Registered(unescape: string -> string, routes: set<Route>, verb: string, path: string) {
    exists q :: q in routes && q.pattern.verb == verb && MatchesPath(q.pattern.segments, Tokens(unescape, path))
  }

  /** Under one host, something is found under exactly the methods of the patterns that match. */
  lemma MethodsExact(unescape: string -> string, routes: set<Route>, host: string, path: string)
    requires OneHost(routes, host) && CleanPath(Tokens(unescape, path))
    ensures !Derefs(unescape, routes, path)
    ensures forall verb :: verb in MethodsFound(unescape, routes, path) <==> verb != "" && Registered(unescape, routes, verb, path)
  {
    forall verb: string
      ensures !UnderMethod(unescape, routes, verb, path).NilDereference?
      ensures verb in MethodsFound(unescape, routes, path) <==> verb != "" && Registered(unescape, routes, verb, path)
    {
      FoundIffAnswers(unescape, routes, verb, path);
      MethodExact(unescape, routes, host, verb, path);
    }
  }

  lemma MethodExact(unescape: string -> string, routes: set<Route>, host: string, verb: string, path: string)
    requires OneHost(routes, host) && CleanPath(Tokens(unescape, path))
    ensures UnderMethod(unescape, routes, verb, path).Found? <==> Registered(unescape, routes, verb, path)
    ensures !UnderMethod(unescape, routes, verb, path).NilDereference?
  {
    TriedNode(unescape, routes, host, verb, path);
    MethodNode(routes, host, verb);
    hide MatchPath, OneHost;
    assert forall r :: r in routes ==> Rest(r, 0) == r.pattern.segments;
  }

  // ----- Both hosts

  /** The patterns asked: those for the host and those for every host. */
  ghost function AllFound(unescape: string -> string, routes: set<Route>, host: string, path: string): set<string> {
    (if host != "" then MethodsFound(unescape, Below(routes, 0, host), path) else {}) + MethodsFound(unescape, Below(routes, 0, ""), path)
  }

  function WithHead(methods: set<string>): set<string> {
    if "GET" in methods then methods + {"HEAD"} else methods
  }

  /** The methods that matchingMethods lists. */
  ghost function Allowed(unescape: string -> string, routes: set<Route>, host: string, path: string): set<string> {
    WithHead(AllFound(unescape, routes, host, path))
  }

  ghost predicate AllowedDerefs(unescape: string -> string, routes: set<Route>, host: string, path: string) {
    (host != "" && Derefs(unescape, Below(routes, 0, host), path)) || Derefs(unescape, Below(routes, 0, ""), path)
  }

  /** The methods are exactly those of the registered patterns for the host and path, and HEAD if GET
      is one. */
  lemma AllowedExactly(unescape: string -> string, routes: set<Route>, host: string, path: string)
    requires Table(routes) && TableReservedFree(routes) && CleanPath(Tokens(unescape, path))
    ensures !AllowedDerefs(unescape, routes, host, path)
    ensures forall verb :: verb in Allowed(unescape, routes, host, path) <==>
              exists q :: q in routes && (q.pattern.host == "" || q.pattern.host == host) && q.pattern.verb != ""
                          && (q.pattern.verb == verb || (q.pattern.verb == "GET" && verb == "HEAD"))
                          && MatchesPath(q.pattern.segments, Tokens(unescape, path))
  {
    FoundExactly(unescape, routes, "", path);
    if host != "" {
      FoundExactly(unescape, routes, host, path);
    }
    hide MethodsFound, Derefs, CleanPath, Table, TableReservedFree, MatchesPath, Below, Tokens;
  }

  lemma FoundExactly(unescape: string -> string, routes: set<Route>, host: string, path: string)
    requires Table(routes) && TableReservedFree(routes) && CleanPath(Tokens(unescape, path))
    ensures !Derefs(unescape, Below(routes, 0, host), path)
    ensures forall verb :: verb in MethodsFound(unescape, Below(routes, 0, host), path) <==>
              exists q :: q in routes && q.pattern.host == host && q.pattern.verb == verb != ""
                          && MatchesPath(q.pattern.segments, Tokens(unescape, path))
  {
    HostNode(routes, host);
    MethodsExact(unescape, Below(routes, 0, host), host, path);
    hide MethodsFound, Derefs, CleanPath, Table, TableReservedFree, MatchesPath, Tokens, OneHost;
  }

  /** When some method is not answered, the methods listed are exactly those that would be. */
  lemma AllowedAreMatched(unescape: string -> string, routes: set<Route>, host: string, path: string, refused: string, verb: string)
    requires Table(routes) && TableReservedFree(routes) && CleanPath(Tokens(unescape, path))
    requires Match(unescape, routes, host, refused, path) == NotFound && verb != ""
    ensures verb in Allowed(unescape, routes, host, path) <==> Match(unescape, routes, host, verb, path) != NotFound
  {
    AllowedExactly(unescape, routes, host, path);
    MatchBest(unescape, routes, host, refused, path);
    MatchBest(unescape, routes, host, verb, path);
    hide Match, Allowed, Table, CleanPath;
  }

  // ----- The walk over the nodes

  /** matchingMethodsPath, on the node of one host; panicked stands for a nil dereference. */
  method MatchingMethodsPath(unescape: string -> string, n: RoutingNode?, path: string, methods: set<string>,
                             ghost at: Nodes, ghost routes: set<Route>, ghost key: Key)
    returns (methods': set<string>, panicked: bool)
    requires TreeWith(at, routes, []) && |key| == 1 && n == Node(at, key)
    ensures panicked <==> Derefs(unescape, Under(routes, key), path)
    ensures !panicked ==> methods' == methods + MethodsFound(unescape, Under(routes, key), path)
  {
    methods', panicked := methods, false;
    if n == null {
      NothingThere(unescape, at, routes, path, key);
      return;
    }
    hide Linked, LeafOk, Apart, MethodsFound, Derefs, Verbs;
    var pairs := ChildPairs(n, at, routes, key);
    methods', panicked := AskAll(unescape, pairs, path, methods, at, routes, key);
  }

  /** The pairs that eachPair visits. */
  method ChildPairs(n: RoutingNode, ghost at: Nodes, ghost routes: set<Route>, ghost key: Key)
    returns (pairs: seq<(string, RoutingNode)>)
    requires TreeWith(at, routes, []) && key in at && n == at[key]
    ensures forall i :: 0 <= i < |pairs| ==> pairs[i].0 != "" && Node(at, key + [pairs[i].0]) == pairs[i].1
    ensures "" !in Verbs(pairs) && forall verb :: verb != "" && verb !in Verbs(pairs) ==> Under(routes, key + [verb]) == {}
  {
    var all := (k: string, c: RoutingNode) => true;
    assert Linked(at, key);
    pairs := n.children.EachPair(all);
    PairsAreChildren(n, at, routes, key, pairs, all);
  }

  /** The search under all children. */
  method AskAll(unescape: string -> string, pairs: seq<(string, RoutingNode)>, path: string, methods: set<string>,
                ghost at: Nodes, ghost routes: set<Route>, ghost key: Key)
    returns (methods': set<string>, panicked: bool)
    requires TreeWith(at, routes, []) && |key| == 1 && "" !in Verbs(pairs)
    requires forall i :: 0 <= i < |pairs| ==> pairs[i].0 != "" && Node(at, key + [pairs[i].0]) == pairs[i].1
    requires forall verb :: verb != "" && verb !in Verbs(pairs) ==> Under(routes, key + [verb]) == {}
    ensures panicked <==> Derefs(unescape, Under(routes, key), path)
    ensures !panicked ==> methods' == methods + MethodsFound(unescape, Under(routes, key), path)
  {
    OnlyChildren(unescape, routes, path, key, Verbs(pairs));
    hide Linked, LeafOk, Apart, Under, UnderMethod, Derefs, MethodsFound, Verbs, Asked;
    methods', panicked := AskEach(unescape, pairs, path, methods, at, routes, key);
    AskedAll(unescape, routes, path, key, pairs);
  }

  function Verbs(pairs: seq<(string, RoutingNode)>): set<string> {
    set p | p in pairs :: p.0
  }

  /** The pairs visited are the nodes one key further, without that for the empty key. */
  lemma PairsAreChildren(n: RoutingNode, at: Nodes, routes: set<Route>, key: Key, pairs: seq<(string, RoutingNode)>,
                         f: (string, RoutingNode) -> bool)
    requires TreeWith(at, routes, []) && key in at && n == at[key]
    requires Visited(pairs, n.children.Contents(), f) && forall k, c :: f(k, c)
    ensures forall i :: 0 <= i < |pairs| ==> pairs[i].0 != "" && Node(at, key + [pairs[i].0]) == pairs[i].1
    ensures "" !in Verbs(pairs) && forall verb :: verb != "" && verb !in Verbs(pairs) ==> Under(routes, key + [verb]) == {}
  {
    assert Linked(at, key);
    forall i | 0 <= i < |pairs|
      ensures pairs[i].0 != "" && Node(at, key + [pairs[i].0]) == pairs[i].1
    {
      assert n.Child(pairs[i].0) == Next(at, key, pairs[i].0);
    }
    forall verb | verb in n.children.Contents()
      ensures verb in Verbs(pairs)
    {
      var i :| 0 <= i < |pairs| && pairs[i].0 == verb;
      assert pairs[i] in pairs;
    }
    forall verb | verb != "" && verb !in Verbs(pairs)
      ensures Under(routes, key + [verb]) == {}
    {
      assert n.Child(verb) == Next(at, key, verb);
    }
  }

  /** The search under each child. */
  method AskEach(unescape: string -> string, pairs: seq<(string, RoutingNode)>, path: string, methods: set<string>,
                 ghost at: Nodes, ghost routes: set<Route>, ghost key: Key)
    returns (methods': set<string>, panicked: bool)
    requires TreeWith(at, routes, []) && |key| == 1
    requires forall i :: 0 <= i < |pairs| ==> pairs[i].0 != "" && Node(at, key + [pairs[i].0]) == pairs[i].1
    ensures panicked <==> exists i :: 0 <= i < |pairs| && UnderMethod(unescape, Under(routes, key), pairs[i].0, path).NilDereference?
    ensures !panicked ==> forall verb :: verb in methods' <==> verb in methods || Asked(unescape, routes, path, key, pairs, verb)
  {
    hide Linked, LeafOk, Apart, Under, MatchPath;
    methods', panicked := methods, false;
    for i := 0 to |pairs|
      invariant forall j :: 0 <= j < i ==> !UnderMethod(unescape, Under(routes, key), pairs[j].0, path).NilDereference?
      invariant forall verb :: verb in methods' <==> verb in methods || Asked(unescape, routes, path, key, pairs[..i], verb)
    {
      var (verb, c) := pairs[i];
      UnderBelow(routes, key, verb);
      assert pairs[..i + 1] == pairs[..i] + [pairs[i]];
      var r := MatchPathFrom(unescape, c, path, [], at, routes, key + [verb]);
      if r.NilDereference? {
        return methods', true;
      }
      if r.Found? {
        methods' := methods' + {verb};
      }
      AskedNext(unescape, routes, path, key, pairs[..i], pairs[i]);
    }
    assert pairs[..|pairs|] == pairs;
  }

  ghost predicate Asked(unescape: string -> string, routes: set<Route>, path: string, key: Key,
                        pairs: seq<(string, RoutingNode)>, verb: string)
  {
    verb in Verbs(pairs) && Answers(unescape, Under(routes, key), verb, path)
  }

  lemma AskedNext(unescape: string -> string, routes: set<Route>, path: string, key: Key,
                  pairs: seq<(string, RoutingNode)>, p: (string, RoutingNode))
    ensures forall verb :: Asked(unescape, routes, path, key, pairs + [p], verb) <==>
              Asked(unescape, routes, path, key, pairs, verb) || (verb == p.0 && Answers(unescape, Under(routes, key), verb, path))
  {
    assert Verbs(pairs + [p]) == Verbs(pairs) + {p.0} by {
      forall verb
        ensures verb in Verbs(pairs) + {p.0} ==> verb in Verbs(pairs + [p])
      {
        if verb in Verbs(pairs) {
          var q :| q in pairs && q.0 == verb;
          assert q in pairs + [p];
        } else if verb == p.0 {
          assert p in pairs + [p];
        }
      }
    }
    hide Answers, Verbs;
  }

  lemma AskedAll(unescape: string -> string, routes: set<Route>, path: string, key: Key, pairs: seq<(string, RoutingNode)>)
    requires "" !in Verbs(pairs)
    requires forall verb :: verb != "" && verb !in Verbs(pairs) ==> UnderMethod(unescape, Under(routes, key), verb, path) == NotFound
    ensures forall verb :: Asked(unescape, routes, path, key, pairs, verb) <==> verb in MethodsFound(unescape, Under(routes, key), path)
    ensures Derefs(unescape, Under(routes, key), path) <==>
              exists i :: 0 <= i < |pairs| && UnderMethod(unescape, Under(routes, key), pairs[i].0, path).NilDereference?
  {
    hide UnderMethod, Under;
    forall verb
      ensures Asked(unescape, routes, path, key, pairs, verb) <==> verb in MethodsFound(unescape, Under(routes, key), path)
    {
      FoundIffAnswers(unescape, Under(routes, key), verb, path);
    }
    forall i | 0 <= i < |pairs|
      ensures pairs[i].0 in Verbs(pairs)
    {
      assert pairs[i] in pairs;
    }
  }

  lemma NothingThere(unescape: string -> string, at: Nodes, routes: set<Route>, path: string, key: Key)
    requires TreeWith(at, routes, []) && |key| == 1 && key !in at
    ensures !Derefs(unescape, Under(routes, key), path) && MethodsFound(unescape, Under(routes, key), path) == {}
  {
    assert Under(routes, key) == {};
    forall verb: string
      ensures UnderMethod(unescape, {}, verb, path) == NotFound
    {
      assert Below({}, 1, verb) == {};
      EmptyNotFound(unescape, 2, path, []);
    }
  }

  /** Under a method without a child nothing is found. */
  lemma OnlyChildren(unescape: string -> string, routes: set<Route>, path: string, key: Key, verbs: set<string>)
    requires |key| == 1 && forall verb :: verb != "" && verb !in verbs ==> Under(routes, key + [verb]) == {}
    ensures forall verb :: verb != "" && verb !in verbs ==> UnderMethod(unescape, Under(routes, key), verb, path) == NotFound
  {
    forall verb | verb != "" && verb !in verbs
      ensures UnderMethod(unescape, Under(routes, key), verb, path) == NotFound
    {
      UnderBelow(routes, key, verb);
      EmptyNotFound(unescape, 2, path, []);
    }
  }

  /** matchingMethods. */
  method MatchingMethods(unescape: string -> string, root: RoutingNode, host: string, path: string, methods: set<string>,
                         ghost at: Nodes, ghost routes: set<Route>)
    returns (methods': set<string>, panicked: bool)
    requires Tree(root, at, routes)
    ensures panicked <==> AllowedDerefs(unescape, routes, host, path)
    ensures !panicked ==> methods' == WithHead(methods + AllFound(unescape, routes, host, path))
  {
    hide Linked, LeafOk, Apart, MethodsFound, Derefs;
    assert Under(routes, []) == routes;
    UnderBelow(routes, [], host);
    UnderBelow(routes, [], "");
    methods', panicked := methods, false;
    if host != "" {
      var c := ChildAt(root, host, at, routes, []);
      methods', panicked := MatchingMethodsPath(unescape, c, path, methods', at, routes, [] + [host]);
      if panicked {
        return;
      }
    }
    var c := ChildAt(root, "", at, routes, []);
    methods', panicked := MatchingMethodsPath(unescape, c, path, methods', at, routes, [] + [""]);
    if "GET" in methods' {
      methods' := methods' + {"HEAD"};
    }
  }

  /** ServeMux.matchingMethods, before sorting: also the methods for the path with a slash. */
  method MuxMatchingMethods(unescape: string -> string, mux: ServeMux, host: string, path: string)
    returns (methods: set<string>, panicked: bool)
    requires mux.Valid()
    ensures panicked <==> AllowedDerefs(unescape, mux.routes, host, path) || AllowedDerefs(unescape, mux.routes, host, path + "/")
    ensures !panicked ==> methods == Allowed(unescape, mux.routes, host, path) + Allowed(unescape, mux.routes, host, path + "/")
  {
    methods, panicked := MatchingMethods(unescape, mux.tree, host, path, {}, mux.nodes, mux.routes);
    if !panicked {
      methods, panicked := MatchingMethods(unescape, mux.tree, host, path + "/", methods, mux.nodes, mux.routes);
    }
  }
}
