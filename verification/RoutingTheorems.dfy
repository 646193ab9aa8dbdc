/** The decision tree returns the matching pattern of highest precedence, and the wildcard
    values line up with the pattern's named wildcards (routing_tree.go, request.go). */
module RoutingTheorems {
  import opened Foundations
  import opened Patterns
  import opened RoutingTree

  // ----- One host

  lemma KeysOf(p: Pattern)
    ensures FullKey(p)[0] == p.host && FullKey(p)[1] == p.verb
  {
  }

  ghost predicate OneHost(routes: set<Route>, host: string) {
    && Table(routes) && TableReservedFree(routes)
    && forall r :: r in routes ==> r.pattern.host == host
  }

  lemma MethodNode(routes: set<Route>, host: string, verb: string)
    requires OneHost(routes, host)
    ensures PathNode(Below(routes, 1, verb), 0)
    ensures forall r :: r in routes ==> (r in Below(routes, 1, verb) <==> r.pattern.verb == verb)
  {
    forall r | r in routes
      ensures r in Below(routes, 1, verb) <==> r.pattern.verb == verb
      ensures Rest(r, 0) == r.pattern.segments
    {
      KeysOf(r.pattern);
    }
    forall r1, r2 | r1 in Below(routes, 1, verb) && r2 in Below(routes, 1, verb) && r1 != r2
      ensures Ordered(Rest(r1, 0), Rest(r2, 0))
    {
      assert !Conflicts(r1.pattern, r2.pattern);
    }
  }

  /** Of two matching patterns of one host without conflict, the one that is more specific in
      its method, or equal in its method and more specific in its path, is more specific. */
  lemma MethodDecides(p: Pattern, q: Pattern, verb: string, path: Path)
    requires WellFormed(p) && WellFormed(q) && p.host == q.host && !Conflicts(p, q)
    requires Matches(p, verb, path) && Matches(q, verb, path)
    requires CompareMethods(p, q) == MoreSpecific ||
             (p.verb == q.verb && Relation(p.segments, q.segments) == MoreSpecific)
    ensures Precedes(p, q)
  {
    ComparisonExact(p, q);
  }

  ghost predicate BestOfHost(unescape: string -> string, routes: set<Route>, verb: string, path: string, r: Outcome) {
    match r
    case NilDereference => false
    case NotFound => forall q :: q in routes ==> !Matches(q.pattern, verb, Tokens(unescape, path))
    case Found(route, values) =>
      && route in routes
      && Matches(route.pattern, verb, Tokens(unescape, path))
      && values == Captures(unescape, route.pattern.segments, path)
      && forall q :: q in routes && q != route && Matches(q.pattern, verb, Tokens(unescape, path)) ==>
           Precedes(route.pattern, q.pattern)
  }

  /** The outcome found under one method wins over every method tried later. */
  lemma MethodBest(unescape: string -> string, routes: set<Route>, host: string, verb: string, tried: string,
                   path: string, r: Outcome)
    requires OneHost(routes, host)
    requires MatchesMethod(tried, verb)
    requires r.Found? && BestFrom(unescape, Below(routes, 1, tried), 0, path, [], r)
    requires forall q :: q in routes && Matches(q.pattern, verb, Tokens(unescape, path)) ==>
               q.pattern.verb == tried || q.pattern.verb == "" || (q.pattern.verb == "GET" && tried == "HEAD")
    ensures BestOfHost(unescape, routes, verb, path, r)
  {
    MethodNode(routes, host, tried);
    var toks := Tokens(unescape, path);
    var p := r.route.pattern;
    assert Rest(r.route, 0) == p.segments;
    Associative([], [], Captures(unescape, p.segments, path));
    forall q | q in routes && q != r.route && Matches(q.pattern, verb, toks)
      ensures Precedes(p, q.pattern)
    {
      assert Rest(q, 0) == q.pattern.segments;
      assert !Conflicts(p, q.pattern);
      MethodDecides(p, q.pattern, verb, toks);
    }
  }

  lemma NoneUnder(unescape: string -> string, routes: set<Route>, host: string, verb: string, tried: string, path: string)
    requires OneHost(routes, host)
    requires NoneMatches(Below(routes, 1, tried), 0, Tokens(unescape, path))
    ensures forall q :: q in routes && Matches(q.pattern, verb, Tokens(unescape, path)) ==> q.pattern.verb != tried
  {
    MethodNode(routes, host, tried);
    forall q | q in routes && Matches(q.pattern, verb, Tokens(unescape, path))
      ensures q.pattern.verb != tried
    {
      assert Rest(q, 0) == q.pattern.segments;
    }
  }

  /** The search under one method. */
  lemma Tried(unescape: string -> string, routes: set<Route>, host: string, verb: string, tried: string, path: string)
    requires OneHost(routes, host) && CleanPath(Tokens(unescape, path)) && MatchesMethod(tried, verb)
    ensures var r := MatchPath(unescape, Below(routes, 1, tried), 2, path, []);
            if r.Found? then
              (forall q :: q in routes && Matches(q.pattern, verb, Tokens(unescape, path)) ==>
                 q.pattern.verb == tried || q.pattern.verb == "" || (q.pattern.verb == "GET" && tried == "HEAD"))
              ==> BestOfHost(unescape, routes, verb, path, r)
            else
              r == NotFound && forall q :: q in routes && Matches(q.pattern, verb, Tokens(unescape, path)) ==> q.pattern.verb != tried
  {
    hide OneHost, CleanPath, BestOfHost, MatchPath, Matches;
    TriedNode(unescape, routes, host, tried, path);
    var r := MatchPath(unescape, Below(routes, 1, tried), 2, path, []);
    if !r.Found? {
      NoneUnder(unescape, routes, host, verb, tried, path);
    } else if forall q :: q in routes && Matches(q.pattern, verb, Tokens(unescape, path)) ==>
                q.pattern.verb == tried || q.pattern.verb == "" || (q.pattern.verb == "GET" && tried == "HEAD") {
      MethodBest(unescape, routes, host, verb, tried, path, r);
    }
  }

  lemma TriedNode(unescape: string -> string, routes: set<Route>, host: string, tried: string, path: string)
    requires OneHost(routes, host) && CleanPath(Tokens(unescape, path))
    ensures BestFrom(unescape, Below(routes, 1, tried), 0, path, [], MatchPath(unescape, Below(routes, 1, tried), 2, path, []))
  {
    MethodNode(routes, host, tried);
    hide OneHost, CleanPath, MatchPath, BestFrom, NoneMatches, Below;
    MatchPathBest(unescape, Below(routes, 1, tried), 0, path, []);
  }

  /** matchMethodAndPath. */
  lemma HostBest(unescape: string -> string, routes: set<Route>, host: string, verb: string, path: string)
    requires OneHost(routes, host) && CleanPath(Tokens(unescape, path))
    ensures BestOfHost(unescape, routes, verb, path, MatchMethodAndPath(unescape, routes, verb, path))
  {
    hide OneHost, CleanPath, MatchPath, Below;
    Tried(unescape, routes, host, verb, verb, path);
    if verb == "HEAD" {
      Tried(unescape, routes, host, verb, "GET", path);
    }
    Tried(unescape, routes, host, verb, "", path);
  }

  // ----- The whole tree

  lemma HostNode(routes: set<Route>, host: string)
    requires Table(routes) && TableReservedFree(routes)
    ensures OneHost(Below(routes, 0, host), host)
    ensures forall r :: r in routes ==> (r in Below(routes, 0, host) <==> r.pattern.host == host)
  {
    forall r | r in routes
      ensures r in Below(routes, 0, host) <==> r.pattern.host == host
    {
      KeysOf(r.pattern);
    }
  }

  /** match returns nil exactly if no pattern matches, and otherwise the one pattern that takes
      precedence over every other that matches, with the values of its wildcards. */
  lemma MatchBest(unescape: string -> string, routes: set<Route>, host: string, verb: string, path: string)
    requires Table(routes) && TableReservedFree(routes)
    requires CleanPath(Tokens(unescape, path))
    ensures Best(unescape, routes, host, verb, path, Match(unescape, routes, host, verb, path))
  {
    HostNode(routes, host);
    HostNode(routes, "");
    HostBest(unescape, Below(routes, 0, ""), "", verb, path);
    if host != "" {
      HostBest(unescape, Below(routes, 0, host), host, verb, path);
    }
  }

  /** Precedence is a strict order on the matching patterns, so the winner is unique. */
  lemma PrecedesAsymmetric(p: Pattern, q: Pattern)
    requires Precedes(p, q)
    ensures !Precedes(q, p)
  {
  }

  // ----- Wildcard values

  /** The number of named wildcards among the first n segments. */
  function NamedBefore(segs: seq<Segment>, n: nat): nat
    requires n <= |segs|
  {
    if n == 0 then 0
    else NamedBefore(segs, n - 1) + if segs[n - 1].wild && segs[n - 1].s != "" then 1 else 0
  }

  lemma {:induction false} NamedBeforeTail(segs: seq<Segment>, n: nat)
    requires 0 < n <= |segs|
    ensures NamedBefore(segs, n) == NamedBefore(segs[1..], n - 1) + if segs[0].wild && segs[0].s != "" then 1 else 0
  {
    if n > 1 {
      NamedBeforeTail(segs, n - 1);
    }
  }

  /** What is left of a path after n segments. */
  function PathAfter(unescape: string -> string, path: string, n: nat): string
    decreases n
  {
    if n == 0 || path == "" then path else PathAfter(unescape, FirstSegment(unescape, path).1, n - 1)
  }

  /** The part of the path that the segment at position i stands for. */
  function ValueAt(unescape: string -> string, segs: seq<Segment>, path: string, i: nat): string
    requires i < |segs| && PathAfter(unescape, path, i) != ""
  {
    var rest := PathAfter(unescape, path, i);
    if segs[i].multi then unescape(rest[1..]) else FirstSegment(unescape, rest).0
  }

  /** One value per named wildcard, in order: the value of the wildcard at position i is at the
      index that counts the named wildcards before it. */
  lemma {:induction false} CapturesAt(unescape: string -> string, segs: seq<Segment>, path: string, i: nat)
    requires SegmentsOk(segs) && MatchesPath(segs, Tokens(unescape, path))
    requires i < |segs|
    ensures PathAfter(unescape, path, i) != ""
    ensures segs[i].wild && segs[i].s != "" ==>
              && NamedBefore(segs, i) < |Captures(unescape, segs, path)|
              && Captures(unescape, segs, path)[NamedBefore(segs, i)] == ValueAt(unescape, segs, path, i)
    decreases i
  {
    assert SegmentOk(segs[0]);
    if i > 0 {
      var (seg, rest) := FirstSegment(unescape, path);
      assert Tokens(unescape, path)[1..] == Tokens(unescape, rest);
      CapturesAt(unescape, segs[1..], rest, i - 1);
      if segs[i].wild && segs[i].s != "" {
        CapturesStep(unescape, segs, path, i, seg, rest);
      }
    }
  }

  lemma CapturesStep(unescape: string -> string, segs: seq<Segment>, path: string, i: nat, seg: string, rest: string)
    requires SegmentsOk(segs) && path != "" && (seg, rest) == FirstSegment(unescape, path)
    requires 0 < i < |segs| && NamedBefore(segs[1..], i - 1) < |Captures(unescape, segs[1..], rest)|
    ensures NamedBefore(segs, i) < |Captures(unescape, segs, path)|
    ensures Captures(unescape, segs, path)[NamedBefore(segs, i)] ==
            Captures(unescape, segs[1..], rest)[NamedBefore(segs[1..], i - 1)]
  {
    assert SegmentOk(segs[0]) && !segs[0].multi;
    var head, tail := if segs[0].wild then [seg] else [], Captures(unescape, segs[1..], rest);
    NamedBeforeTail(segs, i);
    CapturesHead(unescape, segs, path, seg, rest);
    IndexTail(head, tail, NamedBefore(segs[1..], i - 1));
  }

  lemma CapturesHead(unescape: string -> string, segs: seq<Segment>, path: string, seg: string, rest: string)
    requires segs != [] && !segs[0].multi && path != "" && (seg, rest) == FirstSegment(unescape, path)
    ensures Captures(unescape, segs, path) == (if segs[0].wild then [seg] else []) + Captures(unescape, segs[1..], rest)
  {
  }

  lemma IndexTail(a: seq<string>, b: seq<string>, i: nat)
    requires i < |b|
    ensures (a + b)[|a| + i] == b[i]
  {
  }

  lemma {:induction false} CapturesLength(unescape: string -> string, segs: seq<Segment>, path: string)
    requires SegmentsOk(segs) && MatchesPath(segs, Tokens(unescape, path))
    ensures |Captures(unescape, segs, path)| == NamedBefore(segs, |segs|)
  {
    if segs != [] {
      assert SegmentOk(segs[0]);
      NamedBeforeTail(segs, |segs|);
      if !segs[0].multi {
        var (seg, rest) := FirstSegment(unescape, path);
        assert Tokens(unescape, path)[1..] == Tokens(unescape, rest);
        CapturesLength(unescape, segs[1..], rest);
      }
    }
  }

  /** patIndex. */
  method PatIndex(pat: Option<Pattern>, name: string) returns (index: int)
    ensures pat.None? ==> index == -1
    ensures pat.Some? && index == -1 ==>
              forall j :: 0 <= j < |pat.value.segments| && pat.value.segments[j].wild && pat.value.segments[j].s != "" ==>
                pat.value.segments[j].s != name
    ensures index != -1 ==>
              pat.Some? && exists j :: NameAt(pat.value.segments, name, j) && index == NamedBefore(pat.value.segments, j)
  {
    if pat.None? {
      return -1;
    }
    var segs := pat.value.segments;
    index := 0;
    for n := 0 to |segs|
      invariant index == NamedBefore(segs, n)
      invariant forall j :: 0 <= j < n && segs[j].wild && segs[j].s != "" ==> segs[j].s != name
    {
      var seg := segs[n];
      if seg.wild && seg.s != "" {
        if name == seg.s {
          assert NameAt(segs, name, n);
          return;
        }
        index := index + 1;
      }
    }
    return -1;
  }

  predicate NameAt(segs: seq<Segment>, name: string, j: int) {
    0 <= j < |segs| && segs[j].wild && segs[j].s == name && name != ""
  }

  /** PathValue of a matched request: the part of the path that the wildcard of that name
      stands for, and the given default if the pattern has no such wildcard. */
  method PathValue(unescape: string -> string, pat: Pattern, path: string, values: seq<string>,
                   otherValues: map<string, string>, name: string) returns (value: string)
    requires WellFormed(pat) && MatchesPath(pat.segments, Tokens(unescape, path))
    requires values == Captures(unescape, pat.segments, path)
    ensures forall j :: NameAt(pat.segments, name, j) ==>
              PathAfter(unescape, path, j) != "" && value == ValueAt(unescape, pat.segments, path, j)
    ensures (forall j :: !NameAt(pat.segments, name, j)) ==>
              value == if name in otherValues then otherValues[name] else ""
  {
    var i := PatIndex(Some(pat), name);
    if i >= 0 {
      ghost var j :| NameAt(pat.segments, name, j) && i == NamedBefore(pat.segments, j);
      CapturesAt(unescape, pat.segments, path, j);
      assert forall k :: NameAt(pat.segments, name, k) ==> k == j;
      return values[i];
    }
    return if name in otherValues then otherValues[name] else "";
  }
}
