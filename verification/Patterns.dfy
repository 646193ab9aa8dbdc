/** Patterns for ServeMux routing (pattern.go): what a pattern matches, and how two
    patterns compare.

    A request path is seen as the sequence of its decoded segments.  A trailing slash is
    the segment "/".  A pattern segment is a literal, a single wildcard or a multi
    wildcard; "{$}" is the literal "/".
 */
module Patterns {

  datatype Segment = Segment(s: string, wild: bool, multi: bool)

  datatype Pattern = Pattern(verb: string, host: string, segments: seq<Segment>)

  type Path = seq<string>

  const SLASH: string := "/"

  // ----- What parsePattern guarantees

  predicate SegmentOk(seg: Segment) {
    && (seg.multi ==> seg.wild)
    && (seg.wild && !seg.multi ==> seg.s != "")
    && (seg.wild ==> '/' !in seg.s && '*' !in seg.s)  // wildcard names are identifiers
  }

  predicate SegmentsOk(segs: seq<Segment>) {
    forall i :: 0 <= i < |segs| ==> SegmentOk(segs[i]) && (segs[i].multi ==> i == |segs| - 1)
  }

  predicate NamesDistinct(segs: seq<Segment>) {
    forall i, j :: 0 <= i < j < |segs| && segs[i].wild && segs[j].wild && segs[i].s != "" ==>
      segs[i].s != segs[j].s
  }

  predicate WellFormed(p: Pattern) {
    p.segments != [] && SegmentsOk(p.segments) && NamesDistinct(p.segments)
  }

  function LastSegment(p: Pattern): Segment
    requires p.segments != []
  {
    p.segments[|p.segments| - 1]
  }

  // ----- The meaning of a pattern

  predicate SegmentMatches(seg: Segment, token: string) {
    if seg.wild then token != SLASH else token == seg.s
  }

  predicate MatchesPath(segs: seq<Segment>, path: Path) {
    if segs == [] then path == []
    else
      && path != []
      && (segs[0].multi || (SegmentMatches(segs[0], path[0]) && MatchesPath(segs[1..], path[1..])))
  }

  predicate MatchesMethod(patternMethod: string, verb: string) {
    patternMethod == "" || patternMethod == verb || (patternMethod == "GET" && verb == "HEAD")
  }

  predicate Matches(p: Pattern, verb: string, path: Path) {
    MatchesMethod(p.verb, verb) && MatchesPath(p.segments, path)
  }

  // ----- Relationships

  datatype Relationship = Equivalent | MoreGeneral | MoreSpecific | Disjoint | Overlaps

  /** The relationship between two non-empty sets A and B, from set inclusion alone. */
  function Classify(aCoversB: bool, bCoversA: bool, meet: bool): Relationship {
    if !meet then Disjoint
    else if aCoversB && bCoversA then Equivalent
    else if aCoversB then MoreGeneral
    else if bCoversA then MoreSpecific
    else Overlaps
  }

  function InverseRelationship(r: Relationship): Relationship {
    match r
    case MoreSpecific => MoreGeneral
    case MoreGeneral => MoreSpecific
    case _ => r
  }

  function CombineRelationships(r1: Relationship, r2: Relationship): Relationship {
    match r1
    case Equivalent => r2
    case Disjoint => Disjoint
    case Overlaps => if r2 == Disjoint then Disjoint else Overlaps
    case _ =>
      if r2 == Equivalent then r1
      else if r2 == InverseRelationship(r1) then Overlaps
      else r2
  }

  function CompareMethods(p1: Pattern, p2: Pattern): Relationship {
    if p1.verb == p2.verb then Equivalent
    else if p1.verb == "" then MoreGeneral
    else if p2.verb == "" then MoreSpecific
    else if p1.verb == "GET" && p2.verb == "HEAD" then MoreGeneral
    else if p2.verb == "GET" && p1.verb == "HEAD" then MoreSpecific
    else Disjoint
  }

  function CompareSegments(s1: Segment, s2: Segment): Relationship {
    if s1.multi && s2.multi then Equivalent
    else if s1.multi then MoreGeneral
    else if s2.multi then MoreSpecific
    else if s1.wild && s2.wild then Equivalent
    else if s1.wild then (if s2.s == SLASH then Disjoint else MoreGeneral)
    else if s2.wild then (if s1.s == SLASH then Disjoint else MoreSpecific)
    else if s1.s == s2.s then Equivalent
    else Disjoint
  }

  /** The relationship of two segment lists, position by position. */
  function Relation(a: seq<Segment>, b: seq<Segment>): Relationship {
    if a == [] && b == [] then Equivalent
    else if a == [] || b == [] then Disjoint
    else if a[0].multi || b[0].multi then CompareSegments(a[0], b[0])
    else CombineRelationships(CompareSegments(a[0], b[0]), Relation(a[1..], b[1..]))
  }

  lemma {:induction false} DifferentLengthsDisjoint(a: seq<Segment>, b: seq<Segment>)
    requires |a| != |b|
    requires forall i :: 0 <= i < |a| ==> !a[i].multi
    requires forall i :: 0 <= i < |b| ==> !b[i].multi
    ensures Relation(a, b) == Disjoint
  {
    if a != [] && b != [] {
      DifferentLengthsDisjoint(a[1..], b[1..]);
    }
  }

  /** The final answer of the loop of comparePaths, from its state: the relationship so far, the
      segments to come, and whether the two lists end in a multi. */
  ghost function RelationSoFar(rel: Relationship, a: seq<Segment>, b: seq<Segment>, multi1: bool, multi2: bool): Relationship {
    if a == [] && b == [] then rel
    else if a == [] then (if multi1 then CombineRelationships(rel, MoreGeneral) else Disjoint)
    else if b == [] then (if multi2 then CombineRelationships(rel, MoreSpecific) else Disjoint)
    else CombineRelationships(rel, Relation(a, b))
  }

  lemma RelationStep(rel: Relationship, a: seq<Segment>, b: seq<Segment>)
    requires a != [] && b != [] && SegmentsOk(a) && SegmentsOk(b)
    ensures var r := CombineRelationships(rel, CompareSegments(a[0], b[0]));
            var multi1, multi2 := a[|a| - 1].multi, b[|b| - 1].multi;
            RelationSoFar(rel, a, b, multi1, multi2) ==
            if r == Disjoint then Disjoint else RelationSoFar(r, a[1..], b[1..], multi1, multi2)
  {
    assert a[0].multi ==> |a| == 1;
    assert b[0].multi ==> |b| == 1;
    if !a[0].multi && !b[0].multi {
      CombineAssociative(rel, CompareSegments(a[0], b[0]), Relation(a[1..], b[1..]));
    }
  }

  lemma CombineAssociative(r1: Relationship, r2: Relationship, r3: Relationship)
    ensures CombineRelationships(CombineRelationships(r1, r2), r3) == CombineRelationships(r1, CombineRelationships(r2, r3))
  {
  }

  /** comparePaths: the loop over corresponding segments computes their Relation. */
  method ComparePaths(p1: Pattern, p2: Pattern) returns (r: Relationship)
    requires WellFormed(p1) && WellFormed(p2)
    ensures r == Relation(p1.segments, p2.segments)
  {
    if |p1.segments| != |p2.segments| && !LastSegment(p1).multi && !LastSegment(p2).multi {
      DifferentLengthsDisjoint(p1.segments, p2.segments);
      return Disjoint;
    }
    var segs1, segs2 := p1.segments, p2.segments;
    ghost var target := Relation(segs1, segs2);
    var rel := Equivalent;
    while |segs1| > 0 && |segs2| > 0
      invariant segs1 != [] ==> SegmentsOk(segs1) && segs1[|segs1| - 1] == LastSegment(p1)
      invariant segs2 != [] ==> SegmentsOk(segs2) && segs2[|segs2| - 1] == LastSegment(p2)
      invariant target == RelationSoFar(rel, segs1, segs2, LastSegment(p1).multi, LastSegment(p2).multi)
    {
      RelationStep(rel, segs1, segs2);
      rel := CombineRelationships(rel, CompareSegments(segs1[0], segs2[0]));
      if rel == Disjoint {
        return rel;
      }
      segs1, segs2 := segs1[1..], segs2[1..];
    }
    if |segs1| == 0 && |segs2| == 0 {
      return rel;
    }
    if |segs1| < |segs2| && LastSegment(p1).multi {
      return CombineRelationships(rel, MoreGeneral);
    }
    if |segs2| < |segs1| && LastSegment(p2).multi {
      return CombineRelationships(rel, MoreSpecific);
    }
    return Disjoint;
  }

  function RelationOfPatterns(p1: Pattern, p2: Pattern): Relationship {
    CombineRelationships(CompareMethods(p1, p2), Relation(p1.segments, p2.segments))
  }

  /** comparePathsAndMethods. */
  method ComparePathsAndMethods(p1: Pattern, p2: Pattern) returns (r: Relationship)
    requires WellFormed(p1) && WellFormed(p2)
    ensures r == RelationOfPatterns(p1, p2)
  {
    var mrel := CompareMethods(p1, p2);
    if mrel == Disjoint {
      return Disjoint;
    }
    var prel := ComparePaths(p1, p2);
    return CombineRelationships(mrel, prel);
  }

  predicate Conflicts(p1: Pattern, p2: Pattern) {
    && p1.host == p2.host
    && (RelationOfPatterns(p1, p2) == Equivalent || RelationOfPatterns(p1, p2) == Overlaps)
  }

  /** conflictsWith. */
  method ConflictsWith(p1: Pattern, p2: Pattern) returns (c: bool)
    requires WellFormed(p1) && WellFormed(p2)
    ensures c == Conflicts(p1, p2)
  {
    if p1.host != p2.host {
      return false;
    }
    var rel := ComparePathsAndMethods(p1, p2);
    return rel == Equivalent || rel == Overlaps;
  }

  // ----- Witness paths

  function TokenOf(seg: Segment): string {
    if !seg.multi && seg.s != SLASH then seg.s else SLASH
  }

  /** The path that writeMatchingPath writes for a list of segments. */
  function MatchingPath(segs: seq<Segment>): (path: Path)
    ensures |path| == |segs|
  {
    if segs == [] then [] else [TokenOf(segs[0])] + MatchingPath(segs[1..])
  }

  lemma {:induction false} MatchingPathMatches(segs: seq<Segment>)
    requires SegmentsOk(segs)
    ensures MatchesPath(segs, MatchingPath(segs))
  {
    if segs != [] {
      assert SegmentOk(segs[0]);
      MatchingPathMatches(segs[1..]);
      assert MatchingPath(segs)[1..] == MatchingPath(segs[1..]);
    }
  }

  /** The segment differencePath writes where p1 has s1 and p2 has s2, neither a multi. */
  function DifferenceToken(s1: Segment, s2: Segment): string {
    if s1.wild && !s2.wild && s1.s == s2.s then s2.s + "x" else TokenOf(s1)
  }

  /** The path differencePath writes. */
  function DifferenceTokens(a: seq<Segment>, b: seq<Segment>): Path {
    if a == [] then MatchingPath(b)
    else if b == [] || (b[0].multi && !a[0].multi) then MatchingPath(a)
    else if a[0].multi then
      (if !b[0].multi && b[0].s == SLASH then [if a[0].s != "" then a[0].s else "x"] else [SLASH])
    else [DifferenceToken(a[0], b[0])] + DifferenceTokens(a[1..], b[1..])
  }

  /** The string differencePath builds from such a path. */
  function Render(path: Path): string {
    if path == [] then "" else "/" + (if path[0] == SLASH then "" else path[0]) + Render(path[1..])
  }

  lemma {:induction false} RenderAppend(p: Path, q: Path)
    ensures Render(p + q) == Render(p) + Render(q)
  {
    if p == [] {
      assert p + q == q;
    } else {
      assert (p + q)[1..] == p[1..] + q;
      RenderAppend(p[1..], q);
    }
  }

  lemma {:induction false} DifferenceTokensSeparate(a: seq<Segment>, b: seq<Segment>)
    requires SegmentsOk(a) && SegmentsOk(b)
    requires Relation(a, b) != Disjoint
    ensures MatchesPath(a, DifferenceTokens(a, b))
    ensures Relation(a, b) == MoreGeneral || Relation(a, b) == Overlaps ==>
              !MatchesPath(b, DifferenceTokens(a, b))
  {
    if a != [] && b != [] {
      assert SegmentOk(a[0]) && SegmentOk(b[0]);
      if a[0].multi || b[0].multi {
        MatchingPathMatches(a);
        assert !b[0].multi ==> b[0].s == SLASH ==> !b[0].wild;
      } else {
        var t := DifferenceToken(a[0], b[0]);
        DifferenceTokensSeparate(a[1..], b[1..]);
        assert DifferenceTokens(a, b)[1..] == DifferenceTokens(a[1..], b[1..]);
        assert SegmentMatches(a[0], t);
        assert CompareSegments(a[0], b[0]) == MoreGeneral ==> !SegmentMatches(b[0], t);
      }
    }
  }

  lemma DifferenceStep(a: seq<Segment>, b: seq<Segment>)
    requires SegmentsOk(a) && SegmentsOk(b)
    requires a != [] && b != [] && !a[0].multi
    ensures DifferenceTokens(a, b) ==
            [if b[0].multi then TokenOf(a[0]) else DifferenceToken(a[0], b[0])] + DifferenceTokens(a[1..], b[1..])
  {
    assert b[0].multi ==> b[1..] == [];
    assert MatchingPath([]) == [];
  }

  lemma RenderStep(done: Path, token: string, rest: Path)
    ensures Render(done + [token]) == Render(done) + "/" + (if token == SLASH then "" else token)
    ensures done + ([token] + rest) == (done + [token]) + rest
  {
    RenderAppend(done, [token]);
    assert Render([token]) == "/" + (if token == SLASH then "" else token) + Render([]);
  }

  /** differencePath: the string written is the rendering of DifferenceTokens, a path that p1
      matches and p2 does not whenever p1's paths are not all p2's. */
  method DifferencePath(p1: Pattern, p2: Pattern) returns (b: string)
    requires WellFormed(p1) && WellFormed(p2)
    requires Relation(p1.segments, p2.segments) == Overlaps || Relation(p1.segments, p2.segments) == MoreGeneral
    ensures b == Render(DifferenceTokens(p1.segments, p2.segments))
    ensures MatchesPath(p1.segments, DifferenceTokens(p1.segments, p2.segments))
    ensures !MatchesPath(p2.segments, DifferenceTokens(p1.segments, p2.segments))
  {
    DifferenceTokensSeparate(p1.segments, p2.segments);
    ghost var done: Path := [];
    b := "";
    var segs1, segs2 := p1.segments, p2.segments;
    while |segs1| > 0 && |segs2| > 0
      invariant SegmentsOk(segs1) && SegmentsOk(segs2)
      invariant b == Render(done)
      invariant DifferenceTokens(p1.segments, p2.segments) == done + DifferenceTokens(segs1, segs2)
      invariant segs1 != [] && segs2 != [] ==> Relation(segs1, segs2) != Disjoint
      decreases |segs1|
    {
      var s1, s2 := segs1[0], segs2[0];
      assert SegmentOk(s1) && SegmentOk(s2);
      if s1.multi {
        b := b + "/";
        if !s2.multi && s2.s == SLASH {
          b := b + if s1.s != "" then s1.s else "x";
        }
        RenderStep(done, DifferenceTokens(segs1, segs2)[0], []);
        return;
      }
      DifferenceStep(segs1, segs2);
      ghost var token := DifferenceTokens(segs1, segs2)[0];
      RenderStep(done, token, DifferenceTokens(segs1[1..], segs2[1..]));
      if s1.wild && !s2.wild && s1.s == s2.s {
        b := b + "/" + (s2.s + "x");
      } else {
        assert !s1.wild && !s2.wild ==> s1.s == s2.s;  // the "literals differ" panic is unreachable
        b := b + "/" + if s1.s != SLASH then s1.s else "";
      }
      done := done + [token];
      segs1, segs2 := segs1[1..], segs2[1..];
    }
    RenderAppend(done, DifferenceTokens(segs1, segs2));
    if |segs1| > 0 {
      b := b + Render(MatchingPath(segs1));
    } else if |segs2| > 0 {
      b := b + Render(MatchingPath(segs2));
    }
  }

  // ----- Relationships are exactly set inclusion

  ghost predicate PathsCover(a: seq<Segment>, b: seq<Segment>) {
    forall path :: MatchesPath(b, path) ==> MatchesPath(a, path)
  }

  ghost predicate PathsMeet(a: seq<Segment>, b: seq<Segment>) {
    exists path :: MatchesPath(a, path) && MatchesPath(b, path)
  }

  lemma {:induction false} RelationInverse(a: seq<Segment>, b: seq<Segment>)
    ensures Relation(b, a) == InverseRelationship(Relation(a, b))
  {
    if a != [] && b != [] && !a[0].multi && !b[0].multi {
      RelationInverse(a[1..], b[1..]);
    }
  }

  lemma {:induction false} GeneralCovers(a: seq<Segment>, b: seq<Segment>, path: Path)
    requires SegmentsOk(a) && SegmentsOk(b)
    requires Relation(a, b) == Equivalent || Relation(a, b) == MoreGeneral
    requires MatchesPath(b, path)
    ensures MatchesPath(a, path)
  {
    if a != [] && b != [] && !a[0].multi && !b[0].multi {
      GeneralCovers(a[1..], b[1..], path[1..]);
    }
  }

  lemma {:induction false} DisjointApart(a: seq<Segment>, b: seq<Segment>, path: Path)
    requires SegmentsOk(a) && SegmentsOk(b)
    requires Relation(a, b) == Disjoint
    ensures !(MatchesPath(a, path) && MatchesPath(b, path))
  {
    if a != [] && b != [] && !a[0].multi && !b[0].multi && path != [] &&
       CompareSegments(a[0], b[0]) != Disjoint {
      DisjointApart(a[1..], b[1..], path[1..]);
    }
  }

  /** A path both lists match, for lists that are not disjoint. */
  ghost function CommonPath(a: seq<Segment>, b: seq<Segment>): Path {
    if a == [] || b == [] then []
    else if a[0].multi then MatchingPath(b)
    else if b[0].multi then MatchingPath(a)
    else [if a[0].wild then TokenOf(b[0]) else TokenOf(a[0])] + CommonPath(a[1..], b[1..])
  }

  lemma {:induction false} CommonPathMatches(a: seq<Segment>, b: seq<Segment>)
    requires SegmentsOk(a) && SegmentsOk(b)
    requires Relation(a, b) != Disjoint
    ensures MatchesPath(a, CommonPath(a, b)) && MatchesPath(b, CommonPath(a, b))
  {
    if a != [] && b != [] {
      assert SegmentOk(a[0]) && SegmentOk(b[0]);
      if a[0].multi || b[0].multi {
        MatchingPathMatches(a);
        MatchingPathMatches(b);
      } else {
        CommonPathMatches(a[1..], b[1..]);
        assert CommonPath(a, b)[1..] == CommonPath(a[1..], b[1..]);
      }
    }
  }

  /** comparePaths answers exactly how the two sets of matched paths relate. */
  lemma {:induction false} RelationExact(a: seq<Segment>, b: seq<Segment>)
    requires SegmentsOk(a) && SegmentsOk(b)
    ensures Relation(a, b) == Classify(PathsCover(a, b), PathsCover(b, a), PathsMeet(a, b))
  {
    var r := Relation(a, b);
    RelationInverse(a, b);
    if r == Disjoint {
      forall path
        ensures !(MatchesPath(a, path) && MatchesPath(b, path))
      {
        DisjointApart(a, b, path);
      }
    } else {
      CommonPathMatches(a, b);
      DifferenceTokensSeparate(a, b);
      DifferenceTokensSeparate(b, a);
      if r == Equivalent || r == MoreGeneral {
        forall path | MatchesPath(b, path)
          ensures MatchesPath(a, path)
        {
          GeneralCovers(a, b, path);
        }
      }
      if r == Equivalent || r == MoreSpecific {
        forall path | MatchesPath(a, path)
          ensures MatchesPath(b, path)
        {
          GeneralCovers(b, a, path);
        }
      }
    }
  }

  ghost predicate Covers(p1: Pattern, p2: Pattern) {
    forall verb, path :: Matches(p2, verb, path) ==> Matches(p1, verb, path)
  }

  ghost predicate Meet(p1: Pattern, p2: Pattern) {
    exists verb, path :: Matches(p1, verb, path) && Matches(p2, verb, path)
  }

  /** A method the first pattern accepts and the second does not, when there is one. */
  ghost function SeparatingMethod(p1: Pattern, p2: Pattern): string {
    if p1.verb != "" then p1.verb else p2.verb + "x"
  }

  lemma MethodsExact(p1: Pattern, p2: Pattern)
    ensures CompareMethods(p1, p2) == Equivalent || CompareMethods(p1, p2) == MoreGeneral ==>
              forall m :: MatchesMethod(p2.verb, m) ==> MatchesMethod(p1.verb, m)
    ensures CompareMethods(p1, p2) == MoreGeneral ==>
              MatchesMethod(p1.verb, SeparatingMethod(p1, p2)) && !MatchesMethod(p2.verb, SeparatingMethod(p1, p2))
    ensures CompareMethods(p1, p2) == Disjoint ==>
              forall m :: !(MatchesMethod(p1.verb, m) && MatchesMethod(p2.verb, m))
    ensures CompareMethods(p1, p2) != Disjoint ==>
              exists m :: MatchesMethod(p1.verb, m) && MatchesMethod(p2.verb, m)
    ensures CompareMethods(p2, p1) == InverseRelationship(CompareMethods(p1, p2))
  {
    assert MatchesMethod(p1.verb, p1.verb) && MatchesMethod(p2.verb, p2.verb);
    if p1.verb == "" && p2.verb == "GET" {
      assert |SeparatingMethod(p1, p2)| == 4 && SeparatingMethod(p1, p2)[3] == 'x';
      assert SeparatingMethod(p1, p2) != "HEAD";
    }
  }

  /** If the inclusion of p2's requests in p1's fails on one axis, it fails on the product. */
  lemma NotCovering(p1: Pattern, p2: Pattern, verb: string, path: Path)
    requires Matches(p2, verb, path) && !Matches(p1, verb, path)
    ensures !Covers(p1, p2)
  {
  }

  lemma CoversBoth(p1: Pattern, p2: Pattern)
    requires WellFormed(p1) && WellFormed(p2)
    ensures RelationOfPatterns(p1, p2) != Disjoint ==>
              (Covers(p1, p2) <==> RelationOfPatterns(p1, p2) == Equivalent || RelationOfPatterns(p1, p2) == MoreGeneral)
  {
    var m, r := CompareMethods(p1, p2), Relation(p1.segments, p2.segments);
    if m == Disjoint || r == Disjoint {
      return;
    }
    MethodsExact(p1, p2);
    MethodsExact(p2, p1);
    RelationInverse(p1.segments, p2.segments);
    DifferenceTokensSeparate(p2.segments, p1.segments);
    MatchingPathMatches(p2.segments);
    if r == MoreSpecific || r == Overlaps {
      NotCovering(p1, p2, p2.verb, DifferenceTokens(p2.segments, p1.segments));
    } else if m == MoreSpecific || m == Overlaps {
      NotCovering(p1, p2, SeparatingMethod(p2, p1), MatchingPath(p2.segments));
    } else {
      forall verb, path | Matches(p2, verb, path)
        ensures Matches(p1, verb, path)
      {
        GeneralCovers(p1.segments, p2.segments, path);
      }
    }
  }

  /** comparePathsAndMethods answers exactly how the two sets of matched (method, path) pairs
      relate: equal, strict superset, strict subset, disjoint, or proper overlap. */
  lemma {:induction false} ComparisonExact(p1: Pattern, p2: Pattern)
    requires WellFormed(p1) && WellFormed(p2)
    ensures RelationOfPatterns(p1, p2) == Classify(Covers(p1, p2), Covers(p2, p1), Meet(p1, p2))
    ensures RelationOfPatterns(p2, p1) == InverseRelationship(RelationOfPatterns(p1, p2))
  {
    MethodsExact(p1, p2);
    RelationInverse(p1.segments, p2.segments);
    CoversBoth(p1, p2);
    CoversBoth(p2, p1);
    if CompareMethods(p1, p2) != Disjoint && Relation(p1.segments, p2.segments) != Disjoint {
      CommonPathMatches(p1.segments, p2.segments);
      var m :| MatchesMethod(p1.verb, m) && MatchesMethod(p2.verb, m);
      assert Matches(p1, m, CommonPath(p1.segments, p2.segments));
      assert Matches(p2, m, CommonPath(p1.segments, p2.segments));
    } else {
      forall verb, path
        ensures !(Matches(p1, verb, path) && Matches(p2, verb, path))
      {
        if Relation(p1.segments, p2.segments) == Disjoint {
          DisjointApart(p1.segments, p2.segments, path);
        }
      }
    }
  }
}
