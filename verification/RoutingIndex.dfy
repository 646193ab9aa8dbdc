/** The index that speeds up conflict detection (routing_index.go). */
module RoutingIndexes {
  import opened Foundations
  import opened Patterns

  datatype IndexKey = IndexKey(pos: nat, s: string)

  function IndexString(seg: Segment): string {
    if seg.wild then "" else seg.s
  }

  predicate MultiPattern(p: Pattern)
    requires p.segments != []
  {
    LastSegment(p).multi
  }

  // ----- Why looking at one position is enough

  /** Segment lists that are not disjoint are not disjoint at any position before a multi. */
  lemma {:induction false} NotDisjointAt(a: seq<Segment>, b: seq<Segment>, i: nat)
    requires SegmentsOk(a) && SegmentsOk(b)
    requires Relation(a, b) != Disjoint
    requires i < |a| && !a[i].multi
    requires b != [] && !b[|b| - 1].multi
    ensures i < |b| && CompareSegments(a[i], b[i]) != Disjoint
  {
    if i > 0 {
      assert !a[0].multi && !b[0].multi;
      NotDisjointAt(a[1..], b[1..], i - 1);
    }
  }

  lemma {:induction false} NotDisjointLengths(a: seq<Segment>, b: seq<Segment>)
    requires SegmentsOk(a) && SegmentsOk(b)
    requires Relation(a, b) != Disjoint
    requires a != [] && b != [] && !a[|a| - 1].multi && !b[|b| - 1].multi
    ensures |a| == |b|
  {
    if |a| != |b| {
      DifferentLengthsDisjoint(a, b);
    }
  }

  /** A pattern in conflict with pat that does not end in a multi is filed under every literal
      position of pat, with the same literal or as a wildcard. */
  lemma ConflictIsFiled(pat: Pattern, q: Pattern, i: nat)
    requires WellFormed(pat) && WellFormed(q) && Conflicts(pat, q) && !MultiPattern(q)
    requires i < |pat.segments| && !pat.segments[i].wild
    ensures i < |q.segments|
    ensures IndexString(q.segments[i]) == pat.segments[i].s || IndexString(q.segments[i]) == ""
    ensures i == |pat.segments| - 1 ==> |q.segments| == |pat.segments|
    ensures pat.segments[i].s == SLASH ==> IndexString(q.segments[i]) == SLASH
  {
    assert SegmentOk(pat.segments[i]);
    NotDisjointAt(pat.segments, q.segments, i);
    if i == |pat.segments| - 1 {
      NotDisjointLengths(pat.segments, q.segments);
    }
  }

  /** The pattern p is in the index under the given key. */
  ghost predicate Filed(patterns: set<Pattern>, p: Pattern, key: IndexKey) {
    && p in patterns && p.segments != [] && !MultiPattern(p)
    && key.pos < |p.segments| && key.s == IndexString(p.segments[key.pos])
  }

  lemma ConflictsAreFiled(patterns: set<Pattern>, pat: Pattern, i: nat)
    requires WellFormed(pat) && forall p :: p in patterns ==> WellFormed(p)
    requires i < |pat.segments| && !pat.segments[i].wild
    ensures forall q :: q in patterns && Conflicts(pat, q) && !MultiPattern(q) ==>
              || Filed(patterns, q, IndexKey(i, pat.segments[i].s))
              || (pat.segments[i].s != SLASH && Filed(patterns, q, IndexKey(i, "")))
  {
    forall q | q in patterns && Conflicts(pat, q) && !MultiPattern(q)
      ensures || Filed(patterns, q, IndexKey(i, pat.segments[i].s))
              || (pat.segments[i].s != SLASH && Filed(patterns, q, IndexKey(i, "")))
    {
      ConflictIsFiled(pat, q, i);
    }
  }

  lemma FiledGrows(patterns: set<Pattern>, pat: Pattern)
    ensures forall key, p :: Filed(patterns + {pat}, p, key) <==> Filed(patterns, p, key) || (p == pat && Filed({pat}, p, key))
  {
  }

  class RoutingIndex {
    var segments: map<IndexKey, seq<Pattern>>
    var multis: seq<Pattern>

    /** The index holds exactly the given patterns. */
    ghost predicate Indexes(patterns: set<Pattern>)
      reads this
    {
      && (forall p :: p in patterns ==> WellFormed(p))
      && (forall p :: p in multis <==> p in patterns && MultiPattern(p))
      && (forall key, p :: key in segments && p in segments[key] ==> Filed(patterns, p, key))
      && (forall key, p :: Filed(patterns, p, key) ==> key in segments && p in segments[key])
    }

    constructor ()
      ensures Indexes({})
    {
      segments, multis := map[], [];
    }

    method AddPattern(pat: Pattern, ghost patterns: set<Pattern>)
      requires Indexes(patterns) && WellFormed(pat)
      modifies this
      ensures Indexes(patterns + {pat})
    {
      FiledGrows(patterns, pat);
      if LastSegment(pat).multi {
        multis := multis + [pat];
        return;
      }
      for pos := 0 to |pat.segments|
        invariant multis == old(multis)
        invariant forall key, p :: key in segments && p in segments[key] ==> Filed(patterns + {pat}, p, key)
        invariant forall key, p :: Filed(patterns, p, key) ==> key in segments && p in segments[key]
        invariant forall key :: Filed({pat}, pat, key) && key.pos < pos ==> key in segments && pat in segments[key]
      {
        var seg := pat.segments[pos];
        var key := IndexKey(pos, if !seg.wild then seg.s else "");
        segments := segments[key := Lookup(key) + [pat]];
      }
    }

    /** apply: the first pattern of the list that conflicts with pat, unless one was found before. */
    static method Apply(pat: Pattern, pats: seq<Pattern>, err: Option<Pattern>) returns (err': Option<Pattern>)
      requires WellFormed(pat) && forall p :: p in pats ==> WellFormed(p)
      ensures err.Some? ==> err' == err
      ensures err.None? && err'.Some? ==> err'.value in pats && Conflicts(pat, err'.value)
      ensures err'.None? ==> forall p :: p in pats ==> !Conflicts(pat, p)
    {
      if err.Some? {
        return err;
      }
      for i := 0 to |pats|
        invariant forall j :: 0 <= j < i ==> !Conflicts(pat, pats[j])
      {
        var c := ConflictsWith(pat, pats[i]);
        if c {
          return Some(pats[i]);
        }
      }
      return None;
    }

    function Lookup(key: IndexKey): seq<Pattern>
      reads this
    {
      if key in segments then segments[key] else []
    }

    /** possiblyConflictingPatterns, applied to a conflict check: it finds a conflict exactly if
        there is one among all the patterns indexed. */
    method FindConflict(pat: Pattern, ghost patterns: set<Pattern>) returns (err: Option<Pattern>)
      requires Indexes(patterns) && WellFormed(pat)
      ensures err.Some? ==> err.value in patterns && Conflicts(pat, err.value)
      ensures err.None? ==> forall p :: p in patterns ==> !Conflicts(pat, p)
    {
      err := Apply(pat, multis, None);
      if err.Some? {
        return;
      }
      assert SegmentOk(LastSegment(pat));
      if LastSegment(pat).s == SLASH {
        err := Apply(pat, Lookup(IndexKey(|pat.segments| - 1, SLASH)), err);
        ConflictsAreFiled(patterns, pat, |pat.segments| - 1);
        return;
      }
      var hasLit, at := LeastPopulated(pat);
      if hasLit {
        err := Apply(pat, Lookup(IndexKey(at, pat.segments[at].s)), err);
        err := Apply(pat, Lookup(IndexKey(at, "")), err);
        ConflictsAreFiled(patterns, pat, at);
        return;
      }
      err := ApplyAll(pat, patterns, err);
    }

    /** The literal position of pat with the fewest patterns. */
    method LeastPopulated(pat: Pattern) returns (hasLit: bool, at: nat)
      requires WellFormed(pat)
      ensures hasLit ==> at < |pat.segments| && !pat.segments[at].wild
      ensures hasLit ==> forall j :: 0 <= j < |pat.segments| && !pat.segments[j].wild ==>
                |Lookup(IndexKey(at, pat.segments[at].s))| + |Lookup(IndexKey(at, ""))| <=
                |Lookup(IndexKey(j, pat.segments[j].s))| + |Lookup(IndexKey(j, ""))|
      ensures !hasLit ==> forall j :: 0 <= j < |pat.segments| ==> pat.segments[j].wild
    {
      hasLit, at := false, 0;
      var min := 0;
      for i := 0 to |pat.segments|
        invariant hasLit ==> at < |pat.segments| && !pat.segments[at].wild
        invariant hasLit ==> min == |Lookup(IndexKey(at, pat.segments[at].s))| + |Lookup(IndexKey(at, ""))|
        invariant hasLit ==> forall j :: 0 <= j < i && !pat.segments[j].wild ==>
                    min <= |Lookup(IndexKey(j, pat.segments[j].s))| + |Lookup(IndexKey(j, ""))|
        invariant !hasLit ==> forall j :: 0 <= j < i ==> pat.segments[j].wild
      {
        var seg := pat.segments[i];
        assert SegmentOk(seg);
        if seg.multi {
          break;
        }
        if !seg.wild {
          var sum := |Lookup(IndexKey(i, seg.s))| + |Lookup(IndexKey(i, ""))|;
          if !hasLit || sum < min {
            at, min := i, sum;
          }
          hasLit := true;
        }
      }
    }

    /** The last loop of possiblyConflictingPatterns: every list of the index, in any order. */
    method ApplyAll(pat: Pattern, ghost patterns: set<Pattern>, err: Option<Pattern>) returns (err': Option<Pattern>)
      requires Indexes(patterns) && WellFormed(pat) && err.None?
      requires forall p :: p in patterns && MultiPattern(p) ==> !Conflicts(pat, p)
      ensures err'.Some? ==> err'.value in patterns && Conflicts(pat, err'.value)
      ensures err'.None? ==> forall p :: p in patterns ==> !Conflicts(pat, p)
    {
      err' := err;
      var rest := segments.Keys;
      while rest != {}
        invariant rest <= segments.Keys
        invariant err'.Some? ==> err'.value in patterns && Conflicts(pat, err'.value)
        invariant err'.None? ==> forall key, p :: key in segments && key !in rest && p in segments[key] ==> !Conflicts(pat, p)
        decreases rest
      {
        var key :| key in rest;
        err' := Apply(pat, segments[key], err');
        rest := rest - {key};
      }
      forall p | p in patterns && err'.None?
        ensures !Conflicts(pat, p)
      {
        if !MultiPattern(p) {
          assert Filed(patterns, p, IndexKey(0, IndexString(p.segments[0])));
        }
      }
    }
  }
}
