/** Operations on the links of the priority tree (h2_bundle.go: removeNode, addBytes, and the
    body of AdjustStream). */
module PriorityTrees {
  import opened Foundations
  import opened PriorityForests
  import opened PriorityNodes

  const DEFAULT_WEIGHT: Weight := 15

  method TakeAway(n: PriorityNode, ghost f: Forest<PriorityNode>)
    requires Represents(f) && Acyclic(f.parents) && n in f.kids
    modifies f.kids.Keys`parent, f.kids.Keys`kids, f.kids.Keys`prev, f.kids.Keys`next
    ensures Represents(Removed(f, n))
  {
    RemovedKnown(f, n);
    PromoteFirst(n, f);
    var _ := n.SetParent(null, Promoted(f, n));
  }

  /** The loop of removeNode. A kid that has moved is followed by its new siblings, so after the
      first kid the loop only meets nodes that are already in place. */
  method PromoteFirst(n: PriorityNode, ghost f: Forest<PriorityNode>)
    requires Represents(f) && Acyclic(f.parents) && n in f.kids
    modifies f.kids.Keys`parent, f.kids.Keys`kids, f.kids.Keys`prev, f.kids.Keys`next
    ensures Represents(Promoted(f, n))
  {
    assert ListAt(n, f.kids[n]);
    ghost var rounds := PromoteKids(n, f);
    RoundsDone(f, n, rounds);
  }

  method PromoteKids(n: PriorityNode, ghost f: Forest<PriorityNode>) returns (ghost i: nat)
    requires LinksOk(f) && Acyclic(f.parents) && n in f.kids && AtRound(f, n, 0, n.kids)
    modifies f.kids.Keys`parent, f.kids.Keys`kids, f.kids.Keys`prev, f.kids.Keys`next
    ensures AtRound(f, n, i, null)
  {
    hide LinksOk, Acyclic;
    var k := n.kids;
    i := 0;
    while k != null
      invariant AtRound(f, n, i, k)
      decreases Rounds(f, n) - i
    {
      k := NextKid(k, n, f, i);
      i := i + 1;
    }
  }

  ghost predicate AtRound(f: Forest<PriorityNode>, n: PriorityNode, i: nat, k: PriorityNode?)
    requires n in f.kids && LinksOk(f)
    reads f.kids.Keys
  {
    var g := if i == 0 then f else Promoted(f, n);
    g.kids.Keys == f.kids.Keys && Represents(g) && Round(f, g, n, i, k)
  }

  lemma RoundsDone(f: Forest<PriorityNode>, n: PriorityNode, i: nat)
    requires n in f.kids && LinksOk(f) && AtRound(f, n, i, null)
    ensures Represents(Promoted(f, n))
  {
  }

  /** The loop after i rounds: k is the node to move next. */
  ghost predicate Round(f: Forest<PriorityNode>, g: Forest<PriorityNode>, n: PriorityNode, i: nat, k: PriorityNode?)
    requires n in f.kids && LinksOk(f)
  {
    && g == (if i == 0 then f else Promoted(f, n))
    && g.kids.Keys == f.kids.Keys && ParentOf(g, n) == ParentOf(f, n)
    && if i == 0 then k == First(f.kids[n])
       else f.kids[n] != [] && AtSibling(g, ParentOf(f, n), i, k)
  }

  ghost function Rounds(f: Forest<PriorityNode>, n: PriorityNode): nat
    requires n in f.kids && LinksOk(f)
  {
    if n in f.parents then |f.kids[f.parents[n]]| + 1 else 1
  }

  method NextKid(k: PriorityNode, n: PriorityNode, ghost f: Forest<PriorityNode>, ghost i: nat)
    returns (next: PriorityNode?)
    requires LinksOk(f) && Acyclic(f.parents) && n in f.kids && AtRound(f, n, i, k)
    modifies f.kids.Keys`parent, f.kids.Keys`kids, f.kids.Keys`prev, f.kids.Keys`next
    ensures i < Rounds(f, n) && AtRound(f, n, i + 1, next)
  {
    ghost var g := if i == 0 then f else Promoted(f, n);
    PromotedAt(f, g, n, k, i);
    next := MoveKid(k, n.parent, g, Promoted(f, n), i);
  }

  method MoveKid(k: PriorityNode, p: PriorityNode?, ghost f: Forest<PriorityNode>,
                 ghost f': Forest<PriorityNode>, ghost i: nat) returns (next: PriorityNode?)
    requires Represents(f) && k in f.kids && k != p && (p != null ==> p in f.kids && k.parent != null)
    requires f' == Reparent(f, k, Opt(p)) && k.parent != null && f'.kids.Keys == f.kids.Keys
    requires p != null ==> p in f'.kids && i < |f'.kids[p]| && f'.kids[p][i] == k
    modifies f.kids.Keys`parent, f.kids.Keys`kids, f.kids.Keys`prev, f.kids.Keys`next
    ensures Represents(f') && AtSibling(f', Opt(p), i + 1, next)
  {
    var _ := k.SetParent(p, f);
    assert p != null ==> ListAt(p, f'.kids[p]) && KidAt(p, f'.kids[p], i);
    next := k.next;
  }

  /** What one round of the loop does to the forest. */
  lemma PromotedAt(f: Forest<PriorityNode>, g: Forest<PriorityNode>, n: PriorityNode, k: PriorityNode, i: nat)
    requires LinksOk(f) && Acyclic(f.parents) && n in f.kids && Round(f, g, n, i, k) && LinksOk(g)
    ensures f.kids[n] != [] && k in g.parents && i < Rounds(f, n) && Some(k) != ParentOf(f, n)
    ensures Reparent(g, k, ParentOf(f, n)) == Promoted(f, n) && ParentOf(Promoted(f, n), n) == ParentOf(f, n)
    ensures Promoted(f, n).kids.Keys == f.kids.Keys
    ensures n in f.parents ==> var ks := Promoted(f, n).kids[f.parents[n]]; i < |ks| && ks[i] == k
  {
    var first := f.kids[n][0];
    assert first in f.parents && f.parents[first] == n;
    DepthStep(f.parents, first);
    if n in f.parents {
      DepthStep(f.parents, n);
    }
    if i > 0 {
      RemovedOk(f, n);
      DepthStep(g.parents, k);
    }
  }

  /** k is the i-th kid of p, or null after the last one. */
  ghost predicate AtSibling(f: Forest<PriorityNode>, p: Option<PriorityNode>, i: nat, k: PriorityNode?) {
    if p == None then k == null
    else p.value in f.kids && i <= |f.kids[p.value]| && k == if i == |f.kids[p.value]| then null else f.kids[p.value][i]
  }

  // ----- AdjustStream

  /** Whether x depends on n, properly. */
  method DependsOn(x: PriorityNode, n: PriorityNode, ghost f: Forest<PriorityNode>) returns (found: bool)
    requires Represents(f) && Acyclic(f.parents) && x in f.kids && x != n
    ensures found <==> Under(f.parents, x, n)
  {
    var y := x.parent;
    UnderStep(f.parents, x, n);
    ghost var d := if y == null then 0 else Depth<PriorityNode>(f.parents, y) + 1;
    while y != null
      invariant y != null ==> y in f.kids && d == Depth<PriorityNode>(f.parents, y) + 1
      invariant Under(f.parents, x, n) <==> y != null && Under<PriorityNode>(f.parents, y, n)
      decreases if y == null then 0 else d
    {
      UnderStep<PriorityNode>(f.parents, y, n);
      if y == n {
        return true;
      }
      if y in f.parents {
        DepthStep<PriorityNode>(f.parents, y);
      }
      y := y.parent;
      d := d - 1;
    }
    return false;
  }

  /** The loop over the kids of p that makes all but n kids of n. */
  method AdoptKids(n: PriorityNode, p: PriorityNode, ghost f: Forest<PriorityNode>) returns (ghost f': Forest<PriorityNode>)
    requires Represents(f) && n in f.kids && p in f.kids && n != p
    modifies f.kids.Keys`parent, f.kids.Keys`kids, f.kids.Keys`prev, f.kids.Keys`next
    ensures Represents(f') && f'.kids.Keys == f.kids.Keys && f'.parents == Adopt(f.parents, n, p)
  {
    var k := p.kids;
    ghost var i := 0;
    f' := f;
    assert ListAt(p, f.kids[p]);
    MovingStart(f, n, p);
    while k != null
      invariant AtKid(f, f', n, p, i, k)
      decreases |f.kids[p]| - i
    {
      k, f' := AdoptKid(k, n, p, f, f', i);
      i := i + 1;
    }
    MovingEnd(f, f', n, p);
  }

  ghost predicate AtKid(f: Forest<PriorityNode>, f': Forest<PriorityNode>, n: PriorityNode, p: PriorityNode, i: nat, k: PriorityNode?)
    requires p in f.kids
    reads f'.kids.Keys
  {
    && Represents(f') && f'.kids.Keys == f.kids.Keys
    && i <= |f.kids[p]| && Moving(f, f', n, p, i) && k == if i == |f.kids[p]| then null else f.kids[p][i]
  }

  method AdoptKid(k: PriorityNode, n: PriorityNode, p: PriorityNode, ghost f: Forest<PriorityNode>, ghost f1: Forest<PriorityNode>, ghost i: nat)
    returns (next: PriorityNode?, ghost f': Forest<PriorityNode>)
    requires LinksOk(f) && n in f.kids && p in f.kids && n != p && AtKid(f, f1, n, p, i, k)
    modifies f.kids.Keys`parent, f.kids.Keys`kids, f.kids.Keys`prev, f.kids.Keys`next
    ensures i < |f.kids[p]| && AtKid(f, f', n, p, i + 1, next)
  {
    NextToAdopt(f, f1, n, p, i, k);
    next := k.next;
    f' := f1;
    if k != n {
      var _ := k.SetParent(n, f1);
      f' := Reparent(f1, k, Some(n));
    }
  }

  lemma NextToAdopt(f: Forest<PriorityNode>, f1: Forest<PriorityNode>, n: PriorityNode, p: PriorityNode, i: nat, k: PriorityNode)
    requires LinksOk(f) && n in f.kids && p in f.kids && n != p && AtKid(f, f1, n, p, i, k)
    ensures i < |f.kids[p]| && k in f1.kids && f1.kids.Keys == f.kids.Keys && Represents(f1)
    ensures k.next == if i + 1 == |f.kids[p]| then null else f.kids[p][i + 1]
    ensures Moving(f, if k == n then f1 else Reparent(f1, k, Some(n)), n, p, i + 1)
  {
    assert ListAt(p, f1.kids[p]);
    var j := MovingNext(f, f1, n, p, i);
    NextSibling(p, f1.kids[p], j, f.kids[p], i);
    MovingStep(f, f1, n, p, i);
  }

  /** The kid after the j-th of ks, said in terms of a list that agrees with ks from there on. */
  lemma NextSibling(p: PriorityNode, ks: seq<PriorityNode>, j: nat, all: seq<PriorityNode>, i: nat)
    requires ListAt(p, ks) && j < |ks| && i < |all| && ks[j] == all[i]
    requires if i + 1 == |all| then j + 1 == |ks| else j + 1 < |ks| && ks[j + 1] == all[i + 1]
    ensures all[i].next == if i + 1 == |all| then null else all[i + 1]
  {
    assert KidAt(p, ks, j);
  }

  /** A p that depends on n moves to the parent of n. */
  method FreeParent(n: PriorityNode, p: PriorityNode, ghost f: Forest<PriorityNode>) returns (ghost f': Forest<PriorityNode>)
    requires Represents(f) && Acyclic(f.parents) && n in f.kids && p in f.kids && n != p
    modifies f.kids.Keys`parent, f.kids.Keys`kids, f.kids.Keys`prev, f.kids.Keys`next
    ensures Represents(f') && f'.kids.Keys == f.kids.Keys && f'.parents == Freed(f.parents, n, p)
  {
    var found := DependsOn(p, n, f);
    f' := f;
    if found {
      FreedBy(f, n, p);
      f' := Reparent(f, p, ParentOf(f, n));
      var _ := p.SetParent(n.parent, f);
    }
  }

  /** Making n depend on p, as its only dependency if exclusive. In between, when n depends on a
      kid of p, the links of that kid and n form a cycle; it ends when n moves. */
  method Depend(n: PriorityNode, p: PriorityNode, exclusive: bool, ghost f: Forest<PriorityNode>)
    returns (ghost f': Forest<PriorityNode>)
    requires Represents(f) && Acyclic(f.parents) && n in f.kids && p in f.kids && n != p
    modifies f.kids.Keys`parent, f.kids.Keys`kids, f.kids.Keys`prev, f.kids.Keys`next
    ensures Represents(f') && f'.kids.Keys == f.kids.Keys
    ensures f'.parents == Adjusted(f.parents, n, p, exclusive)
  {
    f' := FreeParent(n, p, f);
    if exclusive {
      f' := AdoptKids(n, p, f');
    }
    f' := MoveBelow(n, p, f');
  }

  method MoveBelow(n: PriorityNode, p: PriorityNode, ghost f: Forest<PriorityNode>) returns (ghost f': Forest<PriorityNode>)
    requires Represents(f) && n in f.kids && p in f.kids && n != p
    modifies f.kids.Keys`parent, f.kids.Keys`kids, f.kids.Keys`prev, f.kids.Keys`next
    ensures Represents(f') && f'.kids.Keys == f.kids.Keys && f'.parents == f.parents[n := p]
  {
    var _ := n.SetParent(p, f);
    ReparentParents(f, n, p);
    f' := Reparent(f, n, Some(p));
  }

  /** addBytes: the bytes count for the node and for all nodes it depends on. */
  method AddBytes(n: PriorityNode, b: int, ghost f: Forest<PriorityNode>)
    requires Represents(f) && Acyclic(f.parents) && n in f.kids
    modifies n`bytes, f.kids.Keys`subtreeBytes
    ensures n.bytes == old(n.bytes) + b
    ensures forall m :: m in f.kids ==> m.subtreeBytes == old(m.subtreeBytes) + if Under(f.parents, n, m) then b else 0
  {
    n.bytes := n.bytes + b;
    var x: PriorityNode? := n;
    UnderStep(f.parents, n, n);
    while x != null
      invariant n.bytes == old(n.bytes) + b
      invariant x != null ==> x in f.kids && Under<PriorityNode>(f.parents, n, x)
      invariant forall m :: m in f.kids ==>
                  m.subtreeBytes == old(m.subtreeBytes) + if Under(f.parents, n, m) && !Above(f, x, m) then b else 0
      decreases if x == null then 0 else Depth<PriorityNode>(f.parents, x) + 1
    {
      AboveStep(f, x, n);
      x.subtreeBytes := x.subtreeBytes + b;
      x := x.parent;
    }
  }

  ghost predicate Above(f: Forest<PriorityNode>, x: PriorityNode?, m: PriorityNode) {
    x != null && Under<PriorityNode>(f.parents, x, m)
  }

  lemma AboveStep(f: Forest<PriorityNode>, x: PriorityNode, n: PriorityNode)
    requires Represents(f) && Acyclic(f.parents) && x in f.kids && Under(f.parents, n, x)
    ensures x.parent != null ==> x.parent in f.kids && Under<PriorityNode>(f.parents, n, x.parent)
    ensures x.parent != null ==> Depth<PriorityNode>(f.parents, x.parent) < Depth(f.parents, x)
    ensures Above(f, x, x) && !Above(f, x.parent, x)
    ensures forall m :: m in f.kids && m != x ==> (Above(f, x, m) <==> Above(f, x.parent, m))
  {
    UnderStep(f.parents, x, x);
    assert ParentOf(f, x) == Opt(x.parent);
    if x in f.parents {
      var p := f.parents[x];
      DepthStep(f.parents, x);
      UnderStep(f.parents, p, p);
      UnderStep(f.parents, x, p);
      UnderTransitive(f.parents, n, x, p);
      if Under(f.parents, p, x) {
        UnderDepth(f.parents, p, x);
      }
    }
    forall m | m in f.kids && m != x
      ensures Above(f, x, m) <==> Above(f, x.parent, m)
    {
      UnderStep(f.parents, x, m);
    }
  }

  method NewBelow(id: nat, p: PriorityNode, state: NodeState, ghost f: Forest<PriorityNode>) returns (n: PriorityNode)
    requires Represents(f) && p in f.kids
    modifies f.kids.Keys`parent, f.kids.Keys`kids, f.kids.Keys`prev, f.kids.Keys`next
    ensures fresh(n) && n !in f.kids && n.id == id && n.state == state && n.weight == DEFAULT_WEIGHT && n.q == []
    ensures Represents(Reparent(Plant(f, n), n, Some(p)))
  {
    n := new PriorityNode(id, DEFAULT_WEIGHT, state);
    Planted(f, n);
    var _ := n.SetParent(p, Plant(f, n));
  }

  lemma Planted(f: Forest<PriorityNode>, n: PriorityNode)
    requires Represents(f) && n !in f.kids && n.parent == null && n.kids == null
    ensures Represents(Plant(f, n))
  {
    var all := Plant(f, n).kids;
    forall m | m in all
      ensures ListAt(m, all[m])
    {
      if m in f.kids {
        assert ListAt(m, f.kids[m]);
      }
    }
    assert n !in f.parents;
    forall m | m in all
      ensures ParentOf(Plant(f, n), m) == Opt(m.parent)
    {
    }
  }
}
