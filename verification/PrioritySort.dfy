/** Sorting the kids of a node during the walk over the priority tree (h2_bundle.go,
    walkReadyInOrder and sortPriorityNodeSiblings). */
module PrioritySorts {
  import opened Foundations
  import opened PriorityForests
  import opened PriorityNodes

  /** The weight plus one, in eight bits. */
  function Share(w: Weight): real {
    if w == 255 then 0.0 else (w + 1) as real
  }

  /** sortPriorityNodeSiblings.Less, on weights and bytes; a quotient by a share of zero is
      infinite, or not a number. */
  predicate Less(wi: Weight, bi: int, wk: Weight, bk: int) {
    if bi == 0 && bk == 0 then Share(wi) >= Share(wk)
    else if bk == 0 then false
    else if Share(wk) == 0.0 then Share(wi) != 0.0
    else bi as real / bk as real <= Share(wi) / Share(wk)
  }

  /** With weights below the largest and no negative counts: who has sent nothing comes first, the
      heavier before the lighter, and then who has sent less for its weight. */
  lemma LessExactly(wi: Weight, bi: nat, wk: Weight, bk: nat)
    requires wi != 255 && wk != 255
    ensures Less(wi, bi, wk, bk) <==>
              if bi == 0 && bk == 0 then wi >= wk else bi == 0 || (bk != 0 && bi * (wk + 1) <= bk * (wi + 1))
  {
    if bk != 0 {
      Quotients(bi as real, bk as real, Share(wi), Share(wk));
      Products(bi, wk + 1);
      Products(bk, wi + 1);
      if bi == 0 {
        NoQuotient(bk * (wi + 1), bk, wi + 1);
      }
    }
  }

  lemma Quotients(a: real, b: real, c: real, d: real)
    requires b > 0.0 && d > 0.0
    ensures a / b <= c / d <==> a * d <= b * c
  {
    var x, y := a / b, c / d;
    assert a == x * b && c == y * d;
    assert a * d == x * (b * d) && b * c == y * (b * d);
    Scaled(x, y, b * d);
  }

  lemma Scaled(x: real, y: real, m: real)
    requires m > 0.0
    ensures x <= y <==> x * m <= y * m
  {
    if x <= y {
      assert (y - x) * m >= 0.0;
    } else {
      assert (x - y) * m > 0.0;
    }
  }

  lemma Products(a: nat, b: nat)
    ensures a as real * b as real == (a * b) as real
  {
  }

  lemma NoQuotient(p: int, a: nat, b: nat)
    requires p == a * b
    ensures p >= 0
  {
  }

  /** Siblings of one weight are in the order of the bytes they have sent. */
  lemma SameWeight(w: Weight, bi: nat, bk: nat)
    requires w != 255
    ensures Less(w, bi, w, bk) <==> bi <= bk
  {
    LessExactly(w, bi, w, bk);
    Scaled(bi as real, bk as real, (w + 1) as real);
    Products(bi, w + 1);
    Products(bk, w + 1);
  }

  /** The largest weight plus one wraps around to zero: before anything is sent, siblings are in the
      order of their weights exactly if both have that weight or neither. */
  lemma LargestWeightLast(wi: Weight, wk: Weight)
    ensures (Less(wi, 0, wk, 0) <==> wi >= wk) <==> (wi == 255 <==> wk == 255)
  {
  }

  /** The bytes sent for the weight. */
  function Ratio(w: Weight, b: nat): real
    requires w != 255
  {
    b as real / Share(w)
  }

  lemma LessRatio(wi: Weight, bi: nat, wk: Weight, bk: nat)
    requires wi != 255 && wk != 255
    ensures Less(wi, bi, wk, bk) <==>
              if bi == 0 && bk == 0 then wi >= wk else bi == 0 || (bk != 0 && Ratio(wi, bi) <= Ratio(wk, bk))
  {
    LessExactly(wi, bi, wk, bk);
    if bk != 0 {
      Quotients(bi as real, bk as real, Share(wi), Share(wk));
      Quotients(bi as real, Share(wi), bk as real, Share(wk));
    }
  }

  /** Kids that the order is meant for. */
  predicate Comparable(w: Weight, b: int) {
    w != 255 && b >= 0
  }

  lemma LessTotal(wi: Weight, bi: int, wk: Weight, bk: int)
    requires Comparable(wi, bi) && Comparable(wk, bk)
    ensures Less(wi, bi, wk, bk) || Less(wk, bk, wi, bi)
  {
    LessRatio(wi, bi, wk, bk);
    LessRatio(wk, bk, wi, bi);
    hide Less, Ratio;
  }

  lemma LessTransitive(w1: Weight, b1: int, w2: Weight, b2: int, w3: Weight, b3: int)
    requires Comparable(w1, b1) && Comparable(w2, b2) && Comparable(w3, b3)
    requires Less(w1, b1, w2, b2) && Less(w2, b2, w3, b3)
    ensures Less(w1, b1, w3, b3)
  {
    LessRatio(w1, b1, w2, b2);
    LessRatio(w2, b2, w3, b3);
    LessRatio(w1, b1, w3, b3);
    hide Less, Ratio;
  }

  ghost predicate InOrder(a: PriorityNode, b: PriorityNode)
    reads a, b
  {
    Less(a.weight, a.subtreeBytes, b.weight, b.subtreeBytes)
  }

  ghost predicate AllComparable(s: seq<PriorityNode>)
    reads s
  {
    forall x :: x in s ==> Comparable(x.weight, x.subtreeBytes)
  }

  /** Every one of the first i is in order with those after it, of the first i; that at j only if
      it is the earlier one. */
  ghost predicate SortedBut(s: seq<PriorityNode>, i: nat, j: nat)
    requires i <= |s|
    reads s
  {
    forall p, q :: 0 <= p < q < i && q != j ==> InOrder(s[p], s[q])
  }

  ghost predicate Sorted(s: seq<PriorityNode>)
    reads s
  {
    forall p, q :: 0 <= p < q < |s| ==> InOrder(s[p], s[q])
  }

  /** sort.Sort, as it is for few elements: a permutation, in order if the kids are comparable. */
  method Sort(tmp: seq<PriorityNode>) returns (s: seq<PriorityNode>)
    ensures multiset(s) == multiset(tmp)
    ensures AllComparable(tmp) ==> Sorted(s)
  {
    s := tmp;
    for i := 0 to |tmp|
      invariant |s| == |tmp| && multiset(s) == multiset(tmp)
      invariant AllComparable(tmp) ==> SortedBut(s, i, i)
    {
      s := Sink(tmp, s, i);
    }
  }

  /** The inner loop: the element at i moves down to its place. */
  method Sink(ghost tmp: seq<PriorityNode>, start: seq<PriorityNode>, i: nat) returns (s: seq<PriorityNode>)
    requires i < |start| == |tmp| && multiset(start) == multiset(tmp)
    requires AllComparable(tmp) ==> SortedBut(start, i, i)
    ensures |s| == |tmp| && multiset(s) == multiset(tmp)
    ensures AllComparable(tmp) ==> SortedBut(s, i + 1, i + 1)
  {
    s := start;
    var j: nat := i;
    while j > 0 && Less(s[j].weight, s[j].subtreeBytes, s[j - 1].weight, s[j - 1].subtreeBytes)
      invariant j <= i < |s| == |tmp| && multiset(s) == multiset(tmp)
      invariant AllComparable(tmp) ==> SortedBut(s, i + 1, j)
    {
      if AllComparable(tmp) {
        Swapped(s, i, j);
      }
      s := s[j := s[j - 1]][j - 1 := s[j]];
      j := j - 1;
    }
    if AllComparable(tmp) {
      Settled(tmp, s, i, j);
    }
  }

  lemma Swapped(s: seq<PriorityNode>, i: nat, j: nat)
    requires 0 < j <= i < |s| && SortedBut(s, i + 1, j) && InOrder(s[j], s[j - 1])
    ensures SortedBut(s[j := s[j - 1]][j - 1 := s[j]], i + 1, j - 1)
  {
  }

  /** Where the element stops, it is in order with all before it. */
  lemma Settled(tmp: seq<PriorityNode>, s: seq<PriorityNode>, i: nat, j: nat)
    requires j <= i < |s| && SortedBut(s, i + 1, j) && (j == 0 || !InOrder(s[j], s[j - 1]))
    requires AllComparable(tmp) && multiset(s) == multiset(tmp)
    ensures SortedBut(s, i + 1, i + 1)
  {
    forall x | x in s
      ensures Comparable(x.weight, x.subtreeBytes)
    {
      assert x in multiset(s);
    }
    forall p | 0 <= p < j
      ensures InOrder(s[p], s[j])
    {
      LessTotal(s[j].weight, s[j].subtreeBytes, s[j - 1].weight, s[j - 1].subtreeBytes);
      if p < j - 1 {
        LessTransitive(s[p].weight, s[p].subtreeBytes, s[j - 1].weight, s[j - 1].subtreeBytes, s[j].weight, s[j].subtreeBytes);
      }
    }
  }

  // ----- The order by values

  /** What the order of siblings depends on: the weight and the bytes sent by the node and those that
      depend on it; next to it the bytes sent by the node alone. */
  datatype Standing = Standing(weight: Weight, own: int, total: int)

  type Standings = map<PriorityNode, Standing>

  ghost predicate StandingsAre(f: Forest<PriorityNode>, st: Standings)
    reads f.kids.Keys`weight, f.kids.Keys`bytes, f.kids.Keys`subtreeBytes
  {
    st.Keys == f.kids.Keys && forall m :: m in st ==> st[m] == Standing(m.weight, m.bytes, m.subtreeBytes)
  }

  /** Who is heavier, if neither has sent anything, or else has sent less for its weight. */
  predicate GoesBefore(a: Standing, b: Standing) {
    if a.total == 0 && b.total == 0 then a.weight > b.weight
    else b.total != 0 && (a.total == 0 || a.total * (b.weight + 1) < b.total * (a.weight + 1))
  }

  ghost predicate SameWeights(ks: seq<PriorityNode>, st: Standings) {
    forall i, j :: 0 <= i < |ks| && 0 <= j < |ks| && ks[i] in st && ks[j] in st ==> st[ks[i]].weight == st[ks[j]].weight
  }

  ghost predicate ComparableKids(ks: seq<PriorityNode>, st: Standings) {
    forall i :: 0 <= i < |ks| && ks[i] in st ==> st[ks[i]].weight < 255 && st[ks[i]].total >= 0
  }

  /** The order in which kids are walked: that of the list if their weights are the same, and else, if
      they can be compared, one in which nobody goes before who is walked earlier. */
  ghost predicate Arranged(ks: seq<PriorityNode>, ks': seq<PriorityNode>, st: Standings) {
    && multiset(ks') == multiset(ks)
    && (SameWeights(ks, st) ==> ks' == ks)
    && (!SameWeights(ks, st) && ComparableKids(ks, st) ==>
          forall i, j :: 0 <= i < j < |ks'| && ks'[i] in st && ks'[j] in st ==> !GoesBefore(st[ks'[j]], st[ks'[i]]))
  }

  lemma LessMeans(a: Standing, b: Standing)
    requires a.weight < 255 && b.weight < 255 && a.total >= 0 && b.total >= 0 && Less(a.weight, a.total, b.weight, b.total)
    ensures !GoesBefore(b, a)
  {
    LessExactly(a.weight, a.total, b.weight, b.total);
    hide Less;
  }

  lemma SortedArranges(f: Forest<PriorityNode>, ks: seq<PriorityNode>, ks': seq<PriorityNode>, st: Standings)
    requires StandingsAre(f, st) && multiset(ks') == multiset(ks) && (forall x :: x in ks ==> x in f.kids)
    requires !SameWeights(ks, st) && (AllComparable(ks) ==> Sorted(ks'))
    ensures Arranged(ks, ks', st)
  {
    if ComparableKids(ks, st) {
      forall x | x in ks
        ensures Comparable(x.weight, x.subtreeBytes)
      {
        var i :| 0 <= i < |ks| && ks[i] == x;
      }
      forall i, j | 0 <= i < j < |ks'| && ks'[i] in st && ks'[j] in st
        ensures !GoesBefore(st[ks'[j]], st[ks'[i]])
      {
        assert ks'[i] in multiset(ks') && ks'[j] in multiset(ks');
        assert ks'[i] in ks && ks'[j] in ks && InOrder(ks'[i], ks'[j]);
        LessMeans(st[ks'[i]], st[ks'[j]]);
      }
    }
  }

  // ----- Taking the kids of n out and putting them back in another order

  /** The kids of n, in this order, without the first i. */
  ghost function Partial(f: Forest<PriorityNode>, n: PriorityNode, order: seq<PriorityNode>, i: nat): Forest<PriorityNode>
    requires i <= |order|
  {
    Forest(f.parents - Elements(order[..i]), f.kids[n := order[i..]])
  }

  function Elements(s: seq<PriorityNode>): set<PriorityNode> {
    set x | x in s
  }

  /** An order of the kids of n. */
  ghost predicate Orders(f: Forest<PriorityNode>, n: PriorityNode, order: seq<PriorityNode>) {
    n in f.kids && NoRepeats(order) && Elements(order) == Elements(f.kids[n])
  }

  lemma PartialParents(f: Forest<PriorityNode>, n: PriorityNode, order: seq<PriorityNode>, i: nat)
    requires LinksOk(f) && Orders(f, n, order) && i < |order|
    ensures order[i] in f.kids && order[i] in f.parents && f.parents[order[i]] == n
    ensures order[i] !in Elements(order[..i]) && Elements(order[..i + 1]) == Elements(order[..i]) + {order[i]}
  {
    assert order[i] in Elements(order);
    assert order[i] in f.kids[n];
    assert order[..i + 1] == order[..i] + [order[i]];
  }

  lemma PartialNext(f: Forest<PriorityNode>, n: PriorityNode, order: seq<PriorityNode>, i: nat)
    requires LinksOk(f) && Orders(f, n, order) && i < |order|
    ensures Reparent(Partial(f, n, order, i), order[i], None) == Partial(f, n, order, i + 1)
  {
    PartialParents(f, n, order, i);
    DroppedHead(order, i);
    var s := Elements(order[..i]);
    assert f.parents - s - {order[i]} == f.parents - (s + {order[i]});
  }

  lemma DroppedHead(order: seq<PriorityNode>, i: nat)
    requires NoRepeats(order) && i < |order|
    ensures Dropped(order[i..], order[i]) == order[i + 1..]
  {
    DroppedAt(order[i..], 0);
  }

  lemma PartialBack(f: Forest<PriorityNode>, n: PriorityNode, order: seq<PriorityNode>, i: nat)
    requires LinksOk(f) && Orders(f, n, order) && i < |order|
    ensures Reparent(Partial(f, n, order, i + 1), order[i], Some(n)) == Partial(f, n, order, i)
  {
    PartialParents(f, n, order, i);
    assert [order[i]] + order[i + 1..] == order[i..];
    var s := Elements(order[..i]);
    assert (f.parents - (s + {order[i]}))[order[i] := n] == f.parents - s;
  }

  lemma PartialStart(f: Forest<PriorityNode>, n: PriorityNode, order: seq<PriorityNode>)
    requires n in f.kids
    ensures Partial(f, n, order, 0) == f.(kids := f.kids[n := order])
  {
    assert order[..0] == [] && order[0..] == order;
    assert f.parents - {} == f.parents;
  }

  lemma PartialEnd(f: Forest<PriorityNode>, n: PriorityNode, order: seq<PriorityNode>)
    requires Orders(f, n, order)
    ensures Partial(f, n, order, |order|) == Forest(f.parents - Elements(f.kids[n]), f.kids[n := []])
  {
    assert order[..|order|] == order && order[|order|..] == [];
    assert Elements(order[..|order|]) == Elements(f.kids[n]);
  }

  lemma SortedOrders(f: Forest<PriorityNode>, n: PriorityNode, order: seq<PriorityNode>)
    requires n in f.kids && NoRepeats(f.kids[n]) && multiset(order) == multiset(f.kids[n])
    ensures Orders(f, n, order) && |order| == |f.kids[n]|
  {
    forall x
      ensures x in order <==> x in f.kids[n]
    {
      assert x in order <==> x in multiset(order);
      assert x in f.kids[n] <==> x in multiset(f.kids[n]);
    }
    assert |multiset(order)| == |order|;
    NoRepeatsCount(order, f.kids[n]);
  }

  lemma NoRepeatsCount(a: seq<PriorityNode>, b: seq<PriorityNode>)
    requires NoRepeats(b) && multiset(a) == multiset(b)
    ensures NoRepeats(a)
  {
    forall i, j | 0 <= i < j < |a|
      ensures a[i] != a[j]
    {
      if a[i] == a[j] {
        Twice(a, i, j);
        Once(b, a[i]);
      }
    }
  }

  lemma Twice(a: seq<PriorityNode>, i: nat, j: nat)
    requires i < j < |a| && a[i] == a[j]
    ensures multiset(a)[a[i]] >= 2
  {
    assert a == a[..i] + [a[i]] + a[i + 1..j] + [a[j]] + a[j + 1..];
  }

  lemma {:induction false} Once(b: seq<PriorityNode>, x: PriorityNode)
    requires NoRepeats(b)
    ensures multiset(b)[x] <= 1
  {
    if b != [] {
      assert b == [b[0]] + b[1..];
      Once(b[1..], x);
      assert b[0] !in b[1..];
    }
  }

  /** The loop that takes the kids of n out, one by one. */
  method TakeKids(n: PriorityNode, ghost f: Forest<PriorityNode>) returns (tmp: seq<PriorityNode>)
    requires Represents(f) && Acyclic(f.parents) && n in f.kids
    modifies f.kids.Keys`parent, f.kids.Keys`kids, f.kids.Keys`prev, f.kids.Keys`next
    ensures tmp == f.kids[n] && Represents(Partial(f, n, tmp, |tmp|))
  {
    tmp := [];
    TakenStart(f, n);
    while n.kids != null
      invariant Taken(f, n, tmp)
      decreases |f.kids[n]| - |tmp|
    {
      var k: PriorityNode := n.kids;
      TakeKid(k, n, f, |tmp|);
      TakenNext(f, n, tmp, k);
      tmp := tmp + [k];
    }
  }

  /** The first kids of n are out, in the order of the list. */
  ghost predicate Taken(f: Forest<PriorityNode>, n: PriorityNode, tmp: seq<PriorityNode>)
    requires n in f.kids
    reads f.kids.Keys
  {
    var ks := f.kids[n];
    && |tmp| <= |ks| && tmp == ks[..|tmp|] && Represents(Partial(f, n, ks, |tmp|))
    && n.kids == if |tmp| == |ks| then null else ks[|tmp|]
  }

  lemma TakenStart(f: Forest<PriorityNode>, n: PriorityNode)
    requires Represents(f) && n in f.kids
    ensures Taken(f, n, [])
  {
    PartialStart(f, n, f.kids[n]);
    assert f.kids[n := f.kids[n]] == f.kids;
    FirstLeft(f, n, 0);
  }

  lemma TakenNext(f: Forest<PriorityNode>, n: PriorityNode, tmp: seq<PriorityNode>, k: PriorityNode)
    requires n in f.kids && |tmp| < |f.kids[n]| && tmp == f.kids[n][..|tmp|] && k == f.kids[n][|tmp|]
    requires Represents(Partial(f, n, f.kids[n], |tmp| + 1))
    ensures Taken(f, n, tmp + [k])
  {
    FirstLeft(f, n, |tmp| + 1);
  }

  lemma FirstLeft(f: Forest<PriorityNode>, n: PriorityNode, i: nat)
    requires n in f.kids && i <= |f.kids[n]| && Represents(Partial(f, n, f.kids[n], i))
    ensures n.kids == if i == |f.kids[n]| then null else f.kids[n][i]
  {
    var all := Partial(f, n, f.kids[n], i).kids;
    assert ListAt(n, all[n]);
  }

  method TakeKid(k: PriorityNode, n: PriorityNode, ghost f: Forest<PriorityNode>, ghost i: nat)
    requires LinksOk(f) && n in f.kids && i < |f.kids[n]| && k == f.kids[n][i]
    requires Represents(Partial(f, n, f.kids[n], i))
    modifies f.kids.Keys`parent, f.kids.Keys`kids, f.kids.Keys`prev, f.kids.Keys`next
    ensures Represents(Partial(f, n, f.kids[n], i + 1))
  {
    PartialNext(f, n, f.kids[n], i);
    PartialParents(f, n, f.kids[n], i);
    var _ := k.SetParent(null, Partial(f, n, f.kids[n], i));
  }

  /** The loop that puts them back, the last one first. */
  method PutKids(n: PriorityNode, order: seq<PriorityNode>, ghost f: Forest<PriorityNode>)
    requires LinksOk(f) && Acyclic(f.parents) && Orders(f, n, order)
    requires Represents(Partial(f, n, order, |order|))
    modifies f.kids.Keys`parent, f.kids.Keys`kids, f.kids.Keys`prev, f.kids.Keys`next
    ensures Represents(f.(kids := f.kids[n := order]))
  {
    var i := |order|;
    while i > 0
      invariant 0 <= i <= |order| && Represents(Partial(f, n, order, i))
    {
      i := i - 1;
      PutKid(order[i], n, order, f, i);
    }
    PartialStart(f, n, order);
  }

  method PutKid(k: PriorityNode, n: PriorityNode, ghost order: seq<PriorityNode>, ghost f: Forest<PriorityNode>, ghost i: nat)
    requires LinksOk(f) && Acyclic(f.parents) && Orders(f, n, order) && i < |order| && k == order[i]
    requires Represents(Partial(f, n, order, i + 1))
    modifies f.kids.Keys`parent, f.kids.Keys`kids, f.kids.Keys`prev, f.kids.Keys`next
    ensures Represents(Partial(f, n, order, i))
  {
    PartialBack(f, n, order, i);
    PartialParents(f, n, order, i);
    DepthStep(f.parents, k);
    var _ := k.SetParent(n, Partial(f, n, order, i + 1));
  }

  /** The kids of n are sorted; nothing else changes. */
  method SortKids(n: PriorityNode, ghost f: Forest<PriorityNode>) returns (ghost f': Forest<PriorityNode>)
    requires Represents(f) && Acyclic(f.parents) && n in f.kids
    modifies f.kids.Keys`parent, f.kids.Keys`kids, f.kids.Keys`prev, f.kids.Keys`next
    ensures Represents(f') && n in f'.kids && f' == f.(kids := f.kids[n := f'.kids[n]])
    ensures multiset(f'.kids[n]) == multiset(f.kids[n])
    ensures AllComparable(f.kids[n]) ==> Sorted(f'.kids[n])
  {
    var tmp := TakeKids(n, f);
    tmp := Sort(tmp);
    SortedOrders(f, n, tmp);
    assert Orders(f, n, f.kids[n]);
    PartialEnd(f, n, tmp);
    PartialEnd(f, n, f.kids[n]);
    PutKids(n, tmp, f);
    f' := f.(kids := f.kids[n := tmp]);
  }
}
