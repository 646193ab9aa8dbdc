/** Forests given by parent links and ordered lists of kids, and what moving a node does to them:
    the values behind the links of the priority write scheduler (h2_bundle.go, priorityNode). */
module PriorityForests {
  import opened Foundations

  /** The parent of every node that has one, and the kids of every node. */
  datatype Forest<T(==)> = Forest(parents: map<T, T>, kids: map<T, seq<T>>)

  function ParentOf<T>(f: Forest<T>, x: T): Option<T> {
    if x in f.parents then Some(f.parents[x]) else None
  }

  predicate NoRepeats<T(==)>(s: seq<T>) {
    forall i, j :: 0 <= i < j < |s| ==> s[i] != s[j]
  }

  /** Kid lists and parent links say the same. */
  ghost predicate LinksOk<T>(f: Forest<T>) {
    && (forall m {:trigger f.kids[m]} :: m in f.kids ==> NoRepeats(f.kids[m]) && KidsOf(f, m))
    && (forall x :: x in f.parents ==> x in f.kids && f.parents[x] in f.kids && x in f.kids[f.parents[x]])
  }

  ghost predicate KidsOf<T>(f: Forest<T>, m: T)
    requires m in f.kids
  {
    forall i :: 0 <= i < |f.kids[m]| ==> f.kids[m][i] in f.parents && f.parents[f.kids[m][i]] == m
  }

  // ----- Chains of parents

  /** The node k steps up. */
  function Up<T>(parents: map<T, T>, x: T, k: nat): Option<T> {
    if k == 0 then Some(x) else if x in parents then Up(parents, parents[x], k - 1) else None
  }

  /** Whether x is n or depends on it. */
  ghost predicate Under<T>(parents: map<T, T>, x: T, n: T) {
    exists k: nat :: Up(parents, x, k) == Some(n)
  }

  lemma UnderStep<T>(parents: map<T, T>, x: T, n: T)
    ensures Under(parents, x, n) <==> x == n || (x in parents && Under(parents, parents[x], n))
  {
    if Under(parents, x, n) {
      var k: nat :| Up(parents, x, k) == Some(n);
      if k > 0 {
        assert Up(parents, parents[x], k - 1) == Some(n);
      }
    }
    if x == n {
      assert Up(parents, x, 0) == Some(n);
    }
    if x in parents && Under(parents, parents[x], n) {
      var k: nat :| Up(parents, parents[x], k) == Some(n);
      assert Up(parents, x, k + 1) == Some(n);
    }
  }

  /** The chain of parents of every node ends. */
  ghost predicate Acyclic<T>(parents: map<T, T>) {
    exists k: nat :: ChainsEnd(parents, k)
  }

  ghost predicate ChainsEnd<T>(parents: map<T, T>, k: nat) {
    forall x :: x in parents ==> Up(parents, x, k) == None
  }

  lemma {:induction false} UpEnded<T>(parents: map<T, T>, x: T, j: nat, k: nat)
    requires j <= k && Up(parents, x, j) == None
    ensures Up(parents, x, k) == None
    decreases k
  {
    if x in parents && j > 0 {
      UpEnded(parents, parents[x], j - 1, k - 1);
    }
  }

  ghost function Bound<T>(parents: map<T, T>): (k: nat)
    requires Acyclic(parents)
    ensures ChainsEnd(parents, k)
  {
    var k: nat :| ChainsEnd(parents, k);
    k
  }

  /** The length of the chain of parents above a node. */
  ghost function Depth<T>(parents: map<T, T>, x: T): (k: nat)
    requires Acyclic(parents)
    ensures k <= Bound(parents) + 1
  {
    Steps(parents, x, Bound(parents) + 1)
  }

  function Steps<T>(parents: map<T, T>, x: T, k: nat): (steps: nat)
    ensures steps <= k
  {
    if k == 0 || x !in parents then 0 else 1 + Steps(parents, parents[x], k - 1)
  }

  lemma {:induction false} StepsEnded<T>(parents: map<T, T>, x: T, j: nat, k: nat)
    requires j <= k && Up(parents, x, j) == None
    ensures Steps(parents, x, j) == Steps(parents, x, k)
    decreases k
  {
    if x in parents && j > 0 {
      StepsEnded(parents, parents[x], j - 1, k - 1);
    }
  }

  /** A parent is one step nearer to the end of the chain. */
  lemma DepthStep<T>(parents: map<T, T>, x: T)
    requires Acyclic(parents) && x in parents
    ensures Depth(parents, x) == Depth(parents, parents[x]) + 1
  {
    var k := Bound(parents);
    assert Up(parents, x, k) == None;
    StepsEnded(parents, parents[x], k - 1, k);
    StepsEnded(parents, parents[x], k, k + 1);
  }

  lemma {:induction false} UpDepth<T>(parents: map<T, T>, x: T, k: nat)
    requires Acyclic(parents) && Up(parents, x, k).Some?
    ensures Depth(parents, Up(parents, x, k).value) + k == Depth(parents, x)
    decreases k
  {
    if k > 0 {
      DepthStep(parents, x);
      UpDepth(parents, parents[x], k - 1);
    }
  }

  /** A proper ancestor is nearer to the end of the chain. */
  lemma UnderDepth<T>(parents: map<T, T>, x: T, n: T)
    requires Acyclic(parents) && Under(parents, x, n)
    ensures n == x || Depth(parents, n) < Depth(parents, x)
  {
    var k: nat :| Up(parents, x, k) == Some(n);
    UpDepth(parents, x, k);
  }

  lemma UnderTransitive<T>(parents: map<T, T>, x: T, y: T, z: T)
    requires Under(parents, x, y) && Under(parents, y, z)
    ensures Under(parents, x, z)
  {
    var j: nat :| Up(parents, x, j) == Some(y);
    var k: nat :| Up(parents, y, k) == Some(z);
    UpAdds(parents, x, j, k);
    assert Up(parents, x, j + k) == Some(z);
  }

  lemma {:induction false} UpAdds<T>(parents: map<T, T>, x: T, j: nat, k: nat)
    requires Up(parents, x, j).Some?
    ensures Up(parents, x, j + k) == Up(parents, Up(parents, x, j).value, k)
    decreases j
  {
    if j > 0 {
      UpAdds(parents, parents[x], j - 1, k);
    }
  }

  /** A forest with a root. */
  ghost predicate Tree<T>(f: Forest<T>, root: T) {
    LinksOk(f) && Acyclic(f.parents) && root in f.kids && root !in f.parents
  }

  // ----- setParent

  function Dropped<T(==)>(s: seq<T>, x: T): (r: seq<T>)
    ensures (forall y :: y in r ==> y in s && y != x) && forall y :: y in s ==> y == x || y in r
    ensures forall i :: 0 <= i < |r| ==> r[i] in r
  {
    if s == [] then [] else if s[0] == x then Dropped(s[1..], x) else [s[0]] + Dropped(s[1..], x)
  }

  lemma {:induction false} DroppedNoRepeats<T>(s: seq<T>, x: T)
    requires NoRepeats(s)
    ensures NoRepeats(Dropped(s, x))
  {
    if s != [] {
      DroppedNoRepeats(s[1..], x);
      assert s[0] !in s[1..];
      assert s[0] !in Dropped(s[1..], x);
    }
  }

  lemma {:induction false} DroppedAt<T>(s: seq<T>, j: nat)
    requires NoRepeats(s) && j < |s|
    ensures Dropped(s, s[j]) == s[..j] + s[j + 1..]
  {
    if j == 0 {
      DroppedNone(s[1..], s[0]);
    } else {
      DroppedAt(s[1..], j - 1);
    }
  }

  lemma {:induction false} DroppedNone<T>(s: seq<T>, x: T)
    requires x !in s
    ensures Dropped(s, x) == s
  {
    if s != [] {
      DroppedNone(s[1..], x);
    }
  }

  function Detach<T>(f: Forest<T>, n: T): Forest<T>
    requires n in f.parents ==> f.parents[n] in f.kids
  {
    if n !in f.parents then f
    else
      var p := f.parents[n];
      Forest(f.parents - {n}, f.kids[p := Dropped(f.kids[p], n)])
  }

  function Attach<T>(f: Forest<T>, n: T, parent: Option<T>): Forest<T>
    requires parent.Some? ==> parent.value in f.kids
  {
    if parent == None then f
    else Forest(f.parents[n := parent.value], f.kids[parent.value := [n] + f.kids[parent.value]])
  }

  /** setParent: the node becomes the first kid of its new parent. */
  function Reparent<T>(f: Forest<T>, n: T, parent: Option<T>): Forest<T>
    requires n in f.parents ==> f.parents[n] in f.kids
    requires parent.Some? ==> parent.value in f.kids
  {
    if ParentOf(f, n) == parent then f else Attach(Detach(f, n), n, parent)
  }

  lemma DetachOk<T>(f: Forest<T>, n: T)
    requires LinksOk(f) && n in f.kids
    ensures LinksOk(Detach(f, n)) && n !in Detach(f, n).parents
    ensures forall m :: m in f.kids ==> n !in Detach(f, n).kids[m]
  {
    if n in f.parents {
      DroppedNoRepeats(f.kids[f.parents[n]], n);
    }
  }

  lemma AttachOk<T>(f: Forest<T>, n: T, p: T)
    requires LinksOk(f) && n in f.kids && p in f.kids && n !in f.parents
    ensures LinksOk(Attach(f, n, Some(p)))
  {
    assert n !in f.kids[p];
  }

  lemma ReattachOk<T>(f: Forest<T>, n: T, parent: Option<T>)
    requires LinksOk(f) && n in f.kids && (parent.Some? ==> parent.value in f.kids)
    ensures LinksOk(Attach(Detach(f, n), n, parent))
  {
    DetachOk(f, n);
    if parent.Some? {
      AttachOk(Detach(f, n), n, parent.value);
    }
  }

  lemma ReparentOk<T>(f: Forest<T>, n: T, parent: Option<T>)
    requires LinksOk(f) && n in f.kids && (parent.Some? ==> parent.value in f.kids)
    ensures var f' := Reparent(f, n, parent);
            && LinksOk(f') && ParentOf(f', n) == parent && f'.kids.Keys == f.kids.Keys
            && forall x :: x != n ==> ParentOf(f', x) == ParentOf(f, x)
  {
    ReattachOk(f, n, parent);
  }

  lemma ReparentParents<T>(f: Forest<T>, n: T, p: T)
    requires (n in f.parents ==> f.parents[n] in f.kids) && p in f.kids
    ensures Reparent(f, n, Some(p)).parents == f.parents[n := p]
  {
  }

  // ----- Moving keeps the forest free of cycles

  lemma {:induction false} UpDetached<T>(parents: map<T, T>, n: T, x: T, k: nat)
    requires Up(parents, x, k) == None
    ensures Up(parents - {n}, x, k) == None
    decreases k
  {
    if x in parents && x != n {
      UpDetached(parents, n, parents[x], k - 1);
    }
  }

  lemma DetachAcyclic<T>(parents: map<T, T>, n: T)
    requires Acyclic(parents)
    ensures Acyclic(parents - {n})
  {
    var k: nat :| ChainsEnd(parents, k);
    forall x | x in parents
      ensures Up(parents - {n}, x, k) == None
    {
      UpDetached(parents, n, x, k);
    }
    assert ChainsEnd(parents - {n}, k);
  }

  /** The move of n below p leaves chains that do not pass through n as they are. */
  lemma {:induction false} UpMoved<T>(parents: map<T, T>, n: T, p: T, x: T, k: nat)
    requires !Under(parents, x, n)
    ensures Up(parents[n := p], x, k) == Up(parents, x, k)
    decreases k
  {
    UnderStep(parents, x, n);
    if k > 0 && x in parents {
      UpMoved(parents, n, p, parents[x], k - 1);
    }
  }

  lemma {:induction false} UpThrough<T>(parents: map<T, T>, n: T, p: T, x: T, k: nat, l: nat)
    requires !Under(parents, p, n) && Up(parents, x, k) == None && Up(parents, p, l) == None
    ensures Up(parents[n := p], x, k + l + 1) == None
    decreases k
  {
    if x == n {
      UpMoved(parents, n, p, p, k + l);
      UpEnded(parents, p, l, k + l);
    } else if x in parents {
      UpThrough(parents, n, p, parents[x], k - 1, l);
    }
  }

  /** A node can move below any node that does not depend on it. */
  lemma MoveAcyclic<T>(parents: map<T, T>, n: T, p: T)
    requires Acyclic(parents) && !Under(parents, p, n)
    ensures Acyclic(parents[n := p])
  {
    var l: nat :| ChainsEnd(parents, l);
    var k := l + 1;
    forall x
      ensures Up(parents, x, k) == None
    {
      if x in parents {
        UpEnded(parents, x, l, k);
      }
    }
    var moved := parents[n := p];
    forall x | x in moved
      ensures Up(moved, x, k + k + 1) == None
    {
      UpThrough(parents, n, p, x, k, k);
    }
    assert ChainsEnd(moved, k + k + 1);
  }

  lemma RootTree<T>(f: Forest<T>, n: T, root: T)
    requires Tree(f, root) && n in f.kids && n != root
    ensures var f' := Reparent(f, n, Some(root));
            Tree(f', root) && f'.kids.Keys == f.kids.Keys && f'.parents == f.parents[n := root]
  {
    ReparentOk(f, n, Some(root));
    ReparentParents(f, n, root);
    UnderStep(f.parents, root, n);
    MoveAcyclic(f.parents, n, root);
  }

  // ----- Section 5.3.3 of RFC 7540

  /** What other dependencies of p become when n becomes its sole dependency. */
  function Adopt<T>(parents: map<T, T>, n: T, p: T): map<T, T> {
    map x | x in parents :: if parents[x] == p && x != n then n else parents[x]
  }

  /** The parents after n was made to depend on p. */
  ghost function Adjusted<T>(parents: map<T, T>, n: T, p: T, exclusive: bool): map<T, T> {
    var freed := Freed(parents, n, p);
    (if exclusive then Adopt(freed, n, p) else freed)[n := p]
  }

  /** A p that depends on n first takes the place of n. */
  ghost function Freed<T>(parents: map<T, T>, n: T, p: T): map<T, T> {
    if !Under(parents, p, n) then parents
    else if n in parents then parents[p := parents[n]]
    else parents - {p}
  }

  lemma {:induction false} UpAdopted<T>(parents: map<T, T>, n: T, p: T, x: T, k: nat)
    requires n in parents && parents[n] == p && n != p && Up(parents, x, k) == None
    ensures Up(Adopt(parents, n, p), x, 2 * k) == None
    decreases k
  {
    if x in parents {
      var y := parents[x];
      UpAdopted(parents, n, p, y, k - 1);
      UpEnded(Adopt(parents, n, p), y, 2 * k - 2, 2 * k - 1);
      if y == p && x != n {
        assert Up(Adopt(parents, n, p), n, 2 * k - 1) == Up(Adopt(parents, n, p), p, 2 * k - 2);
      }
    }
  }

  lemma AdoptAcyclic<T>(parents: map<T, T>, n: T, p: T)
    requires Acyclic(parents) && n in parents && parents[n] == p && n != p
    ensures Acyclic(Adopt(parents, n, p))
  {
    var k: nat :| ChainsEnd(parents, k);
    forall x | x in parents
      ensures Up(Adopt(parents, n, p), x, 2 * k) == None
    {
      UpAdopted(parents, n, p, x, k);
    }
    assert ChainsEnd(Adopt(parents, n, p), 2 * k);
  }

  /** The move that frees p from n. */
  lemma FreedBy<T>(f: Forest<T>, n: T, p: T)
    requires LinksOk(f) && Acyclic(f.parents) && p in f.kids && n in f.kids && n != p && Under(f.parents, p, n)
    ensures ParentOf(f, n) != Some(p)
    ensures Reparent(f, p, ParentOf(f, n)).parents == Freed(f.parents, n, p)
    ensures Reparent(f, p, ParentOf(f, n)).kids.Keys == f.kids.Keys
  {
    UnderStep(f.parents, p, n);
    UnderDepth(f.parents, p, n);
    if n in f.parents {
      DepthStep(f.parents, n);
      ReparentParents(f, p, f.parents[n]);
    }
  }

  lemma AdjustedTree<T>(f: Forest<T>, f': Forest<T>, n: T, p: T, exclusive: bool, root: T)
    requires Tree(f, root) && LinksOk(f') && n != p && n != root && root in f'.kids
    requires f'.parents == Adjusted(f.parents, n, p, exclusive)
    ensures Tree(f', root)
  {
    AdjustedAcyclic(f.parents, n, p, exclusive);
    UnderStep(f.parents, p, n);
  }

  /** Freeing p from n keeps chains finite, and then p does not depend on n. */
  lemma FreedOk<T>(parents: map<T, T>, n: T, p: T)
    requires Acyclic(parents) && n != p
    ensures Acyclic(Freed(parents, n, p)) && !Under(Freed(parents, n, p), p, n)
  {
    if Under(parents, p, n) {
      UnderDepth(parents, p, n);
      UnderStep(Freed(parents, n, p), p, n);
      if n in parents {
        var g := parents[n];
        DepthStep(parents, n);
        if Under(parents, g, p) {
          UnderDepth(parents, g, p);
        }
        MoveAcyclic(parents, p, g);
        if Under(parents[p := g], g, n) {
          DepthStep(parents[p := g], n);
          UnderDepth(parents[p := g], g, n);
        }
      } else {
        DetachAcyclic(parents, p);
      }
    }
  }

  /** Making n depend on p, exclusively or not, keeps every chain finite. */
  lemma AdjustedAcyclic<T>(parents: map<T, T>, n: T, p: T, exclusive: bool)
    requires Acyclic(parents) && n != p
    ensures Acyclic(Adjusted(parents, n, p, exclusive))
  {
    FreedOk(parents, n, p);
    var freed := Freed(parents, n, p);
    MoveAcyclic(freed, n, p);
    if exclusive {
      AdoptAcyclic(freed[n := p], n, p);
      assert Adopt(freed, n, p)[n := p] == Adopt(freed[n := p], n, p);
    }
  }

  /** An exclusive dependency is the only one of its parent. */
  lemma SoleKid<T>(f: Forest<T>, parents: map<T, T>, n: T, p: T)
    requires LinksOk(f) && n != p && f.parents == Adjusted(parents, n, p, true) && p in f.kids
    ensures f.kids[p] == [n]
  {
    var ks := f.kids[p];
    assert n in f.parents && f.parents[n] == p;
    assert n in ks && (|ks| > 1 ==> ks[0] != ks[1]);
    forall i | 0 <= i < |ks|
      ensures ks[i] == n
    {
      assert ks[i] in f.parents && f.parents[ks[i]] == p;
    }
  }

  // ----- The loop that moves the other kids of p below n

  /** The first i kids of p, except n, have moved below n. */
  ghost predicate Moving<T>(f0: Forest<T>, f: Forest<T>, n: T, p: T, i: nat)
    requires p in f0.kids && i <= |f0.kids[p]|
  {
    var ks := f0.kids[p];
    && LinksOk(f) && f.kids.Keys == f0.kids.Keys && Adopted(f0.parents, f.parents, ks[..i], n)
    && f.kids[p] == (if n in ks[..i] then [n] else []) + ks[i..]
  }

  ghost predicate Adopted<T>(parents0: map<T, T>, parents: map<T, T>, ks: seq<T>, n: T) {
    && parents.Keys == parents0.Keys
    && forall x :: x in parents ==> parents[x] == if x in ks && x != n then n else parents0[x]
  }

  lemma AdoptedNext<T>(parents0: map<T, T>, parents: map<T, T>, ks: seq<T>, k: T, n: T)
    requires Adopted(parents0, parents, ks, n) && k in parents
    ensures Adopted(parents0, if k == n then parents else parents[k := n], ks + [k], n)
  {
  }

  /** The kids of p that are still to be looked at follow each other in its list. */
  lemma MovingNext<T>(f0: Forest<T>, f: Forest<T>, n: T, p: T, i: nat) returns (j: nat)
    requires p in f0.kids && i < |f0.kids[p]| && NoRepeats(f0.kids[p]) && Moving(f0, f, n, p, i)
    ensures j == if n in f0.kids[p][..i] then 1 else 0
    ensures j < |f.kids[p]| && f.kids[p][j] == f0.kids[p][i]
    ensures if i + 1 == |f0.kids[p]| then j + 1 == |f.kids[p]|
            else j + 1 < |f.kids[p]| && f.kids[p][j + 1] == f0.kids[p][i + 1]
  {
    j := if n in f0.kids[p][..i] then 1 else 0;
  }

  lemma MovingStep<T>(f0: Forest<T>, f: Forest<T>, n: T, p: T, i: nat)
    requires LinksOk(f0) && p in f0.kids && n in f0.kids && n != p && i < |f0.kids[p]| && Moving(f0, f, n, p, i)
    ensures var k := f0.kids[p][i];
            k in f.kids && Moving(f0, if k == n then f else Reparent(f, k, Some(n)), n, p, i + 1)
  {
    var ks := f0.kids[p];
    var k := ks[i];
    PrefixNext(ks, i);
    assert k !in ks[..i] && k in f0.parents && f0.parents[k] == p;
    AdoptedNext(f0.parents, f.parents, ks[..i], k, n);
    if k != n {
      ReparentOk(f, k, Some(n));
      MovingKids(f0, f, n, p, i);
      ReparentParents(f, k, n);
    }
  }

  lemma PrefixNext<T>(ks: seq<T>, i: nat)
    requires i < |ks|
    ensures ks[..i + 1] == ks[..i] + [ks[i]] && [ks[i]] + ks[i + 1..] == [] + ks[i..]
  {
  }

  lemma MovingKids<T>(f0: Forest<T>, f: Forest<T>, n: T, p: T, i: nat)
    requires p in f0.kids && n in f0.kids && n != p && i < |f0.kids[p]| && Moving(f0, f, n, p, i)
    requires NoRepeats(f0.kids[p]) && f0.kids[p][i] != n && ParentOf(f, f0.kids[p][i]) == Some(p)
    ensures Reparent(f, f0.kids[p][i], Some(n)).kids[p] == (if n in f0.kids[p][..i] then [n] else []) + f0.kids[p][i + 1..]
  {
    var k := f0.kids[p][i];
    MovingRest(f.kids[p], if n in f0.kids[p][..i] then [n] else [], f0.kids[p], i);
    hide Moving, NoRepeats, LinksOk, Adopted;
    assert f.parents[k] == p && Reparent(f, k, Some(n)) == Attach(Detach(f, k), k, Some(n));
  }

  lemma MovingRest<T>(s: seq<T>, first: seq<T>, ks: seq<T>, i: nat)
    requires i < |ks| && s == first + ks[i..] && |first| <= 1 && NoRepeats(s)
    ensures Dropped(s, ks[i]) == first + ks[i + 1..]
  {
    assert s[|first|] == ks[i];
    DroppedAt(s, |first|);
    assert s[..|first|] == first && s[|first| + 1..] == ks[i + 1..];
  }

  lemma MovingStart<T>(f: Forest<T>, n: T, p: T)
    requires LinksOk(f) && p in f.kids
    ensures Moving(f, f, n, p, 0)
  {
    assert f.kids[p][..0] == [] && [] + f.kids[p][0..] == f.kids[p];
  }

  /** At the end n has adopted all other kids of p. */
  lemma MovingEnd<T>(f0: Forest<T>, f: Forest<T>, n: T, p: T)
    requires LinksOk(f0) && p in f0.kids && Moving(f0, f, n, p, |f0.kids[p]|)
    ensures f.parents == Adopt(f0.parents, n, p)
  {
    var ks := f0.kids[p];
    assert ks[..|ks|] == ks;
    forall x | x in f0.parents
      ensures f.parents[x] == Adopt(f0.parents, n, p)[x]
    {
      if f0.parents[x] == p {
        assert x in ks;
      }
    }
  }

  // ----- A new node

  function Plant<T>(f: Forest<T>, n: T): Forest<T> {
    f.(kids := f.kids[n := []])
  }

  lemma {:induction false} UpKnown<T>(f: Forest<T>, x: T, k: nat)
    requires LinksOk(f) && x in f.kids && Up(f.parents, x, k).Some?
    ensures Up(f.parents, x, k).value in f.kids
    decreases k
  {
    if k > 0 {
      UpKnown(f, f.parents[x], k - 1);
    }
  }

  /** A new node can be put below any other. */
  lemma PlantOk<T>(f: Forest<T>, n: T, p: T)
    requires LinksOk(f) && Acyclic(f.parents) && n !in f.kids && p in f.kids
    ensures LinksOk(Plant(f, n)) && Acyclic(Reparent(Plant(f, n), n, Some(p)).parents)
  {
    if Under(f.parents, p, n) {
      var k: nat :| Up(f.parents, p, k) == Some(n);
      UpKnown(f, p, k);
    }
    MoveAcyclic(f.parents, n, p);
    assert n !in f.parents;
    assert Detach(Plant(f, n), n) == Plant(f, n);
  }

  lemma PlantedBelow<T>(f: Forest<T>, n: T, p: T, root: T)
    requires Tree(f, root) && n !in f.kids && p in f.kids
    ensures Tree(Reparent(Plant(f, n), n, Some(p)), root)
    ensures Reparent(Plant(f, n), n, Some(p)).kids.Keys == f.kids.Keys + {n}
  {
    PlantOk(f, n, p);
    ReparentOk(Plant(f, n), n, Some(p));
    assert n !in f.parents;
  }

  // ----- removeNode

  /** What removeNode does: only the first kid takes the place of the removed node. */
  function Removed<T>(f: Forest<T>, n: T): Forest<T>
    requires n in f.kids && KidsKnown(f)
  {
    Detach(Promoted(f, n), n)
  }

  function Promoted<T>(f: Forest<T>, n: T): (f': Forest<T>)
    requires n in f.kids && KidsKnown(f)
    ensures n in f'.parents ==> f'.parents[n] in f'.kids
  {
    if f.kids[n] == [] then f else Reparent(f, f.kids[n][0], ParentOf(f, n))
  }

  predicate KidsKnown<T>(f: Forest<T>) {
    forall x :: x in f.parents ==> f.parents[x] in f.kids
  }

  lemma RemovedOk<T>(f: Forest<T>, n: T)
    requires LinksOk(f) && Acyclic(f.parents) && n in f.kids
    ensures LinksOk(Promoted(f, n)) && Acyclic(Promoted(f, n).parents)
    ensures LinksOk(Removed(f, n)) && Acyclic(Removed(f, n).parents)
    ensures f.kids[n] != [] ==> Some(f.kids[n][0]) != ParentOf(f, n)
  {
    if f.kids[n] != [] {
      var k := f.kids[n][0];
      assert k in f.parents && f.parents[k] == n;
      DepthStep(f.parents, k);
      ReparentOk(f, k, ParentOf(f, n));
      if n in f.parents {
        DepthStep(f.parents, n);
        if Under(f.parents, f.parents[n], k) {
          UnderDepth(f.parents, f.parents[n], k);
        }
        MoveAcyclic(f.parents, k, f.parents[n]);
        assert (f.parents - {k})[k := f.parents[n]] == f.parents[k := f.parents[n]];
      } else {
        DetachAcyclic(f.parents, k);
      }
    }
    DetachOk(Promoted(f, n), n);
    DetachAcyclic(Promoted(f, n).parents, n);
    assert n !in Promoted(f, n).parents ==> Promoted(f, n).parents - {n} == Promoted(f, n).parents;
  }

  /** Removing creates no parents, and the nodes stay. */
  lemma RemovedKnown<T>(f: Forest<T>, n: T)
    requires LinksOk(f) && n in f.kids
    ensures Promoted(f, n).kids.Keys == Removed(f, n).kids.Keys == f.kids.Keys
    ensures Removed(f, n) == Reparent(Promoted(f, n), n, None)
    ensures forall x :: x in Removed(f, n).parents ==> x in f.parents
  {
    if f.kids[n] != [] {
      assert f.kids[n][0] in f.parents && f.parents[f.kids[n][0]] == n;
    }
  }

  lemma RemovedTree<T>(f: Forest<T>, n: T, root: T)
    requires Tree(f, root) && n in f.kids
    ensures Tree(Removed(f, n), root) && Removed(f, n).kids.Keys == f.kids.Keys
  {
    RemovedOk(f, n);
    RemovedKnown(f, n);
  }

  /** Every node that depended on the root still does, except the removed one. */
  ghost predicate ReachKept<T>(f: Forest<T>, n: T, root: T)
    requires n in f.kids && KidsKnown(f)
  {
    forall x :: x in f.kids && x != n && Under(f.parents, x, root) ==> Under(Removed(f, n).parents, x, root)
  }

  /** Removing a node of the tree cuts nothing else off exactly if it has at most one kid. */
  lemma RemovalKeepsReach<T>(f: Forest<T>, n: T, root: T)
    requires LinksOk(f) && Acyclic(f.parents) && n in f.kids && root !in f.parents
    requires n != root && Under(f.parents, n, root)
    ensures ReachKept(f, n, root) <==> |f.kids[n]| <= 1
  {
    if |f.kids[n]| <= 1 {
      forall x | x in f.kids && x != n && Under(f.parents, x, root)
        ensures Under(Removed(f, n).parents, x, root)
      {
        ReachStays(f, n, root, x);
      }
    } else {
      CutOff(f, n, root);
    }
  }

  lemma RemovedParents<T>(f: Forest<T>, n: T)
    requires LinksOk(f) && n in f.kids && n in f.parents
    ensures var f' := Removed(f, n).parents;
            && n !in f'
            && forall x :: x in f.parents && x != n ==>
                 x in f' && f'[x] == if |f.kids[n]| > 0 && x == f.kids[n][0] then f.parents[n] else f.parents[x]
  {
    if f.kids[n] != [] {
      assert f.kids[n][0] in f.parents && f.parents[f.kids[n][0]] == n;
    }
  }

  lemma {:induction false} ReachStays<T>(f: Forest<T>, n: T, root: T, x: T)
    requires LinksOk(f) && Acyclic(f.parents) && n in f.kids && n in f.parents && n != root
    requires |f.kids[n]| <= 1 && x != n && Under(f.parents, x, root)
    ensures Under(Removed(f, n).parents, x, root)
    decreases Depth(f.parents, x)
  {
    var after := Removed(f, n).parents;
    UnderStep(f.parents, x, root);
    UnderStep(after, x, root);
    if x != root {
      RemovedParents(f, n);
      DepthStep(f.parents, x);
      if f.parents[x] == n {
        assert x in f.kids[n];
        UnderStep(f.parents, n, root);
        DepthStep(f.parents, n);
        ReachStays(f, n, root, f.parents[n]);
      } else {
        ReachStays(f, n, root, f.parents[x]);
      }
    }
  }

  lemma CutOff<T>(f: Forest<T>, n: T, root: T)
    requires LinksOk(f) && Acyclic(f.parents) && n in f.kids && root !in f.parents
    requires n != root && Under(f.parents, n, root) && |f.kids[n]| > 1
    ensures !ReachKept(f, n, root)
  {
    var x := f.kids[n][1];
    assert x in f.parents && f.parents[x] == n && x != f.kids[n][0];
    UnderStep(f.parents, n, root);
    UnderStep(f.parents, x, root);
    RemovedParents(f, n);
    DepthStep(f.parents, x);
    UnderStep(Removed(f, n).parents, x, root);
    UnderStep(Removed(f, n).parents, n, root);
    assert x in f.kids && x != n && Under(f.parents, x, root) && !Under(Removed(f, n).parents, x, root);
  }
}
