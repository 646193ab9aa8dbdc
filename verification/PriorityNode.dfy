/** The nodes of the priority tree and their links (h2_bundle.go, priorityNode). */
module PriorityNodes {
  import opened Foundations
  import opened WriteQueues
  import opened PriorityForests

  /** The weight less one (section 5.3.2 of RFC 7540). */
  type Weight = w: int | 0 <= w < 256

  datatype NodeState = Open | Closed | Idle

  class PriorityNode {
    const id: nat
    var q: seq<Request>
    var weight: Weight
    var state: NodeState
    var bytes: int
    var subtreeBytes: int
    var parent: PriorityNode?
    var kids: PriorityNode?
    var prev: PriorityNode?
    var next: PriorityNode?

    constructor (id: nat, weight: Weight, state: NodeState)
      ensures this.id == id && this.weight == weight && this.state == state
      ensures q == [] && bytes == subtreeBytes == 0 && parent == kids == prev == next == null
    {
      this.id, this.weight, this.state := id, weight, state;
      q, bytes, subtreeBytes, parent, kids, prev, next := [], 0, 0, null, null, null, null;
    }

    /** Taking this node out of the list of its siblings. */
    method Unlink(ghost all: map<PriorityNode, seq<PriorityNode>>)
      requires Lists(all) && parent in all && this in all[parent] && NoRepeats(all[parent])
      modifies all.Keys`kids, all.Keys`prev, all.Keys`next
      ensures Lists(all[parent := Dropped(all[parent], this)])
    {
      SiblingsKnown(all);
      if prev == null {
        parent.kids := next;
      } else {
        prev.next := next;
      }
      if next != null {
        next.prev := prev;
      }
      Unlinked(all);
    }

    lemma SiblingsKnown(all: map<PriorityNode, seq<PriorityNode>>)
      requires Lists(all) && parent in all && this in all[parent] && NoRepeats(all[parent])
      ensures this in all && prev != this && next != this
      ensures prev != null ==> prev in all && prev.next == this
      ensures next != null ==> next in all && next.prev == this
      ensures next != prev || next == null
    {
      var ks := all[parent];
      assert ListAt(parent, ks);
      var j :| 0 <= j < |ks| && ks[j] == this;
      assert KidAt(parent, ks, j);
      assert j > 0 ==> KidAt(parent, ks, j - 1);
      assert j + 1 < |ks| ==> KidAt(parent, ks, j + 1);
    }

    /** The links before and after this node are joined. */
    twostate predicate Joined(all: map<PriorityNode, seq<PriorityNode>>)
      reads all.Keys
    {
      forall m {:trigger m in all} :: m in all ==>
        && m.parent == old(m.parent)
        && m.kids == (if m == old(parent) && old(prev) == null then old(next) else old(m.kids))
        && m.next == (if m == old(prev) then old(next) else old(m.next))
        && m.prev == (if m == old(next) then old(prev) else old(m.prev))
    }

    twostate lemma Unlinked(all: map<PriorityNode, seq<PriorityNode>>)
      requires old(Lists(all)) && old(parent) in all && this in all[old(parent)] && NoRepeats(all[old(parent)])
      requires Joined(all)
      ensures Lists(all[old(parent) := Dropped(all[old(parent)], this)])
    {
      OwnListShrinks(all);
      OthersKept(all);
    }

    twostate lemma OwnListShrinks(all: map<PriorityNode, seq<PriorityNode>>)
      requires old(Lists(all)) && old(parent) in all && this in all[old(parent)] && NoRepeats(all[old(parent)])
      requires Joined(all)
      ensures ListAt(old(parent), Dropped(all[old(parent)], this))
    {
      var p: PriorityNode := old(parent);
      var ks := all[p];
      assert old(ListAt(p, ks));
      var j :| 0 <= j < |ks| && ks[j] == this;
      DroppedAt(ks, j);
      assert old(KidAt(p, ks, j));
      KidsAfter(all);
      Shrunk(p, ks, j, old(prev), old(next));
    }

    /** The links of the siblings once those around this node are joined. */
    twostate lemma KidsAfter(all: map<PriorityNode, seq<PriorityNode>>)
      requires old(Lists(all)) && old(parent) in all && this in all[old(parent)] && Joined(all)
      ensures var p: PriorityNode := old(parent); var ks := all[p];
              && p.kids == (if old(prev) == null then old(next) else First(ks))
              && forall i :: 0 <= i < |ks| ==> Skips(p, ks, i, old(prev), old(next))
    {
      var p: PriorityNode := old(parent);
      var ks := all[p];
      assert old(ListAt(p, ks));
      forall i | 0 <= i < |ks|
        ensures Skips(p, ks, i, old(prev), old(next))
      {
        assert old(KidAt(p, ks, i));
        assert ks[i] in all;
      }
    }

    twostate lemma OthersKept(all: map<PriorityNode, seq<PriorityNode>>)
      requires old(Lists(all)) && old(parent) in all && this in all[old(parent)] && NoRepeats(all[old(parent)])
      requires Joined(all)
      ensures forall m :: m in all && m != old(parent) ==> ListAt(m, all[m])
    {
      var ks := all[old(parent)];
      assert old(ListAt(parent, ks));
      var j :| 0 <= j < |ks| && ks[j] == this;
      assert old(KidAt(parent, ks, j));
      assert j > 0 ==> old(KidAt(parent, ks, j - 1));
      assert j + 1 < |ks| ==> old(KidAt(parent, ks, j + 1));
      forall m | m in all && m != old(parent)
        ensures ListAt(m, all[m])
      {
        assert old(ListAt(m, all[m]));
        forall i | 0 <= i < |all[m]|
          ensures KidAt(m, all[m], i)
        {
          assert old(KidAt(m, all[m], i));
        }
      }
    }

    /** Putting this node, which is in no list, at the head of the kids of its new parent. */
    method Link(newParent: PriorityNode?, ghost all: map<PriorityNode, seq<PriorityNode>>)
      requires Lists(all) && this in all && (forall m :: m in all ==> this !in all[m])
      requires newParent != null ==> newParent in all
      modifies this`parent, this`next, this`prev, all.Keys`kids, all.Keys`prev
      ensures parent == newParent && (newParent == null ==> next == null)
      ensures if newParent == null then Lists(all) else Lists(all[newParent := [this] + all[newParent]])
    {
      parent := newParent;
      if newParent == null {
        next, prev := null, null;
        Unlisted(all);
      } else {
        assert ListAt(newParent, all[newParent]);
        LinkFirst(newParent, all);
        Linked(all);
      }
    }

    method LinkFirst(newParent: PriorityNode, ghost all: map<PriorityNode, seq<PriorityNode>>)
      requires newParent in all && this in all
      requires newParent.kids != null ==> newParent.kids in all && newParent.kids != this
      modifies this`next, this`prev, newParent`kids, Single(newParent.kids)`prev
      ensures next == old(newParent.kids) && prev == null && newParent.kids == this
      ensures next != null ==> next.prev == this
    {
      next := newParent.kids;
      prev := null;
      if next != null {
        next.prev := this;
      }
      newParent.kids := this;
    }

    twostate lemma Unlisted(all: map<PriorityNode, seq<PriorityNode>>)
      requires old(Lists(all)) && (forall m :: m in all ==> this !in all[m])
      requires forall m :: m in all ==> m.kids == old(m.kids)
      requires forall m :: m in all && m != this ==>
                 m.parent == old(m.parent) && m.prev == old(m.prev) && m.next == old(m.next)
      ensures Lists(all)
    {
      forall m | m in all
        ensures ListAt(m, all[m])
      {
        assert old(ListAt(m, all[m]));
        forall i | 0 <= i < |all[m]|
          ensures KidAt(m, all[m], i)
        {
          assert old(KidAt(m, all[m], i));
        }
      }
    }

    /** This node is the first kid of its parent, before the kids there were. */
    twostate predicate Inserted(all: map<PriorityNode, seq<PriorityNode>>)
      reads this, all.Keys
    {
      && parent in all && (var p: PriorityNode := parent; next == old(p.kids)) && prev == null
      && (forall m :: m in all ==> m.kids == if m == parent then this else old(m.kids))
      && (forall m :: m in all && m != this ==>
            && m.parent == old(m.parent) && m.next == old(m.next)
            && m.prev == if m == next then this else old(m.prev))
    }

    twostate lemma Linked(all: map<PriorityNode, seq<PriorityNode>>)
      requires old(Lists(all)) && this in all && (forall m :: m in all ==> this !in all[m])
      requires Inserted(all)
      ensures Lists(all[parent := [this] + all[parent]])
    {
      OwnListGrows(all);
      var p: PriorityNode := parent;
      forall m | m in all && m != p
        ensures ListAt(m, all[m])
      {
        assert old(ListAt(m, all[m])) && old(ListAt(p, all[p]));
        assert next != null ==> old(KidAt(p, all[p], 0));
        forall i | 0 <= i < |all[m]|
          ensures KidAt(m, all[m], i)
        {
          assert old(KidAt(m, all[m], i));
        }
      }
    }

    twostate lemma OwnListGrows(all: map<PriorityNode, seq<PriorityNode>>)
      requires old(Lists(all)) && this in all && (forall m :: m in all ==> this !in all[m])
      requires Inserted(all)
      ensures ListAt(parent, [this] + all[parent])
    {
      var p: PriorityNode := parent;
      var ks := [this] + all[p];
      assert old(ListAt(p, all[p]));
      assert next != null ==> old(KidAt(p, all[p], 0));
      forall i | 0 <= i < |ks|
        ensures KidAt(p, ks, i)
      {
        if i > 0 {
          assert old(KidAt(p, all[p], i - 1));
        }
      }
    }

    /** setParent; panicked stands for the "setParent to self" panic. */
    method SetParent(newParent: PriorityNode?, ghost f: Forest<PriorityNode>) returns (panicked: bool)
      requires Represents(f) && this in f.kids && (newParent != null ==> newParent in f.kids)
      modifies f.kids.Keys`parent, f.kids.Keys`kids, f.kids.Keys`prev, f.kids.Keys`next
      ensures panicked <==> newParent == this
      ensures Represents(if panicked then f else Reparent(f, this, Opt(newParent)))
      ensures newParent == null && old(parent) != null ==> next == null
    {
      panicked := newParent == this;
      if panicked {
        return;
      }
      if parent == newParent {
        return;
      }
      Move(newParent, f);
    }

    method Move(newParent: PriorityNode?, ghost f: Forest<PriorityNode>)
      requires Represents(f) && this in f.kids && newParent != this && (newParent != null ==> newParent in f.kids)
      modifies f.kids.Keys`parent, f.kids.Keys`kids, f.kids.Keys`prev, f.kids.Keys`next
      ensures Represents(Attach(Detach(f, this), this, Opt(newParent)))
      ensures newParent == null ==> next == null
    {
      ReattachOk(f, this, Opt(newParent));
      TakeOut(f);
      PutBelow(newParent, Detach(f, this));
    }

    method PutBelow(newParent: PriorityNode?, ghost f: Forest<PriorityNode>)
      requires this in f.kids && (newParent != null ==> newParent in f.kids)
      requires Lists(f.kids) && forall m :: m in f.kids ==> this !in f.kids[m]
      requires forall m :: m in f.kids && m != this ==> ParentOf(f, m) == Opt(m.parent)
      requires this !in f.parents && LinksOk(Attach(f, this, Opt(newParent)))
      modifies f.kids.Keys`parent, f.kids.Keys`kids, f.kids.Keys`prev, f.kids.Keys`next
      ensures Represents(Attach(f, this, Opt(newParent))) && (newParent == null ==> next == null)
    {
      Link(newParent, f.kids);
    }

    method TakeOut(ghost f: Forest<PriorityNode>)
      requires Represents(f) && this in f.kids
      modifies f.kids.Keys`kids, f.kids.Keys`prev, f.kids.Keys`next
      ensures Lists(Detach(f, this).kids) && forall m :: m in f.kids ==> this !in Detach(f, this).kids[m]
      ensures this !in Detach(f, this).parents && Detach(f, this).kids.Keys == f.kids.Keys
      ensures forall m :: m in f.kids && m != this ==> ParentOf(Detach(f, this), m) == Opt(m.parent)
    {
      DetachOk(f, this);
      if parent != null {
        Unlink(f.kids);
      }
    }
  }

  /** The links of the i-th kid when the one between prev and next is skipped. */
  ghost predicate Skips(p: PriorityNode, ks: seq<PriorityNode>, i: nat, prev: PriorityNode?, next: PriorityNode?)
    requires i < |ks|
    reads ks`parent, ks`prev, ks`next
  {
    && ks[i].parent == p
    && ks[i].prev == (if ks[i] == next then prev else if i == 0 then null else ks[i - 1])
    && ks[i].next == (if ks[i] == prev then next else if i + 1 == |ks| then null else ks[i + 1])
  }

  lemma Positions(ks: seq<PriorityNode>, j: nat, prev: PriorityNode?, next: PriorityNode?)
    requires j < |ks| && NoRepeats(ks) && prev == (if j == 0 then null else ks[j - 1])
    requires next == if j + 1 == |ks| then null else ks[j + 1]
    ensures forall i :: 0 <= i < |ks| ==> (ks[i] == prev <==> i == j - 1) && (ks[i] == next <==> i == j + 1)
  {
  }

  /** A list whose j-th kid is skipped by the links around it. */
  lemma Shrunk(p: PriorityNode, ks: seq<PriorityNode>, j: nat, prev: PriorityNode?, next: PriorityNode?)
    requires j < |ks| && NoRepeats(ks) && prev == (if j == 0 then null else ks[j - 1])
    requires next == if j + 1 == |ks| then null else ks[j + 1]
    requires p.kids == if j == 0 then next else ks[0]
    requires forall i :: 0 <= i < |ks| ==> Skips(p, ks, i, prev, next)
    ensures ListAt(p, ks[..j] + ks[j + 1..])
  {
    Positions(ks, j, prev, next);
    var rest := ks[..j] + ks[j + 1..];
    forall i | 0 <= i < |rest|
      ensures KidAt(p, rest, i)
    {
      assert rest[i] == ks[if i < j then i else i + 1];
      assert Skips(p, ks, if i < j then i else i + 1, prev, next);
    }
  }

  function Single(p: PriorityNode?): set<PriorityNode> {
    if p == null then {} else {p}
  }

  function Opt(p: PriorityNode?): Option<PriorityNode> {
    if p == null then None else Some(p)
  }

  /** The links in memory are those of the forest. */
  ghost predicate Represents(f: Forest<PriorityNode>)
    reads f.kids.Keys`parent, f.kids.Keys`kids, f.kids.Keys`prev, f.kids.Keys`next
  {
    LinksOk(f) && Lists(f.kids) && Agree(f)
  }

  ghost predicate Agree(f: Forest<PriorityNode>)
    reads f.kids.Keys`parent
  {
    forall m {:trigger m.parent} {:trigger ParentOf(f, m)} :: m in f.kids ==> ParentOf(f, m) == Opt(m.parent)
  }

  function First(ks: seq<PriorityNode>): PriorityNode? {
    if ks == [] then null else ks[0]
  }

  /** The links of the i-th kid to its parent and its siblings. */
  ghost predicate KidAt(m: PriorityNode, ks: seq<PriorityNode>, i: nat)
    requires i < |ks|
    reads ks`parent, ks`prev, ks`next
  {
    && ks[i].parent == m
    && ks[i].prev == (if i == 0 then null else ks[i - 1])
    && ks[i].next == (if i + 1 == |ks| then null else ks[i + 1])
  }

  ghost predicate ListAt(m: PriorityNode, ks: seq<PriorityNode>)
    reads m`kids, ks`parent, ks`prev, ks`next
  {
    m.kids == First(ks) && forall i :: 0 <= i < |ks| ==> KidAt(m, ks, i)
  }

  /** All kids are nodes. */
  ghost predicate Known(all: map<PriorityNode, seq<PriorityNode>>) {
    forall m, i :: m in all && 0 <= i < |all[m]| ==> all[m][i] in all
  }

  /** The kids of every node are a doubly linked list. */
  ghost predicate Lists(all: map<PriorityNode, seq<PriorityNode>>)
    reads all.Keys`parent, all.Keys`kids, all.Keys`prev, all.Keys`next
  {
    Known(all) && forall m {:trigger ListAt(m, all[m])} :: m in all ==> ListAt(m, all[m])
  }

}
