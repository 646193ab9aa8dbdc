/** A run of the priority scheduler that cuts a stream off the tree: a request pushes two streams and
    is closed; when its node leaves the list of closed ones, one of the two is cut off while open. */
module PriorityRuns {
  import opened Foundations
  import opened PriorityForests
  import opened PriorityNodes
  import opened PriorityIndexes
  import opened PrioritySchedulers

  /** The node n below the root has exactly the kids b and a. */
  ghost predicate Siblings<T>(f: Forest<T>, root: T, n: T, a: T, b: T) {
    && n in f.parents && f.parents[n] == root && n in f.kids && f.kids[n] == [b, a]
    && a in f.parents && f.parents[a] == n && a != b && a != n && b != n && n != root
  }

  lemma SiblingsStay<T>(f: Forest<T>, root: T, n: T, a: T, b: T, m: T)
    requires LinksOk(f) && Siblings(f, root, n, a, b) && m !in f.kids && root in f.kids
    ensures Siblings(Below(f, m, root), root, n, a, b)
  {
    assert m !in f.parents;
  }

  /** A node below the root with two kids, all of them new. */
  lemma SiblingsPlanted<T>(f: Forest<T>, root: T, n: T, a: T, b: T)
    requires f.parents == map[] && root in f.kids && {n, a, b} !! f.kids.Keys && a != b && a != n && b != n
    ensures Siblings(Below(Below(Below(f, n, root), a, n), b, n), root, n, a, b)
  {
  }

  /** A new node below p. */
  function Below<T>(f: Forest<T>, m: T, p: T): Forest<T>
    requires p in f.kids && m !in f.parents
  {
    Reparent(Plant(f, m), m, Some(p))
  }

  lemma SiblingCutOff<T>(f: Forest<T>, root: T, n: T, a: T, b: T)
    requires LinksOk(f) && Siblings(f, root, n, a, b) && root !in f.parents
    ensures !Under(Removed(f, n).parents, a, root)
  {
    RemovedParents(f, n);
    UnderStep(Removed(f, n).parents, a, root);
    UnderStep(Removed(f, n).parents, n, root);
  }

  /** Stream 1 has pushed the streams 2 and 4, and 2 is open. */
  ghost predicate Family(s: PriorityScheduler)
    reads s, s.all
    requires s.Valid()
  {
    && {1, 2, 4} <= s.nodes.Keys && s.nodes[2].state.Open?
    && Siblings(s.forest, s.root, s.nodes[1], s.nodes[2], s.nodes[4])
  }

  /** Stream 2 is open and its node is known, but the tree is without it. */
  ghost predicate CutOffOpen(s: PriorityScheduler)
    reads s, s.all
    requires s.Valid()
  {
    2 in s.nodes && s.nodes[2].state.Open? && !Under(s.forest.parents, s.nodes[2], s.root)
  }

  /** A request pushes two streams and is closed, and so are other requests, until its node is
      removed. Then stream 2 is cut off. */
  method StreamCutOff(maxClosed: nat, maxIdle: nat, throttle: bool) returns (s: PriorityScheduler)
    ensures fresh(s) && s.Valid() && s.maxClosed == maxClosed && s.maxIdle == maxIdle && CutOffOpen(s)
  {
    s := Start(maxClosed, maxIdle, throttle);
    CloseFirst(s);
    CloseOthers(s);
  }

  method Start(maxClosed: nat, maxIdle: nat, throttle: bool) returns (s: PriorityScheduler)
    ensures fresh(s) && fresh(s.all) && s.Valid() && s.maxClosed == maxClosed && s.maxIdle == maxIdle && s.closedNodes == []
    ensures Family(s) && s.nodes[1].state.Open? && s.nodes.Keys == {0, 1, 2, 4}
  {
    hide Represents, Tree, Siblings;
    s := new PriorityScheduler(maxClosed, maxIdle, throttle);
    OpenPushes(s);
  }

  method CloseOthers(s: PriorityScheduler)
    requires s.Valid() && if s.maxClosed == 0 then CutOffOpen(s) else Aging(s, 1)
    modifies s, s.all
    ensures s.Valid() && CutOffOpen(s)
  {
    var closed := 1;
    while closed <= s.maxClosed
      invariant 1 <= closed && s.Valid() && old(s.all) <= s.all && fresh(s.all - old(s.all))
      invariant if closed <= s.maxClosed then Aging(s, closed) else CutOffOpen(s)
    {
      CloseOther(s, closed);
      closed := closed + 1;
    }
  }

  /** Stream 1 is the oldest of the closed ones. */
  ghost predicate Aging(s: PriorityScheduler, closed: nat)
    reads s, s.all
    requires s.Valid()
  {
    && Family(s) && |s.closedNodes| == closed && closed > 0 && s.closedNodes[0] == s.nodes[1]
    && forall id :: id in s.nodes ==> id <= 2 * closed + 4
  }

  method OpenPushes(s: PriorityScheduler)
    requires s.Valid() && s.nodes == map[0 := s.root] && s.forest.parents == map[]
    modifies s`nodes, s`maxID, s`forest, s`all
    modifies s.all`parent, s.all`kids, s.all`prev, s.all`next, s.all`state
    ensures s.Valid() && fresh(s.all - old(s.all)) && Family(s) && s.nodes[1].state.Open? && s.nodes.Keys == {0, 1, 2, 4}
  {
    ghost var f := s.forest;
    OpenNew(s, 1, 0);
    OpenKids(s, f);
  }

  method OpenKids(s: PriorityScheduler, ghost f: Forest<PriorityNode>)
    requires s.Valid() && s.nodes.Keys == {0, 1} && s.nodes[1].state.Open?
    requires f.parents == map[] && s.root in f.kids && s.nodes[1] !in f.kids && s.forest == Below(f, s.nodes[1], s.root)
    modifies s`nodes, s`maxID, s`forest, s`all
    modifies s.all`parent, s.all`kids, s.all`prev, s.all`next, s.all`state
    ensures s.Valid() && fresh(s.all - old(s.all)) && s.nodes.Keys == {0, 1, 2, 4} && s.nodes[1].state.Open? && Family(s)
  {
    hide Reparent, Siblings, Represents, Tree;
    ghost var n := s.nodes[1];
    OpenNew(s, 2, 1);
    ghost var a := s.nodes[2];
    OpenNew(s, 4, 1);
    SiblingsPlanted(f, s.root, n, a, s.nodes[4]);
    assert s.nodes[1] == n && s.nodes[2] == a;
  }

  /** OpenStream of a new stream whose pusher there is. */
  method OpenNew(s: PriorityScheduler, id: nat, pusher: nat)
    requires s.Valid() && id !in s.nodes && pusher in s.nodes
    modifies s`nodes, s`maxID, s`forest, s`all
    modifies s.all`parent, s.all`kids, s.all`prev, s.all`next, s.all`state
    ensures s.Valid() && id in s.nodes && fresh(s.nodes[id]) && s.nodes == old(s.nodes)[id := s.nodes[id]]
    ensures s.all == old(s.all) + {s.nodes[id]} && s.nodes[id].state.Open?
    ensures forall k :: k in old(s.nodes) ==> s.nodes[k].state == old(s.nodes[k].state)
    ensures s.nodes[id] !in old(s.forest).kids && s.nodes[id] !in old(s.forest).parents && old(s.nodes)[pusher] in old(s.forest).kids
    ensures s.forest == Below(old(s.forest), s.nodes[id], old(s.nodes)[pusher])
  {
    var panicked := s.OpenStream(id, pusher);
    assert forall k :: k in old(s.nodes) ==> s.TheIndex().states[k] == old(s.TheIndex()).states[k];
  }

  method CloseFirst(s: PriorityScheduler)
    requires s.Valid() && s.closedNodes == [] && Family(s) && s.nodes[1].state.Open? && s.nodes.Keys == {0, 1, 2, 4}
    modifies s`nodes, s`forest, s`closedNodes
    modifies s.all`parent, s.all`kids, s.all`prev, s.all`next, s.all`state, s.all`bytes, s.all`subtreeBytes, s.all`q
    ensures s.Valid() && s.all == old(s.all)
    ensures if s.maxClosed == 0 then CutOffOpen(s) else Aging(s, 1)
  {
    if s.maxClosed == 0 {
      CloseAndRemove(s, 1);
    } else {
      CloseAndKeep(s, 1);
    }
  }

  method CloseOther(s: PriorityScheduler, closed: nat)
    requires s.Valid() && Aging(s, closed) && closed <= s.maxClosed
    modifies s`nodes, s`maxID, s`forest, s`all, s`closedNodes
    modifies s.all`parent, s.all`kids, s.all`prev, s.all`next, s.all`state, s.all`bytes, s.all`subtreeBytes, s.all`q
    ensures s.Valid() && fresh(s.all - old(s.all)) && old(s.all) <= s.all
    ensures if closed == s.maxClosed then CutOffOpen(s) else Aging(s, closed + 1)
  {
    hide Siblings;
    OpenOther(s, closed);
    if closed == s.maxClosed {
      CloseAndRemove(s, 2 * closed + 5);
    } else {
      CloseAndKeep(s, 2 * closed + 5);
    }
  }

  /** CloseStream when the node of stream 1 is removed. */
  method CloseAndRemove(s: PriorityScheduler, id: nat)
    requires s.Valid() && Family(s) && id != 2 && id in s.nodes && id != 0 && s.nodes[id].state.Open?
    requires if s.maxClosed == 0 then id == 1 else |s.closedNodes| == s.maxClosed && s.closedNodes[0] == s.nodes[1]
    modifies s`nodes, s`forest, s`closedNodes
    modifies s.all`parent, s.all`kids, s.all`prev, s.all`next, s.all`state, s.all`bytes, s.all`subtreeBytes, s.all`q
    ensures s.Valid() && s.all == old(s.all) && CutOffOpen(s)
  {
    SiblingCutOff(s.forest, s.root, s.nodes[1], s.nodes[2], s.nodes[4]);
    hide Represents, Tree, Siblings, Under, Removed, Closing;
    ghost var a := s.nodes[2];
    var panicked := s.CloseStream(id);
    assert s.nodes[2] == a && a.state.Open?;
  }

  /** CloseStream when there is room for the node. */
  method CloseAndKeep(s: PriorityScheduler, id: nat)
    requires s.Valid() && Family(s) && id != 2 && id in s.nodes && id != 0 && s.nodes[id].state.Open?
    requires |s.closedNodes| < s.maxClosed
    modifies s`nodes, s`forest, s`closedNodes
    modifies s.all`parent, s.all`kids, s.all`prev, s.all`next, s.all`state, s.all`bytes, s.all`subtreeBytes, s.all`q
    ensures s.Valid() && s.all == old(s.all) && Family(s) && s.nodes == old(s.nodes)
    ensures s.closedNodes == old(s.closedNodes) + [s.nodes[id]]
  {
    hide Represents, Tree, Siblings, Closing;
    ghost var a := s.nodes[2];
    var panicked := s.CloseStream(id);
    assert s.nodes[2] == a && a.state.Open?;
  }

  method OpenOther(s: PriorityScheduler, closed: nat)
    requires s.Valid() && Aging(s, closed)
    modifies s`nodes, s`maxID, s`forest, s`all
    modifies s.all`parent, s.all`kids, s.all`prev, s.all`next, s.all`state
    ensures s.Valid() && fresh(s.all - old(s.all)) && old(s.all) <= s.all && s.closedNodes == old(s.closedNodes)
    ensures Family(s) && s.closedNodes[0] == s.nodes[1]
    ensures 2 * closed + 5 in s.nodes && s.nodes[2 * closed + 5].state.Open?
    ensures forall id :: id in s.nodes ==> id <= 2 * closed + 5
  {
    ghost var f := s.forest;
    ghost var n, a, b := s.nodes[1], s.nodes[2], s.nodes[4];
    hide Represents, Tree, Siblings;
    OpenNew(s, 2 * closed + 5, 0);
    SiblingsStay(f, s.root, n, a, b, s.nodes[2 * closed + 5]);
  }
}
