/** The priority write scheduler: the tree of streams and what OpenStream, CloseStream and
    AdjustStream do to it (h2_bundle.go, priorityWriteScheduler). */
module PrioritySchedulers {
  import opened Foundations
  import opened WriteQueues
  import opened PriorityForests
  import opened PriorityNodes
  import opened PriorityTrees
  import opened PrioritySorts
  import opened PriorityWalks
  import opened PriorityIndexes

  function IDs(list: seq<PriorityNode>): (ids: seq<nat>)
    ensures |ids| == |list| && forall i :: 0 <= i < |list| ==> ids[i] == list[i].id
  {
    seq(|list|, i requires 0 <= i < |list| => list[i].id)
  }

  class PriorityScheduler {
    const root: PriorityNode
    const maxClosed: nat
    const maxIdle: nat
    const throttle: bool
    var nodes: map<nat, PriorityNode>
    var maxID: nat
    var closedNodes: seq<PriorityNode>
    var idleNodes: seq<PriorityNode>
    var writeThrottleLimit: int

    ghost var all: set<PriorityNode>
    ghost var forest: Forest<PriorityNode>

    /** The links of the nodes form a forest, the root of the tree is the root of one of its
        trees, and nodes are known by their IDs. */
    ghost predicate Valid()
      reads this, all
    {
      && Rooted() && Indexed(nodes) && 0 < writeThrottleLimit <= MAX_INT32
      && Listed(closedNodes) && |closedNodes| <= maxClosed && Listed(idleNodes) && |idleNodes| <= maxIdle
    }

    ghost predicate Rooted()
      reads this`forest, this`all, all`parent, all`kids, all`prev, all`next
    {
      forest.kids.Keys == all && Represents(forest) && Tree(forest, root) && root.id == 0
    }

    ghost predicate Indexed(nodes: map<nat, PriorityNode>)
      reads this`all
    {
      0 in nodes && nodes[0] == root && forall id :: id in nodes ==> nodes[id] in all && nodes[id].id == id
    }

    ghost predicate Listed(list: seq<PriorityNode>)
      reads this`all
    {
      forall i :: 0 <= i < |list| ==> list[i] in all && list[i].id != 0
    }

    /** The index as values. */
    ghost function TheIndex(): Index
      reads this`nodes, this`idleNodes, this`closedNodes, this`maxID, nodes.Values`state
    {
      Index(map id | id in nodes :: nodes[id].state, IDs(idleNodes), IDs(closedNodes), maxID)
    }

    ghost function TheLimits(): Limits {
      Limits(maxClosed, maxIdle)
    }

    constructor (maxClosed: nat, maxIdle: nat, throttle: bool)
      ensures Valid() && nodes == map[0 := root] && fresh(root) && forest.kids == map[root := []] && forest.parents == map[]
      ensures this.maxClosed == maxClosed && this.maxIdle == maxIdle && this.throttle == throttle
      ensures closedNodes == idleNodes == [] && maxID == 0 && TheIndex() == NEW.x
    {
      var r := new PriorityNode(0, 0, Open);
      root, nodes, maxID, closedNodes, idleNodes := r, map[0 := r], 0, [], [];
      this.maxClosed, this.maxIdle, this.throttle := maxClosed, maxIdle, throttle;
      writeThrottleLimit := if throttle then 1024 else MAX_INT32;
      forest, all := Forest(map[], map[r := []]), {r};
      new;
      assert ChainsEnd(forest.parents, 0);
    }

    /** removeNode. */
    method RemoveNode(n: PriorityNode)
      requires Valid() && n in all && n.id != 0
      modifies this`forest, this`nodes
      modifies all`parent, all`kids, all`prev, all`next
      ensures Valid() && forest == Removed(old(forest), n) && nodes == old(nodes) - {n.id}
      ensures TheIndex() == old(TheIndex()).(states := old(TheIndex()).states - {n.id})
    {
      hide Represents, ChainsEnd;
      RemovedTree(forest, n, root);
      TakeAway(n, forest);
      Install(Removed(forest, n));
      Forget(n.id);
    }

    method Forget(id: nat)
      requires Valid() && id != 0
      modifies this`nodes
      ensures Valid() && nodes == old(nodes) - {id}
      ensures TheIndex() == old(TheIndex()).(states := old(TheIndex()).states - {id})
    {
      nodes := nodes - {id};
    }

    ghost method Install(f: Forest<PriorityNode>)
      requires f.kids.Keys == all && Represents(f) && Tree(f, root) && root.id == 0
      modifies this`forest
      ensures Rooted() && forest == f
    {
      forest := f;
    }

    /** addClosedOrIdleNode, which returns the new list. */
    method AddClosedOrIdleNode(list: seq<PriorityNode>, maxSize: nat, n: PriorityNode) returns (list': seq<PriorityNode>)
      requires Valid() && n in all && n.id != 0 && Listed(list) && |list| <= maxSize && (maxSize == 0 ==> list == [])
      modifies this`forest, this`nodes
      modifies all`parent, all`kids, all`prev, all`next
      ensures Valid() && Listed(list') && |list'| <= maxSize
      ensures 0 < |list| == maxSize ==> forest == Removed(old(forest), list[0]) && nodes == old(nodes) - {list[0].id}
      ensures |list| < maxSize || maxSize == 0 ==> forest == old(forest) && nodes == old(nodes)
      ensures list' == if maxSize == 0 then list else if |list| == maxSize then list[1..] + [n] else list + [n]
      ensures TheIndex() == old(TheIndex()).(states := Evicted(old(TheIndex()).states, IDs(list), maxSize))
      ensures IDs(list') == Listing(IDs(list), maxSize, n.id)
    {
      if maxSize == 0 {
        return list;
      }
      list' := list;
      if |list'| == maxSize {
        RemoveNode(list'[0]);
        list' := list'[1..];
      }
      list' := list' + [n];
    }

    /** A new node below p. */
    method AddNode(id: nat, p: PriorityNode, state: NodeState) returns (n: PriorityNode)
      requires Valid() && id !in nodes && p in all
      modifies this`nodes, this`maxID, this`forest, this`all
      modifies all`parent, all`kids, all`prev, all`next
      ensures Valid() && fresh(n) && all == old(all) + {n}
      ensures n.id == id && n.state == state && n.weight == DEFAULT_WEIGHT && n.q == []
      ensures nodes == old(nodes)[id := n] && maxID == (if id > old(maxID) then id else old(maxID))
      ensures TheIndex() == old(TheIndex()).(states := old(TheIndex()).states[id := state], maxID := maxID)
      ensures forest == Reparent(Plant(old(forest), n), n, Some(p))
    {
      hide Reparent, LinksOk, Tree;
      n := NewBelow(id, p, state, forest);
      PlantedBelow(forest, n, p, root);
      Register(n, Reparent(Plant(forest, n), n, Some(p)));
    }

    method Register(n: PriorityNode, ghost f: Forest<PriorityNode>)
      requires Indexed(nodes) && root.id == 0 && n.id !in nodes && 0 < writeThrottleLimit <= MAX_INT32
      requires Listed(closedNodes) && |closedNodes| <= maxClosed && Listed(idleNodes) && |idleNodes| <= maxIdle
      requires f.kids.Keys == all + {n} && Represents(f) && Tree(f, root)
      modifies this`nodes, this`maxID, this`forest, this`all
      ensures Valid() && forest == f && all == old(all) + {n} && nodes == old(nodes)[n.id := n]
      ensures maxID == if n.id > old(maxID) then n.id else old(maxID)
      ensures TheIndex() == old(TheIndex()).(states := old(TheIndex()).states[n.id := n.state], maxID := maxID)
    {
      hide Represents, Tree;
      Enter(n);
      forest, all := f, all + {n};
    }

    method Enter(n: PriorityNode)
      modifies this`nodes, this`maxID
      ensures nodes == old(nodes)[n.id := n] && maxID == if n.id > old(maxID) then n.id else old(maxID)
      ensures TheIndex() == old(TheIndex()).(states := old(TheIndex()).states[n.id := n.state], maxID := maxID)
    {
      nodes := nodes[n.id := n];
      if n.id > maxID {
        maxID := n.id;
      }
    }

    /** OpenStream, which panics if the stream is in the tree and not idle. */
    method OpenStream(id: nat, pusher: nat) returns (panicked: bool)
      requires Valid()
      modifies this`nodes, this`maxID, this`forest, this`all
      modifies all`parent, all`kids, all`prev, all`next, all`state
      ensures Valid() && old(all) <= all && (panicked <==> id in old(nodes) && !old(nodes[id].state).Idle?)
      ensures TheIndex() == if panicked then old(TheIndex()) else Opened(old(TheIndex()), id)
      ensures id in nodes && (!panicked ==> nodes[id].state.Open?)
      ensures forall m :: m in old(all) && (panicked || m != nodes[id]) ==> m.state == old(m.state)
      ensures id !in old(nodes) ==> nodes[id].weight == DEFAULT_WEIGHT && nodes[id].q == []
      ensures id in old(nodes) ==> nodes == old(nodes) && forest == old(forest) && all == old(all)
      ensures id !in old(nodes) ==> fresh(nodes[id]) && nodes == old(nodes)[id := nodes[id]] && all == old(all) + {nodes[id]}
      ensures id !in old(nodes) ==>
                forest == Reparent(Plant(old(forest), nodes[id]), nodes[id],
                                   Some(if pusher in old(nodes) then old(nodes)[pusher] else root))
    {
      panicked := false;
      if id in nodes {
        if !nodes[id].state.Idle? {
          return true;
        }
        nodes[id].state := Open;
        return;
      }
      var p := if pusher in nodes then nodes[pusher] else root;
      var n := AddNode(id, p, Open);
    }

    /** CloseStream, which panics if the stream is not in the tree or not open. */
    method CloseStream(id: nat) returns (panicked: bool)
      requires Valid()
      modifies this`nodes, this`forest, this`closedNodes
      modifies all`parent, all`kids, all`prev, all`next, all`state, all`bytes, all`subtreeBytes, all`q
      ensures Valid() && all == old(all)
      ensures panicked <==> id == 0 || id !in old(nodes) || !old(nodes[id].state).Open?
      ensures TheIndex() == if panicked then old(TheIndex()) else Closing(old(TheIndex()), id, TheLimits())
      ensures panicked ==> forest == old(forest) && nodes == old(nodes)
      ensures forall m :: m in all && (panicked || m != old(nodes)[id]) ==>
                m.state == old(m.state) && m.q == old(m.q) && m.bytes == old(m.bytes)
      ensures forall m :: m in all ==>
                m.subtreeBytes == old(m.subtreeBytes)
                  - (if !panicked && Under(old(forest).parents, old(nodes)[id], m) then old(nodes[id].bytes) else 0)
      ensures !panicked && maxClosed == 0 ==> forest == Removed(old(forest), old(nodes[id])) && nodes == old(nodes) - {id}
      ensures !panicked && 0 < maxClosed && |old(closedNodes)| < maxClosed ==>
                forest == old(forest) && nodes == old(nodes) && closedNodes == old(closedNodes) + [nodes[id]]
      ensures !panicked && 0 < maxClosed == |old(closedNodes)| ==>
                var oldest := old(closedNodes)[0];
                && forest == Removed(old(forest), oldest) && nodes == old(nodes) - {oldest.id}
                && closedNodes == old(closedNodes)[1..] + [old(nodes[id])]
      ensures !panicked ==> old(nodes[id]).state.Closed? && old(nodes[id]).q == [] && old(nodes[id]).bytes == 0
    {
      if id == 0 || id !in nodes || !nodes[id].state.Open? {
        return true;
      }
      panicked := false;
      CloseNode(nodes[id]);
    }

    method CloseNode(n: PriorityNode)
      requires Valid() && n.id != 0 && n.id in nodes && nodes[n.id] == n && n.state.Open?
      modifies this`nodes, this`forest, this`closedNodes
      modifies all`parent, all`kids, all`prev, all`next, n`state, n`bytes, all`subtreeBytes, n`q
      ensures Valid() && all == old(all) && TheIndex() == Closing(old(TheIndex()), n.id, TheLimits())
      ensures maxClosed == 0 ==> forest == Removed(old(forest), n) && nodes == old(nodes) - {n.id}
      ensures 0 < maxClosed && |old(closedNodes)| < maxClosed ==>
                forest == old(forest) && nodes == old(nodes) && closedNodes == old(closedNodes) + [n]
      ensures 0 < maxClosed == |old(closedNodes)| ==>
                var oldest := old(closedNodes)[0];
                && forest == Removed(old(forest), oldest) && nodes == old(nodes) - {oldest.id}
                && closedNodes == old(closedNodes)[1..] + [n]
      ensures n.state.Closed? && n.q == [] && n.bytes == 0
      ensures forall m :: m in all ==>
                m.subtreeBytes == old(m.subtreeBytes) - (if Under(old(forest).parents, n, m) then old(n.bytes) else 0)
    {
      hide Represents, Tree;
      Quiet(n);
      if maxClosed > 0 {
        var list := AddClosedOrIdleNode(closedNodes, maxClosed, n);
        SetClosedNodes(list);
      } else {
        RemoveNode(n);
      }
    }

    method Quiet(n: PriorityNode)
      requires Valid() && n in all
      modifies n`state, n`q, n`bytes, all`subtreeBytes
      ensures Valid() && n.state.Closed? && n.q == [] && n.bytes == 0
      ensures n.id in nodes && nodes[n.id] == n ==>
                TheIndex() == old(TheIndex()).(states := old(TheIndex()).states[n.id := Closed])
      ensures forall m :: m in all ==>
                m.subtreeBytes == old(m.subtreeBytes) - (if Under(forest.parents, n, m) then old(n.bytes) else 0)
    {
      hide Represents, ChainsEnd, KidsKnown;
      n.state := Closed;
      AddBytes(n, -n.bytes, forest);
      n.q := [];
    }

    method SetClosedNodes(list: seq<PriorityNode>)
      requires Valid() && Listed(list) && |list| <= maxClosed
      modifies this`closedNodes
      ensures Valid() && closedNodes == list && TheIndex() == old(TheIndex()).(closed := IDs(list))
    {
      closedNodes := list;
    }

    method SetIdleNodes(list: seq<PriorityNode>)
      requires Valid() && Listed(list) && |list| <= maxIdle
      modifies this`idleNodes
      ensures Valid() && idleNodes == list && TheIndex() == old(TheIndex()).(idle := IDs(list))
    {
      idleNodes := list;
    }

    /** Push, which panics for DATA on a stream that is not in the tree. */
    method PushFrame(wr: Request) returns (panicked: bool)
      requires Valid()
      modifies all`q
      ensures Valid() && TheIndex() == old(TheIndex())
      ensures panicked <==> !wr.IsControl() && wr.StreamID() !in nodes && wr.DataSize() > 0
      ensures var n := if wr.IsControl() || wr.StreamID() !in nodes then root else nodes[wr.StreamID()];
              && n.q == old(n.q) + (if panicked then [] else [wr])
              && forall m :: m in all && m != n ==> m.q == old(m.q)
    {
      var n := root;
      if !wr.IsControl() {
        if wr.StreamID() in nodes {
          n := nodes[wr.StreamID()];
        } else if wr.DataSize() > 0 {
          return true;
        }
      }
      n.q := n.q + [wr];
      panicked := false;
    }

    /** AdjustStream, which panics for the root. */
    method AdjustStream(id: nat, dep: nat, exclusive: bool, weight: Weight) returns (panicked: bool, ghost adjusted: PriorityNode?)
      requires Valid()
      modifies this`nodes, this`maxID, this`forest, this`all, this`idleNodes
      modifies all`parent, all`kids, all`prev, all`next, all`weight
      ensures Valid() && old(all) <= all && (panicked <==> id == 0)
      ensures TheIndex() == if panicked then old(TheIndex()) else Adjusting(old(TheIndex()), id, TheLimits())
      ensures panicked ==> forest == old(forest) && nodes == old(nodes) && adjusted == null
      ensures !panicked && id in old(nodes) ==>
                && nodes == old(nodes) && all == old(all) && adjusted == nodes[id]
                && Reprioritized(old(forest), forest, nodes[id], dep, exclusive)
      ensures !panicked && id !in old(nodes) && (id <= old(maxID) || maxIdle == 0) ==>
                forest == old(forest) && nodes == old(nodes) && adjusted == null
      ensures !panicked && id !in old(nodes) && id > old(maxID) && maxIdle > 0 ==>
                && adjusted != null && fresh(adjusted) && adjusted.id == id && adjusted.state.Idle? && all == old(all) + {adjusted}
                && nodes == Pruned(old(nodes)[id := adjusted], old(idleNodes))
                && root in old(forest).kids && adjusted !in old(forest).parents
                && Reprioritized(WithIdle(old(forest), adjusted, old(idleNodes)), forest, adjusted, dep, exclusive)
      ensures forall m :: m in old(all) && m != adjusted ==> m.weight == old(m.weight)
      ensures adjusted != null && !(dep in nodes && nodes[dep] == adjusted) ==>
                adjusted.weight == if dep in nodes then weight else DEFAULT_WEIGHT
    {
      hide Reprioritized, Tree, WithIdle, Represents;
      panicked, adjusted := id == 0, null;
      if panicked {
        return;
      }
      var n;
      if id in nodes {
        n := nodes[id];
      } else {
        if id <= maxID || maxIdle == 0 {
          return;
        }
        n := AddIdle(id);
      }
      adjusted := n;
      Reprioritize(n, dep, exclusive, weight);
    }

    /** Stream 1 is given a priority and then opened, on a new connection. */
    method OpenListed() returns (n: PriorityNode)
      requires Valid() && TheIndex() == NEW.x && maxIdle > 0
      modifies this`nodes, this`maxID, this`forest, this`all, this`idleNodes
      modifies all`parent, all`kids, all`prev, all`next, all`weight, all`state
      ensures Valid() && old(all) <= all && fresh(all - old(all)) && n in all && n.id == 1 && n.state.Open?
      ensures TheIndex() == Opened(Adjusting(NEW.x, 1, TheLimits()), 1)
    {
      hide Represents, Tree, Reprioritized, Adjusting, Opened;
      LostFirst(TheLimits());
      var panicked, _ := AdjustStream(1, 0, false, 15);
      panicked := OpenStream(1, 0);
      n := nodes[1];
    }

    /** The nodes without the oldest idle one, if there are too many. */
    ghost function Pruned(nodes: map<nat, PriorityNode>, idle: seq<PriorityNode>): map<nat, PriorityNode> {
      if |idle| == maxIdle && idle != [] then nodes - {idle[0].id} else nodes
    }

    /** The forest with a new idle stream below the root, and without the oldest one if there are
        too many. */
    ghost function WithIdle(f: Forest<PriorityNode>, n: PriorityNode, idle: seq<PriorityNode>): Forest<PriorityNode>
      requires root in f.kids && n !in f.parents
    {
      var f1 := Reparent(Plant(f, n), n, Some(root));
      if |idle| == maxIdle && idle != [] && idle[0] in f1.kids && KidsKnown(f1) then Removed(f1, idle[0]) else f1
    }

    method AddIdle(id: nat) returns (n: PriorityNode)
      requires Valid() && id !in nodes && maxIdle > 0
      modifies this`nodes, this`maxID, this`forest, this`all, this`idleNodes
      modifies all`parent, all`kids, all`prev, all`next
      ensures Valid() && fresh(n) && n in all && n.id == id && n.state.Idle? && all == old(all) + {n}
      ensures root in old(forest).kids && n !in old(forest).parents && forest == WithIdle(old(forest), n, old(idleNodes))
      ensures nodes == Pruned(old(nodes)[id := n], old(idleNodes)) && maxID == (if id > old(maxID) then id else old(maxID))
      ensures idleNodes == (if |old(idleNodes)| == maxIdle then old(idleNodes)[1..] + [n] else old(idleNodes) + [n])
      ensures id > old(maxID) ==> TheIndex() == Adjusting(old(TheIndex()), id, TheLimits())
    {
      hide Represents, Reparent;
      ghost var f := forest;
      NoParentsOutside(f, all);
      n := AddNode(id, root, Idle);
      ListIdle(n, f);
    }

    /** A new node has no parent yet. */
    lemma NoParentsOutside(f: Forest<PriorityNode>, all: set<PriorityNode>)
      requires LinksOk(f) && f.kids.Keys == all
      ensures forall m :: m in f.parents ==> m in all
    {
    }

    method ListIdle(n: PriorityNode, ghost f: Forest<PriorityNode>)
      requires Valid() && n in all && n.id != 0 && maxIdle > 0
      requires root in f.kids && n !in f.parents && forest == Reparent(Plant(f, n), n, Some(root))
      modifies this`nodes, this`forest, this`idleNodes
      modifies all`parent, all`kids, all`prev, all`next
      ensures Valid() && forest == WithIdle(f, n, old(idleNodes)) && nodes == Pruned(old(nodes), old(idleNodes))
      ensures idleNodes == (if |old(idleNodes)| == maxIdle then old(idleNodes)[1..] + [n] else old(idleNodes) + [n])
      ensures TheIndex() == old(TheIndex()).(states := Evicted(old(TheIndex()).states, IDs(old(idleNodes)), maxIdle),
                                             idle := Listing(IDs(old(idleNodes)), maxIdle, n.id))
    {
      var list := AddClosedOrIdleNode(idleNodes, maxIdle, n);
      SetIdleNodes(list);
    }

    /** How the forest changes when n is made to depend on another stream: on the root if that
        stream is not in the tree, and not at all if it is n itself. */
    ghost predicate Reprioritized(f: Forest<PriorityNode>, f': Forest<PriorityNode>, n: PriorityNode, dep: nat, exclusive: bool)
      reads this`nodes
    {
      if dep !in nodes then f'.parents == f.parents[n := root]
      else if nodes[dep] == n then f' == f
      else
        && f'.parents == Adjusted(f.parents, n, nodes[dep], exclusive)
        && (exclusive ==> nodes[dep] in f'.kids && f'.kids[nodes[dep]] == [n])
    }

    method Reprioritize(n: PriorityNode, dep: nat, exclusive: bool, weight: Weight)
      requires Valid() && n in all && n.id != 0
      modifies this`forest
      modifies all`parent, all`kids, all`prev, all`next, n`weight
      ensures Valid() && Reprioritized(old(forest), forest, n, dep, exclusive) && TheIndex() == old(TheIndex())
      ensures n.weight == if dep !in nodes then DEFAULT_WEIGHT else if nodes[dep] == n then old(n.weight) else weight
    {
      hide Represents, Tree, ChainsEnd;
      if dep !in nodes {
        ToRoot(n);
        n.weight := DEFAULT_WEIGHT;
        return;
      }
      if n == nodes[dep] {
        return;
      }
      DependOn(n, nodes[dep], exclusive);
      n.weight := weight;
    }

    method DependOn(n: PriorityNode, p: PriorityNode, exclusive: bool)
      requires Rooted() && n in all && n.id != 0 && p in all && p != n
      modifies this`forest
      modifies all`parent, all`kids, all`prev, all`next
      ensures Rooted() && forest.parents == Adjusted(old(forest).parents, n, p, exclusive)
      ensures exclusive ==> p in forest.kids && forest.kids[p] == [n]
    {
      ghost var f := Depend(n, p, exclusive, forest);
      AdjustedTree(forest, f, n, p, exclusive, root);
      if exclusive {
        SoleKid(f, forest.parents, n, p);
      }
      Install(f);
    }

    method ToRoot(n: PriorityNode)
      requires Rooted() && n in all && n.id != 0
      modifies this`forest
      modifies all`parent, all`kids, all`prev, all`next
      ensures Rooted() && forest.parents == old(forest).parents[n := root]
    {
      RootTree(forest, n, root);
      var _ := n.SetParent(root, forest);
      Install(Reparent(forest, n, Some(root)));
    }

    /** What is sent and what becomes of the throttle limit. */
    ghost predicate SentWithin(f: Forest<PriorityNode>, opens: set<PriorityNode>, win: Windows, limit: int, throttle: bool,
                               frame: Request, win': Windows, limit': int, who: PriorityNode)
    {
      && Spent(win, win', frame)
      && if OpenAbove(f.parents, opens, who) then
           && frame.DataSize() <= limit
           && limit' == if limit + 1024 <= 0x7fff_ffff then limit + 1024 else 0x7fff_ffff
         else limit' == if throttle then 1024 else limit
    }

    /** Pop. The ghost arguments are the queues of the nodes and the set of open ones; the ghost
        results are the node served and what is left in its queue. */
    method PopFrame(win: Windows, ghost qs: Queues, ghost st: Standings, ghost opens: set<PriorityNode>)
      returns (wr: Option<Request>, win': Windows, ghost who: PriorityNode, ghost rest: seq<Request>)
      requires Valid() && QueuesAre(forest, qs) && StandingsAre(forest, st) && QueuesOk(qs, win) && OpensAre(forest, opens)
      modifies this`forest, this`writeThrottleLimit
      modifies all`parent, all`kids, all`prev, all`next, all`q, all`bytes, all`subtreeBytes
      ensures Valid()
      ensures Walked(old(forest), forest, root, qs, st, opens, win, old(writeThrottleLimit), throttle,
                     wr, win', writeThrottleLimit, who, rest)
      ensures wr.Some? ==>
                && SentWithin(old(forest), opens, win, old(writeThrottleLimit), throttle, wr.value, win', writeThrottleLimit, who)
                && (wr.value.DataSize() > 0 ==> wr.value.DataSize() <= win.maxFrameSize)
    {
      hide Walked, Represents, Tree;
      ghost var f;
      var limit;
      wr, win', limit, f, who, rest := WalkTree(win, qs, st, opens);
      Settle(f, qs, st, opens, win, wr, win', limit, who, rest);
    }

    method WalkTree(win: Windows, ghost qs: Queues, ghost st: Standings, ghost opens: set<PriorityNode>)
      returns (wr: Option<Request>, win': Windows, limit: int, ghost f: Forest<PriorityNode>, ghost who: PriorityNode, ghost rest: seq<Request>)
      requires Valid() && QueuesAre(forest, qs) && StandingsAre(forest, st) && QueuesOk(qs, win) && OpensAre(forest, opens)
      modifies all`parent, all`kids, all`prev, all`next, all`q, all`bytes, all`subtreeBytes
      ensures f.kids.Keys == all && Represents(f) && Tree(f, root) && root.id == 0 && 0 < limit <= MAX_INT32
      ensures Walked(forest, f, root, qs, st, opens, win, writeThrottleLimit, throttle, wr, win', limit, who, rest)
      ensures wr.Some? ==> SentWithin(forest, opens, win, writeThrottleLimit, throttle, wr.value, win', limit, who)
    {
      NothingAboveRoot(opens);
      hide Walked, QueuesAre, StandingsAre, QueuesOk;
      wr, win', limit, f, who, rest := WalkReady(root, false, win, writeThrottleLimit, throttle, forest, qs, st, opens);
      WalkedTree(forest, f, qs, st, opens, win, wr, win', limit, who, rest);
    }

    /** The walk from the root leaves the tree one, and sends within the windows, the frame size and,
        below an open stream, the throttle limit. */
    lemma WalkedTree(f: Forest<PriorityNode>, f': Forest<PriorityNode>, qs: Queues, st: Standings, opens: set<PriorityNode>,
                     win: Windows, wr: Option<Request>, win': Windows, limit': int, who: PriorityNode, rest: seq<Request>)
      requires Tree(f, root) && 0 < writeThrottleLimit <= MAX_INT32 && QueuesOk(qs, win)
      requires Walked(f, f', root, qs, st, opens, win, writeThrottleLimit, throttle, wr, win', limit', who, rest)
      ensures Tree(f', root) && f'.kids.Keys == f.kids.Keys && Represents(f') && 0 < limit' <= MAX_INT32
      ensures wr.Some? ==> SentWithin(f, opens, win, writeThrottleLimit, throttle, wr.value, win', limit', who)
    {
      ShuffledTree(f, f');
      if wr.Some? {
        var n := Limit(writeThrottleLimit, OpenAbove(f.parents, opens, who));
        ConsumeHeadExact(qs[who], n, win);
      }
    }

    method Settle(ghost f: Forest<PriorityNode>, ghost qs: Queues, ghost st: Standings, ghost opens: set<PriorityNode>,
                  ghost win: Windows, ghost wr: Option<Request>, ghost win': Windows, limit: int,
                  ghost who: PriorityNode, ghost rest: seq<Request>)
      requires Indexed(nodes) && root.id == 0 && 0 < limit <= MAX_INT32 && 0 < writeThrottleLimit <= MAX_INT32
      requires Listed(closedNodes) && |closedNodes| <= maxClosed && Listed(idleNodes) && |idleNodes| <= maxIdle
      requires f.kids.Keys == all && Represents(f) && Tree(f, root)
      requires Walked(forest, f, root, qs, st, opens, win, writeThrottleLimit, throttle, wr, win', limit, who, rest)
      modifies this`forest, this`writeThrottleLimit
      ensures Valid() && forest == f && writeThrottleLimit == limit
      ensures Walked(old(forest), forest, root, qs, st, opens, win, old(writeThrottleLimit), throttle, wr, win', limit, who, rest)
    {
      hide Walked;
      forest := f;
      writeThrottleLimit := limit;
    }

    lemma NothingAboveRoot(opens: set<PriorityNode>)
      requires root !in forest.parents
      ensures !OpenAbove(forest.parents, opens, root)
    {
      forall y | y in opens && Under(forest.parents, root, y)
        ensures y == root
      {
        UnderStep(forest.parents, root, y);
      }
    }

    lemma ShuffledTree(f: Forest<PriorityNode>, f': Forest<PriorityNode>)
      requires Tree(f, root) && Represents(f') && Shuffled(f, f', root)
      ensures Tree(f', root) && f'.kids.Keys == f.kids.Keys
    {
    }
  }

  /** A stream is given a priority while idle and opened; then as many other idle streams are given
      one as the list of idle streams holds. Its node is open, but gone from the tree: closing the
      stream panics, and so does queueing DATA for it. */
  method OpenStreamLost(maxClosed: nat, maxIdle: nat, throttle: bool, data: Request)
    returns (s: PriorityScheduler, n: PriorityNode, closing: bool, queueing: bool)
    requires maxIdle > 0 && data.stream == Some(1) && data.DataSize() > 0
    ensures fresh(s) && s.Valid() && s.maxIdle == maxIdle && n in s.all && n.id == 1 && n.state.Open?
    ensures 1 !in s.nodes && closing && queueing
  {
    hide Represents, Tree, Lost;
    s, n := ListAndOpen(maxClosed, maxIdle, throttle);
    var added := 0;
    while added < maxIdle
      invariant 0 <= added <= maxIdle && fresh(s) && fresh(s.all) && s.Valid() && s.maxIdle == maxIdle
      invariant n in s.all && n.id == 1 && n.state.Open? && Lost(s.TheIndex(), added, maxIdle)
    {
      AddOther(s, n, added);
      added := added + 1;
    }
    LostAtLast(s.TheIndex(), maxIdle);
    queueing := s.PushFrame(data);
    closing := s.CloseStream(1);
  }

  /** A new scheduler with stream 1, which was idle and has been opened. */
  method ListAndOpen(maxClosed: nat, maxIdle: nat, throttle: bool) returns (s: PriorityScheduler, n: PriorityNode)
    requires maxIdle > 0
    ensures fresh(s) && fresh(s.all) && s.Valid() && s.maxIdle == maxIdle && n in s.all && n.id == 1 && n.state.Open?
    ensures Lost(s.TheIndex(), 0, maxIdle)
  {
    hide Represents, Tree, Adjusting, Opened, Lost;
    LostFirst(Limits(maxClosed, maxIdle));
    s := new PriorityScheduler(maxClosed, maxIdle, throttle);
    n := s.OpenListed();
  }

  method AddOther(s: PriorityScheduler, n: PriorityNode, added: nat)
    requires s.Valid() && n in s.all && Lost(s.TheIndex(), added, s.maxIdle) && added < s.maxIdle
    modifies s`nodes, s`maxID, s`forest, s`all, s`idleNodes
    modifies s.all`parent, s.all`kids, s.all`prev, s.all`next, s.all`weight
    ensures s.Valid() && old(s.all) <= s.all && fresh(s.all - old(s.all)) && Lost(s.TheIndex(), added + 1, s.maxIdle)
  {
    var panicked, adjusted := s.AdjustStream(2 * added + 3, 0, false, 15);
    LostNext(old(s.TheIndex()), added, s.TheLimits());
  }

  /** Stream 1 is the oldest of the list, or gone once the list was full. */
  predicate Lost(x: Index, added: nat, maxIdle: nat) {
    && x.maxID == 2 * added + 1 && (forall id :: id in x.states ==> id <= x.maxID)
    && if added < maxIdle then |x.idle| == added + 1 && x.idle[0] == 1 else 1 !in x.states
  }

  lemma LostFirst(limits: Limits)
    requires limits.maxIdle > 0
    ensures var x := Adjusting(NEW.x, 1, limits); 1 in x.states && x.states[1] == Idle
    ensures Lost(Opened(Adjusting(NEW.x, 1, limits), 1), 0, limits.maxIdle)
  {
  }

  lemma LostAtLast(x: Index, maxIdle: nat)
    requires Lost(x, maxIdle, maxIdle)
    ensures 1 !in x.states
  {
  }

  lemma LostNext(x: Index, added: nat, limits: Limits)
    requires Lost(x, added, limits.maxIdle) && added < limits.maxIdle
    ensures Lost(Adjusting(x, 2 * added + 3, limits), added + 1, limits.maxIdle)
  {
  }
}
