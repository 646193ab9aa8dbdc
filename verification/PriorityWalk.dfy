/** The walk over the priority tree that looks for the next frame (h2_bundle.go,
    walkReadyInOrder and the function that Pop passes to it). */
module PriorityWalks {
  import opened Foundations
  import opened WriteQueues
  import opened PriorityForests
  import opened PriorityNodes
  import opened PriorityTrees
  import opened PrioritySorts

  // ----- What is looked for

  type Queues = map<PriorityNode, seq<Request>>

  ghost predicate QueuesOk(qs: Queues, win: Windows) {
    forall m :: m in qs ==> QueueOk(qs[m], win)
  }

  /** The node has a frame at its head that can be sent now, in whole or in part. */
  ghost predicate Ready(qs: Queues, win: Windows, m: PriorityNode) {
    m in qs && QueueOk(qs[m], win) && Sendable(qs[m], MAX_INT32, win)
  }

  /** Neither n nor any node that depends on it can send. */
  ghost predicate NoneReady(parents: map<PriorityNode, PriorityNode>, qs: Queues, win: Windows, n: PriorityNode) {
    forall m :: m in qs && Under(parents, m, n) ==> !Ready(qs, win, m)
  }

  /** Below n, the node can send and no node it depends on can. */
  ghost predicate Chosen(parents: map<PriorityNode, PriorityNode>, qs: Queues, win: Windows, n: PriorityNode, who: PriorityNode) {
    && who in qs && Under(parents, who, n) && Ready(qs, win, who)
    && forall m :: m in qs && m != who && Under(parents, who, m) && Under(parents, m, n) ==> !Ready(qs, win, m)
  }

  /** A node it depends on, other than the root, is open. */
  ghost predicate OpenAbove(parents: map<PriorityNode, PriorityNode>, opens: set<PriorityNode>, x: PriorityNode) {
    exists y :: y in opens && y != x && Under(parents, x, y)
  }

  lemma OpenAboveKid(parents: map<PriorityNode, PriorityNode>, opens: set<PriorityNode>, k: PriorityNode)
    requires Acyclic(parents) && k in parents
    ensures OpenAbove(parents, opens, k) <==> parents[k] in opens || OpenAbove(parents, opens, parents[k])
  {
    var n := parents[k];
    DepthStep(parents, k);
    UnderStep(parents, n, n);
    UnderStep(parents, k, n);
    if OpenAbove(parents, opens, k) {
      var y :| y in opens && y != k && Under(parents, k, y);
      UnderStep(parents, k, y);
    }
    if OpenAbove(parents, opens, n) {
      var y :| y in opens && y != n && Under(parents, n, y);
      UnderStep(parents, k, y);
      UnderDepth(parents, n, y);
    }
  }

  /** The limit matters for how much is sent, not for whether something is. */
  lemma LimitIrrelevant(q: seq<Request>, n: int, win: Windows)
    requires QueueOk(q, win) && 0 < n
    ensures Sendable(q, n, win) <==> Sendable(q, MAX_INT32, win)
  {
  }

  /** A node below n is n or below a kid of n. */
  lemma {:induction false} UnderKid(f: Forest<PriorityNode>, n: PriorityNode, m: PriorityNode)
    requires LinksOk(f) && Acyclic(f.parents) && n in f.kids && Under(f.parents, m, n) && m != n
    ensures exists i :: 0 <= i < |f.kids[n]| && Under(f.parents, m, f.kids[n][i])
    decreases Depth(f.parents, m)
  {
    UnderStep(f.parents, m, n);
    var p := f.parents[m];
    DepthStep(f.parents, m);
    if p == n {
      var i :| 0 <= i < |f.kids[n]| && f.kids[n][i] == m;
      UnderStep(f.parents, m, m);
    } else {
      UnderKid(f, n, p);
      var i :| 0 <= i < |f.kids[n]| && Under(f.parents, p, f.kids[n][i]);
      UnderStep(f.parents, m, f.kids[n][i]);
    }
  }

  // ----- Whose turn it is

  /** The i-th kid is walked before the j-th: earlier in the list if all weights are the same, and else,
      if the kids can be compared, because it goes before. */
  ghost predicate KidBefore(ks: seq<PriorityNode>, st: Standings, i: nat, j: nat)
    requires i < |ks| && j < |ks|
  {
    if SameWeights(ks, st) then i < j
    else ComparableKids(ks, st) && ks[i] in st && ks[j] in st && GoesBefore(st[ks[i]], st[ks[j]])
  }

  /** At a node with kids on the way to who, no kid before the branch taken has anything to send at or
      below it. */
  ghost predicate TurnAt(f: Forest<PriorityNode>, qs: Queues, win: Windows, st: Standings, m: PriorityNode, who: PriorityNode)
    requires m in f.kids
  {
    forall i, j ::
      (0 <= i < |f.kids[m]| && 0 <= j < |f.kids[m]| && Under(f.parents, who, f.kids[m][j]) && KidBefore(f.kids[m], st, i, j)) ==>
        NoneReady(f.parents, qs, win, f.kids[m][i])
  }

  /** So it is at every node from n down to who. */
  ghost predicate InTurn(f: Forest<PriorityNode>, qs: Queues, win: Windows, st: Standings, n: PriorityNode, who: PriorityNode) {
    forall m :: m in f.kids && Under(f.parents, who, m) && Under(f.parents, m, n) ==> TurnAt(f, qs, win, st, m, who)
  }

  /** The bytes count for the node and for all nodes it depends on. */
  ghost function Charged(st: Standings, parents: map<PriorityNode, PriorityNode>, who: PriorityNode, b: nat): Standings {
    map m | m in st :: Standing(st[m].weight, st[m].own + (if m == who then b else 0),
                                st[m].total + (if Under(parents, who, m) then b else 0))
  }

  /** A node that is served itself has no kids on the way. */
  lemma OwnTurn(f: Forest<PriorityNode>, qs: Queues, win: Windows, st: Standings, n: PriorityNode)
    requires LinksOk(f) && Acyclic(f.parents) && n in f.kids
    ensures InTurn(f, qs, win, st, n, n)
  {
    forall m | m in f.kids && Under(f.parents, n, m) && Under(f.parents, m, n)
      ensures TurnAt(f, qs, win, st, m, n)
    {
      UnderDepth(f.parents, n, m);
      UnderDepth(f.parents, m, n);
      forall j | 0 <= j < |f.kids[n]|
        ensures !Under(f.parents, n, f.kids[n][j])
      {
        assert KidsOf(f, n);
        DepthStep(f.parents, f.kids[n][j]);
        if Under(f.parents, n, f.kids[n][j]) {
          UnderDepth(f.parents, n, f.kids[n][j]);
        }
      }
    }
  }

  /** Nothing depends on two siblings. */
  lemma SiblingsApart(parents: map<PriorityNode, PriorityNode>, a: PriorityNode, b: PriorityNode, m: PriorityNode)
    requires Acyclic(parents) && a in parents && b in parents && parents[a] == parents[b] && a != b && Under(parents, m, a)
    ensures !Under(parents, m, b)
  {
    if Under(parents, m, b) {
      OnOnePath(parents, m, a, b);
      DepthStep(parents, a);
      DepthStep(parents, b);
      UnderStep(parents, a, b);
      UnderStep(parents, b, a);
      if Under(parents, a, b) {
        UnderDepth(parents, a, b);
      } else {
        UnderDepth(parents, b, a);
      }
    }
  }

  // ----- The order of kids may change

  /** Only the order of kids at and below n may differ. */
  ghost predicate Shuffled(f: Forest<PriorityNode>, f': Forest<PriorityNode>, n: PriorityNode) {
    && f'.parents == f.parents && f'.kids.Keys == f.kids.Keys
    && forall m :: m in f.kids ==>
         && multiset(f'.kids[m]) == multiset(f.kids[m])
         && (!Under(f.parents, m, n) ==> f'.kids[m] == f.kids[m])
  }

  lemma ShuffledKid(f: Forest<PriorityNode>, f': Forest<PriorityNode>, f'': Forest<PriorityNode>, n: PriorityNode, k: PriorityNode)
    requires Acyclic(f.parents) && Shuffled(f, f', n) && Shuffled(f', f'', k) && k in f.parents && f.parents[k] == n && n in f.kids
    ensures Shuffled(f, f'', n) && f''.kids[n] == f'.kids[n]
  {
    UnderStep(f.parents, n, n);
    UnderStep(f.parents, k, n);
    forall m | m in f.kids
      ensures Under(f.parents, m, k) ==> Under(f.parents, m, n)
    {
      if Under(f.parents, m, k) {
        UnderTransitive(f.parents, m, k, n);
      }
    }
    DepthStep(f.parents, k);
    if Under(f.parents, n, k) {
      UnderDepth(f.parents, n, k);
    }
  }

  // ----- The function that Pop passes to the walk

  ghost predicate QueuesAre(f: Forest<PriorityNode>, qs: Queues)
    reads f.kids.Keys`q
  {
    qs.Keys == f.kids.Keys && forall m :: m in qs ==> m.q == qs[m]
  }

  /** writeQueue.consume. */
  method ConsumeQueue(q: seq<Request>, n: int, win: Windows) returns (wr: Option<Request>, rest: seq<Request>, win': Windows)
    requires QueueOk(q, win)
    ensures wr.Some? <==> Sendable(q, n, win)
    ensures wr.Some? ==> var r := ConsumeHead(q, n, win); wr == Some(r.frame) && rest == r.rest && win' == r.win
    ensures wr.None? ==> rest == q && win' == win
  {
    if |q| == 0 {
      return None, q, win;
    }
    match Consume(q[0], n, win)
    case Nothing => return None, q, win;
    case Whole(frame, w) => return Some(frame), q[1..], w;
    case Part(frame, r, w) => return Some(frame), [r] + q[1..], w;
  }

  /** An addition in 32 bits that starts over at the limit when it wraps around. */
  function Raise(limit: int): (r: int)
    requires 0 < limit <= MAX_INT32
    ensures limit <= r <= MAX_INT32
  {
    var sum := if limit + 1024 > MAX_INT32 then limit + 1024 - 0x1_0000_0000 else limit + 1024;
    if sum < 0 then MAX_INT32 else sum
  }

  function NextLimit(limit: int, openParent: bool, throttle: bool): (r: int)
    requires 0 < limit <= MAX_INT32
    ensures 0 < r <= MAX_INT32
  {
    if openParent then Raise(limit) else if throttle then 1024 else limit
  }

  function Limit(limit: int, openParent: bool): int {
    if openParent then limit else MAX_INT32
  }

  method Visit(n: PriorityNode, openParent: bool, win: Windows, limit: int, throttle: bool,
               ghost f: Forest<PriorityNode>, ghost qs: Queues, ghost st: Standings)
    returns (wr: Option<Request>, win': Windows, limit': int, ghost rest: seq<Request>)
    requires Represents(f) && Acyclic(f.parents) && n in f.kids && 0 < limit <= MAX_INT32
    requires QueuesAre(f, qs) && QueuesOk(qs, win) && StandingsAre(f, st)
    modifies n`q, n`bytes, f.kids.Keys`subtreeBytes
    ensures wr.Some? <==> Ready(qs, win, n)
    ensures wr.None? ==> QueuesAre(f, qs) && StandingsAre(f, st) && win' == win && limit' == limit
    ensures wr.Some? ==> StandingsAre(f, Charged(st, f.parents, n, wr.value.DataSize()))
    ensures wr.Some? ==>
              var r := ConsumeHead(qs[n], Limit(limit, openParent), win);
              && wr == Some(r.frame) && win' == r.win && rest == r.rest && limit' == NextLimit(limit, openParent, throttle)
              && QueuesAre(f, qs[n := rest])
  {
    hide Charged, Represents, Ready, QueuesOk;
    var l := if openParent then limit else MAX_INT32;
    wr, win', rest := TakeFrame(n, l, win, f, qs);
    limit' := limit;
    if wr.None? {
      return;
    }
    Charge(n, wr.value.DataSize(), f, st);
    limit' := NextLimit(limit, openParent, throttle);
  }

  /** The first frame of the node's queue, up to l bytes. */
  method TakeFrame(n: PriorityNode, l: int, win: Windows, ghost f: Forest<PriorityNode>, ghost qs: Queues)
    returns (wr: Option<Request>, win': Windows, ghost rest: seq<Request>)
    requires n in f.kids && 0 < l && QueuesAre(f, qs) && QueuesOk(qs, win)
    modifies n`q
    ensures wr.Some? <==> Ready(qs, win, n)
    ensures wr.None? ==> QueuesAre(f, qs) && win' == win
    ensures wr.Some? ==>
              && Sendable(qs[n], l, win) && ConsumeHead(qs[n], l, win) == Popped(wr.value, rest, win')
              && QueuesAre(f, qs[n := rest])
  {
    LimitIrrelevant(n.q, l, win);
    var q;
    wr, q, win' := ConsumeQueue(n.q, l, win);
    n.q := q;
    rest := q;
  }

  method Charge(n: PriorityNode, b: nat, ghost f: Forest<PriorityNode>, ghost st: Standings)
    requires Represents(f) && Acyclic(f.parents) && n in f.kids && StandingsAre(f, st)
    modifies n`bytes, f.kids.Keys`subtreeBytes
    ensures StandingsAre(f, Charged(st, f.parents, n, b))
  {
    AddBytes(n, b, f);
  }

  // ----- The walk

  /** What a walk from n that finds a frame sends: the head of a chosen queue, up to the limit,
      which is smaller when the node depends on an open one. */
  ghost predicate Sends(parents: map<PriorityNode, PriorityNode>, qs: Queues, opens: set<PriorityNode>, win: Windows,
                        limit: int, throttle: bool, n: PriorityNode,
                        who: PriorityNode, frame: Request, rest: seq<Request>, win': Windows, limit': int)
    requires 0 < limit <= MAX_INT32
  {
    var open := OpenAbove(parents, opens, who);
    && Chosen(parents, qs, win, n, who) && Sendable(qs[who], Limit(limit, open), win)
    && ConsumeHead(qs[who], Limit(limit, open), win) == Popped(frame, rest, win')
    && limit' == NextLimit(limit, open, throttle)
  }

  /** The open nodes, without the root. */
  ghost predicate OpensAre(f: Forest<PriorityNode>, opens: set<PriorityNode>)
    reads f.kids.Keys`state
  {
    forall m :: m in f.kids ==> (m in opens <==> m.id != 0 && m.state.Open?)
  }

  ghost function Room(parents: map<PriorityNode, PriorityNode>, n: PriorityNode): nat
    requires Acyclic(parents)
  {
    Bound(parents) + 1 - Depth(parents, n)
  }

  /** What a walk from n comes to: nothing at or below n can send and nothing has changed but the order
      of kids, or a chosen node whose turn it is has sent. */
  ghost predicate Walked(f: Forest<PriorityNode>, f': Forest<PriorityNode>, n: PriorityNode, qs: Queues, st: Standings,
                         opens: set<PriorityNode>, win: Windows, limit: int, throttle: bool,
                         wr: Option<Request>, win': Windows, limit': int, who: PriorityNode, rest: seq<Request>)
    requires 0 < limit <= MAX_INT32
    reads f'.kids.Keys
  {
    && Represents(f') && Shuffled(f, f', n)
    && match wr
       case None =>
         && QueuesAre(f', qs) && StandingsAre(f', st)
         && NoneReady(f.parents, qs, win, n) && win' == win && limit' == limit
       case Some(frame) =>
         && Sends(f.parents, qs, opens, win, limit, throttle, n, who, frame, rest, win', limit')
         && QueuesAre(f', qs[who := rest]) && InTurn(f, qs, win, st, n, who)
         && StandingsAre(f', Charged(st, f.parents, who, frame.DataSize()))
  }

  /** walkReadyInOrder. */
  method WalkReady(n: PriorityNode, openParent: bool, win: Windows, limit: int, throttle: bool,
                   ghost f: Forest<PriorityNode>, ghost qs: Queues, ghost st: Standings, ghost opens: set<PriorityNode>)
    returns (wr: Option<Request>, win': Windows, limit': int,
             ghost f': Forest<PriorityNode>, ghost who: PriorityNode, ghost rest: seq<Request>)
    requires Represents(f) && Acyclic(f.parents) && n in f.kids && 0 < limit <= MAX_INT32
    requires QueuesAre(f, qs) && StandingsAre(f, st) && QueuesOk(qs, win) && OpensAre(f, opens)
    requires openParent == OpenAbove(f.parents, opens, n)
    modifies f.kids.Keys`parent, f.kids.Keys`kids, f.kids.Keys`prev, f.kids.Keys`next
    modifies f.kids.Keys`q, f.kids.Keys`bytes, f.kids.Keys`subtreeBytes
    ensures Walked(f, f', n, qs, st, opens, win, limit, throttle, wr, win', limit', who, rest)
    decreases Room(f.parents, n), 3
  {
    hide NoneReady, QueuesOk, InTurn, Sends, Shuffled, Walked;
    f', who, rest := f, n, [];
    UnderStep(f.parents, n, n);
    wr, win', limit' := None, win, limit;
    if |n.q| != 0 {
      wr, win', limit', rest := Visit(n, openParent, win, limit, throttle, f, qs, st);
      if wr.Some? {
        VisitWalked(f, qs, st, opens, win, limit, throttle, n, wr.value, rest, win', limit');
        return;
      }
    }
    wr, win', limit', f', who, rest := WalkKids(n, openParent, win, limit, throttle, f, qs, st, opens);
  }

  lemma VisitWalked(f: Forest<PriorityNode>, qs: Queues, st: Standings, opens: set<PriorityNode>, win: Windows,
                    limit: int, throttle: bool, n: PriorityNode,
                    frame: Request, rest: seq<Request>, win': Windows, limit': int)
    requires Represents(f) && Acyclic(f.parents) && n in f.kids && 0 < limit <= MAX_INT32 && Ready(qs, win, n)
    requires var l := Limit(limit, OpenAbove(f.parents, opens, n));
             Sendable(qs[n], l, win) ==> ConsumeHead(qs[n], l, win) == Popped(frame, rest, win')
    requires limit' == NextLimit(limit, OpenAbove(f.parents, opens, n), throttle)
    requires QueuesAre(f, qs[n := rest]) && StandingsAre(f, Charged(st, f.parents, n, frame.DataSize()))
    ensures Walked(f, f, n, qs, st, opens, win, limit, throttle, Some(frame), win', limit', n, rest)
  {
    LimitIrrelevant(qs[n], Limit(limit, OpenAbove(f.parents, opens, n)), win);
    VisitSends(f.parents, qs, opens, win, limit, throttle, n, frame, rest, win', limit');
    ShuffledSame(f, n);
    OwnTurn(f, qs, win, st, n);
    hide Sends, InTurn, Charged, Shuffled, Represents, StandingsAre, QueuesAre, Ready, Sendable, ConsumeHead;
  }

  lemma VisitSends(parents: map<PriorityNode, PriorityNode>, qs: Queues, opens: set<PriorityNode>, win: Windows,
                   limit: int, throttle: bool, n: PriorityNode,
                   frame: Request, rest: seq<Request>, win': Windows, limit': int)
    requires Acyclic(parents) && 0 < limit <= MAX_INT32 && Ready(qs, win, n)
    requires Sendable(qs[n], Limit(limit, OpenAbove(parents, opens, n)), win)
    requires ConsumeHead(qs[n], Limit(limit, OpenAbove(parents, opens, n)), win) == Popped(frame, rest, win')
    requires limit' == NextLimit(limit, OpenAbove(parents, opens, n), throttle)
    ensures Sends(parents, qs, opens, win, limit, throttle, n, n, frame, rest, win', limit')
  {
    UnderStep(parents, n, n);
    forall m | m in qs && Under(parents, n, m) && Under(parents, m, n)
      ensures m == n
    {
      UnderDepth(parents, n, m);
      UnderDepth(parents, m, n);
    }
  }

  /** The kids, which are sorted first unless their weights are all the same. */
  method WalkKids(n: PriorityNode, openParent: bool, win: Windows, limit: int, throttle: bool,
                  ghost f: Forest<PriorityNode>, ghost qs: Queues, ghost st: Standings, ghost opens: set<PriorityNode>)
    returns (wr: Option<Request>, win': Windows, limit': int,
             ghost f': Forest<PriorityNode>, ghost who: PriorityNode, ghost rest: seq<Request>)
    requires Represents(f) && Acyclic(f.parents) && n in f.kids && 0 < limit <= MAX_INT32
    requires QueuesAre(f, qs) && StandingsAre(f, st) && QueuesOk(qs, win) && OpensAre(f, opens)
    requires openParent == OpenAbove(f.parents, opens, n) && !Ready(qs, win, n)
    modifies f.kids.Keys`parent, f.kids.Keys`kids, f.kids.Keys`prev, f.kids.Keys`next
    modifies f.kids.Keys`q, f.kids.Keys`bytes, f.kids.Keys`subtreeBytes
    ensures Walked(f, f', n, qs, st, opens, win, limit, throttle, wr, win', limit', who, rest)
    decreases Room(f.parents, n), 2
  {
    hide NoneReady, QueuesOk, InTurn, Sends, Arranged, Charged, Walked, Position;
    f' := f;
    assert ListAt(n, f.kids[n]);
    if n.kids == null {
      wr, win', limit', who, rest := None, win, limit, n, [];
      NoKids(f, qs, st, opens, win, limit, throttle, n);
      return;
    }
    var open := openParent;
    if n.id != 0 {
      open := openParent || n.state.Open?;
    }
    f' := Arrange(n, f, qs, st, win);
    wr, win', limit', f', who, rest := WalkList(n, open, win, limit, throttle, f, f', qs, st, opens);
  }

  lemma NoKids(f: Forest<PriorityNode>, qs: Queues, st: Standings, opens: set<PriorityNode>, win: Windows,
               limit: int, throttle: bool, n: PriorityNode)
    requires Represents(f) && Acyclic(f.parents) && n in f.kids && f.kids[n] == [] && 0 < limit <= MAX_INT32
    requires QueuesAre(f, qs) && StandingsAre(f, st) && !Ready(qs, win, n)
    ensures Walked(f, f, n, qs, st, opens, win, limit, throttle, None, win, limit, n, [])
  {
    AllKidsDone(f, qs, win, n);
    ShuffledSame(f, n);
  }

  /** The start of the walk over the kids. */
  method Arrange(n: PriorityNode, ghost f: Forest<PriorityNode>, ghost qs: Queues, ghost st: Standings, ghost win: Windows)
    returns (ghost f': Forest<PriorityNode>)
    requires Represents(f) && Acyclic(f.parents) && n in f.kids && n.kids != null && QueuesAre(f, qs) && StandingsAre(f, st)
    modifies f.kids.Keys`parent, f.kids.Keys`kids, f.kids.Keys`prev, f.kids.Keys`next
    ensures AtList(f, f', n, qs, st, win, 0, n.kids)
  {
    f' := SortIfNeeded(n, f, st);
    ListStart(f, f', n, qs, st, win);
  }

  method SortIfNeeded(n: PriorityNode, ghost f: Forest<PriorityNode>, ghost st: Standings) returns (ghost f': Forest<PriorityNode>)
    requires Represents(f) && Acyclic(f.parents) && n in f.kids && n.kids != null && StandingsAre(f, st)
    modifies f.kids.Keys`parent, f.kids.Keys`kids, f.kids.Keys`prev, f.kids.Keys`next
    ensures Represents(f') && Shuffled(f, f', n) && f' == f.(kids := f.kids[n := f'.kids[n]])
    ensures Arranged(f.kids[n], f'.kids[n], st)
  {
    f' := f;
    var needSort := DifferentWeights(n, f);
    if needSort {
      f' := SortKids(n, f);
      SortShuffles(f, f', n);
      SortedArranges(f, f.kids[n], f'.kids[n], st);
    } else {
      ShuffledSame(f, n);
      assert f.kids[n := f.kids[n]] == f.kids;
    }
  }

  lemma ShuffledSame(f: Forest<PriorityNode>, n: PriorityNode)
    ensures Shuffled(f, f, n)
  {
  }

  lemma ListStart(f: Forest<PriorityNode>, g: Forest<PriorityNode>, n: PriorityNode, qs: Queues, st: Standings, win: Windows)
    requires LinksOk(f) && Acyclic(f.parents) && n in f.kids && Represents(g) && Shuffled(f, g, n)
    requires QueuesAre(g, qs) && StandingsAre(g, st) && g == f.(kids := f.kids[n := g.kids[n]]) && Arranged(f.kids[n], g.kids[n], st)
    ensures AtList(f, g, n, qs, st, win, 0, n.kids)
  {
    assert ListAt(n, g.kids[n]);
    forall m, j | m in f.kids && 0 <= j < |g.kids[n]| && Under(f.parents, m, g.kids[n][j])
      ensures g.kids[m] == f.kids[m]
    {
      assert KidsOf(g, n);
      DepthStep(f.parents, g.kids[n][j]);
      UnderDepth(f.parents, m, g.kids[n][j]);
    }
  }

  /** The loop over the kids, whose order is now that of g. */
  method WalkList(n: PriorityNode, open: bool, win: Windows, limit: int, throttle: bool,
                  ghost f: Forest<PriorityNode>, ghost g: Forest<PriorityNode>, ghost qs: Queues, ghost st: Standings, ghost opens: set<PriorityNode>)
    returns (wr: Option<Request>, win': Windows, limit': int,
             ghost f': Forest<PriorityNode>, ghost who: PriorityNode, ghost rest: seq<Request>)
    requires Acyclic(f.parents) && n in f.kids && 0 < limit <= MAX_INT32 && QueuesOk(qs, win) && OpensAre(f, opens)
    requires AtList(f, g, n, qs, st, win, 0, n.kids)
    requires open == (n in opens || OpenAbove(f.parents, opens, n)) && !Ready(qs, win, n)
    modifies f.kids.Keys`parent, f.kids.Keys`kids, f.kids.Keys`prev, f.kids.Keys`next
    modifies f.kids.Keys`q, f.kids.Keys`bytes, f.kids.Keys`subtreeBytes
    ensures Walked(f, f', n, qs, st, opens, win, limit, throttle, wr, win', limit', who, rest)
    decreases Room(f.parents, n), 1
  {
    hide NoneReady, Sends, QueuesOk, Acyclic, Shuffled, Represents, QueuesAre, Ready, OpenAbove, InTurn, StandingsAre, Charged, Position;
    var k := n.kids;
    ghost var i := 0;
    f' := g;
    while k != null
      invariant AtList(f, f', n, qs, st, win, i, k) && OpensAre(f, opens)
      decreases |f.kids[n]| - i
    {
      wr, win', limit', k, f', who, rest := WalkKid(k, n, open, win, limit, throttle, f, f', qs, st, opens, i);
      if wr.Some? {
        return;
      }
      i := i + 1;
    }
    ListDone(f, f', n, qs, st, win, i);
    wr, win', limit', who, rest := None, win, limit, n, [];
  }

  /** The loop at the i-th kid: nothing below the ones before it can send. */
  ghost predicate AtList(f: Forest<PriorityNode>, g: Forest<PriorityNode>, n: PriorityNode, qs: Queues, st: Standings,
                         win: Windows, i: nat, k: PriorityNode?)
    requires n in f.kids
    reads g.kids.Keys
  {
    && Represents(g) && QueuesAre(g, qs) && StandingsAre(g, st) && Position(f, g, n, qs, st, win, i)
    && k == (if i == |g.kids[n]| then null else g.kids[n][i])
  }

  /** The kids were arranged in the order of g, and none of the first i has anything to send. */
  ghost predicate Position(f: Forest<PriorityNode>, g: Forest<PriorityNode>, n: PriorityNode, qs: Queues, st: Standings, win: Windows, i: nat)
    requires n in f.kids
  {
    && LinksOk(f) && LinksOk(g) && Shuffled(f, g, n) && i <= |g.kids[n]| && st.Keys == f.kids.Keys
    && Arranged(f.kids[n], g.kids[n], st) && Untouched(f, g, n, i)
    && forall j :: 0 <= j < i ==> NoneReady(f.parents, qs, win, g.kids[n][j])
  }

  /** Below the kids from i on, all is as it was. */
  ghost predicate Untouched(f: Forest<PriorityNode>, g: Forest<PriorityNode>, n: PriorityNode, i: nat)
    requires n in g.kids && g.kids.Keys == f.kids.Keys
  {
    forall m, j :: m in f.kids && i <= j < |g.kids[n]| && Under(f.parents, m, g.kids[n][j]) ==> g.kids[m] == f.kids[m]
  }

  lemma ListDone(f: Forest<PriorityNode>, g: Forest<PriorityNode>, n: PriorityNode, qs: Queues, st: Standings, win: Windows, i: nat)
    requires Acyclic(f.parents) && n in f.kids && AtList(f, g, n, qs, st, win, i, null) && !Ready(qs, win, n)
    ensures Represents(g) && Shuffled(f, g, n) && QueuesAre(g, qs) && StandingsAre(g, st) && NoneReady(f.parents, qs, win, n)
  {
    AllKidsDone(g, qs, win, n);
  }

  /** One kid of the list. */
  method WalkKid(k: PriorityNode, n: PriorityNode, open: bool, win: Windows, limit: int, throttle: bool,
                 ghost f: Forest<PriorityNode>, ghost g: Forest<PriorityNode>, ghost qs: Queues, ghost st: Standings, ghost opens: set<PriorityNode>, ghost i: nat)
    returns (wr: Option<Request>, win': Windows, limit': int, next: PriorityNode?,
             ghost f': Forest<PriorityNode>, ghost who: PriorityNode, ghost rest: seq<Request>)
    requires Acyclic(f.parents) && n in f.kids && 0 < limit <= MAX_INT32 && QueuesOk(qs, win) && OpensAre(f, opens)
    requires AtList(f, g, n, qs, st, win, i, k)
    requires open == (n in opens || OpenAbove(f.parents, opens, n)) && !Ready(qs, win, n)
    modifies f.kids.Keys`parent, f.kids.Keys`kids, f.kids.Keys`prev, f.kids.Keys`next
    modifies f.kids.Keys`q, f.kids.Keys`bytes, f.kids.Keys`subtreeBytes
    ensures i < |f.kids[n]|
    ensures wr.None? ==> AtList(f, f', n, qs, st, win, i + 1, next) && win' == win && limit' == limit
    ensures wr.Some? ==> Walked(f, f', n, qs, st, opens, win, limit, throttle, wr, win', limit', who, rest)
    decreases Room(f.parents, n), 0
  {
    hide Walked, Position, Represents, NoneReady, QueuesOk, QueuesAre, StandingsAre, Ready, OpenAbove, Shuffled;
    KidOfList(f, g, n, qs, st, win, i, k);
    OpenAboveKid(f.parents, opens, k);
    wr, win', limit', f', who, rest := WalkReady(k, open, win, limit, throttle, g, qs, st, opens);
    next := k.next;
    if wr.Some? {
      Served(f, g, f', n, qs, st, opens, win, limit, throttle, i, wr, win', limit', who, rest);
    } else {
      Skipped(f, g, f', n, qs, st, opens, win, limit, throttle, i, wr, win', limit', who, rest);
    }
  }

  lemma Served(f: Forest<PriorityNode>, g: Forest<PriorityNode>, f': Forest<PriorityNode>, n: PriorityNode,
               qs: Queues, st: Standings, opens: set<PriorityNode>, win: Windows, limit: int, throttle: bool, i: nat,
               wr: Option<Request>, win': Windows, limit': int, who: PriorityNode, rest: seq<Request>)
    requires Acyclic(f.parents) && n in f.kids && Position(f, g, n, qs, st, win, i) && i < |g.kids[n]| && !Ready(qs, win, n)
    requires 0 < limit <= MAX_INT32 && wr.Some?
    requires Walked(g, f', g.kids[n][i], qs, st, opens, win, limit, throttle, wr, win', limit', who, rest)
    ensures Walked(f, f', n, qs, st, opens, win, limit, throttle, wr, win', limit', who, rest)
  {
    assert KidsOf(g, n);
    var k := g.kids[n][i];
    ShuffledKid(f, g, f', n, k);
    SendsAbove(f.parents, qs, opens, win, limit, throttle, n, k, who, wr.value, rest, win', limit');
    TurnAbove(f, g, n, qs, st, win, i, who);
    hide Sends, InTurn, Charged, Shuffled, Represents, StandingsAre, QueuesAre;
  }

  lemma Skipped(f: Forest<PriorityNode>, g: Forest<PriorityNode>, f': Forest<PriorityNode>, n: PriorityNode,
                qs: Queues, st: Standings, opens: set<PriorityNode>, win: Windows, limit: int, throttle: bool, i: nat,
                wr: Option<Request>, win': Windows, limit': int, who: PriorityNode, rest: seq<Request>)
    requires Acyclic(f.parents) && n in f.kids && Position(f, g, n, qs, st, win, i) && i < |g.kids[n]|
    requires 0 < limit <= MAX_INT32 && wr.None?
    requires Walked(g, f', g.kids[n][i], qs, st, opens, win, limit, throttle, wr, win', limit', who, rest)
    ensures AtList(f, f', n, qs, st, win, i + 1, g.kids[n][i].next) && win' == win && limit' == limit
  {
    assert KidsOf(g, n);
    ShuffledKid(f, g, f', n, g.kids[n][i]);
    UntouchedNext(f, g, f', n, i);
    ListNext(f, g, f', n, qs, st, win, i, g.kids[n][i]);
  }

  lemma SendsAbove(parents: map<PriorityNode, PriorityNode>, qs: Queues, opens: set<PriorityNode>, win: Windows,
                   limit: int, throttle: bool, n: PriorityNode, k: PriorityNode,
                   who: PriorityNode, frame: Request, rest: seq<Request>, win': Windows, limit': int)
    requires Acyclic(parents) && k in parents && parents[k] == n && !Ready(qs, win, n) && 0 < limit <= MAX_INT32
    requires Sends(parents, qs, opens, win, limit, throttle, k, who, frame, rest, win', limit')
    ensures Sends(parents, qs, opens, win, limit, throttle, n, who, frame, rest, win', limit')
    ensures Under(parents, who, k)
  {
    ChosenAbove(parents, qs, win, n, k, who);
  }

  lemma KidOfList(f: Forest<PriorityNode>, g: Forest<PriorityNode>, n: PriorityNode, qs: Queues, st: Standings,
                  win: Windows, i: nat, k: PriorityNode)
    requires Acyclic(f.parents) && n in f.kids && AtList(f, g, n, qs, st, win, i, k)
    ensures k in g.kids && k in f.parents && f.parents[k] == n && i < |f.kids[n]| && Room(f.parents, k) < Room(f.parents, n)
    ensures i < |g.kids[n]| && k == g.kids[n][i] && f.parents == g.parents && f.kids.Keys == g.kids.Keys && Acyclic(g.parents)
    ensures Represents(g) && Shuffled(f, g, n) && QueuesAre(g, qs) && StandingsAre(g, st) && Position(f, g, n, qs, st, win, i)
  {
    assert KidsOf(g, n);
    DepthStep(f.parents, k);
    assert |multiset(g.kids[n])| == |multiset(f.kids[n])|;
  }

  lemma ListNext(f: Forest<PriorityNode>, g: Forest<PriorityNode>, g': Forest<PriorityNode>, n: PriorityNode,
                 qs: Queues, st: Standings, win: Windows, i: nat, k: PriorityNode)
    requires LinksOk(f) && n in f.kids && n in g.kids && n in g'.kids && i < |g.kids[n]| && k == g.kids[n][i]
    requires st.Keys == f.kids.Keys
    requires g'.kids[n] == g.kids[n] && Represents(g') && Shuffled(f, g', n) && QueuesAre(g', qs) && StandingsAre(g', st)
    requires Arranged(f.kids[n], g.kids[n], st) && g'.kids.Keys == f.kids.Keys && Untouched(f, g', n, i + 1)
    requires NoneReady(f.parents, qs, win, k) && forall j :: 0 <= j < i ==> NoneReady(f.parents, qs, win, g.kids[n][j])
    ensures AtList(f, g', n, qs, st, win, i + 1, k.next)
  {
    assert ListAt(n, g'.kids[n]);
    NextSibling(n, g'.kids[n], i, g'.kids[n], i);
  }

  /** The walk below the i-th kid changes nothing below the later ones. */
  lemma UntouchedNext(f: Forest<PriorityNode>, g: Forest<PriorityNode>, g': Forest<PriorityNode>, n: PriorityNode, i: nat)
    requires LinksOk(g) && Acyclic(f.parents) && Shuffled(f, g, n) && n in g.kids && i < |g.kids[n]| && n in g'.kids
    requires g'.kids.Keys == f.kids.Keys && g'.kids[n] == g.kids[n] && Untouched(f, g, n, i) && Shuffled(g, g', g.kids[n][i])
    ensures Untouched(f, g', n, i + 1)
  {
    forall m, j | m in f.kids && i + 1 <= j < |g'.kids[n]| && Under(f.parents, m, g'.kids[n][j])
      ensures g'.kids[m] == f.kids[m]
    {
      assert KidsOf(g, n) && NoRepeats(g.kids[n]);
      SiblingsApart(f.parents, g.kids[n][j], g.kids[n][i], m);
    }
  }

  /** Whose turn it is below the i-th kid, with none before it ready, has its turn below n. */
  lemma TurnAbove(f: Forest<PriorityNode>, g: Forest<PriorityNode>, n: PriorityNode, qs: Queues, st: Standings, win: Windows,
                  i: nat, who: PriorityNode)
    requires LinksOk(f) && LinksOk(g) && Acyclic(f.parents) && n in f.kids && Shuffled(f, g, n) && i < |g.kids[n]|
    requires Arranged(f.kids[n], g.kids[n], st) && Untouched(f, g, n, i) && st.Keys == f.kids.Keys
    requires forall j :: 0 <= j < i ==> NoneReady(f.parents, qs, win, g.kids[n][j])
    requires Under(f.parents, who, g.kids[n][i]) && InTurn(g, qs, win, st, g.kids[n][i], who)
    ensures InTurn(f, qs, win, st, n, who)
  {
    var k := g.kids[n][i];
    forall m | m in f.kids && Under(f.parents, who, m) && Under(f.parents, m, n)
      ensures TurnAt(f, qs, win, st, m, who)
    {
      if m == n {
        TurnHere(f, g, n, qs, st, win, i, who);
      } else {
        BelowKid(g, n, k, m, who);
        assert TurnAt(g, qs, win, st, m, who);
      }
    }
  }

  /** On the way from n to a node below its kid k there is only n and what is below k. */
  lemma BelowKid(g: Forest<PriorityNode>, n: PriorityNode, k: PriorityNode, m: PriorityNode, who: PriorityNode)
    requires Acyclic(g.parents) && k in g.parents && g.parents[k] == n && Under(g.parents, who, k)
    requires Under(g.parents, who, m) && Under(g.parents, m, n) && m != n
    ensures Under(g.parents, m, k)
  {
    OnOnePath(g.parents, who, m, k);
    if !Under(g.parents, m, k) {
      UnderStep(g.parents, k, m);
      UnderStep(g.parents, m, m);
      UnderDepth(g.parents, n, m);
      UnderDepth(g.parents, m, n);
    }
  }

  lemma TurnHere(f: Forest<PriorityNode>, g: Forest<PriorityNode>, n: PriorityNode, qs: Queues, st: Standings, win: Windows,
                 i: nat, who: PriorityNode)
    requires LinksOk(f) && LinksOk(g) && Acyclic(f.parents) && n in f.kids && Shuffled(f, g, n) && i < |g.kids[n]|
    requires Arranged(f.kids[n], g.kids[n], st) && st.Keys == f.kids.Keys
    requires forall j :: 0 <= j < i ==> NoneReady(f.parents, qs, win, g.kids[n][j])
    requires Under(f.parents, who, g.kids[n][i])
    ensures TurnAt(f, qs, win, st, n, who)
  {
    var ks, ks' := f.kids[n], g.kids[n];
    forall p, q | 0 <= p < |ks| && 0 <= q < |ks| && Under(f.parents, who, ks[q]) && KidBefore(ks, st, p, q)
      ensures NoneReady(f.parents, qs, win, ks[p])
    {
      assert KidsOf(f, n) && KidsOf(g, n) && NoRepeats(ks');
      if ks[q] != ks'[i] {
        SiblingsApart(f.parents, ks[q], ks'[i], who);
        assert false;
      }
      assert ks[p] in multiset(ks');
      var p' :| 0 <= p' < |ks'| && ks'[p'] == ks[p];
      EarlierWalked(ks, ks', st, p, q, p', i);
    }
  }

  lemma EarlierWalked(ks: seq<PriorityNode>, ks': seq<PriorityNode>, st: Standings, p: nat, q: nat, p': nat, i: nat)
    requires p < |ks| && q < |ks| && KidBefore(ks, st, p, q) && Arranged(ks, ks', st) && NoRepeats(ks) && NoRepeats(ks')
    requires p' < |ks'| && i < |ks'| && ks'[p'] == ks[p] && ks'[i] == ks[q]
    ensures p' < i
  {
    if SameWeights(ks, st) {
      assert ks' == ks;
    }
  }

  lemma AllKidsDone(f: Forest<PriorityNode>, qs: Queues, win: Windows, n: PriorityNode)
    requires LinksOk(f) && Acyclic(f.parents) && n in f.kids && !Ready(qs, win, n)
    requires forall i :: 0 <= i < |f.kids[n]| ==> NoneReady(f.parents, qs, win, f.kids[n][i])
    ensures NoneReady(f.parents, qs, win, n)
  {
    forall m | m in qs && Under(f.parents, m, n)
      ensures !Ready(qs, win, m)
    {
      if m != n {
        UnderKid(f, n, m);
      }
    }
  }

  lemma {:induction false} OnOnePath(parents: map<PriorityNode, PriorityNode>, x: PriorityNode, a: PriorityNode, b: PriorityNode)
    requires Acyclic(parents) && Under(parents, x, a) && Under(parents, x, b)
    ensures Under(parents, a, b) || Under(parents, b, a)
    decreases Depth(parents, x)
  {
    if x != a && x != b {
      UnderStep(parents, x, a);
      UnderStep(parents, x, b);
      DepthStep(parents, x);
      OnOnePath(parents, parents[x], a, b);
    }
  }

  /** What is chosen below a kid of n is chosen below n. */
  lemma ChosenAbove(parents: map<PriorityNode, PriorityNode>, qs: Queues, win: Windows, n: PriorityNode, k: PriorityNode, who: PriorityNode)
    requires Acyclic(parents) && k in parents && parents[k] == n && !Ready(qs, win, n) && Chosen(parents, qs, win, k, who)
    ensures Chosen(parents, qs, win, n, who)
  {
    UnderStep(parents, n, n);
    UnderStep(parents, k, n);
    UnderTransitive(parents, who, k, n);
    forall m | m in qs && m != who && Under(parents, who, m) && Under(parents, m, n)
      ensures !Ready(qs, win, m)
    {
      OnOnePath(parents, who, m, k);
      if !Under(parents, m, k) {
        UnderStep(parents, k, m);
        UnderStep(parents, m, m);
        assert Under(parents, n, m);
        UnderDepth(parents, n, m);
        UnderDepth(parents, m, n);
      }
    }
  }

  /** Whether the kids of n differ in weight. */
  method DifferentWeights(n: PriorityNode, ghost f: Forest<PriorityNode>) returns (b: bool)
    requires Represents(f) && n in f.kids && n.kids != null
    ensures b <==> exists i :: 0 <= i < |f.kids[n]| && f.kids[n][i].weight != f.kids[n][0].weight
  {
    ghost var ks := f.kids[n];
    assert ListAt(n, ks) && KidAt(n, ks, 0);
    var w := n.kids.weight;
    var k := n.kids.next;
    ghost var i := 1;
    while k != null
      invariant 1 <= i <= |ks| && k == if i == |ks| then null else ks[i]
      invariant forall j :: 0 <= j < i ==> ks[j].weight == w
      decreases |ks| - i
    {
      assert KidAt(n, ks, i);
      if k.weight != w {
        return true;
      }
      k := k.next;
      i := i + 1;
    }
    return false;
  }

  lemma SortShuffles(f: Forest<PriorityNode>, f': Forest<PriorityNode>, n: PriorityNode)
    requires n in f.kids && n in f'.kids && f' == f.(kids := f.kids[n := f'.kids[n]])
    requires multiset(f'.kids[n]) == multiset(f.kids[n])
    ensures Shuffled(f, f', n)
  {
    UnderStep(f.parents, n, n);
  }
}
