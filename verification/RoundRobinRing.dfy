/** The round-robin scheduler as linked queues (h2_bundle.go), proved to implement RoundRobins. */
module RoundRobinRings {
  import opened Foundations
  import opened WriteQueues
  import opened RoundRobins

  class WriteQueue {
    var s: seq<Request>
    var prev: WriteQueue?
    var next: WriteQueue?

    constructor ()
      ensures s == []
    {
      s, prev, next := [], null, null;
    }

    /** consume. */
    method ConsumeUpTo(n: int, win: Windows) returns (wr: Option<Request>, win': Windows)
      requires QueueOk(s, win)
      modifies this`s
      ensures Sendable(old(s), n, win) ==>
                var r := ConsumeHead(old(s), n, win); wr == Some(r.frame) && s == r.rest && win' == r.win
      ensures !Sendable(old(s), n, win) ==> wr == None && s == old(s) && win' == win
    {
      if |s| == 0 {
        return None, win;
      }
      match Consume(s[0], n, win)
      case Nothing =>
        return None, win;
      case Whole(frame, w) =>
        s := s[1..];
        return Some(frame), w;
      case Part(frame, rest, w) =>
        s := [rest] + s[1..];
        return Some(frame), w;
    }
  }

  function NextIndex(i: nat, n: nat): nat {
    if i + 1 == n then 0 else i + 1
  }

  function PrevIndex(i: nat, n: nat): nat
    requires i < n
  {
    if i == 0 then n - 1 else i - 1
  }

  /** The nodes form one circular doubly linked list. */
  ghost predicate Circular(nodes: seq<WriteQueue>)
    reads nodes`prev, nodes`next
  {
    && (forall i, j :: 0 <= i < j < |nodes| ==> nodes[i] != nodes[j])
    && (forall i :: 0 <= i < |nodes| ==> LinkedAt(nodes, i))
  }

  ghost predicate LinkedAt(nodes: seq<WriteQueue>, i: nat)
    requires i < |nodes|
    reads nodes`prev, nodes`next
  {
    nodes[i].next == nodes[NextIndex(i, |nodes|)] && nodes[i].prev == nodes[PrevIndex(i, |nodes|)]
  }

  /** The node at each position is the queue of the stream at that position. */
  ghost predicate Names(order: seq<nat>, nodes: seq<WriteQueue>, streams: map<nat, WriteQueue>) {
    && |order| == |nodes| && Distinct(order)
    && (forall i :: 0 <= i < |order| ==> order[i] in streams && streams[order[i]] == nodes[i])
    && (forall id :: id in streams ==> id in order)
  }

  lemma CircularRotates(nodes: seq<WriteQueue>, k: nat)
    requires Circular(nodes) && k < |nodes|
    ensures Circular(Rotate(nodes, k))
  {
    var r, n := Rotate(nodes, k), |nodes|;
    RotateAt(nodes, k);
    forall i | 0 <= i < n
      ensures LinkedAt(r, i)
    {
      var j := if i + k + 1 < n then i + k + 1 else i + k + 1 - n;
      assert LinkedAt(nodes, j);
    }
  }

  lemma NamesRotate(order: seq<nat>, nodes: seq<WriteQueue>, streams: map<nat, WriteQueue>, k: nat)
    requires Names(order, nodes, streams) && k < |order|
    ensures Names(Rotate(order, k), Rotate(nodes, k), streams)
  {
    RotateOk(order, k);
    var order', nodes' := Rotate(order, k), Rotate(nodes, k);
    forall i | 0 <= i < |order|
      ensures order'[i] in streams && streams[order'[i]] == nodes'[i]
    {
      var j := if i + k + 1 < |order| then i + k + 1 else i + k + 1 - |order|;
      assert order'[i] == order[j] && nodes'[i] == nodes[j];
    }
  }

  class RoundRobinScheduler {
    const control: WriteQueue
    var streams: map<nat, WriteQueue>
    var head: WriteQueue?

    ghost var order: seq<nat>
    ghost var nodes: seq<WriteQueue>
    ghost var queues: map<nat, seq<Request>>

    ghost predicate Valid()
      reads this, control, nodes
    {
      && Circular(nodes) && Names(order, nodes, streams) && Holds()
      && head == (if nodes == [] then null else nodes[0])
      && control !in nodes
      && SchedOk(Model())
    }

    /** The nodes hold the queues of the model. */
    ghost predicate Holds()
      reads this, nodes`s
    {
      queues.Keys == streams.Keys && QueuesAt(order, nodes, queues)
    }

    ghost function Model(): Sched
      reads this, control`s
    {
      Sched(control.s, order, queues)
    }

    constructor ()
      ensures Valid() && Model() == Sched([], [], map[]) && fresh(control)
    {
      control := new WriteQueue();
      streams, head, order, nodes, queues := map[], null, [], [], map[];
    }

    method PopFrame(win: Windows) returns (wr: Option<Request>, win': Windows)
      requires Valid() && WindowsFor(Model(), win)
      modifies this`head, this`order, this`nodes, this`queues, control, nodes
      ensures Valid()
      ensures var r := Pop(old(Model()), win);
              match r
              case Empty => wr == None && Model() == old(Model()) && win' == win
              case Served(frame, s', w') => wr == Some(frame) && Model() == s' && win' == w'
    {
      if |control.s| != 0 {
        wr, win' := Some(control.s[0]), win;
        control.s := control.s[1..];
        return;
      }
      if head == null {
        return None, win;
      }
      wr, win' := PopStream(win);
    }

    /** The walk around the ring. */
    method PopStream(win: Windows) returns (wr: Option<Request>, win': Windows)
      requires Valid() && WindowsFor(Model(), win) && control.s == [] && head != null
      modifies this`head, this`order, this`nodes, this`queues, nodes`s
      ensures Valid()
      ensures var r := Pop(old(Model()), win);
              match r
              case Empty => wr == None && Model() == old(Model()) && win' == win
              case Served(frame, s', w') => wr == Some(frame) && Model() == s' && win' == w'
    {
      hide Circular, Names, SchedOk, FirstReady, Pop;
      var q := head;
      ghost var i := 0;
      ghost var m := Model();
      while true
        invariant 0 <= i < |nodes| && q == nodes[i]
        invariant order == old(order) && nodes == old(nodes) && head == old(head) && Valid() && Model() == m
        invariant i <= FirstReady(m, win, 0)
        decreases |nodes| - i
      {
        wr, win' := ServeQueue(q, i, win);
        if wr.Some? {
          return;
        }
        StepAround(i, win);
        q := q.next;
        if q == head {
          return None, win;
        }
        i := i + 1;
      }
    }

    /** One step around the ring, past a queue that cannot send. */
    lemma StepAround(i: nat, win: Windows)
      requires Valid() && WindowsFor(Model(), win) && control.s == []
      requires i < |nodes| && i < FirstReady(Model(), win, 0)
      ensures nodes[i].next == if i + 1 < |nodes| then nodes[i + 1] else head
      ensures nodes[i].next == head <==> i + 1 == |nodes|
      ensures i + 1 == |nodes| ==> Pop(Model(), win) == Empty
    {
      assert LinkedAt(nodes, i);
    }

    // ----- Opening, closing and pushing

    /** OpenStream; panicked stands for the "already opened" panic. */
    method OpenStream(id: nat) returns (panicked: bool)
      requires Valid()
      modifies this, nodes
      ensures panicked <==> id in old(streams)
      ensures Valid() && Model() == if panicked then old(Model()) else Open(old(Model()), id)
    {
      hide Circular, Names, SchedOk, QueuesAt;
      if id in streams {
        return true;
      }
      panicked := false;
      var q := new WriteQueue();
      OpenOk(Model(), id);
      Link(q);
      AddNames(order, nodes, streams, queues, id, q);
      var h := if head == null then q else head;
      Commit(streams[id := q], h, order + [id], nodes + [q], queues[id := []]);
    }

    /** The new links, and the queues they stand for. */
    method Commit(streams': map<nat, WriteQueue>, h: WriteQueue?,
                  ghost order': seq<nat>, ghost nodes': seq<WriteQueue>, ghost queues': map<nat, seq<Request>>)
      requires Circular(nodes') && Names(order', nodes', streams') && QueuesAt(order', nodes', queues')
      requires h == (if nodes' == [] then null else nodes'[0])
      requires queues'.Keys == streams'.Keys && SchedOk(Sched(control.s, order', queues'))
      requires control !in nodes'
      modifies this
      ensures Valid() && Model() == Sched(control.s, order', queues')
    {
      streams := streams';
      SetHead(h, order', nodes', queues');
    }

    /** Inserting a queue before the head, that is, at the end. */
    method Link(q: WriteQueue)
      requires Circular(nodes) && head == (if nodes == [] then null else nodes[0]) && q !in nodes
      modifies nodes`prev, nodes`next, q`prev, q`next
      ensures Circular(nodes + [q])
    {
      if head == null {
        q.next, q.prev := q, q;
        assert LinkedAt([q], 0);
        assert nodes + [q] == [q];
      } else {
        ghost var n := |nodes|;
        assert LinkedAt(nodes, 0) && LinkedAt(nodes, n - 1);
        q.prev := head.prev;
        q.next := head;
        q.prev.next := q;
        q.next.prev := q;
        ghost var all := nodes + [q];
        forall i | 0 <= i < |all|
          ensures LinkedAt(all, i)
        {
          if i < n {
            assert old(LinkedAt(nodes, i));
          }
        }
      }
    }

    method CloseStream(id: nat)
      requires Valid()
      modifies this, nodes
      ensures Valid() && Model() == Close(old(Model()), id)
    {
      if id !in streams {
        return;
      }
      ghost var k :| 0 <= k < |order| && order[k] == id;
      ClosedModel(Model(), id, k);
      CloseAt(streams[id], id, k);
    }

    method CloseAt(q: WriteQueue, id: nat, ghost k: nat)
      requires Valid() && k < |nodes| && q == nodes[k] && order[k] == id
      requires SchedOk(Sched(control.s, RemoveAt(order, k), queues - {id}))
      modifies this, nodes
      ensures Valid() && Model() == Sched(control.s, RemoveAt(old(order), k), old(queues) - {id})
    {
      RemoveNames(order, nodes, streams, queues, id, k);
      ghost var order', nodes' := RemoveAt(order, k), RemoveAt(nodes, k);
      Unlink(q, k);
      Commit(streams - {id}, head, order', nodes', queues - {id});
    }

    /** Taking the queue at position k out of the ring. */
    method Unlink(q: WriteQueue, ghost k: nat)
      requires k < |nodes| && Circular(nodes) && head == nodes[0] && q == nodes[k]
      modifies this`head, nodes`prev, nodes`next
      ensures Circular(RemoveAt(nodes, k))
      ensures head == (if |nodes| == 1 then null else RemoveAt(nodes, k)[0])
    {
      assert LinkedAt(nodes, k);
      if q.next == q {
        head := null;
      } else {
        q.prev.next := q.next;
        q.next.prev := q.prev;
        RemovedLinks(k);
        if head == q {
          head := q.next;
        }
      }
    }

    twostate lemma RemovedLinks(k: nat)
      requires old(Circular(nodes)) && |nodes| > 1 && k < |nodes| && nodes == old(nodes)
      requires forall i :: 0 <= i < |nodes| ==>
                 && nodes[i].next == (if i == PrevIndex(k, |nodes|) then old(nodes[k].next) else old(nodes[i].next))
                 && nodes[i].prev == (if i == NextIndex(k, |nodes|) then old(nodes[k].prev) else old(nodes[i].prev))
      ensures Circular(RemoveAt(nodes, k))
    {
      var rest, n := RemoveAt(nodes, k), |nodes|;
      assert old(LinkedAt(nodes, k));
      forall i | 0 <= i < |rest|
        ensures LinkedAt(rest, i)
      {
        var j := if i < k then i else i + 1;
        assert old(LinkedAt(nodes, j));
      }
    }

    /** Push. */
    method PushFrame(wr: Request) returns (panicked: bool)
      requires Valid() && wr.Ok()
      modifies this`queues, control`s, nodes`s
      ensures panicked <==> wr.DataSize() > 0 && wr.StreamID() !in old(streams)
      ensures Valid() && Model() == if panicked then old(Model()) else Push(old(Model()), wr)
    {
      hide Circular, SchedOk;
      if wr.IsControl() || wr.StreamID() !in streams {
        panicked := wr.DataSize() > 0;
        if !panicked {
          PushOk(Model(), wr);
          control.s := control.s + [wr];
        }
        return;
      }
      panicked := false;
      PushOk(Model(), wr);
      ghost var k :| 0 <= k < |order| && order[k] == wr.StreamID();
      PushStream(streams[wr.StreamID()], k, wr);
    }

    method PushStream(q: WriteQueue, ghost k: nat, wr: Request)
      requires Valid() && k < |nodes| && q == nodes[k]
      requires SchedOk(Model().(queues := queues[order[k] := q.s + [wr]]))
      modifies this`queues, q`s
      ensures Valid() && Model() == old(Model()).(queues := old(queues)[order[k] := old(q.s) + [wr]])
    {
      q.s := q.s + [wr];
      queues := queues[order[k] := q.s];
      assert Circular(nodes) && Holds();
      hide Circular, Names, QueuesAt, SchedOk;
    }

    /** Serving the queue at position i of the ring, if it can send and no queue before it can. */
    method ServeQueue(q: WriteQueue, ghost i: nat, win: Windows) returns (wr: Option<Request>, win': Windows)
      requires Valid() && WindowsFor(Model(), win) && control.s == [] && i < |nodes| && q == nodes[i]
      requires i <= FirstReady(Model(), win, 0)
      modifies this`head, this`order, this`nodes, this`queues, q`s
      ensures Valid()
      ensures wr.None? ==> i < FirstReady(old(Model()), win, 0) && Model() == old(Model()) && win' == win
      ensures wr.None? ==> nodes == old(nodes) && head == old(head)
      ensures wr.Some? ==> Pop(old(Model()), win) == Served(wr.value, Model(), win')
    {
      ghost var m := Model();
      ghost var rest;
      wr, win', rest := TryQueue(q, i, win);
      if wr.Some? {
        PopAt(m, win, i);
        Finish(q, i, rest);
      }
    }

    /** One step of the walk: the queue at position i of the ring. */
    method TryQueue(q: WriteQueue, ghost i: nat, win: Windows)
      returns (wr: Option<Request>, win': Windows, ghost rest: seq<Request>)
      requires Valid() && WindowsFor(Model(), win) && i < |nodes| && q == nodes[i]
      modifies q`s
      ensures wr.Some? <==> CanSend(old(Model()), win, order[i])
      ensures wr.None? ==> Valid() && Model() == old(Model()) && win' == win
      ensures wr.Some? ==>
                var r := ConsumeHead(queues[order[i]], MAX_INT32, win);
                && wr == Some(r.frame) && win' == r.win && rest == r.rest
                && Circular(nodes) && Names(order, nodes, streams) && control.s == old(control.s)
                && QueuesAt(order, nodes, queues[order[i] := rest])
    {
      wr, win' := q.ConsumeUpTo(MAX_INT32, win);
      rest := q.s;
    }

    /** The stream at position i has been served: the next one is the new head. */
    method Finish(q: WriteQueue, ghost i: nat, ghost rest: seq<Request>)
      requires Circular(nodes) && Names(order, nodes, streams) && control !in nodes
      requires i < |nodes| && q == nodes[i] && queues.Keys == streams.Keys
      requires QueuesAt(order, nodes, queues[order[i] := rest])
      requires SchedOk(Sched(control.s, Rotate(order, i), queues[order[i] := rest]))
      modifies this`head, this`order, this`nodes, this`queues
      ensures Valid() && Model() == Sched(control.s, Rotate(old(order), i), old(queues)[old(order)[i] := rest])
    {
      Rotation(order, nodes, streams, queues[order[i] := rest], i);
      SetHead(q.next, Rotate(order, i), Rotate(nodes, i), queues[order[i] := rest]);
    }

    method SetHead(h: WriteQueue?, ghost order': seq<nat>, ghost nodes': seq<WriteQueue>, ghost queues': map<nat, seq<Request>>)
      requires Circular(nodes') && Names(order', nodes', streams) && QueuesAt(order', nodes', queues')
      requires h == (if nodes' == [] then null else nodes'[0])
      requires queues'.Keys == streams.Keys && SchedOk(Sched(control.s, order', queues'))
      requires control !in nodes'
      modifies this`head, this`order, this`nodes, this`queues
      ensures Valid() && Model() == Sched(control.s, order', queues') && nodes == nodes'
    {
      head, order, nodes, queues := h, order', nodes', queues';
    }
  }

  lemma AddNames(order: seq<nat>, nodes: seq<WriteQueue>, streams: map<nat, WriteQueue>, queues: map<nat, seq<Request>>, id: nat, q: WriteQueue)
    requires Names(order, nodes, streams) && QueuesAt(order, nodes, queues) && id !in streams && q.s == []
    ensures Names(order + [id], nodes + [q], streams[id := q])
    ensures QueuesAt(order + [id], nodes + [q], queues[id := []])
  {
  }

  function RemoveAt<T>(s: seq<T>, k: nat): (r: seq<T>)
    requires k < |s|
    ensures |r| == |s| - 1
    ensures forall i :: 0 <= i < |r| ==> r[i] == s[if i < k then i else i + 1]
  {
    s[..k] + s[k + 1..]
  }

  lemma {:induction false} WithoutAt(order: seq<nat>, id: nat, k: nat)
    requires Distinct(order) && k < |order| && order[k] == id
    ensures Without(order, id) == RemoveAt(order, k)
  {
    if k == 0 {
      WithoutNone(order[1..], id);
    } else {
      WithoutAt(order[1..], id, k - 1);
    }
  }

  lemma ClosedModel(s: Sched, id: nat, k: nat)
    requires SchedOk(s) && k < |s.order| && s.order[k] == id
    ensures Close(s, id) == Sched(s.control, RemoveAt(s.order, k), s.queues - {id}) && SchedOk(Close(s, id))
  {
    CloseOk(s, id);
    WithoutAt(s.order, id, k);
  }

  lemma {:induction false} WithoutNone(order: seq<nat>, id: nat)
    requires id !in order
    ensures Without(order, id) == order
  {
    if order != [] {
      WithoutNone(order[1..], id);
    }
  }

  lemma RemoveNames(order: seq<nat>, nodes: seq<WriteQueue>, streams: map<nat, WriteQueue>, queues: map<nat, seq<Request>>, id: nat, k: nat)
    requires Names(order, nodes, streams) && QueuesAt(order, nodes, queues) && k < |order| && order[k] == id
    ensures Names(RemoveAt(order, k), RemoveAt(nodes, k), streams - {id})
    ensures QueuesAt(RemoveAt(order, k), RemoveAt(nodes, k), queues - {id})
    ensures forall q :: q in RemoveAt(nodes, k) ==> q in nodes
  {
    var order' := RemoveAt(order, k);
    forall x | x in streams && x != id
      ensures x in order'
    {
      var j :| 0 <= j < |order| && order[j] == x;
      assert order'[if j < k then j else j - 1] == x;
    }
  }

  /** The nodes hold the queues of the streams in order. */
  ghost predicate QueuesAt(order: seq<nat>, nodes: seq<WriteQueue>, queues: map<nat, seq<Request>>)
    reads nodes`s
  {
    && |order| == |nodes|
    && forall i :: 0 <= i < |nodes| ==> order[i] in queues && nodes[i].s == queues[order[i]]
  }

  lemma Rotation(order: seq<nat>, nodes: seq<WriteQueue>, streams: map<nat, WriteQueue>, queues: map<nat, seq<Request>>, i: nat)
    requires Circular(nodes) && Names(order, nodes, streams) && QueuesAt(order, nodes, queues) && i < |nodes|
    ensures Circular(Rotate(nodes, i)) && Names(Rotate(order, i), Rotate(nodes, i), streams)
    ensures QueuesAt(Rotate(order, i), Rotate(nodes, i), queues)
    ensures nodes[i].next == Rotate(nodes, i)[0]
    ensures forall q :: q in Rotate(nodes, i) ==> q in nodes
  {
    CircularRotates(nodes, i);
    NamesRotate(order, nodes, streams, i);
    QueuesRotate(order, nodes, queues, i);
    RotatedHead(nodes, i);
    assert LinkedAt(nodes, i);
  }

  lemma QueuesRotate(order: seq<nat>, nodes: seq<WriteQueue>, queues: map<nat, seq<Request>>, k: nat)
    requires QueuesAt(order, nodes, queues) && k < |nodes|
    ensures QueuesAt(Rotate(order, k), Rotate(nodes, k), queues)
    ensures forall q :: q in Rotate(nodes, k) ==> q in nodes
  {
    RotateAt(order, k);
    RotateAt(nodes, k);
  }

  lemma RotatedHead(nodes: seq<WriteQueue>, i: nat)
    requires i < |nodes|
    ensures Rotate(nodes, i)[0] == nodes[NextIndex(i, |nodes|)]
  {
    RotateAt(nodes, i);
  }

  lemma PopAt(s: Sched, win: Windows, i: nat)
    requires SchedOk(s) && WindowsFor(s, win) && s.control == [] && i < |s.order| && CanSend(s, win, s.order[i])
    requires i <= FirstReady(s, win, 0)
    ensures var r := ConsumeHead(s.queues[s.order[i]], MAX_INT32, win);
            var s' := Sched([], Rotate(s.order, i), s.queues[s.order[i] := r.rest]);
            Pop(s, win) == Served(r.frame, s', r.win) && SchedOk(s')
  {
    PopOk(s, win);
    assert FirstReady(s, win, 0) == i;
  }
}
