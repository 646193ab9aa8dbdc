/** The scheduler of the server: its queues are those of the streams, it counts its control
    frames, and calls only speak of streams there are or were. */
module ServerOutputs {
  import opened Foundations
  import opened WriteQueues
  import opened RoundRobins
  import opened ServerConns
  import opened ServerTables

  // ----- Calls

  ghost predicate TasksOk(t: Table, ts: seq<Task>) {
    forall i :: 0 <= i < |ts| ==> TaskOk(t, ts[i])
  }

  /** Streams that were seen stay seen, and do not come back. */
  lemma SeenStays(t: Table, t': Table, id: nat)
    requires TableOk(t) && TableOk(t') && AllForward(t, t') && Seen(t, id)
    ensures Seen(t', id) && (id !in t.streams ==> id !in t'.streams)
  {
    assert Forward(StateOf(t, id), StateOf(t', id));
    assert id in t'.streams ==> Tracked(t', id);
    assert id in t.streams ==> Tracked(t, id);
  }

  lemma TaskStays(t: Table, t': Table, k: Task)
    requires TableOk(t) && TableOk(t') && AllForward(t, t') && TaskOk(t, k)
    ensures TaskOk(t', k)
  {
    match k
    case Write(wr) => WriterStays(t, t', wr);
    case Start(wr) => WriterStays(t, t', wr);
    case Wrote(wr) => WriterStays(t, t', wr);
    case CloseNow(id) => SeenStays(t, t', id);
    case StreamUpdate(id) => SeenStays(t, t', id);
    case AfterBodyRead(id) => SeenStays(t, t', id);
    case SchedClose(id) => SeenStays(t, t', id);
    case _ =>
  }

  lemma WriterStays(t: Table, t': Table, wr: Request)
    requires TableOk(t) && TableOk(t') && AllForward(t, t') && WriterOk(t, wr)
    ensures WriterOk(t', wr)
  {
    if wr.stream.Some? {
      SeenStays(t, t', wr.stream.value);
    }
  }

  lemma TasksStay(t: Table, t': Table, ts: seq<Task>)
    requires TableOk(t) && TableOk(t') && AllForward(t, t') && TasksOk(t, ts)
    ensures TasksOk(t', ts)
  {
    forall i | 0 <= i < |ts|
      ensures TaskOk(t', ts[i])
    {
      TaskStays(t, t', ts[i]);
    }
  }

  // ----- Queues

  predicate Requests(q: seq<Request>) {
    forall i :: 0 <= i < |q| ==> RequestOk(q[i]) && Queued(q[i])
  }

  /** Control frames are those without a stream, and they are counted; there is a queue for every
      stream and for those about to be closed. */
  ghost predicate OutOk(t: Table, o: Output) {
    && OutputOk(o) && o.sched.queues.Keys == t.streams.Keys + o.closing
    && (forall id :: id in o.closing ==> Seen(t, id) && id != 0 && id !in t.streams)
    && (forall i :: 0 <= i < |o.sched.control| ==> o.sched.control[i].stream.None?) && Requests(o.sched.control)
    && o.queuedControlFrames == |o.sched.control|
    && (forall id :: id in o.sched.queues ==> Requests(o.sched.queues[id]))
  }

  lemma QueuesSeen(t: Table, o: Output)
    requires TableOk(t) && OutOk(t, o)
    ensures forall id :: id in o.sched.queues ==> Seen(t, id) && id != 0
    ensures t.maxPush + 2 !in o.sched.queues
  {
    forall id | id in o.sched.queues
      ensures Seen(t, id) && id != 0
    {
      assert id in t.streams ==> Tracked(t, id);
    }
    assert !Seen(t, t.maxPush + 2);
  }

  /** The table may change as long as the same streams are in it. */
  lemma SameStreams(t: Table, t': Table, o: Output)
    requires TableOk(t) && TableOk(t') && AllForward(t, t') && OutOk(t, o) && t'.streams.Keys == t.streams.Keys
    ensures OutOk(t', o)
  {
    forall id | id in o.closing
      ensures Seen(t', id) && id != 0 && id !in t'.streams
    {
      SeenStays(t, t', id);
    }
  }

  lemma EnqueueOk(t: Table, o: Output, wr: Request)
    requires TableOk(t) && OutOk(t, o) && WriterOk(t, wr) && Queued(wr) && !Ignored(t, wr)
    ensures wr.DataSize() > 0 ==> wr.stream.value in o.sched.queues
    ensures OutOk(t, Enqueue(o, wr))
  {
    if wr.stream.Some? {
      assert wr.stream.value in t.streams;
    }
    PushOk(o.sched, wr);
  }

  lemma OpenQueueOk(t: Table, t': Table, o: Output, id: nat, window: int)
    requires TableOk(t) && TableOk(t') && AllForward(t, t') && OutOk(t, o) && id !in o.sched.queues
    requires t'.streams.Keys == t.streams.Keys + {id}
    ensures OutOk(t', OpenQueue(o, id, window))
  {
    hide TableOk, AllForward, SchedOk;
    OpenOk(o.sched, id);
    forall x | x in o.closing
      ensures Seen(t', x) && x != 0 && x !in t'.streams
    {
      SeenStays(t, t', x);
    }
  }

  lemma ClosingStarts(t: Table, o: Output, id: nat)
    requires TableOk(t) && OutOk(t, o) && id in t.streams
    ensures OutOk(RemoveStream(t, id), o.(closing := o.closing + {id}))
  {
    assert Tracked(t, id);
  }

  lemma CloseQueueOk(t: Table, o: Output, id: nat)
    requires OutOk(t, o) && id !in t.streams
    ensures OutOk(t, CloseQueue(o, id))
  {
    CloseOk(o.sched, id);
  }

  lemma DequeueOk(t: Table, o: Output)
    requires TableOk(t) && OutOk(t, o) && Pop(o.sched, o.win).Served?
    ensures var r := Pop(o.sched, o.win);
            && OutOk(t, Dequeued(o, r)) && WriterOk(t, r.frame) && Queued(r.frame)
            && (r.frame.stream.Some? ==> o.sched.control == [] && r.frame.stream.value in o.sched.queues)
  {
    QueuesSeen(t, o);
    PopOk(o.sched, o.win);
    hide PieceOf, Spent, TableOk, CanSend, SchedOk, Pop;
    if o.sched.control == [] {
      DequeueStream(t, o);
    } else {
      PoppedSched(o);
    }
  }

  lemma PoppedSched(o: Output)
    requires OutputOk(o) && Pop(o.sched, o.win).Served? && o.sched.control != []
    ensures var r := Pop(o.sched, o.win); r.frame == o.sched.control[0] && r.sched == o.sched.(control := o.sched.control[1..])
  {
  }

  lemma DequeueStream(t: Table, o: Output)
    requires OutOk(t, o) && Pop(o.sched, o.win).Served? && o.sched.control == []
    ensures var r := Pop(o.sched, o.win);
            && RequestOk(r.frame) && Queued(r.frame) && r.frame.stream.Some? && r.frame.stream.value in o.sched.queues
            && r.sched.control == [] && forall id :: id in r.sched.queues ==> Requests(r.sched.queues[id])
  {
    hide AsMuchAsFits, QueueItems, Items, Spent, ConsumeHead;
    var id := o.sched.order[FirstReady(o.sched, o.win, 0)];
    ConsumeHeadExact(o.sched.queues[id], MAX_INT32, o.win);
    PoppedRequests(o.sched.queues[id], o.win);
  }

  lemma PoppedRequests(q: seq<Request>, win: Windows)
    requires QueueOk(q, win) && Sendable(q, MAX_INT32, win) && Requests(q)
    ensures var r := ConsumeHead(q, MAX_INT32, win); RequestOk(r.frame) && Queued(r.frame) && Requests(r.rest)
  {
  }
}
