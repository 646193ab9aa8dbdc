/** The round-robin write scheduler: what it does to its queues, and what follows for every run
    (h2_bundle.go, roundRobinWriteScheduler). */
module RoundRobins {
  import opened Foundations
  import opened WriteQueues

  /** Control frames, the open streams in the order they will be served, and their queues. */
  datatype Sched = Sched(control: seq<Request>, order: seq<nat>, queues: map<nat, seq<Request>>)

  predicate Distinct(order: seq<nat>) {
    forall i, j :: 0 <= i < j < |order| ==> order[i] != order[j]
  }

  predicate SchedOk(s: Sched) {
    && Distinct(s.order)
    && (forall i :: 0 <= i < |s.order| ==> s.order[i] in s.queues)
    && (forall id :: id in s.queues ==> id in s.order && StreamQueue(s.queues[id], id))
    && (forall i :: 0 <= i < |s.control| ==> s.control[i].DataSize() == 0)
  }

  /** The requests queued for a stream are for that stream. */
  predicate StreamQueue(q: seq<Request>, id: nat) {
    forall i :: 0 <= i < |q| ==> q[i].stream == Some(id)
  }

  /** Every open stream has a send window. */
  predicate WindowsFor(s: Sched, win: Windows) {
    forall id :: id in s.queues ==> id in win.streams
  }

  // ----- The operations

  /** OpenStream; the caller opens a stream once. */
  function Open(s: Sched, id: nat): Sched
    requires id !in s.queues
  {
    s.(order := s.order + [id], queues := s.queues[id := []])
  }

  function Without(order: seq<nat>, id: nat): (r: seq<nat>)
    ensures forall x :: x in r <==> x in order && x != id
  {
    if order == [] then []
    else if order[0] == id then Without(order[1..], id)
    else [order[0]] + Without(order[1..], id)
  }

  /** CloseStream. */
  function Close(s: Sched, id: nat): Sched {
    if id !in s.queues then s
    else s.(order := Without(s.order, id), queues := s.queues - {id})
  }

  /** Push; DATA is only pushed on an open stream. */
  function Push(s: Sched, wr: Request): Sched
    requires wr.DataSize() > 0 ==> wr.stream.Some? && wr.stream.value in s.queues
  {
    if wr.IsControl() || wr.StreamID() !in s.queues then s.(control := s.control + [wr])
    else s.(queues := s.queues[wr.StreamID() := s.queues[wr.StreamID()] + [wr]])
  }

  predicate CanSend(s: Sched, win: Windows, id: nat)
    requires SchedOk(s) && WindowsFor(s, win)
  {
    id in s.queues && s.queues[id] != [] && Sendable(s.queues[id], MAX_INT32, win)
  }

  /** The first position from i on of a stream that can send, or the number of streams. */
  function FirstReady(s: Sched, win: Windows, i: nat): (k: nat)
    requires SchedOk(s) && WindowsFor(s, win) && i <= |s.order|
    ensures i <= k <= |s.order|
    ensures k < |s.order| ==> CanSend(s, win, s.order[k])
    ensures forall j :: i <= j < k ==> !CanSend(s, win, s.order[j])
    decreases |s.order| - i
  {
    if i == |s.order| || CanSend(s, win, s.order[i]) then i else FirstReady(s, win, i + 1)
  }

  datatype PopResult = Empty | Served(frame: Request, sched: Sched, win: Windows)

  function Rotate<T>(order: seq<T>, k: nat): (r: seq<T>)
    requires k < |order|
    ensures |r| == |order|
  {
    order[k + 1..] + order[..k + 1]
  }

  lemma RotateAt<T>(order: seq<T>, k: nat)
    requires k < |order|
    ensures forall i :: 0 <= i < |order| ==>
              Rotate(order, k)[i] == order[if i + k + 1 < |order| then i + k + 1 else i + k + 1 - |order|]
  {
  }

  /** Pop: control frames first, then the streams in turn. */
  function Pop(s: Sched, win: Windows): PopResult
    requires SchedOk(s) && WindowsFor(s, win)
  {
    if s.control != [] then Served(s.control[0], s.(control := s.control[1..]), win)
    else
      var k := FirstReady(s, win, 0);
      if k == |s.order| then Empty
      else
        var id := s.order[k];
        var r := ConsumeHead(s.queues[id], MAX_INT32, win);
        Served(r.frame, s.(order := Rotate(s.order, k), queues := s.queues[id := r.rest]), r.win)
  }

  // ----- Every operation keeps the scheduler in order

  lemma {:induction false} WithoutDistinct(order: seq<nat>, id: nat)
    requires Distinct(order)
    ensures Distinct(Without(order, id))
  {
    if order != [] {
      WithoutDistinct(order[1..], id);
      assert order[0] !in order[1..];
      assert order[0] !in Without(order[1..], id);
    }
  }

  lemma OpenOk(s: Sched, id: nat)
    requires SchedOk(s) && id !in s.queues
    ensures SchedOk(Open(s, id))
  {
  }

  lemma CloseOk(s: Sched, id: nat)
    requires SchedOk(s)
    ensures SchedOk(Close(s, id))
  {
    WithoutDistinct(s.order, id);
    var rest := Without(s.order, id);
    assert forall i :: 0 <= i < |rest| ==> rest[i] in rest;
  }

  lemma PushOk(s: Sched, wr: Request)
    requires SchedOk(s) && (wr.DataSize() > 0 ==> wr.stream.Some? && wr.stream.value in s.queues)
    ensures SchedOk(Push(s, wr))
  {
  }

  lemma RotateOk(order: seq<nat>, k: nat)
    requires Distinct(order) && k < |order|
    ensures Distinct(Rotate(order, k)) && forall x :: x in Rotate(order, k) <==> x in order
  {
    assert order == order[..k + 1] + order[k + 1..];
  }

  /** A frame with data is the first piece of its queue, and as large as the windows, the frame size
      and the request allow. */
  predicate PieceOf(frame: Request, q: seq<Request>, win: Windows) {
    && q != [] && q[0].write.Data? && frame.write.Data? && frame.write.p <= q[0].write.p && frame.stream.Some?
    && frame.stream.value in win.streams
    && var size, stream := |frame.write.p|, win.streams[frame.stream.value];
       size == |q[0].write.p| || size == win.conn || size == stream || size == win.maxFrameSize || size == MAX_INT32
  }

  /** Pop serves the first stream in turn that can send, and finds nothing only if none can. */
  lemma PopOk(s: Sched, win: Windows)
    requires SchedOk(s) && WindowsFor(s, win)
    ensures var r := Pop(s, win);
            match r
            case Empty => s.control == [] && forall id :: !CanSend(s, win, id)
            case Served(frame, s', win') =>
              && SchedOk(s') && s'.queues.Keys == s.queues.Keys && WindowsFor(s', win') && Spent(win, win', frame)
              && (s.control != [] ==> frame == s.control[0])
              && (frame.DataSize() > 0 ==>
                    && frame.DataSize() <= win.maxFrameSize && frame.stream.Some? && frame.stream.value in s.queues
                    && PieceOf(frame, s.queues[frame.stream.value], win))
  {
    var r := Pop(s, win);
    if s.control != [] {
      assert s.control[0].DataSize() == 0;
    } else {
      var k := FirstReady(s, win, 0);
      if k < |s.order| {
        PopStreamOk(s, win, k);
        hide SchedOk, PieceOf;
      } else {
        forall id | id in s.queues
          ensures !CanSend(s, win, id)
        {
          var j :| 0 <= j < |s.order| && s.order[j] == id;
        }
      }
    }
  }

  lemma PopStreamOk(s: Sched, win: Windows, k: nat)
    requires SchedOk(s) && WindowsFor(s, win) && k < |s.order| && CanSend(s, win, s.order[k])
    ensures var r := ConsumeHead(s.queues[s.order[k]], MAX_INT32, win);
            var s' := s.(order := Rotate(s.order, k), queues := s.queues[s.order[k] := r.rest]);
            && SchedOk(s') && WindowsFor(s', r.win) && Spent(win, r.win, r.frame) && r.frame.stream == Some(s.order[k])
            && (r.frame.DataSize() > 0 ==> PieceOf(r.frame, s.queues[s.order[k]], win))
  {
    var id := s.order[k];
    ConsumeHeadExact(s.queues[id], MAX_INT32, win);
    StreamQueueKept(s.queues[id], id, win);
    RotatedOk(s, k, ConsumeHead(s.queues[id], MAX_INT32, win).rest);
  }

  lemma RotatedOk(s: Sched, k: nat, rest: seq<Request>)
    requires SchedOk(s) && k < |s.order| && StreamQueue(rest, s.order[k])
    ensures SchedOk(s.(order := Rotate(s.order, k), queues := s.queues[s.order[k] := rest]))
  {
    RotateOk(s.order, k);
    var order := Rotate(s.order, k);
    forall i | 0 <= i < |order|
      ensures order[i] in s.queues
    {
      assert order[i] in order;
      var j :| 0 <= j < |s.order| && s.order[j] == order[i];
    }
  }

  lemma StreamQueueKept(q: seq<Request>, id: nat, win: Windows)
    requires QueueOk(q, win) && Sendable(q, MAX_INT32, win) && StreamQueue(q, id)
    ensures StreamQueue(ConsumeHead(q, MAX_INT32, win).rest, id)
  {
    ConsumeExact(q[0], MAX_INT32, win);
  }

  // ----- Every run

  /** What a caller does to the scheduler; each Pop finds the windows of that moment. */
  datatype Op = OpenStream(id: nat) | CloseStream(id: nat) | PushFrame(wr: Request) | PopFrame(win: Windows)

  predicate Legal(s: Sched, op: Op)
    requires SchedOk(s)
  {
    match op
    case OpenStream(id) => id !in s.queues
    case CloseStream(id) => true
    case PushFrame(wr) => wr.DataSize() > 0 ==> wr.stream.Some? && wr.stream.value in s.queues
    case PopFrame(win) => WindowsFor(s, win)
  }

  function After(s: Sched, op: Op): (s': Sched)
    requires SchedOk(s) && Legal(s, op)
    ensures SchedOk(s')
  {
    match op
    case OpenStream(id) => OpenOk(s, id); Open(s, id)
    case CloseStream(id) => CloseOk(s, id); Close(s, id)
    case PushFrame(wr) => PushOk(s, wr); Push(s, wr)
    case PopFrame(win) => PopOk(s, win); var r := Pop(s, win); if r.Empty? then s else r.sched
  }

  /** The frame a Pop returns for the stream, if it does. */
  predicate Serves(s: Sched, op: Op, id: nat)
    requires SchedOk(s) && Legal(s, op)
  {
    op.PopFrame? && Pop(s, op.win).Served? && Pop(s, op.win).frame.stream == Some(id)
  }

  predicate LegalRun(s: Sched, ops: seq<Op>)
    requires SchedOk(s)
    decreases |ops|
  {
    ops == [] || (Legal(s, ops[0]) && LegalRun(After(s, ops[0]), ops[1..]))
  }

  // ----- Order: what is popped for a stream is a prefix of what was pushed

  /** What was pushed and popped since the stream was opened, and the same for control frames. */
  datatype History = History(pushed: map<nat, seq<Item>>, popped: map<nat, seq<Item>>,
                             controlPushed: seq<Request>, controlPopped: seq<Request>)

  function Record(h: History, s: Sched, op: Op): History
    requires SchedOk(s) && Legal(s, op) && h.pushed.Keys == h.popped.Keys == s.queues.Keys
  {
    match op
    case OpenStream(id) => h.(pushed := h.pushed[id := []], popped := h.popped[id := []])
    case CloseStream(id) => h.(pushed := h.pushed - {id}, popped := h.popped - {id})
    case PushFrame(wr) =>
      if wr.IsControl() || wr.StreamID() !in s.queues then h.(controlPushed := h.controlPushed + [wr])
      else h.(pushed := h.pushed[wr.StreamID() := h.pushed[wr.StreamID()] + Items(wr)])
    case PopFrame(win) =>
      var r := Pop(s, win);
      if r.Empty? then h
      else if s.control != [] then h.(controlPopped := h.controlPopped + [r.frame])
      else
        var id := s.order[FirstReady(s, win, 0)];
        h.(popped := h.popped[id := h.popped[id] + Items(r.frame)])
  }

  /** Popped and still queued is what was pushed, in the same order. */
  ghost predicate Faithful(h: History, s: Sched) {
    && h.pushed.Keys == h.popped.Keys == s.queues.Keys
    && (forall id :: id in s.queues ==> h.popped[id] + QueueItems(s.queues[id]) == h.pushed[id])
    && h.controlPopped + s.control == h.controlPushed
  }

  lemma FaithfulStep(h: History, s: Sched, op: Op)
    requires SchedOk(s) && Legal(s, op) && Faithful(h, s)
    ensures Faithful(Record(h, s, op), After(s, op))
  {
    match op
    case OpenStream(id) =>
    case CloseStream(id) =>
    case PushFrame(wr) => PushFaithful(h, s, wr);
    case PopFrame(win) => PopFaithful(h, s, win);
  }

  lemma PushFaithful(h: History, s: Sched, wr: Request)
    requires SchedOk(s) && Legal(s, PushFrame(wr)) && Faithful(h, s)
    ensures Faithful(Record(h, s, PushFrame(wr)), Push(s, wr))
  {
    if wr.IsControl() || wr.StreamID() !in s.queues {
      assert h.controlPopped + (s.control + [wr]) == (h.controlPopped + s.control) + [wr];
    } else {
      var id := wr.StreamID();
      PushedLast(h.popped[id], s.queues[id], wr);
    }
  }

  lemma PushedLast(popped: seq<Item>, q: seq<Request>, wr: Request)
    ensures popped + QueueItems(q + [wr]) == (popped + QueueItems(q)) + Items(wr)
  {
    QueueItemsAppend(q, [wr]);
    assert QueueItems([wr]) == Items(wr) + QueueItems([]);
    ItemsAssociative(popped, QueueItems(q), Items(wr));
  }

  lemma PopFaithful(h: History, s: Sched, win: Windows)
    requires SchedOk(s) && WindowsFor(s, win) && Faithful(h, s)
    ensures Faithful(Record(h, s, PopFrame(win)), After(s, PopFrame(win)))
  {
    if s.control != [] {
      assert (h.controlPopped + [s.control[0]]) + s.control[1..] == h.controlPopped + s.control;
    } else if Pop(s, win).Served? {
      PopStreamFaithful(h, s, win, FirstReady(s, win, 0));
    }
  }

  lemma PopStreamFaithful(h: History, s: Sched, win: Windows, k: nat)
    requires SchedOk(s) && WindowsFor(s, win) && Faithful(h, s) && s.control == [] && k == FirstReady(s, win, 0) < |s.order|
    ensures Faithful(Record(h, s, PopFrame(win)), After(s, PopFrame(win)))
  {
    var id := s.order[k];
    var r := ConsumeHead(s.queues[id], MAX_INT32, win);
    PoppedNext(h.popped[id], s.queues[id], win);
    assert Record(h, s, PopFrame(win)) == h.(popped := h.popped[id := h.popped[id] + Items(r.frame)]);
    assert After(s, PopFrame(win)) == s.(order := Rotate(s.order, k), queues := s.queues[id := r.rest]);
  }

  lemma PoppedNext(popped: seq<Item>, q: seq<Request>, win: Windows)
    requires QueueOk(q, win) && Sendable(q, MAX_INT32, win)
    ensures var r := ConsumeHead(q, MAX_INT32, win);
            (popped + Items(r.frame)) + QueueItems(r.rest) == popped + QueueItems(q)
  {
    ConsumeHeadExact(q, MAX_INT32, win);
    var r := ConsumeHead(q, MAX_INT32, win);
    ItemsAssociative(popped, Items(r.frame), QueueItems(r.rest));
  }

  ghost predicate FaithfulRun(h: History, s: Sched, ops: seq<Op>)
    requires SchedOk(s) && LegalRun(s, ops) && h.pushed.Keys == h.popped.Keys == s.queues.Keys
    decreases |ops|
  {
    Faithful(h, s) && (ops != [] ==> FaithfulStepKeys(h, s, ops[0]) && FaithfulRun(Record(h, s, ops[0]), After(s, ops[0]), ops[1..]))
  }

  ghost predicate FaithfulStepKeys(h: History, s: Sched, op: Op)
    requires SchedOk(s) && Legal(s, op) && h.pushed.Keys == h.popped.Keys == s.queues.Keys
  {
    var h' := Record(h, s, op);
    h'.pushed.Keys == h'.popped.Keys == After(s, op).queues.Keys
  }

  /** In every state of every run, for every open stream, what was popped is a prefix of what was
      pushed and the rest is queued; control frames come out in the order they went in. */
  lemma {:induction false} OrderKept(h: History, s: Sched, ops: seq<Op>)
    requires SchedOk(s) && LegalRun(s, ops) && Faithful(h, s)
    ensures FaithfulRun(h, s, ops)
    decreases |ops|
  {
    if ops != [] {
      FaithfulStep(h, s, ops[0]);
      OrderKept(Record(h, s, ops[0]), After(s, ops[0]), ops[1..]);
    }
  }

  // ----- Fairness

  /** The number of streams ahead of this one. */
  function Rank(order: seq<nat>, id: nat): (i: nat)
    requires id in order
    ensures i < |order| && order[i] == id
  {
    if order[0] == id then 0 else 1 + Rank(order[1..], id)
  }

  lemma RankUnique(order: seq<nat>, id: nat, i: nat)
    requires Distinct(order) && i < |order| && order[i] == id
    ensures Rank(order, id) == i
  {
  }

  lemma {:induction false} RankWithout(order: seq<nat>, id: nat, other: nat)
    requires id in order && other != id
    ensures Rank(Without(order, other), id) <= Rank(order, id)
  {
    if order[0] != id {
      RankWithout(order[1..], id, other);
    }
  }

  /** A stream that can send is served by a Pop, or moves ahead; nothing else moves it back. */
  lemma TurnComes(s: Sched, op: Op, id: nat)
    requires SchedOk(s) && Legal(s, op) && id in s.queues && op != CloseStream(id)
    requires op.PopFrame? ==> s.control == [] && CanSend(s, op.win, id)
    ensures id in After(s, op).queues
    ensures op.PopFrame? ==> Serves(s, op, id) || Rank(After(s, op).order, id) < Rank(s.order, id)
    ensures !op.PopFrame? ==> Rank(After(s, op).order, id) <= Rank(s.order, id)
  {
    match op
    case OpenStream(x) =>
      assert (s.order + [x])[Rank(s.order, id)] == id;
      RankUnique(s.order + [x], id, Rank(s.order, id));
    case CloseStream(x) => RankWithout(s.order, id, x);
    case PushFrame(wr) =>
    case PopFrame(win) =>
      PopTurn(s, win, id);
  }

  lemma PopTurn(s: Sched, win: Windows, id: nat)
    requires SchedOk(s) && WindowsFor(s, win) && s.control == [] && CanSend(s, win, id)
    ensures Pop(s, win).Served? && id in Pop(s, win).sched.order
    ensures Pop(s, win).frame.stream == Some(id) || Rank(Pop(s, win).sched.order, id) < Rank(s.order, id)
  {
    var k, i := FirstReady(s, win, 0), Rank(s.order, id);
    assert k <= i;
    PopServes(s, win, k);
    RotateOk(s.order, k);
    if k < i {
      RankRotate(s.order, id, k);
    }
  }

  lemma PopServes(s: Sched, win: Windows, k: nat)
    requires SchedOk(s) && WindowsFor(s, win) && s.control == [] && k == FirstReady(s, win, 0) < |s.order|
    ensures var r := Pop(s, win); r.Served? && r.sched.order == Rotate(s.order, k) && r.frame.stream == Some(s.order[k])
  {
    ConsumeHeadExact(s.queues[s.order[k]], MAX_INT32, win);
  }

  lemma RankRotate(order: seq<nat>, id: nat, k: nat)
    requires Distinct(order) && id in order && k < Rank(order, id)
    ensures id in Rotate(order, k) && Rank(Rotate(order, k), id) < Rank(order, id)
  {
    var i := Rank(order, id);
    RotateOk(order, k);
    assert Rotate(order, k)[i - k - 1] == id;
    RankUnique(Rotate(order, k), id, i - k - 1);
  }

  function Pops(ops: seq<Op>): nat {
    if ops == [] then 0 else (if ops[0].PopFrame? then 1 else 0) + Pops(ops[1..])
  }

  /** The stream stays open and can send whenever a Pop comes, and is never served. */
  ghost predicate Starved(s: Sched, ops: seq<Op>, id: nat)
    requires SchedOk(s) && LegalRun(s, ops)
    decreases |ops|
  {
    ops == [] ||
    (&& ops[0] != CloseStream(id)
     && (ops[0].PopFrame? ==> s.control == [] && CanSend(s, ops[0].win, id))
     && !Serves(s, ops[0], id)
     && Starved(After(s, ops[0]), ops[1..], id))
  }

  /** Without control frames, a stream that stays sendable is passed over at most once by each
      stream ahead of it, whatever streams are opened and closed in the meantime. */
  lemma {:induction false} ServedInTurn(s: Sched, ops: seq<Op>, id: nat)
    requires SchedOk(s) && LegalRun(s, ops) && id in s.queues && Starved(s, ops, id)
    ensures Pops(ops) <= Rank(s.order, id) < |s.order|
    decreases |ops|
  {
    if ops != [] {
      TurnComes(s, ops[0], id);
      ServedInTurn(After(s, ops[0]), ops[1..], id);
    }
  }
}
