/** The calls come to an end: between two messages only finitely many frames are started
    (h2_bundle.go, the loop of scheduleFrameWrite). A frame written in place takes free bytes of
    the write buffer, a frame in flight ends the loop, and a push that is refused is taken from its
    queue. */
module ServerDrains {
  import opened Foundations
  import opened WriteQueues
  import opened RoundRobins
  import opened ServerConns
  import opened ServerEvents
  import opened ServerLoops
  import opened ServerSteps
  import opened ServerTheorems

  // ----- Pushes that are queued

  function PushesIn(q: seq<Request>): nat {
    if q == [] then 0 else (if q[0].write.PushPromise? then 1 else 0) + PushesIn(q[1..])
  }

  function PushesOf(order: seq<nat>, queues: map<nat, seq<Request>>): nat {
    if order == [] then 0
    else (if order[0] in queues then PushesIn(queues[order[0]]) else 0) + PushesOf(order[1..], queues)
  }

  lemma {:induction false} PushesAppend(q: seq<Request>, more: seq<Request>)
    ensures PushesIn(q + more) == PushesIn(q) + PushesIn(more)
  {
    if q == [] {
      assert q + more == more;
    } else {
      assert (q + more)[1..] == q[1..] + more;
      PushesAppend(q[1..], more);
    }
  }

  lemma {:induction false} PushesOfAppend(a: seq<nat>, b: seq<nat>, queues: map<nat, seq<Request>>)
    ensures PushesOf(a + b, queues) == PushesOf(a, queues) + PushesOf(b, queues)
  {
    if a == [] {
      assert a + b == b;
    } else {
      assert (a + b)[1..] == a[1..] + b;
      PushesOfAppend(a[1..], b, queues);
    }
  }

  lemma PushesOfRotate(order: seq<nat>, queues: map<nat, seq<Request>>, k: nat)
    requires k < |order|
    ensures PushesOf(Rotate(order, k), queues) == PushesOf(order, queues)
  {
    PushesOfAppend(order[k + 1..], order[..k + 1], queues);
    PushesOfAppend(order[..k + 1], order[k + 1..], queues);
    assert order[..k + 1] + order[k + 1..] == order;
  }

  /** One queue changes. */
  lemma {:induction false} PushesOfUpdate(order: seq<nat>, queues: map<nat, seq<Request>>, x: nat, q: seq<Request>)
    requires Distinct(order) && x in queues
    ensures PushesOf(order, queues[x := q]) == PushesOf(order, queues) + (if x in order then PushesIn(q) - PushesIn(queues[x]) else 0)
  {
    if order != [] {
      assert order[0] !in order[1..];
      PushesOfUpdate(order[1..], queues, x, q);
    }
  }

  lemma {:induction false} PushesOfWithout(order: seq<nat>, queues: map<nat, seq<Request>>, x: nat)
    ensures PushesOf(Without(order, x), queues - {x}) <= PushesOf(order, queues)
  {
    if order != [] {
      PushesOfWithout(order[1..], queues, x);
    }
  }

  function PushCall(k: Task): nat {
    if (k.Write? || k.Start?) && k.wr.write.PushPromise? then 1 else 0
  }

  function PushCalls(ts: seq<Task>): nat {
    if ts == [] then 0 else PushCall(ts[0]) + PushCalls(ts[1..])
  }

  lemma {:induction false} PushCallsAppend(ts: seq<Task>, more: seq<Task>)
    ensures PushCalls(ts + more) == PushCalls(ts) + PushCalls(more)
  {
    if ts == [] {
      assert ts + more == more;
    } else {
      assert (ts + more)[1..] == ts[1..] + more;
      PushCallsAppend(ts[1..], more);
    }
  }

  /** The pushes that may still be started. */
  function PushesLeft(s: Conn): nat {
    PushesOf(s.out.sched.order, s.out.sched.queues) + PushCalls(s.inner) + PushCalls(s.outer)
  }

  // ----- The calls that are left

  function Weight(k: Task): nat {
    match k
    case Start(_) => 5
    case Schedule => 8
    case Write(_) => 9
    case GoAwayNow(_) => 9
    case ConnUpdate => 10
    case StreamUpdate(_) => 10
    case AfterBodyRead(_) => 11
    case Reset(_, _) => 17
    case CloseNow(_) => 26
    case Wrote(_) => 35
    case _ => 7
  }

  function Weights(ts: seq<Task>): nat {
    if ts == [] then 0 else Weight(ts[0]) + Weights(ts[1..])
  }

  lemma {:induction false} WeightsAppend(ts: seq<Task>, more: seq<Task>)
    ensures Weights(ts + more) == Weights(ts) + Weights(more)
  {
    if ts == [] {
      assert ts + more == more;
    } else {
      assert (ts + more)[1..] == ts[1..] + more;
      WeightsAppend(ts[1..], more);
    }
  }

  /** A round of the loop costs more than the start of a frame, unless one is in flight. */
  function LoopWeight(s: Conn): nat {
    if !s.inLoop then 0
    else if s.inner == [] then (if s.flags.inFlight.Some? then 1 else 6)
    else if s.inner[0].Start? then 5
    else Weights(s.inner)
  }

  function CallsLeft(s: Conn): nat {
    LoopWeight(s) + Weights(s.outer)
  }

  function CanFly(s: Conn): nat {
    if s.flags.inFlight.Some? then 0 else 1
  }

  /** In this order: free bytes, whether a frame can be sent off, pushes, calls. */
  predicate Closer(s: Conn, s': Conn) {
    || s'.free < s.free
    || (s'.free == s.free && CanFly(s') < CanFly(s))
    || (s'.free == s.free && CanFly(s') == CanFly(s) && PushesLeft(s') < PushesLeft(s))
    || (s'.free == s.free && CanFly(s') == CanFly(s) && PushesLeft(s') == PushesLeft(s) && CallsLeft(s') < CallsLeft(s))
  }

  // ----- Every step comes closer to the end

  /** The calls a call leads to weigh less than it does. */
  lemma PushesWeighLess(s: Conn, k: Task, c: Choice)
    requires Plain(k)
    ensures Weights(Pushes(s, k, c)) + 7 <= Weight(k) || (Pushes(s, k, c) != [] && Weights(Pushes(s, k, c)) < Weight(k))
    ensures PushCalls(Pushes(s, k, c)) == 0
  {
    var ts := Pushes(s, k, c);
    match k
    case Wrote(wr) =>
      WeightsAppend(Finished(s.table, wr), [Schedule]);
      PushCallsAppend(Finished(s.table, wr), [Schedule]);
    case CloseNow(id) => FarewellWeight(RemoveStream(s.table, id), c, id);
    case Reset(id, code) =>
      WeightsAppend([Write(Control(StreamError(id, code)))], [MarkReset(id)]);
      PushCallsAppend([Write(Control(StreamError(id, code)))], [MarkReset(id)]);
      assert ts == [Write(Control(StreamError(id, code)))] + [MarkReset(id)];
    case _ =>
  }

  lemma FarewellWeight(t: Table, c: Choice, id: nat)
    ensures Weights(Farewell(t, c) + [SchedClose(id)]) <= 25 && PushCalls(Farewell(t, c) + [SchedClose(id)]) == 0
  {
    var a := if t.streams == map[] && c.shutdown then [GoAwayNow(0)] else [];
    var b := if c.announce > 0 then [Write(Control(WindowUpdate(c.announce)))] else [];
    WeightsAppend(a, b);
    WeightsAppend(a + b, [SchedClose(id)]);
    PushCallsAppend(a, b);
    PushCallsAppend(a + b, [SchedClose(id)]);
  }

  /** What a call leaves in the queues. */
  lemma QueuesAfter(s: Conn, k: Task, c: Choice)
    requires TaskOk(s.table, k) && s.table.maxPush + 2 !in s.out.sched.queues && Plain(k) && SchedOk(s.out.sched)
    requires s.panic == None && Do(s, k, c).panic == None
    ensures var o, o' := s.out.sched, Do(s, k, c).out.sched;
            PushesOf(o'.order, o'.queues) <= PushesOf(o.order, o.queues) + PushCall(k)
    ensures Do(s, k, c).free == s.free
  {
    hide PushesOf, HalfClosed, RemoveStream, Finished, Farewell, SetStream, NoteHeaders;
    if k.Write? {
      QueuesAfterWrite(s, k.wr);
    } else if k.SchedClose? {
      PushesOfWithout(s.out.sched.order, s.out.sched.queues, k.id);
    }
  }

  lemma QueuesAfterWrite(s: Conn, wr: Request)
    requires RequestOk(wr) && SchedOk(s.out.sched) && DoWrite(s, wr).panic == s.panic == None
    ensures var o, o' := s.out.sched, DoWrite(s, wr).out.sched;
            PushesOf(o'.order, o'.queues) <= PushesOf(o.order, o.queues) + PushCall(Write(wr))
  {
    var o := s.out.sched;
    if wr.stream.Some? && wr.stream.value in o.queues {
      var id := wr.stream.value;
      PushesAppend(o.queues[id], [wr]);
      PushesOfUpdate(o.order, o.queues, id, o.queues[id] + [wr]);
    }
  }

  lemma PlainCloser(s: Conn, c: Choice)
    requires CoreOk(s) && CanStep(s) && Next(s).Some? && Plain(Next(s).value) && Step(s, c).panic == None
    ensures Closer(s, Step(s, c))
  {
    var k, s', ts := Next(s).value, Step(s, c), Pushes(Rest(s), Next(s).value, c);
    DoPushes(Rest(s), k, c);
    PushesWeighLess(Rest(s), k, c);
    QueuesAfter(Rest(s), k, c);
    PushedCloser(s, s', k, ts);
  }

  lemma PushedCloser(s: Conn, s': Conn, k: Task, ts: seq<Task>)
    requires ShapeOk(s) && Next(s) == Some(k) && Plain(k) && Pushed(Rest(s), s', ts) && Front(ts)
    requires Weights(ts) + 7 <= Weight(k) || (ts != [] && Weights(ts) < Weight(k))
    requires PushCalls(ts) == 0 && s'.free == s.free && s'.flags.inFlight == s.flags.inFlight
    requires PushesOf(s'.out.sched.order, s'.out.sched.queues) <= PushesOf(s.out.sched.order, s.out.sched.queues) + PushCall(k)
    ensures Closer(s, s')
  {
    if s.inLoop {
      WeightsAppend(ts, s.inner[1..]);
      PushCallsAppend(ts, s.inner[1..]);
      assert |s.inner| > 1 ==> InnerOk(s.inner, 1);
      assert s'.inner != [] ==> !s'.inner[0].Start?;
    } else {
      WeightsAppend(ts, s.outer[1..]);
      PushCallsAppend(ts, s.outer[1..]);
    }
  }

  lemma IdleCloser(s: Conn, c: Choice)
    requires CoreOk(s) && CanStep(s) && (Next(s) == Some(Schedule) || Next(s) == Some(ClearFlush))
    ensures Closer(s, Step(s, c))
  {
    assert s.inLoop && |s.inner| > 1 ==> InnerOk(s.inner, 1);
    assert !s.inLoop ==> OuterOk(s.outer, 0);
  }

  lemma StartCloser(s: Conn, c: Choice)
    requires CoreOk(s) && CanStep(s) && Next(s).Some? && Next(s).value.Start? && Step(s, c).panic == None
    ensures Closer(s, Step(s, c))
  {
    var wr := Next(s).value.wr;
    OneFrameAtATime(s);
    if wr.write.PushPromise? && !(MayPush(s) && HasPushID(s)) {
      RefusedCloser(s, c, wr);
    }
  }

  /** A push that is refused is gone. */
  lemma RefusedCloser(s: Conn, c: Choice, wr: Request)
    requires CanStep(s) && s.inLoop && Next(s) == Some(Start(wr)) && wr.write.PushPromise? && !(MayPush(s) && HasPushID(s))
    requires Step(s, c).panic == None
    ensures Closer(s, Step(s, c))
  {
    PushCallsAppend([GoAwayNow(0)], s.inner[1..]);
  }

  lemma RoundCloser(s: Conn, c: Choice)
    requires CoreOk(s) && CanStep(s) && Next(s) == None
    ensures Closer(s, Step(s, c))
  {
    var s' := Step(s, c);
    assert s.flags.writingFrameAsync || s.flags.inFlight == None;
    PushCallsTwo(s'.inner);
    if s.flags.writingFrameAsync {
    } else if s.going.needToSend || s.needToSendSettingsAck || Popping(s).Empty? {
    } else if s.out.sched.control == [] {
      PopLeaves(s.out.sched, s.out.win);
    } else {
      var wr := s.out.sched.control[0];
      assert RequestOk(wr) && wr.stream.None?;
      assert s'.inner == [Start(wr)];
      assert s'.out.sched == s.out.sched.(control := s.out.sched.control[1..]);
    }
  }

  lemma PushCallsTwo(ts: seq<Task>)
    ensures ts == [] ==> PushCalls(ts) == 0
    ensures |ts| == 1 ==> PushCalls(ts) == PushCall(ts[0])
    ensures |ts| == 2 ==> PushCalls(ts) == PushCall(ts[0]) + PushCall(ts[1])
  {
    if |ts| == 2 {
      assert ts[1..][0] == ts[1] && ts[1..][1..] == [];
    }
  }

  /** A push that is popped leaves its queue. */
  lemma PopLeaves(o: Sched, win: Windows)
    requires SchedOk(o) && WindowsFor(o, win) && Pop(o, win).Served? && o.control == []
    ensures var r := Pop(o, win);
            PushesOf(r.sched.order, r.sched.queues) + PushCalls([Start(r.frame)]) == PushesOf(o.order, o.queues)
  {
    var k := FirstReady(o, win, 0);
    var x := o.order[k];
    var r := ConsumeHead(o.queues[x], MAX_INT32, win);
    HeadLeaves(o.queues[x], win);
    PushesOfUpdate(o.order, o.queues, x, r.rest);
    PushesOfRotate(o.order, o.queues[x := r.rest], k);
  }

  lemma HeadLeaves(q: seq<Request>, win: Windows)
    requires QueueOk(q, win) && Sendable(q, MAX_INT32, win)
    ensures var r := ConsumeHead(q, MAX_INT32, win); PushesIn(r.rest) + PushCalls([Start(r.frame)]) == PushesIn(q)
  {
    var r := ConsumeHead(q, MAX_INT32, win);
    if Consume(q[0], MAX_INT32, win).Part? {
      assert r.rest[1..] == q[1..];
    }
  }

  lemma StepCloser(s: Conn, c: Choice)
    requires CoreOk(s) && CanStep(s) && Step(s, c).panic == None
    ensures Closer(s, Step(s, c))
  {
    if Next(s) == None {
      RoundCloser(s, c);
    } else if Next(s).value.Start? {
      StartCloser(s, c);
    } else if Plain(Next(s).value) {
      PlainCloser(s, c);
    } else {
      IdleCloser(s, c);
    }
  }

  // ----- Carrying out all calls

  /** All calls are carried out, with what is decided elsewhere picked in any way. */
  ghost function Drain(s: Conn, pick: Conn -> Choice): (s': Conn)
    requires Sound(s)
    ensures s'.panic.Some? || (Ready(s') && Sound(s'))
    decreases s.free, CanFly(s), PushesLeft(s), CallsLeft(s)
  {
    if !Busy(s) then
      s
    else
      CanAct(s);
      var s1 := Step(s, pick(s));
      if s1.panic.Some? then s1
      else
        StepSound(s, pick(s));
        StepCloser(s, pick(s));
        Drain(s1, pick)
  }
}
