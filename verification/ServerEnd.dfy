/** Why the request of a stream never ends after the stream has moved on: endStream comes last in
    processData, after calls that may write frames (h2_bundle.go). */
module ServerEnds {
  import opened Foundations
  import opened WriteQueues
  import opened RoundRobins
  import opened ServerConns
  import opened ServerEvents
  import opened ServerTables
  import opened ServerLoops
  import opened ServerOutputs
  import opened ServerSteps
  import opened ServerSafety

  // ----- Between events, whatever can be written is being written

  /** Calls after which the loop runs, or never takes a frame again. */
  predicate Wakes(k: Task) {
    k.Schedule? || k.Wrote? || (k.GoAwayNow? && k.code != 0)
  }

  ghost predicate Pending(ts: seq<Task>) {
    exists i :: 0 <= i < |ts| && Wakes(ts[i])
  }

  ghost predicate QuietOk(s: Conn)
    requires OutputOk(s.out)
  {
    s.flags.inFlight.Some? || s.inLoop || Popping(s).Empty? || Pending(s.outer)
  }

  /** Nothing is popped exactly if there are no control frames and no stream can send. */
  lemma EmptyExactly(sched: Sched, win: Windows)
    requires SchedOk(sched) && WindowsFor(sched, win)
    ensures Pop(sched, win).Empty? <==> sched.control == [] && forall id :: id in sched.queues ==> !CanSend(sched, win, id)
  {
    PopOk(sched, win);
    if Pop(sched, win).Served? && sched.control == [] {
      var k := FirstReady(sched, win, 0);
      assert CanSend(sched, win, sched.order[k]);
    }
  }

  lemma EmptyOpen(o: Output, id: nat, window: int)
    requires OutputOk(o) && id !in o.sched.queues && Pop(o.sched, o.win).Empty?
    ensures OutputOk(OpenQueue(o, id, window)) && Pop(OpenQueue(o, id, window).sched, OpenQueue(o, id, window).win).Empty?
  {
    var o' := OpenQueue(o, id, window);
    OpenOk(o.sched, id);
    EmptyExactly(o.sched, o.win);
    EmptyExactly(o'.sched, o'.win);
    forall x | x in o'.sched.queues
      ensures !CanSend(o'.sched, o'.win, x)
    {
      if x != id {
        SameWindow(o.sched.queues[x], o.win, o'.win);
      }
    }
  }

  lemma EmptyClose(o: Output, id: nat)
    requires OutputOk(o) && Pop(o.sched, o.win).Empty?
    ensures OutputOk(CloseQueue(o, id)) && Pop(CloseQueue(o, id).sched, CloseQueue(o, id).win).Empty?
  {
    var o' := CloseQueue(o, id);
    CloseOk(o.sched, id);
    EmptyExactly(o.sched, o.win);
    EmptyExactly(o'.sched, o'.win);
    forall x | x in o'.sched.queues
      ensures !CanSend(o'.sched, o'.win, x)
    {
      SameWindow(o.sched.queues[x], o.win, o'.win);
    }
  }

  /** Whether a queue can send depends on its own window and that of the connection. */
  lemma SameWindow(q: seq<Request>, win: Windows, win': Windows)
    requires QueueOk(q, win) && QueueOk(q, win') && win'.conn == win.conn && win'.maxFrameSize == win.maxFrameSize
    requires forall i :: 0 <= i < |q| && q[i].DataSize() > 0 ==> win'.streams[q[i].stream.value] == win.streams[q[i].stream.value]
    ensures Sendable(q, MAX_INT32, win) <==> Sendable(q, MAX_INT32, win')
  {
  }

  lemma PendingBehind(ts: seq<Task>, ts': seq<Task>)
    requires Pending(ts) && forall k :: k in ts ==> k in ts'
    ensures Pending(ts')
  {
    var i :| 0 <= i < |ts| && Wakes(ts[i]);
    assert ts[i] in ts';
    var j :| 0 <= j < |ts'| && ts'[j] == ts[i];
  }

  lemma PendingRest(ts: seq<Task>)
    requires Pending(ts) && !Wakes(ts[0])
    ensures Pending(ts[1..])
  {
    var i :| 0 <= i < |ts| && Wakes(ts[i]);
    assert ts[1..][i - 1] == ts[i];
  }

  /** The calls that wake the loop, or that put something in the queue. */
  lemma WakingStep(s: Conn, c: Choice)
    requires CoreOk(s) && CanStep(s) && Next(s).Some? && !s.inLoop && s.flags.inFlight == None && Step(s, c).panic == None
    requires Next(s).value.Write? || Wakes(Next(s).value)
    requires OutputOk(Step(s, c).out)
    ensures QuietOk(Step(s, c))
  {
    var k, s' := Next(s).value, Step(s, c);
    assert OuterOk(s.outer, 0);
    if k.Write? || k.Wrote? {
      DoPushes(Rest(s), k, c);
      var ts := Pushes(Rest(s), k, c);
      assert Wakes(ts[|ts| - 1]);
      assert s'.outer[|ts| - 1] == ts[|ts| - 1];
    } else if k.GoAwayNow? && !s.going.inGoAway {
      assert Wakes(s'.outer[0]);
    }
  }

  lemma QuietBehind(s: Conn, c: Choice)
    requires CoreOk(s) && CanStep(s) && Next(s).Some? && !s.inLoop && s.flags.inFlight == None && Step(s, c).panic == None
    requires !Next(s).value.Write? && !Wakes(Next(s).value) && OutputOk(Step(s, c).out) && Pending(s.outer)
    ensures QuietOk(Step(s, c))
  {
    PendingRest(s.outer);
    StepBehind(s, c);
    PendingBehind(Rest(s).outer, Step(s, c).outer);
  }

  lemma QuietStays(s: Conn, c: Choice)
    requires CoreOk(s) && CanStep(s) && Next(s).Some? && !s.inLoop && s.flags.inFlight == None && Step(s, c).panic == None
    requires !Next(s).value.Write? && !Wakes(Next(s).value) && OutputOk(Step(s, c).out) && Popping(s).Empty?
    ensures QuietOk(Step(s, c))
  {
    var k, s' := Next(s).value, Step(s, c);
    assert OuterOk(s.outer, 0);
    if k.SchedClose? {
      if Popping(s) == Pop(s.out.sched, s.out.win) {
        EmptyClose(s.out, k.id);
      }
    } else if k.GoAwayNow? && !s.going.inGoAway {
      assert Wakes(s'.outer[0]);
    } else {
      NothingQueued(s, c);
    }
  }

  lemma NothingQueued(s: Conn, c: Choice)
    requires CanStep(s) && Next(s).Some?
    requires var k := Next(s).value; !k.Write? && !Wakes(k) && !k.SchedClose? && !k.Start? && (k.GoAwayNow? ==> s.going.inGoAway)
    ensures var o' := Step(s, c).out; o'.sched == s.out.sched && o'.win == s.out.win && Step(s, c).going == s.going
  {
  }

  lemma QuietStep(s: Conn, c: Choice)
    requires CoreOk(s) && CanStep(s) && QuietOk(s) && Step(s, c).panic == None && OutputOk(Step(s, c).out)
    ensures QuietOk(Step(s, c))
  {
    if s.flags.inFlight.Some? {
      InFlightStays(s, c);
    } else if s.inLoop {
      LoopQuiet(s, c);
    } else if Next(s).value.Write? || Wakes(Next(s).value) {
      WakingStep(s, c);
    } else if Pending(s.outer) {
      QuietBehind(s, c);
    } else {
      QuietStays(s, c);
    }
  }

  lemma LoopQuiet(s: Conn, c: Choice)
    requires CoreOk(s) && CanStep(s) && s.inLoop && s.flags.inFlight == None && Step(s, c).panic == None && OutputOk(Step(s, c).out)
    ensures QuietOk(Step(s, c))
  {
    if Next(s).Some? {
      var k := Next(s).value;
      if k.Start? {
        StartEffect(Rest(s), k.wr, c);
      } else if Plain(k) {
        DoPushes(Rest(s), k, c);
      }
    }
  }

  /** An event that may let something be sent wakes the loop. */
  lemma QuietOn(s: Conn, e: Event)
    requires Ready(s) && CoreOk(s) && QuietOk(s) && Possible(s, e) && forall x :: x in s.out.sched.queues ==> Seen(s.table, x)
    requires OutputOk(On(s, e).out)
    ensures QuietOk(On(s, e))
  {
    var s' := On(s, e);
    OnTasks(s, e);
    if !(e.WriteDone? && s.flags.inFlight.Some?) && s.flags.inFlight == None {
      OnQueues(s, e);
      if s'.out != s.out && !Pending(s'.outer) && Popping(s) == Pop(s.out.sched, s.out.win) {
        EmptyOpen(s.out, FrameStream(e), s.peer.initialWindow);
      }
    } else if e.WriteDone? && s.flags.inFlight.Some? {
      assert Wakes(s'.outer[0]);
    }
  }

  lemma OnQueues(s: Conn, e: Event)
    requires Ready(s) && Possible(s, e) && forall x :: x in s.out.sched.queues ==> Seen(s.table, x)
    ensures var s' := On(s, e);
            && s'.going == s.going
            && (s'.out == s.out || Pending(s'.outer)
                || (FrameStream(e) !in s.out.sched.queues && s'.out == OpenQueue(s.out, FrameStream(e), s.peer.initialWindow)))
  {
    var s' := On(s, e);
    assert |s'.outer| == 1 && Wakes(s'.outer[0]) ==> Pending(s'.outer);
    if IsFrame(e) {
      hide OnFrame, OpenQueue, Pending;
      FrameQueues(s.(peer := s.peer.(sawFirstSettings := true)), e);
    }
  }

  lemma FrameQueues(s: Conn, e: Event)
    requires Possible(s, e) && IsFrame(e) && forall x :: x in s.out.sched.queues ==> Seen(s.table, x)
    ensures var s' := OnFrame(s, e);
            && s'.going == s.going
            && (s'.out == s.out || (|s'.outer| == 1 && Wakes(s'.outer[0]))
                || (FrameStream(e) !in s.out.sched.queues && s'.out == OpenQueue(s.out, FrameStream(e), s.peer.initialWindow)))
  {
    if e.ReadHeaders? {
      HeadersOutput(s, e);
      HeadersGoing(s, e);
      hide OnHeaders, OpenQueue, Seen;
    } else {
      hide OnFrame;
      WindowsOn(s, e);
    }
  }

  lemma HeadersGoing(s: Conn, e: Event)
    requires e.ReadHeaders? && forall x :: x in s.out.sched.queues ==> Seen(s.table, x)
    ensures OnHeaders(s, e.id, e.ended, e.bad, e.refused, e.busy).going == s.going
  {
  }

  lemma WindowsOn(s: Conn, e: Event)
    requires !e.ReadHeaders? && forall x :: x in s.out.sched.queues ==> Seen(s.table, x)
    ensures var s' := OnFrame(s, e); s'.going == s.going && (s'.out == s.out || (|s'.outer| == 1 && Wakes(s'.outer[0])))
  {
  }

  // ----- A reset that is queued is marked

  ghost predicate MarkComing(s: Conn, id: nat) {
    || (id in s.table.streams && s.table.streams[id].resetQueued)
    || MarkReset(id) in s.inner || MarkReset(id) in s.outer
    || (Next(s).Some? && Next(s).value.Reset? && Next(s).value.id == id)
  }

  ghost predicate MarksOk(s: Conn) {
    forall id :: Local(s.table, id) ==> MarkComing(s, id)
  }

  /** Marks are not taken back. */
  lemma MarkKept(s: Conn, k: Task, c: Choice, id: nat)
    requires TaskOk(s.table, k) && s.table.maxPush + 2 !in s.out.sched.queues && s.table.maxPush + 2 !in s.table.streams
    requires id in s.table.streams && s.table.streams[id].resetQueued && id in Do(s, k, c).table.streams
    ensures Do(s, k, c).table.streams[id].resetQueued
  {
    if !ChangesTable(k) {
      TableStays(s, k, c);
    } else if k.Start? {
      TableAfterStart(s, k.wr, c);
    } else if k.Write? {
      TableAfterWrite(s, k.wr);
    } else {
      MarkKeptByOthers(s, k, c, id);
    }
  }

  lemma MarkKeptByOthers(s: Conn, k: Task, c: Choice, id: nat)
    requires TaskOk(s.table, k) && s.table.maxPush + 2 !in s.out.sched.queues && ChangesTable(k) && !k.Start? && !k.Write?
    requires id in s.table.streams && s.table.streams[id].resetQueued && id in Do(s, k, c).table.streams
    ensures Do(s, k, c).table.streams[id].resetQueued
  {
  }

  lemma MarkComes(s: Conn, c: Choice, id: nat)
    requires CoreOk(s) && CanStep(s) && Next(s).Some? && Step(s, c).panic == None && Local(Step(s, c).table, id)
    requires Local(s.table, id) ==> MarkComing(s, id)
    ensures MarkComing(Step(s, c), id)
  {
    var k, s' := Next(s).value, Step(s, c);
    QueuesSeen(s.table, s.out);
    if !Local(s.table, id) {
      NewLocal(Rest(s), k, c, id);
    } else if s.table.streams[id].resetQueued {
      MarkKept(Rest(s), k, c, id);
    } else if k.Reset? && k.id == id {
      DoPushes(Rest(s), k, c);
      var ts := Pushes(Rest(s), k, c);
      assert ts[1] == MarkReset(id);
      assert MarkReset(id) in s'.inner || MarkReset(id) in s'.outer;
    } else if k != MarkReset(id) {
      StepBehind(s, c);
      if MarkReset(id) in s.inner {
        Stays(s.inner, MarkReset(id));
      } else if !s.inLoop {
        Stays(s.outer, MarkReset(id));
      }
    }
  }

  lemma MarksStep(s: Conn, c: Choice)
    requires CoreOk(s) && CanStep(s) && MarksOk(s) && Step(s, c).panic == None
    ensures MarksOk(Step(s, c))
  {
    var s' := Step(s, c);
    forall id | Local(s'.table, id)
      ensures MarkComing(s', id)
    {
      if Next(s).Some? {
        MarkComes(s, c, id);
      } else {
        assert MarkComing(s, id);
      }
    }
  }

  // ----- Calm: nothing that ends a stream is written

  predicate CalmFrame(wr: Request) {
    && !EndsStream(wr.write) && !wr.write.StreamError? && !wr.write.HandlerPanicRST? && !wr.write.PushPromise?
    && !wr.write.ResHeaders? && wr.DataSize() == 0
  }

  predicate CalmTask(k: Task) {
    || k.ConnUpdate? || k.StreamUpdate? || k.Schedule? || k.ClearFlush?
    || (k.Write? && k.wr.write.WindowUpdate?) || (k.Start? && CalmFrame(k.wr)) || (k.Wrote? && CalmFrame(k.wr))
  }

  /** A queue whose head cannot be sent, after window updates that can. */
  predicate CalmQueue(q: seq<Request>, win: Windows)
    requires QueueOk(q, win)
  {
    q == [] || !Sendable(q, MAX_INT32, win) || (q[0].write.WindowUpdate? && CalmQueue(q[1..], win))
  }

  ghost predicate CalmQueues(o: Output)
    requires OutputOk(o)
  {
    && (forall i :: 0 <= i < |o.sched.control| ==> CalmFrame(o.sched.control[i]))
    && (forall id :: id in o.sched.queues ==> CalmQueue(o.sched.queues[id], o.win))
  }

  ghost predicate Calm(s: Conn)
    requires OutputOk(s.out)
  {
    && (forall i :: 0 <= i < |s.inner| ==> CalmTask(s.inner[i]))
    && (forall i :: 0 <= i < |s.outer| - 1 ==> CalmTask(s.outer[i]))
    && (s.flags.inFlight.Some? || CalmQueues(s.out))
  }

  lemma {:induction false} CalmAppend(q: seq<Request>, win: Windows, wr: Request)
    requires QueueOk(q, win) && CalmQueue(q, win) && wr.write.WindowUpdate?
    ensures QueueOk(q + [wr], win) && CalmQueue(q + [wr], win)
  {
    if q == [] {
      assert [wr][1..] == [];
    } else if Sendable(q, MAX_INT32, win) {
      CalmAppend(q[1..], win, wr);
      assert (q + [wr])[1..] == q[1..] + [wr];
    }
  }

  lemma CalmEnqueue(o: Output, wr: Request)
    requires OutputOk(o) && CalmQueues(o) && wr.write.WindowUpdate? && OutputOk(Enqueue(o, wr))
    ensures CalmQueues(Enqueue(o, wr))
  {
    var o' := Enqueue(o, wr);
    forall id | id in o'.sched.queues
      ensures CalmQueue(o'.sched.queues[id], o'.win)
    {
      CalmAppend(o.sched.queues[id], o.win, wr);
    }
  }

  /** What is taken from calm queues is calm, and leaves them so. */
  lemma CalmDequeue(o: Output)
    requires OutputOk(o) && CalmQueues(o) && Pop(o.sched, o.win).Served?
    requires OutputOk(Dequeued(o, Pop(o.sched, o.win)))
    ensures CalmFrame(Pop(o.sched, o.win).frame) && CalmQueues(Dequeued(o, Pop(o.sched, o.win)))
  {
    if o.sched.control == [] {
      var k := FirstReady(o.sched, o.win, 0);
      var q := o.sched.queues[o.sched.order[k]];
      assert CalmQueue(q, o.win);
    }
  }

  lemma CalmStart(o: Output)
    requires OutputOk(o) && Pop(o.sched, o.win).Empty?
    ensures CalmQueues(o)
  {
    EmptyExactly(o.sched, o.win);
  }

  /** A calm call leaves the table alone, makes calm calls, and keeps the queues calm. */
  lemma CalmDo(s: Conn, k: Task, c: Choice)
    requires TableOk(s.table) && OutOk(s.table, s.out) && TaskOk(s.table, k) && s.table.maxPush + 2 !in s.out.sched.queues
    requires CalmTask(k) && Plain(k) && s.panic == None && Do(s, k, c).panic == None
    requires OutputOk(Do(s, k, c).out) && (CalmQueues(s.out) || s.flags.inFlight.Some?)
    ensures Do(s, k, c).table == s.table && (s.flags.inFlight == None ==> CalmQueues(Do(s, k, c).out))
    ensures forall i :: 0 <= i < |Pushes(s, k, c)| ==> CalmTask(Pushes(s, k, c)[i])
    ensures Do(s, k, c).flags.inFlight == s.flags.inFlight
  {
    if k.Write? && s.flags.inFlight == None && !Ignored(s.table, k.wr) {
      CalmEnqueue(s.out, k.wr);
    }
  }

  lemma CalmPushed(s: Conn, s': Conn, ts: seq<Task>)
    requires OutputOk(s.out) && OutputOk(s'.out) && Next(s).Some? && Calm(s) && Pushed(Rest(s), s', ts)
    requires !s.inLoop ==> |s.outer| > 1
    requires forall i :: 0 <= i < |ts| ==> CalmTask(ts[i])
    requires s'.flags.inFlight.Some? || CalmQueues(s'.out)
    ensures Calm(s') && (s'.outer == [] <==> s.outer == [])
    ensures s.outer != [] ==> s'.outer[|s'.outer| - 1] == s.outer[|s.outer| - 1]
  {
    var n, r := |ts|, Rest(s);
    if s.inLoop {
      forall i | 0 <= i < |s'.inner|
        ensures CalmTask(s'.inner[i])
      {
        if i >= n {
          assert s'.inner[i] == s.inner[i - n + 1];
        }
      }
    } else {
      forall i | 0 <= i < |s'.outer| - 1
        ensures CalmTask(s'.outer[i])
      {
        if i >= n {
          assert s'.outer[i] == s.outer[i - n + 1];
        }
      }
    }
  }

  /** Calm lasts until the call that ends the request is next. */
  predicate StaysCalm(s: Conn, s': Conn) {
    s'.table == s.table && s'.outer != [] && s.outer != [] && s'.outer[|s'.outer| - 1] == s.outer[|s.outer| - 1]
  }

  lemma CalmPlain(s: Conn, c: Choice)
    requires CoreOk(s) && CanStep(s) && Next(s).Some? && Plain(Next(s).value) && Calm(s)
    requires s.outer != [] && (s.inLoop || |s.outer| > 1) && Step(s, c).panic == None && OutputOk(Step(s, c).out)
    ensures Calm(Step(s, c)) && StaysCalm(s, Step(s, c))
  {
    var k := Next(s).value;
    CalmDo(Rest(s), k, c);
    DoPushes(Rest(s), k, c);
    CalmPushed(s, Step(s, c), Pushes(Rest(s), k, c));
  }

  lemma CalmStarted(s: Conn, c: Choice)
    requires CoreOk(s) && CanStep(s) && Next(s).Some? && Next(s).value.Start? && Calm(s)
    requires s.outer != [] && Step(s, c).panic == None && OutputOk(Step(s, c).out)
    ensures Calm(Step(s, c)) && StaysCalm(s, Step(s, c))
  {
    var wr, s' := Next(s).value.wr, Step(s, c);
    OneFrameAtATime(s);
    StartEffect(Rest(s), wr, c);
    assert CalmFrame(wr);
    CalmPushed(s, s', if Pushed(Rest(s), s', [Wrote(wr)]) then [Wrote(wr)] else []);
  }

  lemma CalmIterate(s: Conn, c: Choice)
    requires CoreOk(s) && CanStep(s) && Next(s) == None && Calm(s) && s.outer != [] && OutputOk(Step(s, c).out)
    ensures Calm(Step(s, c)) && StaysCalm(s, Step(s, c))
  {
    hide Pop, CalmQueues, TableOk, TasksOk;
    if s.flags.inFlight == None && Popping(s).Served? {
      DequeueOk(s.table, s.out);
      CalmDequeue(s.out);
    }
  }

  lemma CalmOther(s: Conn, c: Choice)
    requires CoreOk(s) && CanStep(s) && (Next(s) == Some(Schedule) || Next(s) == Some(ClearFlush)) && Calm(s)
    requires s.outer != [] && (s.inLoop || |s.outer| > 1) && OutputOk(Step(s, c).out)
    ensures Calm(Step(s, c)) && StaysCalm(s, Step(s, c))
  {
    EmptyFront(Rest(s));
    CalmPushed(s, Rest(s), []);
    CalmOtherStep(s, c);
  }

  lemma CalmOtherStep(s: Conn, c: Choice)
    requires CanStep(s) && (Next(s) == Some(Schedule) || Next(s) == Some(ClearFlush)) && ShapeOk(s)
    ensures var r, s' := Rest(s), Step(s, c);
            && s'.table == r.table && s'.out == r.out && s'.outer == r.outer && (s'.inner == r.inner || s'.inner == [])
            && s'.flags.inFlight == r.flags.inFlight
  {
  }

  lemma CalmStep(s: Conn, c: Choice)
    requires CoreOk(s) && CanStep(s) && Calm(s) && s.outer != [] && (s.inLoop || |s.outer| > 1)
    requires Step(s, c).panic == None && OutputOk(Step(s, c).out)
    ensures Calm(Step(s, c)) && StaysCalm(s, Step(s, c))
  {
    if Next(s) == None {
      CalmIterate(s, c);
    } else if Next(s).value.Start? {
      CalmStarted(s, c);
    } else if Plain(Next(s).value) {
      CalmPlain(s, c);
    } else {
      CalmOther(s, c);
    }
  }

  // ----- The end of a request

  predicate Ends(s: Conn) {
    s.outer != [] && s.outer[|s.outer| - 1].EndStream?
  }

  /** A request that is about to end is that of an open stream. */
  ghost predicate EndOk(s: Conn)
    requires OutputOk(s.out)
  {
    Ends(s) ==>
      var id := s.outer[|s.outer| - 1].id;
      && id in s.table.streams && s.table.streams[id].state == Open
      && ((|s.outer| == 1 && !s.inLoop) || Calm(s))
  }

  lemma NoLateEnd(s: Conn)
    requires ShapeOk(s) && OutputOk(s.out) && EndOk(s) && Next(s).Some? && Next(s).value.EndStream?
    ensures var id := Next(s).value.id; id in s.table.streams && s.table.streams[id].state == Open
  {
    NoEndInside(s);
    assert OuterOk(s.outer, 0);
  }

  /** No request ends inside the loop. */
  lemma NoEndInside(s: Conn)
    requires ShapeOk(s)
    ensures s.inLoop && Next(s).Some? ==> !Next(s).value.EndStream?
  {
    assert s.inner != [] ==> InnerOk(s.inner, 0);
  }

  lemma EndStep(s: Conn, c: Choice)
    requires CoreOk(s) && CanStep(s) && EndOk(s) && Step(s, c).panic == None && OutputOk(Step(s, c).out)
    ensures EndOk(Step(s, c))
  {
    if Ends(s) && (s.inLoop || |s.outer| > 1) {
      CalmStep(s, c);
    } else {
      NoNewEnd(s, c);
    }
  }

  /** Calls do not end requests but by the call for it. */
  lemma NoNewEnd(s: Conn, c: Choice)
    requires CanStep(s) && Step(s, c).panic == None && !(Ends(s) && (s.inLoop || |s.outer| > 1))
    ensures !Ends(Step(s, c))
  {
    if Next(s).Some? {
      var k, s' := Next(s).value, Step(s, c);
      if k.Start? {
        StartEffect(Rest(s), k.wr, c);
        EndsPushed(s, s', StartPushes(Rest(s), s', k.wr));
      } else if Plain(k) {
        DoPushes(Rest(s), k, c);
        EndsPushed(s, s', Pushes(Rest(s), k, c));
      } else {
        EmptyFront(Rest(s));
        EndsPushed(s, Rest(s), []);
      }
    }
  }

  lemma EndsPushed(s: Conn, s': Conn, ts: seq<Task>)
    requires Next(s).Some? && Pushed(Rest(s), s', ts) && !(Ends(s) && (s.inLoop || |s.outer| > 1))
    requires forall i :: 0 <= i < |ts| ==> !ts[i].EndStream?
    ensures !Ends(s')
  {
    if !s.inLoop && |s.outer| > 1 {
      assert s'.outer[|s'.outer| - 1] == s.outer[|s.outer| - 1];
    }
  }
}
