/** What comes of the messages over whole runs: the send windows hold what was granted and not yet
    used, every answer that is owed is given once, SETTINGS are acknowledged, and the first error is
    the one the connection ends with (h2_bundle.go, serverConn). */
module ServerLedgers {
  import opened Foundations
  import opened WriteQueues
  import opened RoundRobins
  import opened ServerConns
  import opened ServerEvents
  import opened ServerTables
  import opened ServerLoops
  import opened ServerOutputs
  import opened ServerSteps
  import opened ServerPendings
  import opened ServerTheorems
  import opened ServerAnswers

  // ----- The frames that are started

  /** The frame that the loop starts with this step. */
  function Handed(s: Conn, s': Conn): Option<Request> {
    if s.inLoop && s.inner == [] && s'.inner != [] && s'.inner[0].Start? then Some(s'.inner[0].wr) else None
  }

  // ----- What is owed

  /** What a call asks for in turn: a reset without an error when a response ends before its request,
      the close of streams whose last frame was written, window updates as they are decided, and a
      GOAWAY when the server shuts down or has no stream IDs left. */
  function AsksInside(s: Conn, k: Task, c: Choice, d: Due): nat {
    match k
    case Wrote(wr) =>
      if EndsStream(wr.write) && wr.stream.Some? && wr.stream.value in s.table.streams then
        var state := s.table.streams[wr.stream.value].state;
        If(state == Open, StreamReset(wr.stream.value, 0), d) + If(state == HalfClosedRemote, Closing(wr.stream.value), d)
      else if wr.write.StreamError? then If(wr.write.streamID in s.table.streams, Closing(wr.write.streamID), d)
      else if wr.write.HandlerPanicRST? && wr.stream.Some? then One(Closing(wr.stream.value), d)
      else 0
    case CloseNow(id) =>
      If(s.table.streams.Keys == {id} && c.shutdown, Leaving(0), d)
      + If(id in s.table.streams && c.announce > 0, Sending(Request(WindowUpdate(c.announce), None, None)), d)
    case ConnUpdate => If(c.announce > 0, Sending(Request(WindowUpdate(c.announce), None, None)), d)
    case StreamUpdate(id) => If(c.announce > 0, Sending(Request(WindowUpdate(c.announce), Some(id), None)), d)
    case AfterBodyRead(id) => If(id in s.table.streams && s.table.streams[id].state != HalfClosedRemote, StreamCredit(id), d)
    case Start(wr) =>
      If(wr.write.PushPromise? && wr.stream.Some? && wr.stream.value in s.table.streams && s.peer.pushEnabled
         && s.table.pushed < s.peer.maxStreams && s.table.maxPush + 2 >= 0x8000_0000, Leaving(0), d)
    case _ => 0
  }

  /** What a call does of what is owed; resets and answers are given when their frame is started. */
  function DoneBy(k: Task, d: Due): nat {
    if k.Reset? || (k.Write? && IsAnswer(k.wr.write)) then 0 else DueOf(k, d)
  }

  /** What an action adds to what is owed, and what it does of it. */
  ghost function Asked(s: Conn, a: Action, d: Due): nat {
    match a
    case External(e) => Asks(s, e, d)
    case Internal(c) => if Next(s).Some? then AsksInside(s, Next(s).value, c, d) else 0
  }

  function Done(s: Conn, s': Conn, a: Action, d: Due): nat {
    if a.External? then 0
    else if Next(s).Some? then DoneBy(Next(s).value, d)
    else if Handed(s, s').Some? then Answer(Handed(s, s').value.write, d) else 0
  }

  function Queueing(q: seq<Request>, d: Due): nat {
    if q == [] then 0 else Answer(q[0].write, d) + Queueing(q[1..], d)
  }

  function Calling(s: Conn, d: Due): nat {
    DueTasks(s.inner, d) + DueTasks(s.outer, d)
  }

  /** What is still to come: calls to be carried out, and answers in the queue. */
  function Coming(s: Conn, d: Due): nat {
    Calling(s, d) + Queueing(s.out.sched.control, d)
  }

  lemma {:induction false} DueAppend(a: seq<Task>, b: seq<Task>, d: Due)
    ensures DueTasks(a + b, d) == DueTasks(a, d) + DueTasks(b, d)
  {
    if a == [] {
      assert a + b == b;
    } else {
      assert (a + b)[1..] == a[1..] + b;
      DueAppend(a[1..], b, d);
    }
  }

  lemma {:induction false} QueueingAppend(a: seq<Request>, b: seq<Request>, d: Due)
    ensures Queueing(a + b, d) == Queueing(a, d) + Queueing(b, d)
  {
    if a == [] {
      assert a + b == b;
    } else {
      assert (a + b)[1..] == a[1..] + b;
      QueueingAppend(a[1..], b, d);
    }
  }

  lemma CallingPushed(s: Conn, s': Conn, ts: seq<Task>, d: Due)
    requires Pushed(s, s', ts)
    ensures Calling(s', d) == Calling(s, d) + DueTasks(ts, d)
  {
    DueAppend(ts, s.inner, d);
    DueAppend(ts, s.outer, d);
  }

  lemma CallingRest(s: Conn, d: Due)
    requires Next(s).Some?
    ensures Calling(s, d) == DueOf(Next(s).value, d) + Calling(Rest(s), d)
  {
  }

  /** What the calls made by a call ask for. */
  lemma PushesDue(s: Conn, k: Task, c: Choice, d: Due)
    requires Plain(k) && TaskOk(s.table, k) && TableOk(s.table) && (k.CloseNow? ==> k.id in s.table.streams)
    requires s.panic == None && s.table.maxPush + 2 !in s.out.sched.queues && Do(s, k, c).panic == None
    ensures DueTasks(Pushes(s, k, c), d) == AsksInside(s, k, c, d) + if k.Reset? then DueOf(k, d) else 0
  {
    hide DueTasks, Do;
    match k
    case Write(wr) => DueOne(Schedule, d);
    case Wrote(wr) => WroteDue(s, wr, d);
    case CloseNow(id) => CloseDue(s, id, c, d);
    case ConnUpdate => DueOne(Write(Control(WindowUpdate(c.announce))), d);
    case StreamUpdate(id) => DueOne(Write(Request(WindowUpdate(c.announce), Some(id), None)), d);
    case Reset(id, code) => DueFew(Write(Control(StreamError(id, code))), MarkReset(id), Schedule, d);
    case AfterBodyRead(id) => DueOne(StreamUpdate(id), d);
    case _ => DueOne(Schedule, d);
  }

  lemma WroteDue(s: Conn, wr: Request, d: Due)
    requires TaskOk(s.table, Wrote(wr)) && TableOk(s.table)
    ensures DueTasks(Finished(s.table, wr) + [Schedule], d) == AsksInside(s, Wrote(wr), Choice(0, false, 0), d)
  {
    DueAppend(Finished(s.table, wr), [Schedule], d);
    DueOne(Schedule, d);
    FinishedDue(s, wr, d);
    hide *;
  }

  lemma FinishedDue(s: Conn, wr: Request, d: Due)
    requires TaskOk(s.table, Wrote(wr)) && TableOk(s.table)
    ensures DueTasks(Finished(s.table, wr), d) == AsksInside(s, Wrote(wr), Choice(0, false, 0), d)
    ensures DueOf(Schedule, d) == 0
  {
    hide DueTasks;
    if wr.write.StreamError? {
      DueOne(CloseNow(wr.write.streamID), d);
    } else if wr.stream.Some? {
      assert wr.stream.value in s.table.streams ==> Tracked(s.table, wr.stream.value);
      hide TableOk;
      DueOne(Reset(wr.stream.value, 0), d);
      DueOne(CloseNow(wr.stream.value), d);
    } else {
      DueOne(Schedule, d);
    }
  }

  lemma LastClosed(t: Table, id: nat)
    requires id in t.streams
    ensures RemoveStream(t, id).streams == map[] <==> t.streams.Keys == {id}
  {
    var left := RemoveStream(t, id).streams;
    assert left.Keys == t.streams.Keys - {id};
    assert left == map[] <==> left.Keys == {};
  }

  lemma CloseDue(s: Conn, id: nat, c: Choice, d: Due)
    requires id in s.table.streams
    ensures DueTasks(Farewell(RemoveStream(s.table, id), c) + [SchedClose(id)], d) == AsksInside(s, CloseNow(id), c, d)
  {
    LastClosed(s.table, id);
    var t := RemoveStream(s.table, id);
    hide DueTasks, RemoveStream;
    DueAppend(Farewell(t, c), [SchedClose(id)], d);
    DueOne(SchedClose(id), d);
    DueOne(GoAwayNow(0), d);
    DueOne(Write(Control(WindowUpdate(c.announce))), d);
    DueFew(GoAwayNow(0), Write(Control(WindowUpdate(c.announce))), Schedule, d);
    if t.streams == map[] && c.shutdown && c.announce > 0 {
      assert Farewell(t, c) == [GoAwayNow(0), Write(Control(WindowUpdate(c.announce)))];
    }
  }

  lemma PushedDue(s: Conn, k: Task, c: Choice, d: Due)
    requires Plain(k) && TaskOk(s.table, k) && TableOk(s.table) && (k.CloseNow? ==> k.id in s.table.streams)
    requires s.panic == None && s.table.maxPush + 2 !in s.out.sched.queues && Do(s, k, c).panic == None
    ensures Calling(Do(s, k, c), d) == Calling(s, d) + AsksInside(s, k, c, d) + if k.Reset? then DueOf(k, d) else 0
  {
    DoPushes(s, k, c);
    PushesDue(s, k, c, d);
    hide Do, Plain, TaskOk, Pushes, AsksInside, DueOf, DueTasks, Calling, TableOk;
    CallingPushed(s, Do(s, k, c), Pushes(s, k, c), d);
  }

  lemma ClosesKnown(s: Conn, k: Task, c: Choice)
    requires TaskOk(s.table, k) && s.table.maxPush + 2 !in s.out.sched.queues && Do(s, k, c).panic == None
    ensures k.CloseNow? ==> k.id in s.table.streams
  {
  }

  lemma PlainCalling(s: Conn, c: Choice, d: Due)
    requires CoreOk(s) && CanStep(s) && Next(s).Some? && Plain(Next(s).value) && Step(s, c).panic == None
    ensures var k := Next(s).value;
            && Calling(s, d) == DueOf(k, d) + Calling(Rest(s), d)
            && Calling(Step(s, c), d) == Calling(Rest(s), d) + AsksInside(s, k, c, d) + if k.Reset? then DueOf(k, d) else 0
  {
    hide Do, Calling, DueOf, OutputOk, OutOk, TasksOk, TableOk, ShapeOk, FlagsOk, DueTasks, AsksInside, TaskOk;
    var k := Next(s).value;
    CallingRest(s, d);
    ClosesKnown(Rest(s), k, c);
    PushedDue(Rest(s), k, c, d);
    RestAsks(s, k, c, d);
  }

  lemma RestAsks(s: Conn, k: Task, c: Choice, d: Due)
    requires Next(s).Some?
    ensures AsksInside(Rest(s), k, c, d) == AsksInside(s, k, c, d)
  {
  }

  /** A call that is carried out hands what it owes on to the calls it makes and to the queue. */
  lemma PlainDue(s: Conn, c: Choice, d: Due)
    requires CoreOk(s) && CanStep(s) && Next(s).Some? && Plain(Next(s).value) && Step(s, c).panic == None
    ensures Coming(Step(s, c), d) + DoneBy(Next(s).value, d) == Coming(s, d) + AsksInside(s, Next(s).value, c, d)
  {
    PlainCalling(s, c, d);
    ControlDue(s, c, d);
    hide CoreOk, CanStep, Plain, Step, Calling, Queueing, AsksInside, Next;
  }

  lemma ControlDue(s: Conn, c: Choice, d: Due)
    requires CoreOk(s) && CanStep(s) && Next(s).Some? && Plain(Next(s).value) && Step(s, c).panic == None
    ensures var k, q := Next(s).value, s.out.sched.control;
            Queueing(Step(s, c).out.sched.control, d) == Queueing(q, d) + if k.Write? && IsAnswer(k.wr.write) then DueOf(k, d) else 0
  {
    var k := Next(s).value;
    if k.Write? {
      WriteDue(Rest(s), k.wr, d);
    } else if k.CloseNow? || k.SchedClose? {
      ClosingOut(Rest(s), k, c);
    } else {
      OutStays(Rest(s), k, c);
    }
  }

  lemma ClosingOut(s: Conn, k: Task, c: Choice)
    requires TaskOk(s.table, k) && s.table.maxPush + 2 !in s.out.sched.queues && (k.CloseNow? || k.SchedClose?)
    ensures Do(s, k, c).out.sched.control == s.out.sched.control
  {
  }

  lemma WriteDue(s: Conn, wr: Request, d: Due)
    requires TableOk(s.table) && OutOk(s.table, s.out) && WriterOk(s.table, wr) && Queued(wr)
    ensures Queueing(DoWrite(s, wr).out.sched.control, d)
         == Queueing(s.out.sched.control, d) + if IsAnswer(wr.write) then Answer(wr.write, d) else 0
  {
    QueueingAppend(s.out.sched.control, [wr], d);
    assert Queueing([wr], d) == Answer(wr.write, d) by {
      assert [wr][1..] == [];
    }
    WriteQueue(s, wr);
    hide Queueing, DoWrite, OutOk, TableOk;
  }

  /** A frame that answers something is never ignored, and is queued as a control frame. */
  lemma WriteQueue(s: Conn, wr: Request)
    requires TableOk(s.table) && OutOk(s.table, s.out) && WriterOk(s.table, wr) && Queued(wr)
    ensures DoWrite(s, wr).out.sched.control == s.out.sched.control
         || DoWrite(s, wr).out.sched.control == s.out.sched.control + [wr]
    ensures IsAnswer(wr.write) ==> DoWrite(s, wr).out.sched.control == s.out.sched.control + [wr]
  {
  }

  /** A frame that is started is written, in place or not, or is a push that cannot be made. */
  lemma StartDue(s: Conn, c: Choice, d: Due)
    requires CoreOk(s) && CanStep(s) && Next(s).Some? && Next(s).value.Start? && Step(s, c).panic == None
    ensures Coming(Step(s, c), d) == Coming(s, d) + AsksInside(s, Next(s).value, c, d)
  {
    var wr, s' := Next(s).value.wr, Step(s, c);
    CallingRest(s, d);
    StartedDue(Rest(s), wr, c, d);
  }

  lemma StartedDue(s: Conn, wr: Request, c: Choice, d: Due)
    requires s.table.maxPush + 2 !in s.out.sched.queues && s.panic == None && DoStart(s, wr, c).panic == None && WriterOk(s.table, wr)
    ensures Coming(DoStart(s, wr, c), d) == Coming(s, d) + AsksInside(s, Start(wr), c, d)
  {
    StartCall(s, wr, c);
    hide DoStart, WriterOk, Pushed, DueTasks, Calling, Queueing;
    FewPushed(s, DoStart(s, wr, c), wr, d);
  }

  lemma FewPushed(s: Conn, s': Conn, wr: Request, d: Due)
    ensures Pushed(s, s', [Wrote(wr)]) || Pushed(s, s', []) ==> Calling(s', d) == Calling(s, d)
    ensures Pushed(s, s', [GoAwayNow(0)]) ==> Calling(s', d) == Calling(s, d) + One(Leaving(0), d)
  {
    DueOne(Wrote(wr), d);
    DueOne(GoAwayNow(0), d);
    hide DueTasks, Pushed, Calling;
    if Pushed(s, s', [Wrote(wr)]) {
      CallingPushed(s, s', [Wrote(wr)], d);
    } else if Pushed(s, s', []) {
      CallingPushed(s, s', [], d);
    }
    if Pushed(s, s', [GoAwayNow(0)]) {
      CallingPushed(s, s', [GoAwayNow(0)], d);
    }
  }

  /** The call that the start of a frame makes. */
  lemma StartCall(s: Conn, wr: Request, c: Choice)
    requires s.table.maxPush + 2 !in s.out.sched.queues && s.panic == None && DoStart(s, wr, c).panic == None && WriterOk(s.table, wr)
    ensures var s' := DoStart(s, wr, c);
            && s'.out.sched.control == s.out.sched.control
            && if wr.write.PushPromise? && s.peer.pushEnabled && s.table.pushed < s.peer.maxStreams && s.table.maxPush + 2 >= 0x8000_0000
               then Pushed(s, s', [GoAwayNow(0)]) && wr.stream.value in s.table.streams
               else Pushed(s, s', [Wrote(wr)]) || Pushed(s, s', [])
  {
    EmptyFront(s);
  }

  /** A round of the loop: it ends, or a frame that is due is made or one is popped. */
  lemma Round(s: Conn, c: Choice)
    requires CoreOk(s) && CanStep(s) && Next(s) == None
    ensures var s' := Step(s, c);
            match Handed(s, s')
            case None => s' == s.(inLoop := false)
            case Some(f) =>
              && (s'.inner == [Start(f)] || s'.inner == [Start(f), ClearFlush])
              && s' == s.(out := s'.out, going := s'.going, needToSendSettingsAck := s'.needToSendSettingsAck, inner := s'.inner)
              && s'.going == s.going.(needToSend := s'.going.needToSend)
              && s'.needToSendSettingsAck == (s.needToSendSettingsAck && !f.write.SettingsAck?)
              && ((s'.out == s.out && f.stream == None && (f.write.GoAway? || f.write.SettingsAck? || f.write.Flush?))
                  || (Pop(s.out.sched, s.out.win).Served? && f == Pop(s.out.sched, s.out.win).frame
                      && s'.out == Dequeued(s.out, Pop(s.out.sched, s.out.win))))
  {
    hide Pop, TableOk, OutOk, TasksOk;
  }

  lemma FewStarted(s: Conn, s': Conn, f: Request, d: Due)
    requires s.inner == [] && s'.outer == s.outer && (s'.inner == [Start(f)] || s'.inner == [Start(f), ClearFlush])
    ensures Calling(s', d) == Calling(s, d)
  {
    DueFew(Start(f), ClearFlush, Schedule, d);
  }

  lemma RoundCalling(s: Conn, c: Choice, d: Due)
    requires CoreOk(s) && CanStep(s) && Next(s) == None
    ensures Calling(Step(s, c), d) == Calling(s, d)
  {
    hide Step, OutputOk, OutOk, TasksOk, TableOk, ShapeOk, FlagsOk, Pop, DueTasks, Handed, Dequeued;
    Round(s, c);
    match Handed(s, Step(s, c))
    case Some(f) => FewStarted(s, Step(s, c), f, d);
    case None =>
  }

  lemma RoundQueue(s: Conn, c: Choice, d: Due)
    requires CoreOk(s) && CanStep(s) && Next(s) == None
    ensures Queueing(Step(s, c).out.sched.control, d) + Done(s, Step(s, c), Internal(c), d) == Queueing(s.out.sched.control, d)
  {
    hide Step, Queueing, Pop, TableOk, OutOk, TasksOk, ShapeOk, FlagsOk, Handed;
    Round(s, c);
    match Handed(s, Step(s, c))
    case Some(f) =>
      if Pop(s.out.sched, s.out.win).Served? {
        QueuedAnswers(s.table, s.out, d);
      }
    case None =>
  }

  lemma RoundDue(s: Conn, c: Choice, d: Due)
    requires CoreOk(s) && CanStep(s) && Next(s) == None
    ensures Coming(Step(s, c), d) + Done(s, Step(s, c), Internal(c), d) == Coming(s, d)
  {
    RoundCalling(s, c, d);
    RoundQueue(s, c, d);
    hide Step, CoreOk, CanStep, Calling, Queueing, Done;
  }

  /** What is popped is the first control frame, or a frame of a stream, which answers nothing. */
  lemma QueuedAnswers(t: Table, o: Output, d: Due)
    requires TableOk(t) && OutOk(t, o) && Pop(o.sched, o.win).Served?
    ensures var r := Pop(o.sched, o.win);
            Queueing(r.sched.control, d) + Answer(r.frame.write, d) == Queueing(o.sched.control, d)
  {
    DequeueOk(t, o);
    PoppedControl(o);
    hide TableOk, OutOk, Pop;
  }

  lemma PoppedControl(o: Output)
    requires OutputOk(o) && Pop(o.sched, o.win).Served?
    ensures var q, r := o.sched.control, Pop(o.sched, o.win);
            if q != [] then r.frame == q[0] && r.sched.control == q[1..] else r.sched.control == q && r.frame.stream.Some?
  {
    if o.sched.control == [] {
      var k := FirstReady(o.sched, o.win, 0);
      ConsumeHeadExact(o.sched.queues[o.sched.order[k]], MAX_INT32, o.win);
    }
  }

  /** What an action asks for is added to what is to come, and what it does is taken away. */
  lemma StepDue(s: Conn, c: Choice, d: Due)
    requires Sound(s) && CanStep(s)
    ensures Coming(Step(s, c), d) + Done(s, Step(s, c), Internal(c), d) == Coming(s, d) + Asked(s, Internal(c), d)
  {
    hide Coming;
    if Next(s) == None {
      RoundDue(s, c, d);
    } else if Step(s, c).panic.Some? {
      PanicDue(s, c, d);
    } else if Next(s).value.Start? {
      StartDue(s, c, d);
    } else if Plain(Next(s).value) {
      PlainDue(s, c, d);
    } else {
      QuietDue(s, c, d);
    }
  }

  lemma QuietDue(s: Conn, c: Choice, d: Due)
    requires CoreOk(s) && CanStep(s) && (Next(s) == Some(Schedule) || Next(s) == Some(ClearFlush))
    ensures Coming(Step(s, c), d) == Coming(s, d)
  {
    CallingRest(s, d);
    hide TableOk, OutOk, TasksOk;
  }

  lemma PanicDue(s: Conn, c: Choice, d: Due)
    requires Sound(s) && CanStep(s) && Next(s).Some? && Step(s, c).panic.Some?
    ensures Coming(Step(s, c), d) + DoneBy(Next(s).value, d) == Coming(s, d) + AsksInside(s, Next(s).value, c, d)
  {
    StepPanics(s, c);
    CallingRest(s, d);
    PanicRest(s, c);
    hide Sound, CanStep, Step, DueTasks;
  }

  /** A panic leaves all but the call that led to it. */
  lemma PanicRest(s: Conn, c: Choice)
    requires Sound(s) && CanStep(s) && Step(s, c).panic.Some?
    ensures Next(s).Some? && Step(s, c) == Rest(s).(panic := Step(s, c).panic)
  {
    StepPanics(s, c);
    var k := Next(s).value;
    if k.Start? {
      StartPanicked(Rest(s), k.wr, c);
    }
    hide Sound, DoStart, OutputOk, TaskOk, StateOf;
  }

  lemma StartPanicked(s: Conn, wr: Request, c: Choice)
    requires s.table.maxPush + 2 !in s.out.sched.queues && s.panic == None && DoStart(s, wr, c).panic.Some?
    ensures DoStart(s, wr, c) == s.(panic := DoStart(s, wr, c).panic)
  {
  }

  // ----- The first error

  /** The error the connection ends with, be it about to be noted: 0 if there is none. */
  function ErrorOf(s: Conn): nat {
    if s.going.code != 0 then s.going.code else if s.outer != [] && s.outer[0].GoAwayNow? then s.outer[0].code else 0
  }

  /** Calls that leave the connection without an error. */
  predicate NoCode(ts: seq<Task>) {
    forall i :: 0 <= i < |ts| && ts[i].GoAwayNow? ==> ts[i].code == 0
  }

  /** Queues and windows are those of the same streams; only the next call leaves with an error; and
      without an error the windows are in their bounds. */
  ghost predicate Tidy(s: Conn) {
    && s.out.win.streams.Keys == s.out.sched.queues.Keys
    && (s.going.code != 0 ==> s.going.inGoAway)
    && (s.outer != [] ==> NoCode(s.outer[1..]))
    && (ErrorOf(s) == 0 ==> WindowsIn(s.peer.initialWindow, s.out.win))
  }

  /** Carrying out a call notes the error it names, unless there was one. */
  lemma GoingDo(s: Conn, k: Task, c: Choice)
    requires TaskOk(s.table, k) && s.table.maxPush + 2 !in s.out.sched.queues && (s.going.code != 0 ==> s.going.inGoAway)
    ensures var g := Do(s, k, c).going;
            && g.code == (if k.GoAwayNow? && s.going.code == 0 then k.code else s.going.code)
            && (g.code != 0 ==> g.inGoAway)
  {
    hide TaskOk, Enqueue, CloseQueue, Finished, Farewell, InPlace, Used, HalfClosed, RemoveStream, NoteHeaders, StateOf;
  }

  lemma NoCodePushes(s: Conn, k: Task, c: Choice)
    ensures NoCode(Pushes(s, k, c))
  {
  }

  /** What a step does to the calls outside the loop. */
  lemma StepOuter(s: Conn, c: Choice)
    requires Sound(s) && CanStep(s) && !s.inLoop
    ensures var outer := Step(s, c).outer;
            s.outer != [] && (outer == s.outer[1..] || outer == Pushes(Rest(s), s.outer[0], c) + s.outer[1..])
  {
    if Step(s, c).panic.Some? {
      PanicRest(s, c);
    } else {
      assert OuterOk(s.outer, 0);
      if Plain(s.outer[0]) {
        DoPushes(Rest(s), s.outer[0], c);
      }
    }
  }

  lemma StepNoCode(s: Conn, c: Choice)
    requires Sound(s) && CanStep(s) && !s.inLoop && NoCode(s.outer[1..])
    ensures NoCode(Step(s, c).outer)
  {
    StepOuter(s, c);
    NoCodePushes(Rest(s), s.outer[0], c);
    hide Step, Sound, CanStep, Pushes;
  }

  lemma InnerNoCode(s: Conn)
    requires Sound(s) && s.inLoop && Next(s).Some? && Next(s).value.GoAwayNow?
    ensures Next(s).value.code == 0
  {
    assert LoopTask(s.inner[0]);
  }

  lemma OuterStays(s: Conn, c: Choice)
    requires Sound(s) && CanStep(s) && s.inLoop
    ensures Step(s, c).outer == s.outer
  {
    if Step(s, c).panic.Some? {
      PanicRest(s, c);
    } else {
      LoopOuter(s, c);
    }
  }

  lemma StepCode(s: Conn, c: Choice)
    requires Sound(s) && CanStep(s) && (s.going.code != 0 ==> s.going.inGoAway)
    ensures var g := Step(s, c).going;
            && g.code == (if Next(s).Some? && Next(s).value.GoAwayNow? && s.going.code == 0 then Next(s).value.code else s.going.code)
            && (g.code != 0 ==> g.inGoAway)
  {
    if Next(s).Some? {
      GoingDo(Rest(s), Next(s).value, c);
    } else {
      Round(s, c);
    }
  }

  /** A step neither adds an error nor forgets one. */
  lemma StepError(s: Conn, c: Choice)
    requires Sound(s) && CanStep(s) && Tidy(s)
    ensures ErrorOf(Step(s, c)) == ErrorOf(s)
    ensures (Step(s, c).outer != [] ==> NoCode(Step(s, c).outer[1..])) && (Step(s, c).going.code != 0 ==> Step(s, c).going.inGoAway)
  {
    StepCode(s, c);
    if s.inLoop {
      OuterStays(s, c);
      if Next(s).Some? && Next(s).value.GoAwayNow? {
        InnerNoCode(s);
      }
    } else {
      StepOuter(s, c);
      StepNoCode(s, c);
    }
    hide Step, Sound, CanStep, Pushes;
  }

  // ----- The send windows

  /** What is in the window of a stream beyond the window that was announced last. */
  function Balance(s: Conn, id: nat): int {
    if id in s.out.win.streams then s.out.win.streams[id] - s.peer.initialWindow else 0
  }

  /** The bytes of DATA that are started with a step, on a stream or, for 0, on any. */
  function SentBy(s: Conn, s': Conn, id: nat): nat {
    match Handed(s, s')
    case Some(f) => if id == 0 || f.stream == Some(id) then f.DataSize() else 0
    case None => 0
  }

  predicate Grown(w: Windows, w': Windows, id: nat, window: int) {
    w' == w.(streams := w.streams[id := window]) && id !in w.streams
  }

  /** A frame that is started takes its bytes; else a window is new, or goes away, or none changes. */
  predicate WindowStep(s: Conn, s': Conn) {
    var w, w' := s.out.win, s'.out.win;
    match Handed(s, s')
    case Some(f) => Spent(w, w', f)
    case None =>
      || w' == w || Grown(w, w', s.table.maxPush + 2, s.peer.initialWindow)
      || (Next(s).Some? && Next(s).value.SchedClose? && w' == w.(streams := w.streams - {Next(s).value.id}))
  }

  lemma NoneComes(s: Conn, s': Conn, id: nat)
    requires WindowStep(s, s') && id !in s.out.win.streams && id != s.table.maxPush + 2
    ensures id !in s'.out.win.streams
  {
  }

  /** What a call does to the windows. */
  lemma DoWindows(s: Conn, k: Task, c: Choice)
    requires TableOk(s.table) && OutOk(s.table, s.out) && TaskOk(s.table, k) && s.table.maxPush + 2 !in s.out.sched.queues
    requires s.out.win.streams.Keys == s.out.sched.queues.Keys
    ensures var w, o' := s.out.win, Do(s, k, c).out;
            && o'.win.streams.Keys == o'.sched.queues.Keys
            && (|| o'.win == w || Grown(w, o'.win, s.table.maxPush + 2, s.peer.initialWindow)
                || (k.SchedClose? && o'.win == w.(streams := w.streams - {k.id})))
  {
    if k.Write? {
      WriteKeys(s, k.wr);
    } else if k.Start? {
      StartOutput(s, k.wr, c);
    } else if k.CloseNow? || k.SchedClose? {
      ClosingKeys(s, k, c);
    } else {
      OutStays(s, k, c);
    }
    hide TableOk, OutOk, Do;
  }

  lemma PeerDo(s: Conn, k: Task, c: Choice)
    requires TaskOk(s.table, k) && s.table.maxPush + 2 !in s.out.sched.queues
    ensures Do(s, k, c).peer == if k.DisablePush? then s.peer.(pushEnabled := false) else s.peer
  {
    hide TaskOk, Enqueue, CloseQueue, Finished, Farewell;
  }

  lemma ClosingKeys(s: Conn, k: Task, c: Choice)
    requires TaskOk(s.table, k) && s.table.maxPush + 2 !in s.out.sched.queues && (k.CloseNow? || k.SchedClose?)
    requires s.out.win.streams.Keys == s.out.sched.queues.Keys
    ensures var w, o' := s.out.win, Do(s, k, c).out;
            && o'.win.streams.Keys == o'.sched.queues.Keys
            && o'.win == if k.SchedClose? then w.(streams := w.streams - {k.id}) else w
  {
  }

  lemma WriteKeys(s: Conn, wr: Request)
    requires TableOk(s.table) && OutOk(s.table, s.out) && WriterOk(s.table, wr)
    ensures DoWrite(s, wr).out.win == s.out.win && DoWrite(s, wr).out.sched.queues.Keys == s.out.sched.queues.Keys
  {
  }

  /** What a step does to the windows. */
  lemma StepWindows(s: Conn, c: Choice)
    requires Sound(s) && CanStep(s) && Tidy(s)
    ensures var s' := Step(s, c);
            && s'.out.win.streams.Keys == s'.out.sched.queues.Keys
            && s'.peer == (if Next(s) == Some(DisablePush) then s.peer.(pushEnabled := false) else s.peer) && WindowStep(s, s')
  {
    if Next(s).Some? {
      CoreCanStep(s);
      hide Do, Sound, OutOk, TableOk, TasksOk, ShapeOk, FlagsOk, TaskOk;
      DoWindows(Rest(s), Next(s).value, c);
      PeerDo(Rest(s), Next(s).value, c);
    } else {
      RoundWindows(s, c);
    }
  }

  lemma RoundWindows(s: Conn, c: Choice)
    requires CoreOk(s) && CanStep(s) && Next(s) == None && s.out.win.streams.Keys == s.out.sched.queues.Keys
    ensures var s' := Step(s, c);
            && s'.out.win.streams.Keys == s'.out.sched.queues.Keys && s'.peer == s.peer
            && match Handed(s, s')
               case Some(f) => Spent(s.out.win, s'.out.win, f)
               case None => s'.out.win == s.out.win
  {
    Round(s, c);
    PopOk(s.out.sched, s.out.win);
    hide Step, Pop, CoreOk;
  }

  lemma StepIn(s: Conn, s': Conn)
    requires WindowStep(s, s') && s'.peer.initialWindow == s.peer.initialWindow && WindowsIn(s.peer.initialWindow, s.out.win)
    ensures WindowsIn(s'.peer.initialWindow, s'.out.win)
  {
    hide Handed;
  }

  lemma StepTidy(s: Conn, c: Choice)
    requires Sound(s) && CanStep(s) && Tidy(s)
    ensures Tidy(Step(s, c))
  {
    StepWindows(s, c);
    StepError(s, c);
    hide Step, Sound, CanStep, ErrorOf, NoCode, WindowStep, WindowsIn;
    if ErrorOf(s) == 0 {
      StepIn(s, Step(s, c));
    }
  }

  lemma BalanceMoves(s: Conn, s': Conn, id: nat)
    requires WindowStep(s, s') && s'.peer.initialWindow == s.peer.initialWindow && id != 0
    ensures s'.out.win.conn == s.out.win.conn - SentBy(s, s', 0)
    ensures id in s'.out.win.streams ==> Balance(s', id) == Balance(s, id) - SentBy(s, s', id)
  {
    hide Handed;
  }

  /** Each step takes from a window what it starts; a window that is new holds what was announced. */
  lemma StepBalance(s: Conn, c: Choice, id: nat)
    requires Sound(s) && CanStep(s) && Tidy(s) && id != 0
    ensures var s' := Step(s, c);
            && s'.out.win.conn == s.out.win.conn - SentBy(s, s', 0)
            && (id in s'.out.win.streams ==> Balance(s', id) == Balance(s, id) - SentBy(s, s', id))
  {
    StepWindows(s, c);
    hide Step, Sound, CanStep, Tidy, WindowStep, Balance, SentBy, Next;
    BalanceMoves(s, Step(s, c), id);
  }

  // ----- Messages

  lemma SettledReady(s: Conn)
    requires Sound(s) && Ready(s) && Tidy(s)
    ensures Settled(s)
  {
    QueuesSeen(s.table, s.out);
    forall id | id in s.table.streams
      ensures Tracked(s.table, id) && id in s.out.sched.queues
    {
    }
    hide WindowsIn, PendingOk;
  }

  lemma {:induction false} DueMember(ts: seq<Task>, d: Due, i: nat)
    requires i < |ts| && DueOf(ts[i], d) > 0
    ensures DueTasks(ts, d) > 0
  {
    if i > 0 {
      DueMember(ts[1..], d, i - 1);
    }
  }

  lemma {:induction false} DueExists(ts: seq<Task>, d: Due) returns (i: nat)
    requires DueTasks(ts, d) > 0
    ensures i < |ts| && DueOf(ts[i], d) > 0
  {
    i := 0;
    if DueOf(ts[0], d) == 0 {
      var j := DueExists(ts[1..], d);
      i := j + 1;
    }
  }

  lemma LeavesOnly(s: Conn, e: Event, code: nat)
    requires code != 0
    ensures Asks(s, e, Leaving(code)) > 0 <==> Fatal(s, e) == Some(code)
  {
    if !FromClient(e) {
      Unheard(s, e);
    }
    hide Refuses, Early, Late, Known, Faulty, Overflows, OnEnded, Accepted;
  }

  lemma LeavingTask(k: Task, code: nat)
    ensures DueOf(k, Leaving(code)) > 0 <==> k == GoAwayNow(code)
  {
  }

  /** An error is the only call that a message makes. */
  lemma FirstTask(ts: seq<Task>, i: nat)
    requires EventTasks(ts) && i < |ts| && ts[i].GoAwayNow?
    ensures i == 0
  {
  }

  function CodeOf(error: Option<nat>): nat {
    match error
    case Some(code) => code
    case None => 0
  }

  lemma FatalCodes(s: Conn, e: Event)
    ensures Fatal(s, e).Some? ==> Fatal(s, e).value != 0
  {
  }

  /** A message names its error as the call that comes next. */
  lemma OnError(s: Conn, e: Event)
    requires Settled(s) && Possible(s, e)
    ensures var ts := On(s, e).outer;
            && (ts != [] ==> NoCode(ts[1..])) && On(s, e).going == s.going
            && CodeOf(Fatal(s, e)) == if ts != [] && ts[0].GoAwayNow? then ts[0].code else 0
  {
    OnShape(s, e);
    FatalCodes(s, e);
    var ts := On(s, e).outer;
    TailNoCode(ts);
    hide On, Fatal, Settled, Possible, EventTasks, NoCode;
    if Fatal(s, e).Some? {
      OnErrorTask(s, e, Fatal(s, e).value);
    } else if ts != [] && ts[0].GoAwayNow? && ts[0].code != 0 {
      OnErrorTask(s, e, ts[0].code);
    }
  }

  lemma OnShape(s: Conn, e: Event)
    requires Settled(s) && Possible(s, e)
    ensures EventTasks(On(s, e).outer) && On(s, e).going == s.going
  {
    OnTasks(s, e);
    OnAnswered(s, e, ConnCredit);
    hide On, Asks, DueTasks, Settled, Possible;
  }

  lemma TailNoCode(ts: seq<Task>)
    requires EventTasks(ts)
    ensures ts != [] ==> NoCode(ts[1..])
  {
  }

  /** Of the calls that a message makes, the first leaves with this error exactly if it is one. */
  lemma ErrorTask(s: Conn, e: Event, ts: seq<Task>, code: nat)
    requires code != 0 && EventTasks(ts) && DueTasks(ts, Leaving(code)) == Asks(s, e, Leaving(code))
    ensures Fatal(s, e) == Some(code) <==> ts != [] && ts[0] == GoAwayNow(code)
  {
    hide Fatal, Asks, DueTasks, EventTasks;
    LeavesOnly(s, e, code);
    if Fatal(s, e) == Some(code) {
      var i := DueExists(ts, Leaving(code));
      LeavingTask(ts[i], code);
      FirstTask(ts, i);
    }
    if ts != [] && ts[0] == GoAwayNow(code) {
      LeavingTask(ts[0], code);
      DueMember(ts, Leaving(code), 0);
    }
  }

  lemma OnErrorTask(s: Conn, e: Event, code: nat)
    requires Settled(s) && Possible(s, e) && code != 0
    ensures Fatal(s, e) == Some(code) <==> On(s, e).outer != [] && On(s, e).outer[0] == GoAwayNow(code)
  {
    OnShape(s, e);
    OnAnswered(s, e, Leaving(code));
    ErrorTask(s, e, On(s, e).outer, code);
    hide *;
  }

  /** The increment that a message adds to a window; 0 is that of the connection. */
  ghost function GrantedBy(s: Conn, a: Action, id: nat): nat {
    if a.External? && Grants(s, a.e) && a.e.id == id then a.e.n else 0
  }

  /** What the client announced last: the limit of pushed streams, the window of a stream, or the
      size of a frame. */
  function Current(s: Conn, x: nat): int {
    if x == 3 then s.peer.maxStreams else if x == 4 then s.peer.initialWindow else s.out.win.maxFrameSize
  }

  ghost function AnnouncedBy(s: Conn, a: Action, x: nat, before: int): int {
    if a.External? && Agrees(s, a.e) then Value(a.e.settings, x, before) else before
  }

  /** What a message leaves of the windows. */
  lemma OnOut(s: Conn, e: Event)
    requires Settled(s) && Possible(s, e)
    ensures OutAfter(s, e, On(s, e).out) && PeerAfter(s, e, On(s, e))
    ensures On(s, e).needToSendSettingsAck == (s.needToSendSettingsAck || Agrees(s, e))
    ensures e.ReadSettings? && Heard(s, e) && Fatal(s, e) == None ==> Agrees(s, e)
  {
    OnAnswered(s, e, ConnCredit);
    hide On, Asks, DueTasks, OutAfter, PeerAfter, Refuses, Heard;
  }

  lemma OpensFresh(s: Conn, e: Event)
    requires Settled(s) && Opens(s, e)
    ensures e.ReadHeaders? && e.id !in s.out.sched.queues && !Grants(s, e) && e.id != 0
    ensures e.id > s.table.maxClient && e.id % 2 == 1
  {
    assert !Seen(s.table, e.id);
  }

  lemma OnWindows(s: Conn, e: Event)
    requires Settled(s) && Possible(s, e) && s.out.win.streams.Keys == s.out.sched.queues.Keys
    ensures var s' := On(s, e);
            && s'.out.win.streams.Keys == s'.out.sched.queues.Keys
            && (Fatal(s, e) == None && WindowsIn(s.peer.initialWindow, s.out.win) ==> WindowsIn(s'.peer.initialWindow, s'.out.win))
  {
    OnOut(s, e);
    if Opens(s, e) {
      OpensFresh(s, e);
    }
    hide On, Fatal, Opens, Heard, Agrees, Settled, Possible, AllApplied;
  }

  lemma OnTidy(s: Conn, e: Event)
    requires Settled(s) && Possible(s, e) && Ready(s) && Tidy(s)
    ensures Tidy(On(s, e)) && ErrorOf(On(s, e)) == if ErrorOf(s) != 0 then ErrorOf(s) else CodeOf(Fatal(s, e))
  {
    OnError(s, e);
    FatalCodes(s, e);
    OnWindows(s, e);
    hide On, Fatal, Settled, Possible, WindowsIn, NoCode;
  }

  /** Each message adds to a window what it grants, and settings move all windows by the same. */
  lemma OnBalance(s: Conn, e: Event, id: nat)
    requires Settled(s) && Possible(s, e) && s.out.win.streams.Keys == s.out.sched.queues.Keys && id != 0
    ensures var s' := On(s, e);
            && s'.out.win.conn == s.out.win.conn + GrantedBy(s, External(e), 0)
            && (Fatal(s, e) == None && id in s'.out.win.streams ==> Balance(s', id) == Balance(s, id) + GrantedBy(s, External(e), id))
  {
    OnOut(s, e);
    if Opens(s, e) {
      OpensFresh(s, e);
    }
    GrantsIf(s, e);
    hide On, Fatal, Opens, Heard, Agrees, Settled, Possible, Value, Grants, Known;
  }

  lemma GrantsIf(s: Conn, e: Event)
    ensures Grants(s, e) ==> e.ReadWindowUpdate? && IdOf(e) == e.id && (e.id != 0 ==> e.id in s.out.win.streams) && !Opens(s, e)
  {
  }

  lemma OnAnnounced(s: Conn, e: Event, x: nat)
    requires Settled(s) && Possible(s, e) && (x == 3 || x == 4 || x == 5)
    ensures Fatal(s, e) == None ==> Current(On(s, e), x) == AnnouncedBy(s, External(e), x, Current(s, x))
  {
    OnOut(s, e);
    hide On, Fatal, Opens, Heard, Agrees, Settled, Possible, Value, Grants, WindowsIn;
  }

  // ----- One action

  lemma ActTidy(s: Conn, a: Action)
    requires Inv(s) && MayAct(s, a) && Tidy(s)
    ensures Tidy(Act(s, a))
    ensures ErrorOf(Act(s, a)) == if ErrorOf(s) != 0 then ErrorOf(s) else if a.External? then CodeOf(Fatal(s, a.e)) else 0
  {
    CanAct(s);
    match a
    case Internal(c) =>
      StepTidy(s, c);
      StepError(s, c);
      hide *;
    case External(e) =>
      SettledReady(s);
      OnTidy(s, e);
      hide *;
  }

  lemma ActDue(s: Conn, a: Action, d: Due)
    requires Inv(s) && MayAct(s, a) && Tidy(s)
    ensures Coming(Act(s, a), d) + Done(s, Act(s, a), a, d) == Coming(s, d) + Asked(s, a, d)
  {
    CanAct(s);
    match a
    case Internal(c) =>
      StepDue(s, c, d);
      hide *;
    case External(e) =>
      SettledReady(s);
      OnDue(s, e, d);
  }

  lemma OnDue(s: Conn, e: Event, d: Due)
    requires Settled(s) && Possible(s, e)
    ensures Coming(On(s, e), d) == Coming(s, d) + Asks(s, e, d)
  {
    OnAnswered(s, e, d);
    OnTasks(s, e);
    OnOut(s, e);
    hide On, Asks, StateAfter, Possible, PeerAfter, WindowsIn;
  }

  lemma ActBalance(s: Conn, a: Action, id: nat)
    requires Inv(s) && MayAct(s, a) && Tidy(s) && id != 0
    ensures var s' := Act(s, a);
            && s'.out.win.conn == s.out.win.conn + GrantedBy(s, a, 0) - SentBy(s, s', 0)
            && (ErrorOf(s') == 0 && id in s'.out.win.streams ==> Balance(s', id) == Balance(s, id) + GrantedBy(s, a, id) - SentBy(s, s', id))
  {
    CanAct(s);
    match a
    case Internal(c) =>
      StepBalance(s, c, id);
      hide Step, Sound, Tidy, SentBy, Balance;
    case External(e) =>
      SettledReady(s);
      OnBalance(s, e, id);
      OnTidy(s, e);
      FatalCodes(s, e);
      hide On, Sound, Tidy, Balance, Settled, Possible, Fatal, ErrorOf, Grants;
  }

  lemma StepAnnounced(s: Conn, c: Choice, x: nat)
    requires Sound(s) && CanStep(s) && Tidy(s)
    ensures Current(Step(s, c), x) == Current(s, x)
  {
    StepWindows(s, c);
    hide Step, Sound, Tidy, CanStep, Handed, Next;
  }

  lemma ActAnnounced(s: Conn, a: Action, x: nat)
    requires Inv(s) && MayAct(s, a) && Tidy(s) && (x == 3 || x == 4 || x == 5)
    ensures ErrorOf(Act(s, a)) == 0 ==> Current(Act(s, a), x) == AnnouncedBy(s, a, x, Current(s, x))
  {
    CanAct(s);
    match a
    case Internal(c) =>
      StepAnnounced(s, c, x);
      hide Step, Sound, Tidy, Current;
    case External(e) =>
      SettledReady(s);
      OnAnnounced(s, e, x);
      OnTidy(s, e);
      FatalCodes(s, e);
      hide On, Sound, Tidy, Settled, Possible, Fatal, ErrorOf, Agrees, Current;
  }

  lemma ActAck(s: Conn, a: Action)
    requires Inv(s) && MayAct(s, a) && Tidy(s)
    ensures Act(s, a).needToSendSettingsAck == AckAfter(s, a, s.needToSendSettingsAck)
  {
    CanAct(s);
    match a
    case Internal(c) =>
      StepAck(s, c);
      hide Step, Sound, Tidy, Handed;
    case External(e) =>
      SettledReady(s);
      OnOut(s, e);
      hide On, Sound, Tidy, Settled, Possible, Agrees;
  }

  /** An acknowledgement of SETTINGS is due once they are accepted, until one is started. */
  ghost function AckAfter(s: Conn, a: Action, due: bool): bool
    requires Inv(s) && MayAct(s, a)
  {
    if a.External? then due || Agrees(s, a.e)
    else
      var f := Handed(s, Act(s, a));
      due && !(f.Some? && f.value.write.SettingsAck?)
  }

  lemma StepAck(s: Conn, c: Choice)
    requires Sound(s) && CanStep(s)
    ensures var f := Handed(s, Step(s, c));
            Step(s, c).needToSendSettingsAck == (s.needToSendSettingsAck && !(f.Some? && f.value.write.SettingsAck?))
  {
    if Next(s).Some? {
      AckDo(Rest(s), Next(s).value, c);
    } else {
      Round(s, c);
      hide Step;
    }
  }

  lemma AckDo(s: Conn, k: Task, c: Choice)
    requires TaskOk(s.table, k) && s.table.maxPush + 2 !in s.out.sched.queues
    ensures Do(s, k, c).needToSendSettingsAck == s.needToSendSettingsAck
  {
    hide TaskOk, Enqueue, CloseQueue, Finished, Farewell;
  }

  // ----- Pushes

  /** The client takes pushes, and nothing that was read says otherwise. */
  predicate Pushing(s: Conn) {
    s.peer.pushEnabled && Coming(s, NoPush) == 0
  }

  /** Settings turn pushes on or off; a GOAWAY ends them. */
  ghost predicate PushingAfter(s: Conn, a: Action, before: bool) {
    if a.Internal? then before
    else if Agrees(s, a.e) then Value(a.e.settings, 2, if before then 1 else 0) == 1
    else before && !(a.e.ReadGoAway? && Heard(s, a.e))
  }

  lemma {:induction false} NoPushQueued(q: seq<Request>)
    ensures Queueing(q, NoPush) == 0
  {
    if q != [] {
      NoPushQueued(q[1..]);
    }
  }

  lemma AsksNoPush(s: Conn, e: Event)
    ensures Asks(s, e, NoPush) == if e.ReadGoAway? && Heard(s, e) then 1 else 0
  {
    hide Fatal, Faulty, Overflows, OnEnded, NewRequest, Opens, Accepted, Counted, Trailers, Heard, Known;
  }

  lemma StepNoPush(s: Conn, c: Choice)
    requires Sound(s) && CanStep(s)
    ensures Coming(Step(s, c), NoPush) + (if Next(s) == Some(DisablePush) then 1 else 0) == Coming(s, NoPush)
  {
    hide Step, Sound, CanStep, Coming, Next;
    StepDue(s, c, NoPush);
  }

  lemma StepPushing(s: Conn, c: Choice)
    requires Sound(s) && CanStep(s) && Tidy(s)
    ensures Pushing(Step(s, c)) == Pushing(s)
  {
    StepNoPush(s, c);
    StepWindows(s, c);
    hide Step, Sound, CanStep, Tidy, Coming, Next, WindowStep;
  }

  lemma OnPushing(s: Conn, e: Event)
    requires Settled(s) && Possible(s, e) && Ready(s)
    ensures Fatal(s, e) == None ==> Pushing(On(s, e)) == PushingAfter(s, External(e), Pushing(s))
  {
    OnOut(s, e);
    OnDue(s, e, NoPush);
    AsksNoPush(s, e);
    NoPushQueued(s.out.sched.control);
    assert Coming(s, NoPush) == 0;
    hide On, Settled, Possible, Fatal, Agrees, Heard, WindowsIn, Queueing, Asks;
  }

  lemma ActPushing(s: Conn, a: Action)
    requires Inv(s) && MayAct(s, a) && Tidy(s)
    ensures ErrorOf(Act(s, a)) == 0 ==> Pushing(Act(s, a)) == PushingAfter(s, a, Pushing(s))
  {
    CanAct(s);
    match a
    case Internal(c) =>
      StepPushing(s, c);
      hide Step, Sound, Tidy, Pushing;
    case External(e) =>
      SettledReady(s);
      OnPushing(s, e);
      OnTidy(s, e);
      FatalCodes(s, e);
      hide On, Sound, Tidy, Settled, Possible, Fatal, ErrorOf, Agrees, Pushing;
  }
}
