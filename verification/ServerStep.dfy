/** What every step and every event of the server keeps. */
module ServerSteps {
  import opened Foundations
  import opened WriteQueues
  import opened ServerConns
  import opened ServerEvents
  import opened ServerTables
  import opened ServerLoops
  import opened ServerOutputs

  /** The table, the scheduler and the calls are in order. */
  ghost predicate CoreOk(s: Conn) {
    && TableOk(s.table) && OutOk(s.table, s.out)
    && TasksOk(s.table, s.inner) && TasksOk(s.table, s.outer)
    && (s.flags.inFlight.Some? ==> WriterOk(s.table, s.flags.inFlight.value))
    && ShapeOk(s) && FlagsOk(s)
  }

  lemma CoreCanStep(s: Conn)
    requires CoreOk(s) && Busy(s)
    ensures CanStep(s)
    ensures Next(s).Some? ==> TaskOk(Rest(s).table, Next(s).value) && Rest(s).table.maxPush + 2 !in Rest(s).out.sched.queues
  {
    QueuesSeen(s.table, s.out);
  }

  // ----- The scheduler

  lemma WriteOut(s: Conn, wr: Request)
    requires TableOk(s.table) && OutOk(s.table, s.out) && WriterOk(s.table, wr) && Queued(wr) && s.panic == None
    ensures DoWrite(s, wr).panic == None && OutOk(DoWrite(s, wr).table, DoWrite(s, wr).out)
  {
    NoteHeadersOk(s.table, wr);
    if !Ignored(s.table, wr) {
      EnqueueOk(s.table, s.out, wr);
      SameStreams(s.table, NoteHeaders(s.table, wr), Enqueue(s.out, wr));
    } else {
      SameStreams(s.table, NoteHeaders(s.table, wr), s.out);
    }
  }

  lemma StartOut(s: Conn, wr: Request, c: Choice)
    requires TableOk(s.table) && OutOk(s.table, s.out) && s.table.maxPush + 2 !in s.out.sched.queues
    ensures OutOk(DoStart(s, wr, c).table, DoStart(s, wr, c).out)
  {
    var id := s.table.maxPush + 2;
    NewPushOk(s.table, id);
    OpenQueueOk(s.table, Promise(s).table, s.out, id, s.peer.initialWindow);
    StartOutput(s, wr, c);
  }

  lemma StartOutput(s: Conn, wr: Request, c: Choice)
    requires s.table.maxPush + 2 !in s.out.sched.queues
    ensures var s' := DoStart(s, wr, c);
            (s'.table == s.table && s'.out == s.out) || (s'.table == Promise(s).table && s'.out == Promise(s).out)
  {
  }

  lemma CloseOut(s: Conn, id: nat, c: Choice)
    requires TableOk(s.table) && OutOk(s.table, s.out)
    ensures OutOk(DoClose(s, id, c).table, DoClose(s, id, c).out)
  {
    if id in s.table.streams {
      ClosingStarts(s.table, s.out, id);
    }
  }

  predicate ChangesOut(k: Task) {
    k.Write? || k.Start? || k.CloseNow? || k.SchedClose?
  }

  lemma DoOut(s: Conn, k: Task, c: Choice)
    requires TableOk(s.table) && OutOk(s.table, s.out) && TaskOk(s.table, k) && s.panic == None
    requires s.table.maxPush + 2 !in s.out.sched.queues
    ensures OutOk(Do(s, k, c).table, Do(s, k, c).out)
  {
    if k.Write? {
      WriteOut(s, k.wr);
    } else if k.Start? {
      StartOut(s, k.wr, c);
    } else if k.CloseNow? {
      CloseOut(s, k.id, c);
    } else if k.SchedClose? {
      CloseQueueOk(s.table, s.out, k.id);
    } else {
      OutStays(s, k, c);
      DoTable(s, k, c);
      SameStreams(s.table, Do(s, k, c).table, s.out);
    }
  }

  lemma OutStays(s: Conn, k: Task, c: Choice)
    requires TaskOk(s.table, k) && s.table.maxPush + 2 !in s.out.sched.queues && !ChangesOut(k)
    ensures Do(s, k, c).out == s.out && Do(s, k, c).table.streams.Keys == s.table.streams.Keys
  {
  }

  // ----- Calls

  /** The calls that a call makes speak of streams that are not idle. */
  lemma PushedTasks(s: Conn, k: Task, c: Choice)
    requires TableOk(s.table) && TaskOk(s.table, k) && s.table.maxPush + 2 !in s.out.sched.queues && Plain(k)
    requires k.CloseNow? ==> k.id in s.table.streams
    ensures TasksOk(Do(s, k, c).table, Pushes(s, k, c))
  {
    DoTable(s, k, c);
    if k.CloseNow? {
      assert Tracked(s.table, k.id);
      hide DoWrite, DoWrote, DoSchedule, TableOk;
    } else if k.Wrote? && k.wr.write.StreamError? && k.wr.write.streamID in s.table.streams {
      assert Tracked(s.table, k.wr.write.streamID);
      hide Do, TableOk;
      TasksStay(s.table, Do(s, k, c).table, Pushes(s, k, c));
    } else {
      hide Do, TableOk;
      TasksStay(s.table, Do(s, k, c).table, Pushes(s, k, c));
    }
  }

  /** The calls of a state, and the frame in flight. */
  ghost predicate CallsOk(s: Conn) {
    && TasksOk(s.table, s.inner) && TasksOk(s.table, s.outer)
    && (s.flags.inFlight.Some? ==> WriterOk(s.table, s.flags.inFlight.value))
  }

  lemma CallsPushed(s: Conn, s': Conn, ts: seq<Task>)
    requires CallsOk(s) && Next(s).Some? && Pushed(Rest(s), s', ts) && TasksOk(s'.table, ts)
    requires TableOk(s.table) && TableOk(s'.table) && AllForward(s.table, s'.table)
    requires s'.flags.inFlight == s.flags.inFlight || (s'.flags.inFlight.Some? && WriterOk(s'.table, s'.flags.inFlight.value))
    ensures CallsOk(s')
  {
    TasksStay(s.table, s'.table, s.inner);
    TasksStay(s.table, s'.table, s.outer);
    if s.flags.inFlight.Some? {
      WriterStays(s.table, s'.table, s.flags.inFlight.value);
    }
  }

  lemma PlainCalls(s: Conn, c: Choice)
    requires CoreOk(s) && CanStep(s) && Next(s).Some? && Plain(Next(s).value) && Step(s, c).panic == None
    ensures CallsOk(Step(s, c))
  {
    PlainPushed(s, c);
    hide TableOk, OutOk, WriterOk, ShapeOk, FlagsOk;
    CallsPushed(s, Step(s, c), Pushes(Rest(s), Next(s).value, c));
  }

  lemma PlainPushed(s: Conn, c: Choice)
    requires CoreOk(s) && CanStep(s) && Next(s).Some? && Plain(Next(s).value) && Step(s, c).panic == None
    ensures var s', ts := Step(s, c), Pushes(Rest(s), Next(s).value, c);
            && Pushed(Rest(s), s', ts) && TasksOk(s'.table, ts)
            && TableOk(s'.table) && AllForward(s.table, s'.table) && s'.flags.inFlight == s.flags.inFlight
  {
    var k := Next(s).value;
    DoPushes(Rest(s), k, c);
    DoTable(Rest(s), k, c);
    PushedTasks(Rest(s), k, c);
  }

  lemma StartCalls(s: Conn, c: Choice)
    requires CoreOk(s) && CanStep(s) && Next(s).Some? && Next(s).value.Start? && Step(s, c).panic == None
    ensures CallsOk(Step(s, c))
  {
    var wr := Next(s).value.wr;
    var s' := Step(s, c);
    StartTable(Rest(s), wr, c);
    StartEffect(Rest(s), wr, c);
    StartedCalls(s, s', wr);
  }

  lemma StartedCalls(s: Conn, s': Conn, wr: Request)
    requires CallsOk(s) && Next(s) == Some(Start(wr)) && Started(Rest(s), s', wr)
    requires TableOk(s.table) && TableOk(s'.table) && AllForward(s.table, s'.table)
    ensures CallsOk(s')
  {
    assert TaskOk(s.table, Start(wr));
    TaskStays(s.table, s'.table, Wrote(wr));
    CallsPushed(s, s', StartPushes(Rest(s), s', wr));
  }

  lemma IterateCalls(s: Conn, c: Choice)
    requires CoreOk(s) && CanStep(s) && Next(s) == None
    ensures CallsOk(Step(s, c)) && OutOk(Step(s, c).table, Step(s, c).out) && Step(s, c).table == s.table
  {
    hide TableOk;
    if Popping(s).Served? {
      DequeueOk(s.table, s.out);
    }
    hide OutOk;
  }

  /** Every step keeps the table, the scheduler and the calls in order. */
  lemma CoreStep(s: Conn, c: Choice)
    requires CoreOk(s) && Busy(s) && CanStep(s) && Step(s, c).panic == None
    ensures CoreOk(Step(s, c)) && AllForward(s.table, Step(s, c).table)
  {
    LoopStep(s, c);
    if Next(s) == None {
      IterateCalls(s, c);
    } else {
      var k := Next(s).value;
      DoTable(Rest(s), k, c);
      DoOut(Rest(s), k, c);
      if k.Start? {
        StartCalls(s, c);
      } else if Plain(k) {
        PlainCalls(s, c);
      } else {
        QuietCalls(s, c);
      }
    }
  }

  lemma QuietCalls(s: Conn, c: Choice)
    requires CoreOk(s) && CanStep(s) && (Next(s) == Some(Schedule) || Next(s) == Some(ClearFlush))
    ensures CallsOk(Step(s, c))
  {
  }

  /** The call that is next once others were put in front of the rest. */
  lemma NextPushed(s: Conn, s': Conn, ts: seq<Task>)
    requires ShapeOk(s) && Next(s).Some? && Pushed(Rest(s), s', ts)
    ensures Next(s') == if ts != [] then Some(ts[0]) else Next(Rest(s))
    ensures Next(Rest(s)).Some? ==> !Next(Rest(s)).value.CloseNow? && !Next(Rest(s)).value.Start?
  {
    assert s.inLoop && |s.inner| > 1 ==> InnerOk(s.inner, 1);
    assert !s.inLoop && |s.outer| > 1 ==> OuterOk(s.outer, 1);
  }

  /** Only the loop starts frames. */
  lemma NoStartNext(s: Conn, c: Choice)
    requires ShapeOk(s) && CanStep(s) && Next(s).Some? && Step(s, c).panic == None
    ensures Next(Step(s, c)).Some? ==> !Next(Step(s, c)).value.Start?
  {
    var k, s' := Next(s).value, Step(s, c);
    if k.Start? {
      StartEffect(Rest(s), k.wr, c);
      NextPushed(s, s', StartPushes(Rest(s), s', k.wr));
    } else if Plain(k) {
      DoPushes(Rest(s), k, c);
      NextPushed(s, s', Pushes(Rest(s), k, c));
    } else {
      EmptyFront(Rest(s));
      NextPushed(s, Rest(s), []);
    }
  }

  /** The calls that the start of a frame makes. */
  function StartPushes(s: Conn, s': Conn, wr: Request): seq<Task> {
    if Pushed(s, s', [Wrote(wr)]) then [Wrote(wr)] else if Pushed(s, s', []) then [] else [GoAwayNow(0)]
  }

  // ----- Events

  lemma NewWindows(t: Table, o: Output, win: Windows)
    requires OutOk(t, o) && win.streams.Keys == o.win.streams.Keys
    ensures OutOk(t, o.(win := win))
  {
  }

  /** HEADERS open at most the queue of a new stream. */
  lemma HeadersOutput(s: Conn, e: Event)
    requires e.ReadHeaders? && forall x :: x in s.out.sched.queues ==> Seen(s.table, x)
    ensures var s' := OnHeaders(s, e.id, e.ended, e.bad, e.refused, e.busy);
            || (s'.out == s.out && s'.table.streams.Keys == s.table.streams.Keys)
            || (e.id !in s.out.sched.queues && s'.out == OpenQueue(s.out, e.id, s.peer.initialWindow)
                && s'.table.streams.Keys == s.table.streams.Keys + {e.id})
  {
    hide OpenQueue;
    if e.id > s.table.maxClient && e.id % 2 == 1 {
      assert !Seen(s.table, e.id);
      if e.id !in s.table.streams {
        RequestOutput(s, e);
      }
    }
  }

  lemma RequestOutput(s: Conn, e: Event)
    requires e.ReadHeaders? && e.id !in s.out.sched.queues
    ensures var s' := OnRequest(s, e.id, e.ended, e.bad, e.refused, e.busy);
            || (s'.out == s.out && s'.table.streams.Keys == s.table.streams.Keys)
            || (s'.out == OpenQueue(s.out, e.id, s.peer.initialWindow) && s'.table.streams.Keys == s.table.streams.Keys + {e.id})
  {
  }

  lemma HeadersCalls(s: Conn, e: Event)
    requires e.ReadHeaders? && forall x :: x in s.out.sched.queues ==> Seen(s.table, x)
    ensures var ts := OnHeaders(s, e.id, e.ended, e.bad, e.refused, e.busy).outer;
            ts == s.outer || ts == [] || (|ts| == 1 && (ts[0].Reset? || ts[0].EndStream? || ts[0].GoAwayNow?))
  {
    HeadersCases(s, e);
    hide OnHeaders;
  }

  lemma HeadersOut(s: Conn, e: Event)
    requires TableOk(s.table) && OutOk(s.table, s.out) && e.ReadHeaders?
    requires forall x :: x in s.out.sched.queues ==> Seen(s.table, x)
    ensures var s' := OnHeaders(s, e.id, e.ended, e.bad, e.refused, e.busy); OutOk(s'.table, s'.out)
  {
    var s' := OnHeaders(s, e.id, e.ended, e.bad, e.refused, e.busy);
    HeadersTable(s, e.id, e.ended, e.bad, e.refused, e.busy);
    HeadersOutput(s, e);
    SameOrOpened(s.table, s'.table, s.out, s'.out, e.id, s.peer.initialWindow);
  }

  lemma SameOrOpened(t: Table, t': Table, o: Output, o': Output, id: nat, window: int)
    requires TableOk(t) && TableOk(t') && AllForward(t, t') && OutOk(t, o)
    requires || (o' == o && t'.streams.Keys == t.streams.Keys)
             || (id !in o.sched.queues && o' == OpenQueue(o, id, window) && t'.streams.Keys == t.streams.Keys + {id})
    ensures OutOk(t', o')
  {
    if o' == o && t'.streams.Keys == t.streams.Keys {
      SameStreams(t, t', o);
    } else {
      OpenQueueOk(t, t', o, id, window);
    }
  }

  /** Other frames change at most the windows. */
  lemma OtherOutput(s: Conn, e: Event)
    requires !e.ReadHeaders? && Possible(s, e) && forall x :: x in s.out.sched.queues ==> Seen(s.table, x)
    ensures var s' := OnFrame(s, e);
            && s'.out == s.out.(win := s'.out.win) && s'.out.win.streams.Keys == s.out.win.streams.Keys
            && s'.table.streams.Keys == s.table.streams.Keys
  {
  }

  lemma FrameOut(s: Conn, e: Event)
    requires TableOk(s.table) && OutOk(s.table, s.out) && Possible(s, e)
    requires forall x :: x in s.out.sched.queues ==> Seen(s.table, x)
    ensures var s' := ProcessFrame(s, e); OutOk(s'.table, s'.out)
  {
    var s1 := s.(peer := s.peer.(sawFirstSettings := true));
    var s' := ProcessFrame(s, e);
    FrameTable(s, e);
    if e.ReadHeaders? && s.peer.sawFirstSettings && !Discards(s, e.id) {
      HeadersOut(s1, e);
    } else {
      FrameOutOther(s, e);
      NewWindows(s.table, s.out, s'.out.win);
      SameStreams(s.table, s'.table, s'.out);
    }
  }

  lemma FrameOutOther(s: Conn, e: Event)
    requires Possible(s, e) && forall x :: x in s.out.sched.queues ==> Seen(s.table, x)
    requires !(e.ReadHeaders? && s.peer.sawFirstSettings && !Discards(s, e.id))
    ensures var s' := ProcessFrame(s, e);
            && s'.out == s.out.(win := s'.out.win) && s'.out.win.streams.Keys == s.out.win.streams.Keys
            && s'.table.streams.Keys == s.table.streams.Keys
  {
    if !e.ReadHeaders? {
      OtherOutput(s.(peer := s.peer.(sawFirstSettings := true)), e);
    }
  }

  lemma OtherCalls(s: Conn, e: Event)
    requires Ready(s) && TableOk(s.table) && !e.ReadHeaders? && forall x :: x in s.out.sched.queues ==> Seen(s.table, x)
    ensures TasksOk(OnFrame(s, e).table, OnFrame(s, e).outer)
  {
    if e.ReadReset? && e.id in s.table.streams {
      assert Tracked(s.table, e.id);
    } else if e.ReadData? && e.id != 0 {
      DataCalls(s.table, e);
    }
  }

  lemma DataCalls(t: Table, e: Event)
    requires TableOk(t) && e.ReadData? && e.id != 0
    ensures TasksOk(t, DataTasks(t, e.id, e.fits, e.tooMuch, e.refused, e.ended))
  {
    assert e.id in t.streams ==> Tracked(t, e.id);
  }

  lemma FrameCalls(s: Conn, e: Event)
    requires Ready(s) && TableOk(s.table) && forall x :: x in s.out.sched.queues ==> Seen(s.table, x)
    ensures TasksOk(ProcessFrame(s, e).table, ProcessFrame(s, e).outer)
  {
    var s1 := s.(peer := s.peer.(sawFirstSettings := true));
    if e.ReadHeaders? {
      HeadersCalls(s1, e);
    } else {
      OtherCalls(s1, e);
    }
  }

  lemma MessageCalls(s: Conn, e: Event)
    requires Ready(s) && CoreOk(s) && Possible(s, e)
    ensures var s' := OnMessage(s, e);
            && s'.table == s.table && s'.out == s.out && TasksOk(s.table, s'.outer)
            && (s'.flags.inFlight == s.flags.inFlight || s'.flags.inFlight == None)
  {
  }

  /** So does every event. */
  lemma CoreOn(s: Conn, e: Event)
    requires Ready(s) && CoreOk(s) && Possible(s, e) && forall x :: x in s.out.sched.queues ==> Seen(s.table, x)
    ensures CoreOk(On(s, e)) && AllForward(s.table, On(s, e).table)
  {
    OnTable(s, e);
    LoopOn(s, e);
    OnTasks(s, e);
    if IsFrame(e) {
      FrameOut(s, e);
      FrameCalls(s, e);
      if s.flags.inFlight.Some? {
        WriterStays(s.table, On(s, e).table, s.flags.inFlight.value);
      }
    } else {
      MessageCalls(s, e);
    }
  }
}
