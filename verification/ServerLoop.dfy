/** The loop that writes frames: one frame at a time, through all calls it makes (h2_bundle.go,
    scheduleFrameWrite, startFrameWrite and wroteFrame). */
module ServerLoops {
  import opened Foundations
  import opened WriteQueues
  import opened ServerConns
  import opened ServerEvents

  // ----- The shape of the calls still to be carried out

  /** Frames are started and closes carried out as soon as they are asked for; frames are started
      only inside the loop. */
  predicate InnerOk(inner: seq<Task>, i: nat)
    requires i < |inner|
  {
    && (inner[i].Wrote? || inner[i].CloseNow? ==> i == 0)
    && (inner[i].Start? ==> inner == [inner[i]] || inner == [Start(Control(Flush)), ClearFlush])
    && (inner[i].ClearFlush? ==> inner == [ClearFlush] || inner == [Start(Control(Flush)), ClearFlush])
    && !inner[i].EndStream?
  }

  predicate OuterOk(outer: seq<Task>, i: nat)
    requires i < |outer|
  {
    && !outer[i].Start? && !outer[i].ClearFlush? && (outer[i].CloseNow? ==> i == 0) && (outer[i].Wrote? ==> |outer| == 1)
    && (outer[i].EndStream? ==> i == |outer| - 1)
  }

  ghost predicate ShapeOk(s: Conn) {
    && (!s.inLoop ==> s.inner == [])
    && (forall i :: 0 <= i < |s.inner| ==> InnerOk(s.inner, i))
    && (forall i :: 0 <= i < |s.outer| ==> OuterOk(s.outer, i))
    && (s.inLoop ==> forall i :: 0 <= i < |s.outer| ==> !s.outer[i].Wrote? && !s.outer[i].CloseNow?)
  }

  // ----- The flags

  predicate HeadWrote(s: Conn) {
    Next(s).Some? && Next(s).value.Wrote?
  }

  /** A frame is being written exactly if it is in flight or its end is being dealt with. */
  predicate FlagsOk(s: Conn) {
    && (s.flags.writingFrame <==> s.flags.inFlight.Some? || HeadWrote(s))
    && (s.flags.inFlight.Some? ==> s.flags.writingFrameAsync) && (s.flags.writingFrameAsync ==> s.flags.writingFrame)
    && (s.flags.inFlight.Some? && s.inLoop ==> s.inner == [] || s.inner == [ClearFlush])
    && (HeadWrote(s) ==> s.flags.inFlight == None)
  }

  /** Calls that a call leaves in front of the rest. */
  predicate Pushed(s: Conn, s': Conn, ts: seq<Task>) {
    s'.inLoop == s.inLoop && if s.inLoop then s'.inner == ts + s.inner && s'.outer == s.outer else s'.outer == ts + s.outer && s'.inner == s.inner
  }

  /** Calls that may stand in front of others. */
  predicate Front(ts: seq<Task>) {
    forall i :: 0 <= i < |ts| ==>
      !ts[i].Start? && !ts[i].ClearFlush? && !ts[i].Wrote? && !ts[i].EndStream? && (ts[i].CloseNow? ==> i == 0)
  }

  /** After the next call is taken away, calls may be put in front of the rest. */
  lemma PushedShape(s: Conn, s': Conn, ts: seq<Task>)
    requires ShapeOk(s) && Next(s).Some? && !Next(s).value.ClearFlush? && Pushed(Rest(s), s', ts) && Front(ts)
    requires Next(s).value != Start(Control(Flush))
    ensures ShapeOk(s')
  {
    if s.inLoop {
      var inner := s.inner;
      assert InnerOk(inner, 0);
      forall i | 0 <= i < |s'.inner|
        ensures InnerOk(s'.inner, i)
      {
        if i >= |ts| {
          assert InnerOk(inner, i - |ts| + 1);
        }
      }
    } else {
      assert OuterOk(s.outer, 0);
      forall i | 0 <= i < |s'.outer|
        ensures OuterOk(s'.outer, i)
      {
        if i >= |ts| {
          assert OuterOk(s.outer, i - |ts| + 1);
        }
      }
    }
  }

  /** The calls that other calls make. */
  function Pushes(s: Conn, k: Task, c: Choice): seq<Task> {
    match k
    case Write(wr) => [Schedule]
    case Wrote(wr) => Finished(s.table, wr) + [Schedule]
    case CloseNow(id) => Farewell(RemoveStream(s.table, id), c) + [SchedClose(id)]
    case ConnUpdate => if c.announce > 0 then [Write(Control(WindowUpdate(c.announce)))] else []
    case StreamUpdate(id) => if c.announce > 0 then [Write(Request(WindowUpdate(c.announce), Some(id), None))] else []
    case Reset(id, code) => [Write(Control(StreamError(id, code))), MarkReset(id)]
    case GoAwayNow(code) => if s.going.inGoAway then [] else [Schedule]
    case AfterBodyRead(id) =>
      if StateOf(s.table, id) == HalfClosedRemote || StateOf(s.table, id) == Closed then [] else [StreamUpdate(id)]
    case _ => []
  }

  predicate Plain(k: Task) {
    !k.Start? && !k.Schedule? && !k.ClearFlush?
  }

  lemma DoPushes(s: Conn, k: Task, c: Choice)
    requires TaskOk(s.table, k) && s.table.maxPush + 2 !in s.out.sched.queues && Plain(k) && Do(s, k, c).panic == None == s.panic
    ensures Pushed(s, Do(s, k, c), Pushes(s, k, c)) && Front(Pushes(s, k, c))
    ensures Do(s, k, c).flags == if k.Wrote? then s.flags.(writingFrame := false, writingFrameAsync := false) else s.flags
  {
    match k
    case Write(wr) =>
    case Wrote(wr) =>
    case CloseNow(id) =>
    case _ => EmptyFront(s);
  }

  lemma EmptyFront(s: Conn)
    ensures Pushed(s, s, [])
  {
    assert [] + s.inner == s.inner && [] + s.outer == s.outer;
  }

  /** A step can be taken. */
  predicate CanStep(s: Conn) {
    && Busy(s) && OutputOk(s.out) && s.table.maxPush + 2 !in s.out.sched.queues
    && (Next(s).Some? ==> TaskOk(s.table, Next(s).value))
  }

  /** A frame is started only when none is being written, and only a frame being written ends:
      those two panics cannot happen. */
  lemma OneFrameAtATime(s: Conn)
    requires ShapeOk(s) && FlagsOk(s) && Next(s).Some?
    ensures Next(s).value.Start? ==> !s.flags.writingFrame && s.inLoop && s.flags.inFlight == None
    ensures Next(s).value.Wrote? ==> s.flags.writingFrame
  {
    if !s.inLoop {
      assert OuterOk(s.outer, 0);
    }
  }

  lemma PlainStep(s: Conn, c: Choice)
    requires ShapeOk(s) && FlagsOk(s) && CanStep(s) && Next(s).Some? && Plain(Next(s).value) && Step(s, c).panic == None
    ensures ShapeOk(Step(s, c)) && FlagsOk(Step(s, c))
  {
    var k := Next(s).value;
    var ts := Pushes(Rest(s), k, c);
    DoPushes(Rest(s), k, c);
    PushedShape(s, Step(s, c), ts);
    PlainFlags(s, Step(s, c), ts);
  }

  lemma PlainFlags(s: Conn, s': Conn, ts: seq<Task>)
    requires ShapeOk(s) && FlagsOk(s) && Next(s).Some? && Plain(Next(s).value) && Pushed(Rest(s), s', ts) && Front(ts)
    requires s'.flags == if Next(s).value.Wrote? then s.flags.(writingFrame := false, writingFrameAsync := false) else s.flags
    ensures FlagsOk(s')
  {
    if s.inLoop {
      assert InnerOk(s.inner, 0);
      assert |s.inner| > 1 ==> InnerOk(s.inner, 1);
    } else {
      assert OuterOk(s.outer, 0);
      assert |s.outer| > 1 ==> OuterOk(s.outer, 1);
    }
  }

  lemma ScheduleStep(s: Conn, c: Choice)
    requires ShapeOk(s) && FlagsOk(s) && CanStep(s) && Next(s) == Some(Schedule)
    ensures ShapeOk(Step(s, c)) && FlagsOk(Step(s, c))
  {
    EmptyFront(Rest(s));
    PushedShape(s, Rest(s), []);
    ScheduleFlags(s);
    forall i | 0 <= i < |Rest(s).outer| && !s.inLoop
      ensures !Rest(s).outer[i].Wrote? && !Rest(s).outer[i].CloseNow?
    {
      assert OuterOk(s.outer, i + 1);
    }
  }

  lemma ScheduleFlags(s: Conn)
    requires ShapeOk(s) && FlagsOk(s) && Next(s) == Some(Schedule)
    ensures FlagsOk(Rest(s)) && (s.flags.writingFrame ==> s.flags.inFlight.Some?)
    ensures !s.inLoop && !s.flags.writingFrame ==> FlagsOk(Rest(s).(inLoop := true, inner := []))
  {
    if s.inLoop {
      assert |s.inner| > 1 ==> InnerOk(s.inner, 1);
    } else {
      assert |s.outer| > 1 ==> OuterOk(s.outer, 1);
    }
  }

  lemma ClearFlushStep(s: Conn, c: Choice)
    requires ShapeOk(s) && FlagsOk(s) && CanStep(s) && Next(s) == Some(ClearFlush)
    ensures ShapeOk(Step(s, c)) && FlagsOk(Step(s, c))
  {
    assert s.inLoop ==> InnerOk(s.inner, 0);
    assert !s.inLoop ==> OuterOk(s.outer, 0);
  }

  /** A frame that is started is written at once, or is in flight; a push may be dropped. */
  predicate Started(s: Conn, s': Conn, wr: Request) {
    || (Pushed(s, s', [Wrote(wr)]) && s'.flags == Flags(true, false, true, s.flags.inFlight) && !wr.write.Flush?)
    || (Pushed(s, s', []) && s'.flags == Flags(true, true, true, Some(wr)))
    || (wr.write.PushPromise? && (Pushed(s, s', []) || Pushed(s, s', [GoAwayNow(0)])) && s'.flags == s.flags.(writingFrameAsync := false))
  }

  lemma StartEffect(s: Conn, wr: Request, c: Choice)
    requires s.table.maxPush + 2 !in s.out.sched.queues && s.panic == None && DoStart(s, wr, c).panic == None
    ensures Started(s, DoStart(s, wr, c), wr)
  {
    EmptyFront(s);
  }

  lemma StartStep(s: Conn, c: Choice)
    requires ShapeOk(s) && FlagsOk(s) && CanStep(s) && Next(s).Some? && Next(s).value.Start? && Step(s, c).panic == None
    ensures ShapeOk(Step(s, c)) && FlagsOk(Step(s, c))
  {
    OneFrameAtATime(s);
    assert InnerOk(s.inner, 0);
    StartEffect(Rest(s), Next(s).value.wr, c);
    StartedOk(s, Step(s, c), Next(s).value.wr);
  }

  lemma StartedOk(s: Conn, s': Conn, wr: Request)
    requires ShapeOk(s) && FlagsOk(s) && s.inLoop && s.flags.inFlight == None && !s.flags.writingFrame
    requires s.inner == [Start(wr)] || (s.inner == [Start(wr), ClearFlush] && wr.write.Flush?)
    requires Started(s.(inner := s.inner[1..]), s', wr)
    ensures ShapeOk(s') && FlagsOk(s')
  {
  }

  lemma IterateStep(s: Conn, c: Choice)
    requires ShapeOk(s) && FlagsOk(s) && CanStep(s) && Next(s) == None
    ensures ShapeOk(Step(s, c)) && FlagsOk(Step(s, c))
  {
  }

  /** Every step keeps the shape of the calls and the flags in order. */
  lemma LoopStep(s: Conn, c: Choice)
    requires ShapeOk(s) && FlagsOk(s) && CanStep(s) && Step(s, c).panic == None
    ensures ShapeOk(Step(s, c)) && FlagsOk(Step(s, c))
  {
    if Next(s) == None {
      IterateStep(s, c);
    } else if Next(s).value.Start? {
      StartStep(s, c);
    } else if Next(s).value.Schedule? {
      ScheduleStep(s, c);
    } else if Next(s).value.ClearFlush? {
      ClearFlushStep(s, c);
    } else {
      PlainStep(s, c);
    }
  }

  /** So does every event. */
  lemma LoopOn(s: Conn, e: Event)
    requires Ready(s) && FlagsOk(s) && forall x :: x in s.out.sched.queues ==> Seen(s.table, x)
    ensures ShapeOk(On(s, e)) && FlagsOk(On(s, e))
  {
    hide On;
    OnTasks(s, e);
    var s' := On(s, e);
    forall i | 0 <= i < |s'.outer|
      ensures OuterOk(s'.outer, i)
    {
    }
  }

  /** The calls that an event leads to. */
  predicate EventTasks(ts: seq<Task>) {
    || ts == []
    || (|ts| == 1 && !ts[0].Start? && !ts[0].ClearFlush? && !ts[0].SchedClose?)
    || (|ts| == 2 && ts[0] == ConnUpdate && (ts[1].Reset? || ts[1].StreamUpdate? || ts[1].AfterBodyRead?))
    || (|ts| == 2 && ts == [GoAwayNow(0), DisablePush])
    || (|ts| == 3 && ts[0] == ConnUpdate && ts[1].StreamUpdate? && ts[2].EndStream?)
  }

  /** What a frame leads to. */
  predicate Called(s: Conn, s': Conn) {
    && EventTasks(s'.outer) && s'.inner == [] && !s'.inLoop && s'.panic == None && s'.flags == s.flags
    && (|s'.outer| == 1 ==> !s'.outer[0].Wrote?)
  }

  lemma OnTasks(s: Conn, e: Event)
    requires Ready(s) && forall x :: x in s.out.sched.queues ==> Seen(s.table, x)
    ensures var s' := On(s, e);
            if e.WriteDone? && s.flags.inFlight.Some? then
              s' == s.(free := e.free, flags := s.flags.(inFlight := None), outer := [Wrote(s.flags.inFlight.value)])
            else Called(s, s')
  {
    if IsFrame(e) {
      FrameTasks(s, e);
    }
  }

  lemma FrameTasks(s: Conn, e: Event)
    requires Ready(s) && forall x :: x in s.out.sched.queues ==> Seen(s.table, x)
    ensures Called(s, ProcessFrame(s, e))
  {
    var s1 := s.(peer := s.peer.(sawFirstSettings := true));
    if e.ReadHeaders? {
      HeadersTasks(s1, e);
    } else {
      OtherTasks(s1, e);
    }
  }

  lemma OtherTasks(s: Conn, e: Event)
    requires Ready(s) && !e.ReadHeaders? && forall x :: x in s.out.sched.queues ==> Seen(s.table, x)
    ensures Called(s, OnFrame(s, e))
  {
  }

  lemma HeadersTasks(s: Conn, e: Event)
    requires Ready(s) && e.ReadHeaders? && forall x :: x in s.out.sched.queues ==> Seen(s.table, x)
    ensures Called(s, OnHeaders(s, e.id, e.ended, e.bad, e.refused, e.busy))
  {
    HeadersCases(s, e);
    hide OnHeaders;
  }
}
