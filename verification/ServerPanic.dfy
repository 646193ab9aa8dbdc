/** The two panics that the server can reach, and exactly when: a frame started on a stream that
    closeStream has taken out of the table but not yet out of the scheduler, and the reset of a
    panicked handler reported after its stream was closed (h2_bundle.go:5073-5182, 5479-5523). */
module ServerPanics {
  import opened Foundations
  import opened WriteQueues
  import opened RoundRobins
  import opened ServerConns
  import opened ServerEvents
  import opened ServerTables
  import opened ServerLoops
  import opened ServerOutputs
  import opened ServerSteps
  import opened ServerSafety
  import opened ServerEnds
  import opened ServerPendings
  import opened ServerLines
  import opened ServerReaches
  import opened ServerTheorems
  import opened ServerDrains

  // ----- The condition

  /** The frames ahead of the stream, and one window update more, are written in place and leave
      its head sendable, once it is closed with `free` bytes left in the write buffer. */
  predicate Overtakes(s: Conn, id: nat, free: nat, n: nat)
    requires OutputOk(s.out)
  {
    && !s.going.needToSend && NoError(s)
    && Arrives(RulesOf(s), Line(free, s.out.win.conn, States(RemoveStream(s.table, id))), ControlOf(s) + [Control(WindowUpdate(n))],
               Streams(s.out), s.out.win, id)
  }

  /** Closing the stream now, with something to announce and no GOAWAY before it, lets the loop
      overtake the scheduler. */
  predicate Exposed(s: Conn, id: nat, c: Choice)
    requires OutputOk(s.out)
  {
    && !s.inLoop && !s.flags.writingFrame && c.announce > 0
    && !(RemoveStream(s.table, id).streams == map[] && c.shutdown && !s.going.inGoAway)
    && Overtakes(s, id, s.free, c.announce)
  }

  predicate SafeStep(s: Conn, c: Choice)
    requires OutputOk(s.out)
  {
    match Next(s)
    case Some(CloseNow(id)) => !Exposed(s, id, c)
    case Some(Wrote(wr)) => wr.write.HandlerPanicRST? && wr.stream.Some? ==> wr.stream.value in s.table.streams
    case _ => true
  }

  // ----- What safe steps keep

  /** The end of a frame reported from outside is dealt with before anything else. */
  predicate NoOutsideWrote(s: Conn) {
    forall i :: 0 <= i < |s.outer| ==> !EndsSomething(s.outer[i])
  }

  predicate StartTracked(s: Conn) {
    match Next(s)
    case Some(Start(wr)) => wr.stream.Some? ==> wr.stream.value in s.table.streams
    case _ => true
  }

  predicate EndsTracked(s: Conn) {
    match Next(s)
    case Some(CloseNow(id)) => id in s.table.streams
    case Some(Wrote(wr)) => s.inLoop && wr.write.HandlerPanicRST? && wr.stream.Some? ==> wr.stream.value in s.table.streams
    case _ => true
  }

  ghost predicate ClosingOk(s: Conn)
    requires OutputOk(s.out)
  {
    forall id :: SchedClose(id) in s.outer ==> !Reaches(s, id)
  }

  ghost predicate Safe(s: Conn) {
    Sound(s) && StartTracked(s) && EndsTracked(s) && ClosingOk(s)
  }

  /** After closing, the loop reaches the stream exactly if it was exposed. */
  lemma ExposedExactly(s: Conn, c: Choice, id: nat)
    requires CoreOk(s) && CanStep(s) && PendingOk(s) && Next(s) == Some(CloseNow(id))
    requires Step(s, c).panic == None && OutputOk(Step(s, c).out)
    ensures Reaches(Step(s, c), id) <==> Exposed(s, id, c)
  {
    if s.inLoop {
      DoPushes(Rest(s), CloseNow(id), c);
      assert s.outer != [] ==> TaskOk(s.table, s.outer[0]);
    } else {
      ClosingOutside(s, c, id);
    }
  }

  lemma ClosingOutside(s: Conn, c: Choice, id: nat)
    requires CoreOk(s) && CanStep(s) && PendingOk(s) && Next(s) == Some(CloseNow(id)) && !s.inLoop
    requires Step(s, c).panic == None && OutputOk(Step(s, c).out)
    ensures Reaches(Step(s, c), id) <==> Exposed(s, id, c)
  {
    hide Reaches, Exposed, PendingOk, TableOk, OutOk, TasksOk;
    var s' := Step(s, c);
    ClosePoint(Rest(s), id, c);
    DoPushes(Rest(s), CloseNow(id), c);
    var ts := Farewell(RemoveStream(s.table, id), c);
    assert s'.outer == ts + [SchedClose(id)] + s.outer[1..];
    assert s'.outer[|ts|] == SchedClose(id) && s'.outer[..|ts|] == ts;
    FarewellPoint(RulesOf(s), PointOf(s'), RemoveStream(s.table, id), c);
    ClosedOutside(s, s', id, c);
  }

  lemma ClosedOutside(s: Conn, s': Conn, id: nat, c: Choice)
    requires CoreOk(s) && OutputOk(s'.out) && PendingOk(s) && !s.inLoop && !s'.inLoop
    requires Next(s) == Some(CloseNow(id)) && s'.flags == s.flags && s'.going == s.going && RulesOf(s') == RulesOf(s)
    requires s'.out.win == s.out.win && Streams(s'.out) == Streams(s.out)
    requires PointOf(s') == if s.going.needToSend then STUCK
                            else Point(Line(s.free, s.out.win.conn, States(RemoveStream(s.table, id))), ControlOf(s))
    requires var ts := Farewell(RemoveStream(s.table, id), c);
             s'.outer == ts + [SchedClose(id)] + s.outer[1..] && s'.outer[|ts|] == SchedClose(id) && s'.outer[..|ts|] == ts
    requires var p, p', t := PointOf(s'), Performed(RulesOf(s), PointOf(s'), Farewell(RemoveStream(s.table, id), c)), RemoveStream(s.table, id);
             if (t.streams == map[] && c.shutdown && !s.going.inGoAway) || p == STUCK then p' == STUCK
             else p' == if c.announce > 0 then p.(control := p.control + [Control(WindowUpdate(c.announce))]) else p
    ensures Reaches(s', id) <==> Exposed(s, id, c)
  {
    hide Arrives, OutputOk, TableOk, OutOk, TasksOk, ClosePending, Apart;
    var ts := Farewell(RemoveStream(s.table, id), c);
    StuckNowhere(s', STUCK, id);
    assert Tail(s.outer[1..]);
    forall i | |ts| < i < |s'.outer|
      ensures s'.outer[i] == Schedule
    {
      assert s'.outer[i] == s.outer[1..][i - |ts| - 1];
    }
  }

  lemma EndsStep(s: Conn, c: Choice)
    requires Sound(s) && CanStep(s) && EndsTracked(s) && Step(s, c).panic == None
    requires Next(s).Some? && Next(s).value.Wrote? ==> SafeStep(s, c)
    ensures EndsTracked(Step(s, c))
  {
    if Next(s) == None {
      assert s.outer != [] ==> OuterOk(s.outer, 0);
    } else if Next(s).value.Wrote? {
      WroteEnds(s, c);
    } else if Next(s).value.Start? {
      StartEnds(s, c);
    } else {
      OtherEnds(s, c);
    }
  }

  lemma WroteEnds(s: Conn, c: Choice)
    requires CoreOk(s) && CanStep(s) && Next(s).Some? && Next(s).value.Wrote? && SafeStep(s, c)
    requires Step(s, c).panic == None
    ensures EndsTracked(Step(s, c))
  {
    var wr := Next(s).value.wr;
    DoPushes(Rest(s), Wrote(wr), c);
    WroteKeepsStreams(Rest(s), wr);
    var ts := Pushes(Rest(s), Wrote(wr), c);
    NextPushed(s, Step(s, c), ts);
  }

  lemma WroteKeepsStreams(s: Conn, wr: Request)
    ensures DoWrote(s, wr).table.streams.Keys == s.table.streams.Keys
    ensures var ts := Finished(s.table, wr);
            && (ts != [] && ts[0].CloseNow? ==>
                  ts[0].id in s.table.streams || (wr.write.HandlerPanicRST? && wr.stream == Some(ts[0].id)))
            && (ts != [] ==> !ts[0].Wrote?)
  {
  }

  lemma StartEnds(s: Conn, c: Choice)
    requires Sound(s) && CanStep(s) && Next(s).Some? && Next(s).value.Start? && Step(s, c).panic == None
    ensures EndsTracked(Step(s, c))
  {
    var wr, s' := Next(s).value.wr, Step(s, c);
    OneFrameAtATime(s);
    StepPanics(s, c);
    StartEffect(Rest(s), wr, c);
    NextPushed(s, s', StartPushes(Rest(s), s', wr));
    NotWroteNext(s);
    assert wr.write.HandlerPanicRST? ==> s'.table == s.table;
  }

  /** The end of a frame is always dealt with first. */
  lemma NotWroteNext(s: Conn)
    requires ShapeOk(s) && Next(s).Some?
    ensures Next(Rest(s)).Some? ==> !Next(Rest(s)).value.Wrote?
  {
    assert s.inLoop && |s.inner| > 1 ==> InnerOk(s.inner, 1);
    assert !s.inLoop && |s.outer| > 1 ==> OuterOk(s.outer, 1);
  }

  lemma OtherEnds(s: Conn, c: Choice)
    requires CoreOk(s) && CanStep(s) && Next(s).Some? && !Next(s).value.Wrote? && !Next(s).value.Start?
    requires Step(s, c).panic == None
    ensures Next(Step(s, c)).Some? ==> !EndsSomething(Next(Step(s, c)).value)
  {
    var k, s' := Next(s).value, Step(s, c);
    NotWroteNext(s);
    if Plain(k) {
      DoPushes(Rest(s), k, c);
      NextPushed(s, s', Pushes(Rest(s), k, c));
      EndsOnlyWhenWritten(Rest(s), k, c);
    } else {
      EmptyFront(Rest(s));
      NextPushed(s, Rest(s), []);
    }
  }

  lemma EndsOnlyWhenWritten(s: Conn, k: Task, c: Choice)
    requires !k.Wrote?
    ensures forall i :: 0 <= i < |Pushes(s, k, c)| ==> !EndsSomething(Pushes(s, k, c)[i])
  {
  }

  /** A frame that is taken is that of a tracked stream, unless the loop has reached a closed one. */
  lemma RoundStarts(s: Conn, c: Choice)
    requires Safe(s) && CanStep(s) && Next(s) == None
    ensures StartTracked(Step(s, c))
  {
    var s' := Step(s, c);
    assert s.outer != [] ==> OuterOk(s.outer, 0);
    if !s.flags.writingFrameAsync && !s.going.needToSend && !s.needToSendSettingsAck && Popping(s).Served? {
      DequeueOk(s.table, s.out);
      if s.out.sched.control == [] {
        var k := FirstReady(s.out.sched, s.out.win, 0);
        PoppedAt(s.out, k);
        TakenTracked(s, s', s.out.sched.order[k]);
      }
    }
  }

  lemma TakenTracked(s: Conn, s': Conn, x: nat)
    requires Safe(s) && s.inLoop && s.inner == [] && s.flags.inFlight == None && !s.going.needToSend && NoError(s)
    requires CanStep(s) && s' == Step(s, LEAST) && OutputOk(s'.out) && s'.panic == None
    requires s'.inLoop && StartsOn(s', x) && s'.outer == s.outer && s'.flags == s.flags && s'.going == s.going && x in s.out.sched.queues
    ensures x in s.table.streams
  {
    if x in s.out.closing {
      var n :| 0 <= n < |s.outer| && s.outer[n] == SchedClose(x);
      assert CloseAt(s, n);
      assert Reaches(s', x);
      ReachStep(s, LEAST, x);
    }
  }

  lemma StartsStep(s: Conn, c: Choice)
    requires Safe(s) && CanStep(s) && Step(s, c).panic == None
    ensures StartTracked(Step(s, c))
  {
    if Next(s) == None {
      RoundStarts(s, c);
    } else {
      NoStartNext(s, c);
    }
  }

  /** Where a call that tells the scheduler comes from. */
  lemma SchedCloseFrom(s: Conn, c: Choice, id: nat)
    requires CoreOk(s) && CanStep(s) && PendingOk(s) && Step(s, c).panic == None
    requires SchedClose(id) in Step(s, c).outer
    ensures (SchedClose(id) in s.outer && Next(s) != Some(SchedClose(id))) || (!s.inLoop && Next(s) == Some(CloseNow(id)))
  {
    if s.inLoop {
      LoopOuter(s, c);
      if Next(s) == Some(SchedClose(id)) {
        NotInside(s, id, id);
      }
    } else if Next(s) != Some(CloseNow(id)) {
      SchedCloseOutside(s, c, id);
    }
  }

  lemma SchedCloseOutside(s: Conn, c: Choice, id: nat)
    requires CoreOk(s) && CanStep(s) && PendingOk(s) && Step(s, c).panic == None
    requires SchedClose(id) in Step(s, c).outer && !s.inLoop && Next(s) != Some(CloseNow(id))
    ensures SchedClose(id) in s.outer[1..] && Next(s) != Some(SchedClose(id))
  {
    var k := Next(s).value;
    assert OuterOk(s.outer, 0);
    if Plain(k) {
      DoPushes(Rest(s), k, c);
      NotPushed(Rest(s), k, c, id);
      assert Step(s, c).outer == Pushes(Rest(s), k, c) + s.outer[1..];
    }
    assert CloseAt(s, 0);
  }

  lemma NotPushed(s: Conn, k: Task, c: Choice, id: nat)
    requires k != CloseNow(id)
    ensures SchedClose(id) !in Pushes(s, k, c)
  {
  }

  lemma ClosingStep(s: Conn, c: Choice)
    requires Safe(s) && CanStep(s) && SafeStep(s, c) && Step(s, c).panic == None && OutputOk(Step(s, c).out)
    ensures ClosingOk(Step(s, c))
  {
    forall id | SchedClose(id) in Step(s, c).outer
      ensures !Reaches(Step(s, c), id)
    {
      SchedCloseFrom(s, c, id);
      if Next(s) == Some(CloseNow(id)) {
        ExposedExactly(s, c, id);
      }
      if SchedClose(id) in s.outer && Next(s) != Some(SchedClose(id)) {
        ReachStep(s, c, id);
      }
    }
  }

  /** A safe step does not panic, and keeps everything. */
  lemma StepSafe(s: Conn, c: Choice)
    requires Safe(s) && CanStep(s) && SafeStep(s, c)
    ensures Step(s, c).panic == None && Safe(Step(s, c))
  {
    StepPanics(s, c);
    StepSound(s, c);
    EndsStep(s, c);
    StartsStep(s, c);
    ClosingStep(s, c);
  }

  lemma ClosesOn(s: Conn, e: Event)
    requires Ready(s) && (forall x :: x in s.out.sched.queues ==> Seen(s.table, x)) && On(s, e).outer != [] && On(s, e).outer[0].CloseNow?
    ensures On(s, e).outer[0].id in On(s, e).table.streams
  {
    if IsFrame(e) {
      var s1 := s.(peer := s.peer.(sawFirstSettings := true));
      if e.ReadHeaders? {
        HeadersCalls(s1, e);
      } else {
        FrameCloses(s1, e);
      }
    }
  }

  lemma FrameCloses(s: Conn, e: Event)
    requires Ready(s) && !e.ReadHeaders? && forall x :: x in s.out.sched.queues ==> Seen(s.table, x)
    ensures var s' := OnFrame(s, e); s'.outer != [] && s'.outer[0].CloseNow? ==> s'.outer[0].id in s.table.streams && s'.table == s.table
  {
  }

  /** So does every event. */
  lemma OnSafe(s: Conn, e: Event)
    requires Safe(s) && Ready(s) && Possible(s, e)
    ensures Safe(On(s, e))
  {
    CanAct(s);
    OnSound(s, e);
    OnTracked(s, e);
  }

  /** No event ends anything but a frame in flight or a stream the client resets. */
  lemma OnEnds(s: Conn, e: Event)
    requires Ready(s) && forall x :: x in s.out.sched.queues ==> Seen(s.table, x)
    ensures var s' := On(s, e);
            && !s'.inLoop && s'.panic == None && (forall i :: 0 <= i < |s'.outer| ==> !s'.outer[i].SchedClose?)
            && (|s'.outer| != 1 ==> NoOutsideWrote(s')) && (s'.outer != [] ==> !s'.outer[0].Start?)
            && (!(e.WriteDone? && s.flags.inFlight.Some?) && s'.outer != [] ==> !s'.outer[0].Wrote?)
  {
    hide On;
    OnTasks(s, e);
  }

  lemma OnTracked(s: Conn, e: Event)
    requires Ready(s) && forall x :: x in s.out.sched.queues ==> Seen(s.table, x)
    requires OutputOk(On(s, e).out)
    ensures StartTracked(On(s, e)) && EndsTracked(On(s, e)) && ClosingOk(On(s, e))
  {
    OnEnds(s, e);
    hide Reaches, On;
    if On(s, e).outer != [] && On(s, e).outer[0].CloseNow? {
      ClosesOn(s, e);
    }
  }

  // ----- Every run of safe steps

  ghost predicate SafeRun(s: Conn, actions: seq<Action>)
    requires Inv(s) && AllowedRun(s, actions)
    decreases |actions|
  {
    actions == [] ||
    ((actions[0].Internal? ==> SafeStep(s, actions[0].c)) && SafeRun(Act(s, actions[0]), actions[1..]))
  }

  lemma InitialSafe(advMaxStreams: nat)
    ensures Safe(Initial(advMaxStreams))
  {
  }

  /** A run in which every step is safe reaches no panic. */
  lemma {:induction false} NoPanic(s: Conn, actions: seq<Action>)
    requires Inv(s) && Safe(s) && AllowedRun(s, actions) && SafeRun(s, actions)
    ensures RunTo(s, actions).panic == None && Safe(RunTo(s, actions))
    decreases |actions|
  {
    if actions != [] {
      CanAct(s);
      match actions[0]
      case Internal(c) => StepSafe(s, c); NoPanic(Act(s, actions[0]), actions[1..]);
      case External(e) => OnSafe(s, e); NoPanic(Act(s, actions[0]), actions[1..]);
    }
  }

  // ----- An unsafe step ends in a panic

  /** The choice c when a stream is closed outside the loop, and else the least. */
  function Announcing(c: Choice): Conn -> Choice {
    (s: Conn) => if s.outer != [] && s.outer[0].CloseNow? then c else LEAST
  }

  /** With the least announced, a loop that can reach a closed stream does. */
  lemma {:induction false} ReachPanics(s: Conn, id: nat, c: Choice)
    requires Sound(s) && EndsTracked(s) && SchedClose(id) in s.outer && Reaches(s, id) && NoOutsideWrote(s)
    ensures Drain(s, Announcing(c)).panic == Some(OnClosed)
    decreases s.free, CanFly(s), PushesLeft(s), CallsLeft(s)
  {
    CanAct(s);
    var s' := Step(s, LEAST);
    StepPanics(s, LEAST);
    if s'.panic == None {
      StepSound(s, LEAST);
      StepCloser(s, LEAST);
      NotToldYet(s, id);
      ReachStep(s, LEAST, id);
      EndsStep(s, LEAST);
      ReachPanics(s', id, c);
    }
  }

  lemma NotToldYet(s: Conn, id: nat)
    requires Sound(s) && CanStep(s) && SchedClose(id) in s.outer && Reaches(s, id) && NoOutsideWrote(s)
    requires EndsTracked(s) && Step(s, LEAST).panic == None
    ensures Next(s) != Some(SchedClose(id)) && SchedClose(id) in Step(s, LEAST).outer && NoOutsideWrote(Step(s, LEAST))
    ensures Next(s).Some? && Next(s).value.Wrote? ==> SafeStep(s, LEAST)
  {
    NoneOutside(s, LEAST);
    if s.inLoop {
      LoopOuter(s, LEAST);
      if Next(s) == Some(SchedClose(id)) {
        NotInside(s, id, id);
      }
    } else {
      assert OuterOk(s.outer, 0);
      assert CloseAt(s, 0);
      StepBehind(s, LEAST);
      Stays(s.outer, SchedClose(id));
    }
  }

  /** Steps do not bring ends of frames or streams outside the loop. */
  lemma NoneOutside(s: Conn, c: Choice)
    requires CoreOk(s) && CanStep(s) && NoOutsideWrote(s) && Step(s, c).panic == None
    ensures NoOutsideWrote(Step(s, c))
  {
    hide TableOk, OutOk, TasksOk, FlagsOk;
    if s.inLoop {
      LoopOuter(s, c);
    } else if Plain(Next(s).value) {
      assert OuterOk(s.outer, 0);
      PlainNoneOutside(s, c);
    } else {
      assert OuterOk(s.outer, 0);
    }
  }

  lemma PlainNoneOutside(s: Conn, c: Choice)
    requires CanStep(s) && !s.inLoop && Next(s).Some? && Plain(Next(s).value) && !Next(s).value.Wrote?
    requires forall i :: 1 <= i < |s.outer| ==> !EndsSomething(s.outer[i])
    requires Step(s, c).panic == None == s.panic
    ensures NoOutsideWrote(Step(s, c))
  {
    var k, s' := Next(s).value, Step(s, c);
    DoPushes(Rest(s), k, c);
    EndsOnlyWhenWritten(Rest(s), k, c);
    var ts := Pushes(Rest(s), k, c);
    assert s'.outer == ts + s.outer[1..];
    hide Step, Do, Pushes, CanStep;
    forall i | 0 <= i < |s'.outer|
      ensures !EndsSomething(s'.outer[i])
    {
      assert i >= |ts| ==> s'.outer[i] == s.outer[i - |ts| + 1];
    }
  }

  // ----- Which messages end in a panic

  /** The stream that the end of a frame closes. */
  predicate Closes(t: Table, wr: Request, id: nat) {
    Finished(t, wr) == [CloseNow(id)]
  }

  /** The end of a frame that was written by another goroutine is reported, it closes a stream, and
      the stream is closed already or the loop overtakes the scheduler. */
  ghost predicate ExposedEvent(s: Conn, e: Event)
    requires OutputOk(s.out)
  {
    && e.WriteDone? && s.flags.inFlight.Some?
    && exists id :: Closes(s.table, s.flags.inFlight.value, id)
                    && (id !in s.table.streams || Overtakes(s, id, e.free, 1))
  }

  /** The same when the choice at the close is c. */
  ghost predicate ExposedBy(s: Conn, e: Event, c: Choice)
    requires OutputOk(s.out)
  {
    && e.WriteDone? && s.flags.inFlight.Some?
    && exists id :: Closes(s.table, s.flags.inFlight.value, id)
                    && (id !in s.table.streams || OvertakesBy(s, id, e.free, c))
  }

  /** Something is announced, and a GOAWAY for the last stream does not come first. */
  predicate OvertakesBy(s: Conn, id: nat, free: nat, c: Choice)
    requires OutputOk(s.out)
  {
    && c.announce > 0 && Overtakes(s, id, free, c.announce)
    && !(RemoveStream(s.table, id).streams == map[] && c.shutdown && !s.going.inGoAway)
  }

  lemma ExposedBySome(s: Conn, e: Event)
    requires OutputOk(s.out)
    ensures ExposedEvent(s, e) <==> ExposedBy(s, e, LEAST.(announce := 1))
    ensures forall c :: ExposedBy(s, e, c) ==> ExposedEvent(s, e)
  {
    if e.WriteDone? && s.flags.inFlight.Some? {
      forall id, c: Choice
        ensures Overtakes(s, id, e.free, c.announce) <==> Overtakes(s, id, e.free, 1)
      {
        AnyUpdate(s, id, e.free, c.announce, 1);
      }
    }
    hide Overtakes, Closes;
  }

  /** What is announced does not matter, if anything is. */
  lemma AnyUpdate(s: Conn, id: nat, free: nat, n: nat, m: nat)
    requires OutputOk(s.out)
    ensures Overtakes(s, id, free, n) <==> Overtakes(s, id, free, m)
  {
    var r, l := RulesOf(s), Line(free, s.out.win.conn, States(RemoveStream(s.table, id)));
    AllWrittenOneMore(r, l, ControlOf(s), Control(WindowUpdate(n)));
    AllWrittenOneMore(r, l, ControlOf(s), Control(WindowUpdate(m)));
  }

  /** When nothing is left that wakes the loop, no head can be sent, so no close is exposed: this is
      the case for a RST_STREAM that the client sends. */
  lemma QuietClose(s: Conn, c: Choice, id: nat)
    requires Sound(s) && CanStep(s) && !s.inLoop && Next(s) == Some(CloseNow(id)) && !Pending(s.outer)
    ensures !Exposed(s, id, c)
  {
    if Exposed(s, id, c) {
      var l := Line(s.free, s.out.win.conn, States(RemoveStream(s.table, id)));
      ArrivesCanSend(RulesOf(s), l, ControlOf(s) + [Control(WindowUpdate(c.announce))], Streams(s.out), s.out.win, id);
      StreamsSend(s.out, s.out.win.conn, id);
      EmptyExactly(s.out.sched, s.out.win);
    }
  }

  lemma ResetIsSafe(s: Conn, id: nat, c: Choice)
    requires Safe(s) && Ready(s)
    ensures OutputOk(On(s, ReadReset(id)).out) && SafeStep(On(s, ReadReset(id)), c)
  {
    CanAct(s);
    OnSafe(s, ReadReset(id));
    CanAct(On(s, ReadReset(id)));
    OnEnds(s, ReadReset(id));
    hide On;
    EventIsSafe(On(s, ReadReset(id)), c);
  }

  lemma EventIsSafe(s: Conn, c: Choice)
    requires Safe(s) && (Busy(s) ==> CanStep(s)) && !s.inLoop && s.panic == None
    requires |s.outer| != 1 ==> NoOutsideWrote(s)
    requires s.outer != [] ==> !s.outer[0].Wrote?
    ensures SafeStep(s, c)
  {
    if Next(s).Some? && Next(s).value.CloseNow? {
      QuietClose(s, c, Next(s).value.id);
    }
  }

  /** Once nothing ends outside the loop any more, every step is safe. */
  lemma {:induction false} SafeDrain(s: Conn, pick: Conn -> Choice)
    requires Safe(s) && NoOutsideWrote(s)
    ensures Drain(s, pick).panic == None
    decreases s.free, CanFly(s), PushesLeft(s), CallsLeft(s)
  {
    if Busy(s) {
      CanAct(s);
      EndsInside(s, pick(s));
      StepSafe(s, pick(s));
      StepCloser(s, pick(s));
      NoneOutside(s, pick(s));
      SafeDrain(Step(s, pick(s)), pick);
    }
  }

  lemma EndsInside(s: Conn, c: Choice)
    requires Safe(s) && CanStep(s) && NoOutsideWrote(s)
    ensures SafeStep(s, c)
  {
  }

  /** What the report of a write leads to. */
  lemma Reported(s: Conn, e: Event, c: Choice)
    requires Ready(s) && e.WriteDone? && s.flags.inFlight.Some? && Sound(s) && CanStep(On(s, e))
    requires Step(On(s, e), c).panic == None
    ensures var s2, wr := Step(On(s, e), c), s.flags.inFlight.value;
            && Next(On(s, e)) == Some(Wrote(wr)) && s2.outer == Finished(s.table, wr) + [Schedule] && !s2.inLoop
            && s2.free == e.free && !s2.flags.writingFrame && s2.out == s.out && s2.going == s.going && s2.peer == s.peer
            && s2.needToSendSettingsAck == s.needToSendSettingsAck && s2.table == HalfClosed(s.table, wr)
  {
    assert On(s, e).outer[1..] == [];
  }

  lemma SameOvertakes(s: Conn, s2: Conn, id: nat, free: nat, n: nat)
    requires OutputOk(s.out) && s2.out == s.out && s2.going == s.going && s2.peer == s.peer && s2.table == s.table
    requires s2.needToSendSettingsAck == s.needToSendSettingsAck
    ensures Overtakes(s2, id, free, n) <==> Overtakes(s, id, free, n)
  {
  }

  lemma ClosesKeeps(t: Table, wr: Request, id: nat)
    requires Finished(t, wr) != [] && Finished(t, wr)[0] == CloseNow(id)
    ensures HalfClosed(t, wr) == t && Closes(t, wr, id)
  {
  }

  lemma FinishedOnce(t: Table, wr: Request)
    ensures |Finished(t, wr)| <= 1 && (Finished(t, wr) != [] ==> Finished(t, wr)[0].Reset? || Finished(t, wr)[0].CloseNow?)
  {
  }

  /** A message that is not exposed leads to no panic. */
  lemma UnexposedEvent(s: Conn, e: Event, c: Choice, pick: Conn -> Choice)
    requires Safe(s) && Ready(s) && Possible(s, e) && !ExposedBy(s, e, c)
    requires (forall x :: x in s.out.sched.queues ==> Seen(s.table, x)) && Decides(s, e, pick, c)
    ensures Safe(On(s, e)) && Drain(On(s, e), pick).panic == None
  {
    var s1 := On(s, e);
    OnSafe(s, e);
    if Busy(s1) {
      CanAct(s1);
      if e.WriteDone? && s.flags.inFlight.Some? {
        UnexposedReport(s, e, c, pick);
      } else {
        OtherEvent(s, e, pick);
      }
    }
  }

  lemma OtherEvent(s: Conn, e: Event, pick: Conn -> Choice)
    requires Safe(s) && Ready(s) && Possible(s, e) && !(e.WriteDone? && s.flags.inFlight.Some?)
    requires Safe(On(s, e)) && CanStep(On(s, e))
    ensures Drain(On(s, e), pick).panic == None
  {
    var s1 := On(s, e);
    CanAct(s);
    OnEnds(s, e);
    hide On;
    if s1.outer[0].CloseNow? {
      OnlyClose(s1, pick);
    } else {
      SafeDrain(s1, pick);
    }
  }

  lemma OnlyClose(s: Conn, pick: Conn -> Choice)
    requires Safe(s) && CanStep(s) && !s.inLoop && |s.outer| == 1 && s.outer[0].CloseNow?
    ensures Drain(s, pick).panic == None
  {
    var c := pick(s);
    QuietClose(s, c, s.outer[0].id);
    SafeClose(s, pick);
  }

  /** Nothing goes wrong after a close that is not exposed. */
  lemma SafeClose(s: Conn, pick: Conn -> Choice)
    requires Safe(s) && CanStep(s) && !s.inLoop && Next(s).Some? && Next(s).value.CloseNow?
    requires !Exposed(s, Next(s).value.id, pick(s))
    ensures Drain(s, pick).panic == None
  {
    StepSafe(s, pick(s));
    StepCloser(s, pick(s));
    ClosedNoneOutside(s, pick(s));
    SafeDrain(Step(s, pick(s)), pick);
  }

  lemma ClosedNoneOutside(s: Conn, c: Choice)
    requires CoreOk(s) && CanStep(s) && !s.inLoop && Next(s).Some? && Next(s).value.CloseNow? && Step(s, c).panic == None
    ensures NoOutsideWrote(Step(s, c))
  {
    forall i | 1 <= i < |s.outer|
      ensures !EndsSomething(s.outer[i])
    {
      assert OuterOk(s.outer, i);
    }
    PlainNoneOutside(s, c);
  }

  lemma UnexposedReport(s: Conn, e: Event, c: Choice, pick: Conn -> Choice)
    requires Safe(s) && Ready(s) && Possible(s, e) && e.WriteDone? && s.flags.inFlight.Some? && !ExposedBy(s, e, c)
    requires Safe(On(s, e)) && CanStep(On(s, e)) && pick(Step(On(s, e), LEAST)) == c
    ensures Drain(On(s, e), pick).panic == None
  {
    var s1, wr := On(s, e), s.flags.inFlight.value;
    ReportIsSafe(s, e, c, pick(s1));
    StepSafe(s1, pick(s1));
    StepCloser(s1, pick(s1));
    Reported(s, e, pick(s1));
    AnyReport(s, e, pick(s1));
    AfterReport(s, Step(s1, pick(s1)), wr, e, c, pick);
  }

  lemma AnyReport(s: Conn, e: Event, c: Choice)
    requires Ready(s) && e.WriteDone? && s.flags.inFlight.Some?
    requires (forall x :: x in s.out.sched.queues ==> Seen(s.table, x)) && CanStep(On(s, e))
    ensures Step(On(s, e), c) == Step(On(s, e), LEAST)
  {
  }

  lemma AfterReport(s: Conn, s2: Conn, wr: Request, e: Event, c: Choice, pick: Conn -> Choice)
    requires OutputOk(s.out) && e.WriteDone? && s.flags.inFlight == Some(wr) && !ExposedBy(s, e, c) && Safe(s2) && pick(s2) == c
    requires s2.outer == Finished(s.table, wr) + [Schedule] && !s2.inLoop
    requires s2.free == e.free && s2.out == s.out && s2.going == s.going && s2.peer == s.peer
    requires s2.needToSendSettingsAck == s.needToSendSettingsAck && s2.table == HalfClosed(s.table, wr)
    ensures Drain(s2, pick).panic == None
  {
    FinishedOnce(s.table, wr);
    if Finished(s.table, wr) != [] && Finished(s.table, wr)[0].CloseNow? {
      var id := Finished(s.table, wr)[0].id;
      ClosesKeeps(s.table, wr, id);
      SameOvertakes(s, s2, id, e.free, c.announce);
      CanAct(s2);
      SafeClose(s2, pick);
    } else {
      SafeDrain(s2, pick);
    }
  }

  lemma ReportIsSafe(s: Conn, e: Event, c: Choice, first: Choice)
    requires Safe(s) && Ready(s) && e.WriteDone? && s.flags.inFlight.Some? && !ExposedBy(s, e, c)
    requires OutputOk(On(s, e).out)
    ensures SafeStep(On(s, e), first)
  {
    var wr := s.flags.inFlight.value;
    if wr.write.HandlerPanicRST? && wr.stream.Some? && wr.stream.value !in s.table.streams {
      assert Closes(s.table, wr, wr.stream.value);
    }
  }

  /** An exposed message leads to a panic when the least is announced afterwards. */
  lemma ExposedPanics(s: Conn, e: Event, c: Choice)
    requires Safe(s) && Ready(s) && Possible(s, e) && ExposedBy(s, e, c)
    ensures Safe(On(s, e)) && Drain(On(s, e), Announcing(c)).panic.Some? && Decides(s, e, Announcing(c), c)
  {
    var s1, wr := On(s, e), s.flags.inFlight.value;
    var id :| Closes(s.table, wr, id) && (id !in s.table.streams || OvertakesBy(s, id, e.free, c));
    OnSafe(s, e);
    CanAct(s1);
    StepPanics(s1, LEAST);
    Reported(s, e, LEAST);
    StepSound(s1, LEAST);
    StepCloser(s1, LEAST);
    ReportPanics(s, Step(s1, LEAST), wr, e, id, c);
  }

  lemma ReportPanics(s: Conn, s2: Conn, wr: Request, e: Event, id: nat, c: Choice)
    requires OutputOk(s.out) && e.WriteDone? && Closes(s.table, wr, id) && Sound(s2)
    requires id !in s.table.streams || OvertakesBy(s, id, e.free, c)
    requires s2.outer == Finished(s.table, wr) + [Schedule] && !s2.inLoop && !s2.flags.writingFrame
    requires s2.free == e.free && s2.out == s.out && s2.going == s.going && s2.peer == s.peer
    requires s2.needToSendSettingsAck == s.needToSendSettingsAck && s2.table == HalfClosed(s.table, wr)
    ensures Drain(s2, Announcing(c)).panic.Some? && Announcing(c)(s2) == c
  {
    ClosesKeeps(s.table, wr, id);
    CanAct(s2);
    if id !in s.table.streams {
      StepPanics(s2, c);
    } else {
      OvertakesPanics(s, s2, id, e.free, c);
    }
  }

  lemma OvertakesPanics(s: Conn, s2: Conn, id: nat, free: nat, c: Choice)
    requires OutputOk(s.out) && OvertakesBy(s, id, free, c) && Sound(s2) && CanStep(s2) && id in s2.table.streams
    requires s2.outer == [CloseNow(id), Schedule] && !s2.inLoop && s2.free == free && !s2.flags.writingFrame
    requires s2.out == s.out && s2.going == s.going && s2.peer == s.peer && s2.table == s.table
    requires s2.needToSendSettingsAck == s.needToSendSettingsAck
    ensures Drain(s2, Announcing(c)).panic.Some?
  {
    SameOvertakes(s, s2, id, free, c.announce);
    StepPanics(s2, c);
    StepSound(s2, c);
    StepCloser(s2, c);
    ExposedExactly(s2, c, id);
    ClosedNoneOutside(s2, c);
    StartsClosing(s2, c, id);
    EndsStep(s2, c);
    ReachPanics(Step(s2, c), id, c);
  }

  /** The choice at the close that the report of a write leads to is c. */
  ghost predicate Decides(s: Conn, e: Event, pick: Conn -> Choice, c: Choice)
    requires Ready(s) && forall x :: x in s.out.sched.queues ==> Seen(s.table, x)
  {
    e.WriteDone? && s.flags.inFlight.Some? && CanStep(On(s, e)) ==> pick(Step(On(s, e), LEAST)) == c
  }

  /** Between two messages the server can panic exactly if the message is exposed. */
  lemma PanicsExactly(s: Conn, e: Event)
    requires Safe(s) && Ready(s) && Possible(s, e)
    ensures Safe(On(s, e))
    ensures (exists pick :: Drain(On(s, e), pick).panic.Some?) <==> ExposedEvent(s, e)
  {
    OnSafe(s, e);
    ExposedBySome(s, e);
    CanAct(s);
    if ExposedEvent(s, e) {
      ExposedPanics(s, e, LEAST.(announce := 1));
    } else {
      forall pick: Conn -> Choice
        ensures Drain(On(s, e), pick).panic == None
      {
        CanAct(On(s, e));
        UnexposedEvent(s, e, if CanStep(On(s, e)) then pick(Step(On(s, e), LEAST)) else LEAST, pick);
      }
    }
  }

  /** The same for what is announced at the close: with it, the server can panic exactly if the
      message is exposed by it. */
  lemma PanicsExactlyBy(s: Conn, e: Event, c: Choice)
    requires Safe(s) && Ready(s) && Possible(s, e)
    ensures Safe(On(s, e)) && forall x :: x in s.out.sched.queues ==> Seen(s.table, x)
    ensures (exists pick :: Decides(s, e, pick, c) && Drain(On(s, e), pick).panic.Some?) <==> ExposedBy(s, e, c)
  {
    OnSafe(s, e);
    CanAct(s);
    if ExposedBy(s, e, c) {
      ExposedPanics(s, e, c);
    } else {
      forall pick: Conn -> Choice | Decides(s, e, pick, c)
        ensures Drain(On(s, e), pick).panic == None
      {
        UnexposedEvent(s, e, c, pick);
      }
    }
  }
}
