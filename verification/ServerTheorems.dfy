/** What holds in every state the server can reach, whatever the client and the handlers do
    (h2_bundle.go, serverConn). */
module ServerTheorems {
  import opened Foundations
  import opened WriteQueues
  import opened RoundRobins
  import opened ServerConns
  import opened ServerEvents
  import opened ServerTables
  import opened ServerLoops
  import opened ServerOutputs
  import opened ServerSteps
  import opened ServerGoAways
  import opened ServerSafety
  import opened ServerEnds
  import opened ServerPendings

  // ----- What every step keeps, whatever panics the code may reach

  /** A frame that is about to be started is not on a half-closed (local) stream. */
  predicate StartOk(s: Conn) {
    match Next(s)
    case Some(Start(wr)) => wr.stream.Some? ==> !Local(s.table, wr.stream.value)
    case _ => true
  }

  /** What is kept by every step that does not panic. */
  ghost predicate Sound(s: Conn) {
    && s.panic == None && CoreOk(s) && ResetsOk(s) && MarksOk(s) && GoingOk(s) && StartOk(s) && QuietOk(s) && EndOk(s)
    && PendingOk(s)
  }

  /** The two panics that the code can reach: a frame on a closed stream, and the end of a stream
      that is already closed. */
  predicate PanicOk(p: Option<Panic>) {
    p == None || p == Some(OnClosed) || p == Some(CloseAgain)
  }

  /** In the loop, when it is time for the next frame, no stream waits for its reset unless the
      reset is queued. */
  lemma NoneWaits(s: Conn)
    requires CoreOk(s) && ResetsOk(s) && s.inLoop && s.inner == [] && !s.flags.writingFrameAsync
    ensures s.out.sched.control == [] ==> forall id :: !Local(s.table, id)
  {
    assert s.flags.inFlight == None;
    if s.out.sched.control == [] {
      forall id
        ensures !Local(s.table, id)
      {
        assert Local(s.table, id) ==> ResetComing(s, id);
      }
    }
  }

  lemma IterateStart(s: Conn, c: Choice)
    requires CoreOk(s) && CanStep(s) && ResetsOk(s) && Next(s) == None
    ensures StartOk(Step(s, c))
  {
    assert s.outer != [] ==> OuterOk(s.outer, 0);
    if !s.flags.writingFrameAsync {
      NoneWaits(s);
      if Popping(s).Served? {
        DequeueOk(s.table, s.out);
      }
    }
  }

  lemma DoStartOk(s: Conn, c: Choice)
    requires CoreOk(s) && CanStep(s) && Next(s).Some? && Step(s, c).panic == None
    ensures StartOk(Step(s, c))
  {
    NoStartNext(s, c);
  }

  /** Which panics a step can reach, and when. */
  lemma StepPanics(s: Conn, c: Choice)
    requires Sound(s) && CanStep(s)
    ensures PanicOk(Step(s, c).panic)
    ensures Step(s, c).panic == Some(OnClosed) <==>
              Next(s).Some? && Next(s).value.Start? && Next(s).value.wr.stream.Some?
              && Next(s).value.wr.stream.value !in s.table.streams
    ensures Step(s, c).panic == Some(CloseAgain) <==> Next(s).Some? && Next(s).value.CloseNow? && Next(s).value.id !in s.table.streams
  {
    if Next(s).Some? {
      var k := Next(s).value;
      OneFrameAtATime(s);
      match k
      case Write(wr) => WriteOut(Rest(s), wr);
      case Start(wr) => StartPanics(Rest(s), wr, c);
      case EndStream(id) => NoLateEnd(s);
      case Wrote(wr) => assert TaskOk(s.table, k);
      case _ =>
    }
  }

  lemma StartPanics(s: Conn, wr: Request, c: Choice)
    requires TableOk(s.table) && s.panic == None && s.table.maxPush + 2 !in s.out.sched.queues && !s.flags.writingFrame
    requires WriterOk(s.table, wr) && (wr.stream.Some? ==> !Local(s.table, wr.stream.value))
    ensures DoStart(s, wr, c).panic == if wr.stream.Some? && wr.stream.value !in s.table.streams then Some(OnClosed) else None
  {
    if wr.stream.Some? && wr.stream.value in s.table.streams {
      assert Tracked(s.table, wr.stream.value);
    }
  }

  /** What a panic leaves as it was. */
  lemma PanicLeaves(s: Conn, c: Choice)
    requires Sound(s) && CanStep(s) && Step(s, c).panic.Some?
    ensures Step(s, c).table == s.table && Step(s, c).out == s.out && Step(s, c).going == s.going
  {
    StepPanics(s, c);
  }

  /** Every step that does not panic keeps everything. */
  lemma StepSound(s: Conn, c: Choice)
    requires Sound(s) && CanStep(s) && Step(s, c).panic == None
    ensures Sound(Step(s, c)) && AllForward(s.table, Step(s, c).table) && GoingStays(s, Step(s, c))
  {
    CoreStep(s, c);
    StepGoing(s, c);
    GoingStep(s, c);
    QuietStep(s, c);
    MarksStep(s, c);
    EndStep(s, c);
    PendingStep(s, c);
    if Next(s) == None {
      IterateResets(s, c);
      IterateStart(s, c);
    } else {
      DoResets(s, c);
      DoStartOk(s, c);
    }
  }

  // ----- Events

  /** What an event does to the streams there are. */
  predicate StreamsKept(t: Table, t': Table) {
    forall id :: id in t'.streams ==>
      if id in t.streams
      then t'.streams[id].state == t.streams[id].state && t'.streams[id].resetQueued == t.streams[id].resetQueued
      else t'.streams[id].state != HalfClosedLocal
  }

  lemma HeadersStreams(s: Conn, e: Event)
    requires e.ReadHeaders? && forall x :: x in s.out.sched.queues ==> Seen(s.table, x)
    ensures StreamsKept(s.table, OnHeaders(s, e.id, e.ended, e.bad, e.refused, e.busy).table)
  {
    var t, t' := s.table, OnHeaders(s, e.id, e.ended, e.bad, e.refused, e.busy).table;
    HeadersTables(s, e);
    if t'.streams != t.streams && e.id in t.streams {
      assert t'.streams == t.streams[e.id := t.streams[e.id].(gotTrailer := true)];
    }
  }

  lemma HeadersTables(s: Conn, e: Event)
    requires e.ReadHeaders? && forall x :: x in s.out.sched.queues ==> Seen(s.table, x)
    ensures var t, t' := s.table.streams, OnHeaders(s, e.id, e.ended, e.bad, e.refused, e.busy).table.streams;
            || t' == t
            || (e.id in t && t' == t[e.id := t[e.id].(gotTrailer := true)])
            || (e.id !in t && t' == t[e.id := Stream(if e.ended then HalfClosedRemote else Open, false, false, false)])
  {
    HeadersCases(s, e);
    hide OnHeaders;
  }

  lemma StreamsOn(s: Conn, e: Event)
    requires forall x :: x in s.out.sched.queues ==> Seen(s.table, x)
    ensures StreamsKept(s.table, On(s, e).table)
  {
    if IsFrame(e) {
      var s1 := s.(peer := s.peer.(sawFirstSettings := true));
      if e.ReadHeaders? {
        HeadersStreams(s1, e);
      } else {
        OtherFrames(s1, e);
      }
    }
  }

  /** No event makes a stream half-closed (local) or takes back a mark. */
  lemma LocalOn(s: Conn, e: Event, id: nat)
    requires (forall x :: x in s.out.sched.queues ==> Seen(s.table, x)) && Local(On(s, e).table, id)
    ensures Local(s.table, id) && On(s, e).table.streams[id].resetQueued == s.table.streams[id].resetQueued
  {
    StreamsOn(s, e);
  }

  lemma ResetsOn(s: Conn, e: Event)
    requires Ready(s) && CoreOk(s) && ResetsOk(s) && Possible(s, e) && forall x :: x in s.out.sched.queues ==> Seen(s.table, x)
    ensures ResetsOk(On(s, e))
  {
    var s' := On(s, e);
    OnTasks(s, e);
    ControlOn(s, e);
    forall id | Local(s'.table, id)
      ensures ResetComing(s', id)
    {
      LocalOn(s, e, id);
      assert ResetComing(s, id);
    }
  }

  lemma ControlOn(s: Conn, e: Event)
    requires Ready(s) && Possible(s, e) && forall x :: x in s.out.sched.queues ==> Seen(s.table, x)
    ensures On(s, e).out.sched.control == s.out.sched.control && On(s, e).out.closing == s.out.closing
    ensures forall id :: id in s.out.sched.queues ==>
              id in On(s, e).out.sched.queues && On(s, e).out.sched.queues[id] == s.out.sched.queues[id]
  {
    if IsFrame(e) {
      if e.ReadHeaders? && s.peer.sawFirstSettings && !Discards(s, e.id) {
        HeadersOutput(s.(peer := s.peer.(sawFirstSettings := true)), e);
      } else {
        FrameOutOther(s, e);
      }
    }
  }

  lemma MarksOn(s: Conn, e: Event)
    requires Ready(s) && CoreOk(s) && MarksOk(s) && forall x :: x in s.out.sched.queues ==> Seen(s.table, x)
    ensures MarksOk(On(s, e))
  {
    forall id | Local(On(s, e).table, id)
      ensures MarkComing(On(s, e), id)
    {
      LocalOn(s, e, id);
      assert MarkComing(s, id);
    }
  }

  lemma EndOn(s: Conn, e: Event)
    requires Ready(s) && CoreOk(s) && MarksOk(s) && QuietOk(s) && OutputOk(On(s, e).out)
    requires Possible(s, e) && forall x :: x in s.out.sched.queues ==> Seen(s.table, x)
    ensures EndOk(On(s, e))
  {
    var s', id := On(s, e), FrameStream(e);
    OnTasks(s, e);
    if Ends(s') {
      EndsOn(s, e);
      if e.ReadHeaders? {
        TrailersEndOk(s, s', e, id);
      } else {
        DataEndOk(s, s', e, id);
      }
    }
  }

  lemma TrailersEndOk(s: Conn, s': Conn, e: Event, id: nat)
    requires Ready(s) && TableOk(s.table) && MarksOk(s) && id in s.table.streams && TrailersEnd(s, s', e, id)
    requires OutputOk(s'.out) && !s'.inLoop
    ensures EndOk(s')
  {
    assert Local(s.table, id) ==> MarkComing(s, id);
    assert Tracked(s.table, id);
  }

  lemma DataEndOk(s: Conn, s': Conn, e: Event, id: nat)
    requires Ready(s) && OutputOk(s.out) && QuietOk(s) && id in s.table.streams && DataEnds(s, s', e, id)
    requires s'.out == s.out && s'.flags == s.flags && s'.inner == [] && !s'.inLoop && !Discards(s, id)
    ensures EndOk(s')
  {
    if s.flags.inFlight == None {
      CalmStart(s.out);
    }
  }

  predicate TrailersEnd(s: Conn, s': Conn, e: Event, id: nat)
    requires id in s.table.streams
  {
    && e.ReadHeaders? && s'.outer == [EndStream(id)] && !s.table.streams[id].resetQueued
    && s.table.streams[id].state != HalfClosedRemote && id in s'.table.streams
    && s'.table.streams[id].state == s.table.streams[id].state
  }

  predicate DataEnds(s: Conn, s': Conn, e: Event, id: nat)
    requires id in s.table.streams
  {
    && e.ReadData? && s'.outer == [ConnUpdate, StreamUpdate(id), EndStream(id)]
    && s.table.streams[id].state == Open && s'.table == s.table
  }

  /** Which events end a request. */
  lemma EndsOn(s: Conn, e: Event)
    requires Ready(s) && (forall x :: x in s.out.sched.queues ==> Seen(s.table, x)) && Ends(On(s, e))
    ensures var s', id := On(s, e), FrameStream(e);
            && id in s.table.streams && s'.out == s.out && s'.flags == s.flags && !Discards(s, id)
            && (TrailersEnd(s, s', e, id) || DataEnds(s, s', e, id))
  {
  }

  /** No event starts a frame. */
  lemma StartOn(s: Conn, e: Event)
    requires Ready(s) && forall x :: x in s.out.sched.queues ==> Seen(s.table, x)
    ensures StartOk(On(s, e))
  {
    OnTasks(s, e);
  }

  /** Every event keeps everything. */
  lemma OnSound(s: Conn, e: Event)
    requires Sound(s) && Ready(s) && Possible(s, e) && forall x :: x in s.out.sched.queues ==> Seen(s.table, x)
    ensures Sound(On(s, e)) && AllForward(s.table, On(s, e).table) && GoingStays(s, On(s, e))
  {
    CoreOn(s, e);
    OnTasks(s, e);
    ResetsOn(s, e);
    MarksOn(s, e);
    OnGoing(s, e);
    GoingOn(s, e);
    StartOn(s, e);
    QuietOn(s, e);
    EndOn(s, e);
    ControlOn(s, e);
    PendingOn(s, e);
  }

  // ----- Runs

  datatype Action = Internal(c: Choice) | External(e: Event)

  /** Calls are carried out first; then the next message is taken. A panic ends the run. */
  ghost predicate MayAct(s: Conn, a: Action) {
    match a
    case Internal(_) => Busy(s)
    case External(e) => Ready(s) && Possible(s, e)
  }

  /** In a state of a run: the table, the queues and the GOAWAY are in order, and all else is too
      unless there was one of the two panics. */
  ghost predicate Inv(s: Conn) {
    && TableOk(s.table) && OutOk(s.table, s.out) && (s.going.sent.Some? ==> ServerGoAways.Covers(s.table, s.going.sent.value))
    && PanicOk(s.panic) && (s.panic == None ==> Sound(s))
  }

  lemma CanAct(s: Conn)
    requires Sound(s)
    ensures Busy(s) ==> CanStep(s)
    ensures forall x :: x in s.out.sched.queues ==> Seen(s.table, x)
  {
    QueuesSeen(s.table, s.out);
    if Busy(s) {
      CoreCanStep(s);
    }
  }

  lemma StepInv(s: Conn, c: Choice)
    requires Sound(s) && CanStep(s)
    ensures Inv(Step(s, c)) && AllForward(s.table, Step(s, c).table) && GoingStays(s, Step(s, c))
  {
    if Step(s, c).panic == None {
      StepSound(s, c);
    } else {
      StepPanics(s, c);
      PanicLeaves(s, c);
    }
  }

  /** The state after an action. */
  ghost function Act(s: Conn, a: Action): (s': Conn)
    requires Inv(s) && MayAct(s, a)
    ensures Inv(s') && AllForward(s.table, s'.table) && GoingStays(s, s')
  {
    CanAct(s);
    match a
    case Internal(c) => StepInv(s, c); Step(s, c)
    case External(e) => OnSound(s, e); On(s, e)
  }

  ghost predicate AllowedRun(s: Conn, actions: seq<Action>)
    requires Inv(s)
    decreases |actions|
  {
    actions == [] || (MayAct(s, actions[0]) && AllowedRun(Act(s, actions[0]), actions[1..]))
  }

  ghost function RunTo(s: Conn, actions: seq<Action>): (s': Conn)
    requires Inv(s) && AllowedRun(s, actions)
    ensures Inv(s')
    decreases |actions|
  {
    if actions == [] then s else RunTo(Act(s, actions[0]), actions[1..])
  }

  /** A new connection, which has its SETTINGS and perhaps a window update to write. */
  function Initial(advMaxStreams: nat): (s: Conn)
    ensures Inv(s) && s.panic == None
  {
    var s := Conn(Table(map[], 0, 0, 0, 0, advMaxStreams, {}), Peer(0xffff_ffff, true, false, 65535),
                  Output(Sched([], [], map[]), Windows(65535, map[], 16384), 0, {}), Flags(false, false, false, None),
                  Going(false, false, 0, None), false, BUFFER, false, [], [Write(Control(Settings)), ConnUpdate], None);
    assert Odd(s.table.streams) == {} && Even(s.table.streams) == {};
    EmptyExactly(s.out.sched, s.out.win);
    s
  }

  /** In every state of every run, whatever the client and the handlers do: streams in the table are
      open or half-closed with IDs that were seen, the counters and the count of control frames are
      exact, clients keep to their limit, the GOAWAY written covers all client streams, and no panic
      but those for closed streams was reached. */
  lemma EveryState(advMaxStreams: nat, actions: seq<Action>)
    requires AllowedRun(Initial(advMaxStreams), actions)
    ensures var s := RunTo(Initial(advMaxStreams), actions);
            && (s.panic.Some? ==> s.panic.value == OnClosed || s.panic.value == CloseAgain)
            && (forall id :: id in s.table.streams ==>
                  && s.table.streams[id].state in {Open, HalfClosedLocal, HalfClosedRemote} && id != 0
                  && (if id % 2 == 1 then id <= s.table.maxClient else id <= s.table.maxPush))
            && s.table.clients == |Odd(s.table.streams)| <= s.table.advMaxStreams && s.table.pushed == |Even(s.table.streams)|
            && s.out.queuedControlFrames == |s.out.sched.control|
            && (forall i :: 0 <= i < |s.out.sched.control| ==> s.out.sched.control[i].IsControl())
            && (s.going.sent.Some? ==> forall id :: id in s.table.created ==> id <= s.going.sent.value)
  {
    hide Sound, OutputOk, RunTo, AllowedRun, Initial;
    var s := RunTo(Initial(advMaxStreams), actions);
    forall id | id in s.table.streams
      ensures Tracked(s.table, id)
    {
    }
  }

  /** From any state of a run to any later one, the state of every stream has moved forward. */
  lemma {:induction false} RunForward(s: Conn, actions: seq<Action>)
    requires Inv(s) && AllowedRun(s, actions)
    ensures AllForward(s.table, RunTo(s, actions).table)
    decreases |actions|
  {
    if actions != [] {
      var s1 := Act(s, actions[0]);
      RunForward(s1, actions[1..]);
      forall id: nat
        ensures Forward(StateOf(s.table, id), StateOf(RunTo(s, actions).table, id))
      {
        assert Forward(StateOf(s.table, id), StateOf(s1.table, id));
        assert Forward(StateOf(s1.table, id), StateOf(RunTo(s, actions).table, id));
      }
    }
  }

  /** Once a connection is going away no client stream is ever created, and its error stays. */
  lemma {:induction false} RunGoing(s: Conn, actions: seq<Action>)
    requires Inv(s) && AllowedRun(s, actions) && s.going.inGoAway
    ensures var s' := RunTo(s, actions);
            && s'.going.inGoAway && s'.table.created == s.table.created
            && (s.going.code != 0 ==> s'.going.code == s.going.code)
    decreases |actions|
  {
    if actions != [] {
      RunGoing(Act(s, actions[0]), actions[1..]);
    }
  }
}
