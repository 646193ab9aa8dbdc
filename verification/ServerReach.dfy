/** Whether the loop of scheduleFrameWrite will take a frame of a stream that has left the table
    before the scheduler hears of it, told from the frames ahead alone (h2_bundle.go:5194-5233,
    5479-5523). */
module ServerReaches {
  import opened Foundations
  import opened WriteQueues
  import opened RoundRobins
  import opened ServerConns
  import opened ServerTables
  import opened ServerLoops
  import opened ServerOutputs
  import opened ServerSteps
  import opened ServerSafety
  import opened ServerPendings
  import opened ServerLines

  function States(t: Table): map<nat, StreamState> {
    map id | id in t.streams :: t.streams[id].state
  }

  function RulesOf(s: Conn): Rules {
    Rules(s.peer.pushEnabled, s.peer.maxStreams, s.table.maxPush, s.going.inGoAway)
  }

  /** Where the line starts, and the control frames ahead; a GOAWAY that is due is in the way. */
  datatype Point = Point(line: Line, control: seq<Request>)

  function ControlOf(s: Conn): seq<Request> {
    (if s.needToSendSettingsAck then [Control(SettingsAck)] else []) + s.out.sched.control
  }

  const STUCK := Point(Stuck, [])

  function PointOf(s: Conn): Point {
    if s.going.needToSend then STUCK else Point(Line(s.free, s.out.win.conn, States(s.table)), ControlOf(s))
  }

  /** What a call that is still to be carried out does to the line. */
  function Perform(r: Rules, p: Point, k: Task): Point {
    if p.line.Stuck? then STUCK
    else
      match k
      case Write(wr) => p.(control := p.control + [wr])
      case Reset(x, code) => p.(control := p.control + [Control(StreamError(x, code))])
      case CloseNow(x) => p.(line := p.line.(states := p.line.states - {x}))
      case GoAwayNow(_) => if r.going then p else STUCK
      case Wrote(wr) => Point(Left(p.line, wr), p.control + Follows(p.line, wr))
      case Start(wr) =>
        if Written(r, p.line, wr).Stuck? then STUCK else Point(Written(r, p.line, wr), p.control + Follows(p.line, wr))
      case _ => p
  }

  function Performed(r: Rules, p: Point, ks: seq<Task>): Point
    decreases |ks|
  {
    if ks == [] then p else Performed(r, Perform(r, p, ks[0]), ks[1..])
  }

  predicate NoError(s: Conn) {
    !s.going.inGoAway || s.going.code == 0
  }

  predicate Reached(s: Conn, p: Point, id: nat)
    requires OutputOk(s.out)
  {
    Arrives(RulesOf(s), p.line, p.control, Streams(s.out), s.out.win, id)
  }

  /** The queues of the streams; the control frames are counted apart. */
  function Streams(o: Output): (sched: Sched)
    requires OutputOk(o)
    ensures SchedOk(sched) && WindowsFor(sched, o.win)
  {
    o.sched.(control := [])
  }

  /** The line through all calls of the loop. */
  function LoopPoint(s: Conn): Point {
    Performed(RulesOf(s), PointOf(s), s.inner)
  }

  predicate StartsOn(s: Conn, id: nat) {
    |s.inner| > 0 && s.inner[0].Start? && s.inner[0].wr.stream == Some(id)
  }

  /** The calls before the one that tells the scheduler start the loop, and the loop gets there. */
  predicate Reaches(s: Conn, id: nat)
    requires OutputOk(s.out)
  {
    && s.flags.inFlight == None && NoError(s)
    && if s.inLoop then
         s.outer != [] && s.outer[0] == SchedClose(id)
         && (StartsOn(s, id) || Reached(s, LoopPoint(s), id))
       else
         || (|s.outer| > 1 && s.outer[1] == SchedClose(id) && (s.outer[0] == Schedule || IsUpdate(s.outer[0]))
             && Reached(s, Performed(RulesOf(s), PointOf(s), s.outer[..1]), id))
         || (|s.outer| > 2 && s.outer[2] == SchedClose(id) && IsUpdate(s.outer[1])
             && Reached(s, Performed(RulesOf(s), PointOf(s), s.outer[..2]), id))
  }

  // ----- Performing calls

  lemma {:induction false} PerformedAppend(r: Rules, p: Point, ks: seq<Task>, more: seq<Task>)
    ensures Performed(r, p, ks + more) == Performed(r, Performed(r, p, ks), more)
    decreases |ks|
  {
    if ks == [] {
      assert ks + more == more;
    } else {
      assert (ks + more)[1..] == ks[1..] + more;
      PerformedAppend(r, Perform(r, p, ks[0]), ks[1..], more);
    }
  }

  lemma {:induction false} PerformedStuck(r: Rules, p: Point, ks: seq<Task>)
    requires p.line.Stuck?
    ensures Performed(r, p, ks).line.Stuck?
    decreases |ks|
  {
    if ks != [] {
      PerformedStuck(r, Perform(r, p, ks[0]), ks[1..]);
    }
  }

  lemma {:induction false} PerformedTail(r: Rules, p: Point, ks: seq<Task>)
    requires Tail(ks) && (p.line.Stuck? ==> p == STUCK)
    ensures Performed(r, p, ks) == p
    decreases |ks|
  {
    if ks != [] {
      PerformedTail(r, p, ks[1..]);
    }
  }

  lemma PerformedOne(r: Rules, p: Point, k: Task)
    ensures Performed(r, p, [k]) == Perform(r, p, k)
  {
    assert [k][1..] == [];
  }

  lemma StuckNowhere(s: Conn, p: Point, id: nat)
    requires OutputOk(s.out) && p.line.Stuck?
    ensures !Reached(s, p, id)
  {
    StuckStays(RulesOf(s), p.control);
  }

  /** The calls made inside the loop by a call that is not decided elsewhere. */
  predicate Fixed(k: Task) {
    k.Write? || k.Reset? || k.MarkReset? || k.Wrote? || k.GoAwayNow?
  }

  // ----- One call at a time

  /** A call does to the line what the calls do that it leads to. */
  predicate SamePoint(s: Conn, s': Conn, k: Task, ts: seq<Task>) {
    RulesOf(s') == RulesOf(s) && Performed(RulesOf(s), PointOf(s'), ts) == Perform(RulesOf(s), PointOf(s), k)
  }

  lemma WritePoint(s: Conn, wr: Request)
    requires WriterOk(s.table, wr) && wr.stream == None && (wr.write.WindowUpdate? || wr.write.StreamError?)
    ensures SamePoint(s, DoWrite(s, wr), Write(wr), [Schedule]) && DoWrite(s, wr).out.win == s.out.win
    ensures DoWrite(s, wr).out.sched == s.out.sched.(control := s.out.sched.control + [wr])
  {
    PerformedOne(RulesOf(s), PointOf(DoWrite(s, wr)), Schedule);
    assert ControlOf(DoWrite(s, wr)) == ControlOf(s) + [wr];
  }

  lemma ResetPoint(s: Conn, id: nat, code: nat)
    ensures SamePoint(s, s, Reset(id, code), [Write(Control(StreamError(id, code))), MarkReset(id)])
  {
    var p := PointOf(s);
    var ts := [Write(Control(StreamError(id, code))), MarkReset(id)];
    assert ts[1..] == [MarkReset(id)];
    PerformedOne(RulesOf(s), Perform(RulesOf(s), p, ts[0]), MarkReset(id));
  }

  lemma MarkPoint(s: Conn, id: nat)
    ensures PointOf(DoMarkReset(s, id)) == PointOf(s) && RulesOf(DoMarkReset(s, id)) == RulesOf(s)
    ensures DoMarkReset(s, id).out == s.out
  {
    if id in s.table.streams {
      assert States(DoMarkReset(s, id).table) == States(s.table);
    }
  }

  lemma WrotePoint(s: Conn, wr: Request)
    requires s.flags.writingFrame && (EndsStream(wr.write) || wr.write.HandlerPanicRST? ==> wr.stream.Some?)
    ensures SamePoint(s, DoWrote(s, wr), Wrote(wr), Finished(s.table, wr) + [Schedule]) && DoWrote(s, wr).out == s.out
  {
    var r, s' := RulesOf(s), DoWrote(s, wr);
    PerformedAppend(r, PointOf(s'), Finished(s.table, wr), [Schedule]);
    PerformedOne(r, Performed(r, PointOf(s'), Finished(s.table, wr)), Schedule);
    WroteStates(s, wr);
    if Finished(s.table, wr) != [] {
      PerformedOne(r, PointOf(s'), Finished(s.table, wr)[0]);
    }
    WroteLine(s, wr);
  }

  lemma WroteStates(s: Conn, wr: Request)
    ensures var t, t' := s.table, HalfClosed(s.table, wr);
            States(t') == if EndsStream(wr.write) && wr.stream.Some? && wr.stream.value in t.streams
                             && t.streams[wr.stream.value].state == Open
                          then States(t)[wr.stream.value := HalfClosedLocal] else States(t)
  {
  }

  lemma WroteLine(s: Conn, wr: Request)
    requires s.flags.writingFrame && (EndsStream(wr.write) || wr.write.HandlerPanicRST? ==> wr.stream.Some?)
    ensures var p, p', ts := PointOf(s), PointOf(DoWrote(s, wr)), Finished(s.table, wr);
            (if ts == [] then p' else Perform(RulesOf(s), p', ts[0])) == Perform(RulesOf(s), p, Wrote(wr))
  {
    WroteStates(s, wr);
    var p, ts := PointOf(s), Finished(s.table, wr);
    assert p.control + [] == p.control;
    if wr.write.StreamError? && ts == [] {
      assert States(s.table) - {wr.write.streamID} == States(s.table);
    }
  }

  lemma ClosePoint(s: Conn, id: nat, c: Choice)
    requires id in s.table.streams
    ensures PointOf(DoClose(s, id, c)) == Perform(RulesOf(s), PointOf(s), CloseNow(id)) && RulesOf(DoClose(s, id, c)) == RulesOf(s)
    ensures DoClose(s, id, c).out.sched == s.out.sched && DoClose(s, id, c).out.win == s.out.win
  {
    assert States(RemoveStream(s.table, id)) == States(s.table) - {id};
  }

  /** A call that does not depend on what is decided elsewhere. */
  lemma FixedPoint(s: Conn, k: Task, c: Choice)
    requires TaskOk(s.table, k) && s.table.maxPush + 2 !in s.out.sched.queues && Fixed(k) && LoopTask(k)
    requires (k.GoAwayNow? ==> s.going.inGoAway) && (k.Wrote? ==> s.flags.writingFrame)
    ensures var s' := Do(s, k, c);
            && SamePoint(s, s', k, Pushes(s, k, c)) && s'.out.win == s.out.win && s'.going == s.going
            && s'.out.sched == s.out.sched.(control := s'.out.sched.control)
  {
    match k
    case Write(wr) => WritePoint(s, wr);
    case Reset(id, code) => ResetPoint(s, id, code);
    case MarkReset(id) => MarkPoint(s, id);
    case Wrote(wr) => WrotePoint(s, wr);
    case GoAwayNow(_) =>
  }

  lemma PerformedFirst(r: Rules, p: Point, ks: seq<Task>)
    requires ks != []
    ensures Performed(r, p, ks) == Performed(r, Perform(r, p, ks[0]), ks[1..])
  {
  }

  /** The line through all calls of the loop is the same before and after. */
  lemma FixedLine(s: Conn, c: Choice)
    requires CoreOk(s) && CanStep(s) && PendingOk(s) && s.inLoop && Next(s).Some? && Fixed(Next(s).value)
    requires Step(s, c).panic == None && (Next(s).value.GoAwayNow? ==> s.going.inGoAway) && OutputOk(Step(s, c).out)
    ensures var s' := Step(s, c);
            && s'.inLoop && s'.outer == s.outer && s'.flags.inFlight == s.flags.inFlight && s'.going == s.going
            && RulesOf(s') == RulesOf(s) && s'.out.win == s.out.win && Streams(s'.out) == Streams(s.out)
            && Performed(RulesOf(s), PointOf(s'), s'.inner) == Performed(RulesOf(s), PointOf(s), s.inner)
  {
    hide TableOk, OutOk, TasksOk, ClosePending, Apart, OuterShape;
    var k, r := Next(s).value, RulesOf(s);
    var ts := Pushes(Rest(s), k, c);
    OneFrameAtATime(s);
    FixedPoint(Rest(s), k, c);
    DoPushes(Rest(s), k, c);
    PerformedAppend(r, PointOf(Step(s, c)), ts, s.inner[1..]);
    PerformedFirst(r, PointOf(s), s.inner);
  }

  lemma InsideFixed(s: Conn, c: Choice, id: nat)
    requires CoreOk(s) && CanStep(s) && PendingOk(s) && s.inLoop && Next(s).Some? && Fixed(Next(s).value)
    requires Step(s, c).panic == None && OutputOk(Step(s, c).out)
    ensures Reaches(Step(s, c), id) <==> Reaches(s, id)
  {
    NoStartNext(s, c);
    if Next(s).value.GoAwayNow? && !s.going.inGoAway {
      InsideGoAway(s, c, id);
    } else {
      FixedLine(s, c);
    }
  }

  lemma InsideGoAway(s: Conn, c: Choice, id: nat)
    requires CanStep(s) && s.inLoop && Next(s) == Some(GoAwayNow(0)) && !s.going.inGoAway && OutputOk(Step(s, c).out)
    ensures !Reaches(s, id) && (!StartsOn(Step(s, c), id) ==> !Reaches(Step(s, c), id))
  {
    var r, s' := RulesOf(s), Step(s, c);
    PerformedFirst(r, PointOf(s), s.inner);
    PerformedStuck(r, STUCK, s.inner[1..]);
    PerformedStuck(RulesOf(s'), PointOf(s'), s'.inner);
    StuckNowhere(s, Performed(r, PointOf(s), s.inner), id);
    StuckNowhere(s', Performed(RulesOf(s'), PointOf(s'), s'.inner), id);
  }

  /** Attempts to start the loop inside it, and the end of a flush, change nothing. */
  lemma InsideIdle(s: Conn, c: Choice, id: nat)
    requires CoreOk(s) && CanStep(s) && PendingOk(s) && s.inLoop
    requires Next(s) == Some(Schedule) || Next(s) == Some(ClearFlush)
    ensures Reaches(Step(s, c), id) <==> Reaches(s, id)
  {
    PerformedFirst(RulesOf(s), PointOf(s), s.inner);
    NoStartNext(s, c);
  }

  /** The scheduler closes the queue of another stream. */
  lemma InsideSchedClose(s: Conn, c: Choice, id: nat, x: nat)
    requires CoreOk(s) && CanStep(s) && PendingOk(s) && s.inLoop && Next(s) == Some(SchedClose(x)) && x != id
    requires OutputOk(Step(s, c).out)
    ensures Reaches(Step(s, c), id) <==> Reaches(s, id)
  {
    NoStartNext(s, c);
    SchedClosed(s, c, x);
    PerformedFirst(RulesOf(s), PointOf(s), s.inner);
    OthersArrive(s, Step(s, c), x, id);
  }

  lemma SchedClosed(s: Conn, c: Choice, x: nat)
    requires CanStep(s) && s.inLoop && Next(s) == Some(SchedClose(x))
    requires OutputOk(Step(s, c).out)
    ensures var s' := Step(s, c);
            && s'.inLoop && s'.inner == s.inner[1..] && s'.outer == s.outer && s'.flags == s.flags && s'.going == s.going
            && RulesOf(s') == RulesOf(s) && PointOf(s') == PointOf(s) && s'.out.win == s.out.win.(streams := s.out.win.streams - {x})
            && Streams(s'.out) == Close(Streams(s.out), x) && s'.table == s.table && x !in s.table.streams
  {
  }

  lemma OthersArrive(s: Conn, s': Conn, x: nat, id: nat)
    requires OutputOk(s.out) && OutputOk(s'.out) && x != id && x !in s.table.streams
    requires RulesOf(s') == RulesOf(s) && PointOf(s') == PointOf(s) && s'.out.win == s.out.win.(streams := s.out.win.streams - {x})
    requires Streams(s'.out) == Close(Streams(s.out), x)
    ensures var p := Performed(RulesOf(s), PointOf(s), s'.inner); Reached(s', p, id) <==> Reached(s, p, id)
  {
    var p := Performed(RulesOf(s), PointOf(s), s'.inner);
    PerformedWithin(RulesOf(s), PointOf(s), s'.inner);
    ArrivesClosed(RulesOf(s), p.line, p.control, Streams(s.out), s.out.win, x, id);
  }

  lemma {:induction false} PerformedWithin(r: Rules, p: Point, ks: seq<Task>)
    ensures Performed(r, p, ks).line.Line? ==> p.line.Line? && Performed(r, p, ks).line.states.Keys <= p.line.states.Keys
    decreases |ks|
  {
    if ks != [] {
      PerformedWithin(r, Perform(r, p, ks[0]), ks[1..]);
    }
  }

  /** A stream is closed inside the loop: what it announces only takes bytes. */
  lemma InsideClose(s: Conn, c: Choice, id: nat, x: nat)
    requires CoreOk(s) && CanStep(s) && PendingOk(s) && s.inLoop && Next(s) == Some(CloseNow(x))
    requires Step(s, c).panic == None && OutputOk(Step(s, c).out)
    ensures Reaches(Step(s, c), id) ==> Reaches(s, id)
    ensures c == LEAST ==> (Reaches(Step(s, c), id) <==> Reaches(s, id))
  {
    var s' := Step(s, c);
    NoStartNext(s, c);
    ClosedInside(s, c, x);
    if Reached(s', LoopPoint(s'), id) {
      FarewellReached(s', PointOf(s'), LoopPoint(s'), c, id);
      assert Reached(s, LoopPoint(s), id);
    }
    Lifts(s, s', id);
    if c == LEAST {
      Lifts(s', s, id);
    }
  }

  /** Inside the loop only the line matters. */
  lemma Lifts(s: Conn, s': Conn, id: nat)
    requires OutputOk(s.out) && OutputOk(s'.out) && s.inLoop && s'.inLoop && s'.outer == s.outer
    requires s'.flags.inFlight == s.flags.inFlight && s'.going == s.going && !StartsOn(s', id)
    requires Reached(s', LoopPoint(s'), id) ==> Reached(s, LoopPoint(s), id)
    ensures Reaches(s', id) ==> Reaches(s, id)
  {
  }

  lemma ClosedInside(s: Conn, c: Choice, x: nat)
    requires CoreOk(s) && CanStep(s) && PendingOk(s) && s.inLoop && Next(s) == Some(CloseNow(x))
    requires Step(s, c).panic == None && OutputOk(Step(s, c).out)
    ensures var s', r := Step(s, c), RulesOf(s);
            && s'.inLoop && s'.outer == s.outer && s'.flags == s.flags && s'.going == s.going && RulesOf(s') == r
            && s'.out.win == s.out.win && Streams(s'.out) == Streams(s.out)
            && LoopPoint(s) == PointOf(s') && Announced(PointOf(s'), LoopPoint(s'), c)
            && (c == LEAST ==> LoopPoint(s') == PointOf(s'))
  {
    hide TableOk, OutOk, TasksOk, ClosePending, Apart, OuterShape;
    var r, s', t := RulesOf(s), Step(s, c), RemoveStream(s.table, x);
    ClosePoint(Rest(s), x, c);
    DoPushes(Rest(s), CloseNow(x), c);
    PerformedFirst(r, PointOf(s), s.inner);
    PerformedTail(r, PointOf(s'), s.inner[1..]);
    FarewellInside(r, PointOf(s'), t, c, x, s.inner[1..], s'.inner);
  }

  /** Nothing, an update more, or a GOAWAY in the way. */
  predicate Announced(p: Point, p': Point, c: Choice) {
    || p' == STUCK || (p' == p && c.announce == 0)
    || (c.announce > 0 && p' == p.(control := p.control + [Control(WindowUpdate(c.announce))]))
  }

  lemma FarewellInside(r: Rules, p: Point, t: Table, c: Choice, x: nat, rest: seq<Task>, ks: seq<Task>)
    requires (p.line.Stuck? ==> p == STUCK) && Tail(rest) && ks == Farewell(t, c) + [SchedClose(x)] + rest
    ensures Announced(p, Performed(r, p, ks), c) && (c == LEAST ==> Performed(r, p, ks) == p)
  {
    assert ks == Farewell(t, c) + ([SchedClose(x)] + rest);
    PerformedAppend(r, p, Farewell(t, c), [SchedClose(x)] + rest);
    FarewellPoint(r, p, t, c);
    SchedCloseTail(r, Performed(r, p, Farewell(t, c)), x, rest);
  }

  lemma SchedCloseTail(r: Rules, p: Point, x: nat, ks: seq<Task>)
    requires Tail(ks) && (p.line.Stuck? ==> p == STUCK)
    ensures Performed(r, p, [SchedClose(x)] + ks) == p
  {
    assert ([SchedClose(x)] + ks)[1..] == ks;
    PerformedTail(r, p, ks);
  }

  /** What the calls of a close leave of the line. */
  lemma FarewellPoint(r: Rules, p: Point, t: Table, c: Choice)
    requires p.line.Stuck? ==> p == STUCK
    ensures var p' := Performed(r, p, Farewell(t, c));
            if (t.streams == map[] && c.shutdown && !r.going) || p == STUCK then p' == STUCK
            else p' == if c.announce > 0 then p.(control := p.control + [Control(WindowUpdate(c.announce))]) else p
  {
    var ts := Farewell(t, c);
    if ts != [] {
      if |ts| == 1 {
        PerformedOne(r, p, ts[0]);
      } else {
        PerformedOne(r, Perform(r, p, ts[0]), ts[1]);
        assert ts[1..] == [ts[1]];
      }
    }
  }

  lemma FarewellReached(s: Conn, p: Point, p': Point, c: Choice, id: nat)
    requires OutputOk(s.out) && Reached(s, p', id) && Announced(p, p', c)
    ensures Reached(s, p, id)
  {
    if p' == STUCK {
      StuckNowhere(s, p', id);
    } else if p' != p {
      ArrivesWithoutUpdate(RulesOf(s), p.line, p.control, Control(WindowUpdate(c.announce)), Streams(s.out), s.out.win, id);
    }
  }

  // ----- A frame is started

  lemma EvenCounts(t: Table)
    requires TableOk(t)
    ensures |EvenIDs(States(t))| == t.pushed
  {
    assert EvenIDs(States(t)) == Even(t.streams);
  }

  lemma ReachedLe(s: Conn, s': Conn, p: Point, p': Point, id: nat)
    requires OutputOk(s.out) && OutputOk(s'.out) && RulesOf(s') == RulesOf(s) && s'.out.win == s.out.win
    requires Streams(s'.out) == Streams(s.out) && Reached(s', p', id) && Le(p'.line, p.line) && (p'.line.Stuck? || p'.control == p.control)
    ensures Reached(s, p, id)
  {
    if p'.line.Stuck? {
      StuckNowhere(s', p', id);
    } else {
      ArrivesLe(RulesOf(s), p'.line, p.line, p.control, Streams(s.out), s.out.win, id);
    }
  }

  /** The line before a frame that is started, and after. */
  predicate Fewer(p: Point, p': Point) {
    Le(p'.line, p.line) && (p'.line.Stuck? || p'.control == p.control)
  }

  lemma StartedInPlace(s: Conn, wr: Request, c: Choice)
    requires s.table.maxPush + 2 !in s.out.sched.queues && s.inLoop && s.inner == [] && DoStart(s, wr, c).panic == s.panic == None
    requires InPlace(wr.write, s.free)
    ensures var r, s' := RulesOf(s), DoStart(s, wr, c);
            && s'.inLoop && s'.outer == s.outer && s'.inner == [Wrote(wr)] && s'.flags.inFlight == s.flags.inFlight && s'.going == s.going
            && RulesOf(s') == r && s'.out == s.out && Fewer(Perform(r, PointOf(s), Start(wr)), LoopPoint(s'))
            && (c == LEAST ==> LoopPoint(s') == Perform(r, PointOf(s), Start(wr)))
  {
    PerformedOne(RulesOf(s), PointOf(DoStart(s, wr, c)), Wrote(wr));
  }

  lemma StartedPush(s: Conn, wr: Request, c: Choice)
    requires TableOk(s.table) && s.table.maxPush + 2 !in s.out.sched.queues && s.inLoop && s.inner == [] && wr.write.PushPromise?
    requires DoStart(s, wr, c).panic == s.panic == None && !(MayPush(s) && HasPushID(s))
    ensures var r, s' := RulesOf(s), DoStart(s, wr, c);
            && s'.inLoop && s'.outer == s.outer && s'.flags.inFlight == s.flags.inFlight && s'.going == s.going
            && RulesOf(s') == r && s'.out == s.out && LoopPoint(s') == Perform(r, PointOf(s), Start(wr))
            && (s'.inner == [] || s'.inner == [GoAwayNow(0)])
  {
    EvenCounts(s.table);
    PerformedOne(RulesOf(s), PointOf(s), GoAwayNow(0));
    assert PointOf(s).control + [] == PointOf(s).control;
  }

  lemma StartedAsync(s: Conn, wr: Request, c: Choice)
    requires TableOk(s.table) && s.table.maxPush + 2 !in s.out.sched.queues && s.inLoop
    requires DoStart(s, wr, c).panic == s.panic == None && !InPlace(wr.write, s.free)
    requires wr.write.PushPromise? ==> MayPush(s) && HasPushID(s)
    ensures DoStart(s, wr, c).flags.inFlight.Some? && Perform(RulesOf(s), PointOf(s), Start(wr)) == STUCK
  {
    EvenCounts(s.table);
  }

  lemma InsideStart(s: Conn, c: Choice, id: nat)
    requires CoreOk(s) && CanStep(s) && PendingOk(s) && s.inLoop && Next(s).Some? && Next(s).value.Start?
    requires Step(s, c).panic == None && OutputOk(Step(s, c).out) && SchedClose(id) in s.outer
    ensures Reaches(Step(s, c), id) ==> Reaches(s, id)
    ensures c == LEAST ==> (Reaches(Step(s, c), id) <==> Reaches(s, id))
  {
    hide TableOk, OutOk, TasksOk, PendingOk;
    var wr, s' := Next(s).value.wr, Step(s, c);
    var r, p := RulesOf(s), Perform(RulesOf(s), PointOf(s), Start(wr));
    assert InnerOk(s.inner, 0);
    NotStartedOn(s, c, id);
    PerformedFirst(r, PointOf(s), s.inner);
    if InPlace(wr.write, s.free) {
      StartedInPlace(Rest(s), wr, c);
      assert LoopPoint(s) == p;
      if Reached(s', LoopPoint(s'), id) {
        ReachedLe(s, s', p, LoopPoint(s'), id);
      }
      Lifts(s, s', id);
      if c == LEAST {
        Lifts(s', s, id);
      }
    } else if wr.write.PushPromise? && !(MayPush(s) && HasPushID(s)) {
      StartedPush(Rest(s), wr, c);
      assert LoopPoint(s) == p;
      Lifts(s, s', id);
      Lifts(s', s, id);
    } else {
      StartedAsync(Rest(s), wr, c);
      PerformedStuck(r, STUCK, s.inner[1..]);
      StuckNowhere(s, LoopPoint(s), id);
    }
  }

  /** A frame on a stream that is being closed is never started without a panic. */
  lemma NotStartedOn(s: Conn, c: Choice, id: nat)
    requires CoreOk(s) && CanStep(s) && s.inLoop && Next(s).Some? && Next(s).value.Start?
    requires Step(s, c).panic == None && SchedClose(id) in s.outer
    ensures !StartsOn(s, id)
  {
    var i :| 0 <= i < |s.outer| && s.outer[i] == SchedClose(id);
    assert TaskOk(s.table, s.outer[i]);
    assert id !in s.table.streams && Seen(s.table, id);
  }

  // ----- A round of the loop

  /** A GOAWAY or a flush is in the way. */
  lemma InTheWay(s: Conn, wr: Request, more: seq<Task>, id: nat)
    requires OutputOk(s.out) && s.inLoop && s.inner == [Start(wr)] + more && (wr.write.GoAway? || wr.write.Flush?) && wr.stream == None
    ensures !Reaches(s, id)
  {
    PerformedFirst(RulesOf(s), PointOf(s), s.inner);
    assert s.inner[1..] == more;
    PerformedStuck(RulesOf(s), STUCK, more);
    StuckNowhere(s, LoopPoint(s), id);
  }

  /** A control frame is taken from the front. */
  lemma FrontFrame(r: Rules, l: Line, wr: Request, control: seq<Request>, sched: Sched, win: Windows, id: nat)
    requires SchedOk(sched) && WindowsFor(sched, win) && wr.stream == None
    ensures Follows(l, wr) == []
    ensures Arrives(r, l, [wr] + control, sched, win, id) <==> Arrives(r, Written(r, l, wr), control, sched, win, id)
  {
    assert ([wr] + control)[1..] == control;
  }

  lemma TakesControl(s: Conn, s': Conn, wr: Request, id: nat)
    requires OutputOk(s.out) && OutputOk(s'.out) && s.inLoop && s'.inLoop && s.inner == [] && s'.inner == [Start(wr)]
    requires wr.stream == None && s'.outer == s.outer && s'.flags.inFlight == s.flags.inFlight && s'.going == s.going && !s.going.needToSend
    requires RulesOf(s') == RulesOf(s) && s'.out.win == s.out.win && Streams(s'.out) == Streams(s.out)
    requires s'.free == s.free && s'.table == s.table && ControlOf(s) == [wr] + ControlOf(s')
    ensures Reaches(s', id) <==> Reaches(s, id)
  {
    var r, l := RulesOf(s), PointOf(s).line;
    FrontFrame(r, l, wr, ControlOf(s'), Streams(s.out), s.out.win, id);
    PerformedOne(r, PointOf(s'), Start(wr));
    assert ControlOf(s') + [] == ControlOf(s');
    if Written(r, l, wr).Stuck? {
      StuckNowhere(s', LoopPoint(s'), id);
      StuckStays(r, ControlOf(s'));
    }
    Lifts(s, s', id);
    Lifts(s', s, id);
  }

  /** Nothing is taken: no stream can send, this one neither. */
  lemma TakesNothing(s: Conn, id: nat)
    requires OutputOk(s.out) && s.inLoop && s.inner == [] && !s.going.needToSend && !s.needToSendSettingsAck
    requires Pop(s.out.sched, s.out.win).Empty?
    ensures !Reaches(s, id)
  {
    PopOk(s.out.sched, s.out.win);
    if Reached(s, PointOf(s), id) {
      ArrivesCanSend(RulesOf(s), PointOf(s).line, PointOf(s).control, Streams(s.out), s.out.win, id);
      StreamsSend(s.out, s.out.win.conn, id);
    }
  }

  /** Control frames do not matter for what a stream can send. */
  lemma StreamsSend(o: Output, conn: int, id: nat)
    requires OutputOk(o)
    ensures CanSend(Streams(o), o.win.(conn := conn), id) <==> CanSend(o.sched, o.win.(conn := conn), id)
    ensures o.win.(conn := o.win.conn) == o.win
  {
  }

  lemma ReadyFirst(o: Output)
    requires OutputOk(o) && o.sched.control == []
    ensures Streams(o) == o.sched
  {
  }

  /** The stream itself is taken. */
  lemma TakesIt(s: Conn, id: nat, k: nat)
    requires OutputOk(s.out) && s.inLoop && s.inner == [] && !s.going.needToSend && !s.needToSendSettingsAck
    requires s.out.sched.control == [] && k == FirstReady(s.out.sched, s.out.win, 0) < |s.out.sched.order| && s.out.sched.order[k] == id
    ensures Reached(s, LoopPoint(s), id)
  {
    var r, l, order := RulesOf(s), PointOf(s).line, s.out.sched.order;
    ReadyFirst(s.out);
    StreamsSend(s.out, s.out.win.conn, id);
    LineUpSkips(r, l, s.out.sched, s.out.win, order, k, id);
    assert order[k..][0] == id;
    assert PointOf(s).control == [];
  }

  /** Another stream is taken, and this one is not behind it: it cannot send. */
  lemma NotBehind(s: Conn, s': Conn, id: nat, k: nat)
    requires OutputOk(s.out) && s.out.sched.control == [] && k == FirstReady(s.out.sched, s.out.win, 0) < |s.out.sched.order|
    requires forall j :: k <= j < |s.out.sched.order| ==> s.out.sched.order[j] != id
    ensures !CanSend(s.out.sched, s.out.win, id)
  {
    var order := s.out.sched.order;
    if id in s.out.sched.queues {
      var j :| 0 <= j < |order| && order[j] == id;
    }
  }

  lemma StillCannot(o: Output, id: nat, k: nat)
    requires OutputOk(o) && o.sched.control == [] && k == FirstReady(o.sched, o.win, 0) < |o.sched.order|
    requires !CanSend(o.sched, o.win, id) && o.sched.order[k] != id && OutputOk(Dequeued(o, Pop(o.sched, o.win)))
    ensures var o' := Dequeued(o, Pop(o.sched, o.win)); !CanSend(o'.sched, o'.win, id)
  {
    var o' := Dequeued(o, Pop(o.sched, o.win));
    SameBut(o, k, id);
    SpentAt(o, k);
    SameSend(o, o', o'.win.conn, id);
    assert o'.win.(conn := o'.win.conn) == o'.win && o.win.(conn := o.win.conn) == o.win;
    if CanSend(o'.sched, o'.win, id) {
      CanSendLess(o.sched, o.win, o'.win.conn, o.win.conn, id);
    }
  }

  lemma PassedBy(s: Conn, s': Conn, id: nat, k: nat)
    requires OutputOk(s.out) && OutputOk(s'.out) && s.inLoop && s'.inLoop && s.inner == [] && !StartsOn(s', id)
    requires s.out.sched.control == [] && k == FirstReady(s.out.sched, s.out.win, 0) < |s.out.sched.order| && !s.going.needToSend
    requires s'.out == Dequeued(s.out, Pop(s.out.sched, s.out.win)) && s'.outer == s.outer && s'.flags == s.flags && s'.going == s.going
    requires forall j :: k <= j < |s.out.sched.order| ==> s.out.sched.order[j] != id
    ensures !Reaches(s, id) && !Reaches(s', id)
  {
    NotBehind(s, s', id, k);
    StillCannot(s.out, id, k);
    CannotReach(s, id);
    CannotReach(s', id);
  }

  lemma CannotReach(s: Conn, id: nat)
    requires OutputOk(s.out) && s.inLoop && !StartsOn(s, id) && !CanSend(s.out.sched, s.out.win, id)
    ensures !Reaches(s, id)
  {
    var p := LoopPoint(s);
    PerformedConn(RulesOf(s), PointOf(s), s.inner);
    if Reached(s, p, id) {
      ArrivesCanSend(RulesOf(s), p.line, p.control, Streams(s.out), s.out.win, id);
      StreamsSend(s.out, s.out.win.conn, id);
    }
  }

  lemma {:induction false} PerformedConn(r: Rules, p: Point, ks: seq<Task>)
    ensures Performed(r, p, ks).line.Line? ==> p.line.Line? && Performed(r, p, ks).line.conn == p.line.conn
    decreases |ks|
  {
    if ks != [] {
      PerformedConn(r, Perform(r, p, ks[0]), ks[1..]);
    }
  }

  // ----- Another stream is taken, and this one is behind it

  /** What is popped for the k-th stream, and what that leaves. */
  lemma PoppedAt(o: Output, k: nat)
    requires OutputOk(o) && o.sched.control == [] && k == FirstReady(o.sched, o.win, 0) < |o.sched.order|
    ensures var x, r := o.sched.order[k], Pop(o.sched, o.win);
            && CanSend(o.sched, o.win, x) && r.Served? && r.frame == ConsumeHead(o.sched.queues[x], MAX_INT32, o.win).frame
            && r.frame.stream == Some(x) && r.sched.order == o.sched.order[k + 1..] + o.sched.order[..k + 1] && r.sched.control == []
            && r.sched.queues == o.sched.queues[x := ConsumeHead(o.sched.queues[x], MAX_INT32, o.win).rest]
            && r.win == ConsumeHead(o.sched.queues[x], MAX_INT32, o.win).win
  {
    PopServes(o.sched, o.win, k);
  }

  lemma SpentAt(o: Output, k: nat)
    requires OutputOk(o) && o.sched.control == [] && k == FirstReady(o.sched, o.win, 0) < |o.sched.order|
    ensures var r := Pop(o.sched, o.win);
            && r.Served? && r.win.conn == o.win.conn - r.frame.DataSize() && r.win.maxFrameSize == o.win.maxFrameSize
            && forall y :: y != o.sched.order[k] && y in o.win.streams ==> y in r.win.streams && r.win.streams[y] == o.win.streams[y]
  {
    PoppedAt(o, k);
    PopOk(o.sched, o.win);
  }

  lemma SameBut(o: Output, k: nat, y: nat)
    requires OutputOk(o) && o.sched.control == [] && k == FirstReady(o.sched, o.win, 0) < |o.sched.order|
    requires y != o.sched.order[k]
    ensures SameAt(o.sched, o.win, Pop(o.sched, o.win).sched, Pop(o.sched, o.win).win, y)
  {
    PoppedAt(o, k);
    SpentAt(o, k);
  }

  lemma BehindLine(r: Rules, l: Line, o: Output, o': Output, k: nat, id: nat)
    requires OutputOk(o) && OutputOk(o') && o.sched.control == []
    requires k == FirstReady(o.sched, o.win, 0) < |o.sched.order| && o' == Dequeued(o, Pop(o.sched, o.win))
    requires id in o.sched.order[k + 1..] && l.Line? && l.conn == o.win.conn && o.sched.order[k] in l.states
    ensures LineUp(r, l, o.sched, o.win, o.sched.order, id)
            == LineUp(r, Turn(r, l, o.sched, o.win, o.sched.order[k]), o'.sched, o'.win, o'.sched.order, id)
  {
    var order, x := o.sched.order, o.sched.order[k];
    NotBefore(order, k, id);
    assert o.win.(conn := l.conn) == o.win;
    LineUpSkips(r, l, o.sched, o.win, order, k, id);
    assert order[k..][0] == x && order[k..][1..] == order[k + 1..];
    RotatedLine(r, Turn(r, l, o.sched, o.win, x), o, o', k, id);
  }

  lemma RotatedLine(r: Rules, l: Line, o: Output, o': Output, k: nat, id: nat)
    requires OutputOk(o) && OutputOk(o') && o.sched.control == []
    requires k == FirstReady(o.sched, o.win, 0) < |o.sched.order| && o' == Dequeued(o, Pop(o.sched, o.win))
    requires id in o.sched.order[k + 1..]
    ensures LineUp(r, l, o.sched, o.win, o.sched.order[k + 1..], id) == LineUp(r, l, o'.sched, o'.win, o'.sched.order, id)
  {
    var order, rest := o.sched.order, o.sched.order[k + 1..];
    PoppedAt(o, k);
    forall i | 0 <= i < |rest|
      ensures SameAt(o.sched, o.win, o'.sched, o'.win, rest[i])
    {
      assert rest[i] == order[k + 1 + i];
      SameBut(o, k, rest[i]);
    }
    LineUpSame(r, l, o.sched, o.win, o'.sched, o'.win, rest, id);
    LineUpAppend(r, l, o'.sched, o'.win, rest, order[..k + 1], id);
  }

  lemma NotBefore(order: seq<nat>, k: nat, id: nat)
    requires Distinct(order) && k < |order| && id in order[k + 1..]
    ensures forall i :: 0 <= i <= k ==> order[i] != id
  {
    var j :| 0 <= j < |order[k + 1..]| && order[k + 1..][j] == id;
    assert order[k + 1 + j] == id;
  }

  lemma TurnStart(r: Rules, l: Line, o: Output, k: nat)
    requires OutputOk(o) && o.sched.control == [] && k == FirstReady(o.sched, o.win, 0) < |o.sched.order|
    requires l.Line? && l.conn == o.win.conn && o.sched.order[k] in l.states
    ensures var wr := Pop(o.sched, o.win).frame;
            var l1 := l.(conn := l.conn - wr.DataSize());
            Turn(r, l, o.sched, o.win, o.sched.order[k]) == AllWritten(r, Written(r, l1, wr), Follows(l1, wr))
  {
    PoppedAt(o, k);
    assert o.win.(conn := l.conn) == o.win;
  }

  /** The next stream in turn is taken; `s'` is the state after that. */
  predicate Takes(s: Conn, s': Conn, k: nat) {
    && OutputOk(s.out) && OutputOk(s'.out) && s.inLoop && s.inner == []
    && !s.going.needToSend && !s.needToSendSettingsAck && s.out.sched.control == []
    && k == FirstReady(s.out.sched, s.out.win, 0) < |s.out.sched.order|
    && s' == s.(out := Dequeued(s.out, Pop(s.out.sched, s.out.win)), inner := [Start(Pop(s.out.sched, s.out.win).frame)])
  }

  lemma TakesOther(s: Conn, s': Conn, id: nat, k: nat)
    requires Takes(s, s', k) && id in s.out.sched.order[k + 1..] && s.out.sched.order[k] in s.table.streams
    ensures Reaches(s', id) <==> Reaches(s, id)
  {
    NotBefore(s.out.sched.order, k, id);
    PoppedAt(s.out, k);
    TakesOtherReached(s, s', id, k);
    Lifts(s, s', id);
    Lifts(s', s, id);
  }

  /** The line with a frame written, and what follows it. */
  function AfterHead(r: Rules, l: Line, wr: Request): Line {
    AllWritten(r, Written(r, l, wr), Follows(l, wr))
  }

  lemma BehindHead(r: Rules, l: Line, o: Output, o': Output, k: nat, id: nat)
    requires OutputOk(o) && OutputOk(o') && o.sched.control == []
    requires k == FirstReady(o.sched, o.win, 0) < |o.sched.order| && o' == Dequeued(o, Pop(o.sched, o.win))
    requires id in o.sched.order[k + 1..] && l.Line? && l.conn == o.win.conn && o.sched.order[k] in l.states
    ensures var wr := Pop(o.sched, o.win).frame;
            LineUp(r, l, o.sched, o.win, o.sched.order, id)
            == LineUp(r, AfterHead(r, l.(conn := l.conn - wr.DataSize()), wr), o'.sched, o'.win, o'.sched.order, id)
  {
    BehindLine(r, l, o, o', k, id);
    TurnStart(r, l, o, k);
  }

  /** The line is the same before a stream is taken and after. */
  ghost predicate SameLine(s: Conn, s': Conn, wr: Request, id: nat)
    requires OutputOk(s.out) && OutputOk(s'.out)
  {
    LineUp(RulesOf(s), PointOf(s).line, s.out.sched, s.out.win, s.out.sched.order, id)
    == LineUp(RulesOf(s), AfterHead(RulesOf(s), Line(s.free, s.out.win.conn - wr.DataSize(), States(s.table)), wr),
              s'.out.sched, s'.out.win, s'.out.sched.order, id)
  }

  lemma TakesSameLine(s: Conn, s': Conn, id: nat, k: nat)
    requires OutputOk(s.out) && OutputOk(s'.out) && s.out.sched.control == []
    requires k == FirstReady(s.out.sched, s.out.win, 0) < |s.out.sched.order| && Pop(s.out.sched, s.out.win).Served?
    requires s'.out == Dequeued(s.out, Pop(s.out.sched, s.out.win)) && !s.going.needToSend
    requires id in s.out.sched.order[k + 1..] && s.out.sched.order[k] in s.table.streams
    ensures SameLine(s, s', Pop(s.out.sched, s.out.win).frame, id)
  {
    hide LineUp, AllWritten;
    BehindHead(RulesOf(s), Line(s.free, s.out.win.conn, States(s.table)), s.out, s'.out, k, id);
  }

  lemma TakesOtherReached(s: Conn, s': Conn, id: nat, k: nat)
    requires Takes(s, s', k) && id in s.out.sched.order[k + 1..] && s.out.sched.order[k] in s.table.streams
    requires s.out.sched.order[k] != id
    ensures Reached(s', LoopPoint(s'), id) <==> Reached(s, LoopPoint(s), id)
  {
    hide *;
    TakenPoint(s, s', k);
    TakesFacts(s, s', k);
    TakesSameLine(s, s', id, k);
    TakesSame(s, s', k, id);
    var wr := Pop(s.out.sched, s.out.win).frame;
    OtherArrives(s, s', Line(s.free, s.out.win.conn - wr.DataSize(), States(s.table)), wr, id);
  }

  lemma TakesSame(s: Conn, s': Conn, k: nat, id: nat)
    requires Takes(s, s', k) && s.out.sched.order[k] != id
    ensures SameAt(s.out.sched, s.out.win, s'.out.sched, s'.out.win, id)
  {
    SameBut(s.out, k, id);
    PoppedAt(s.out, k);
  }

  lemma TakesFacts(s: Conn, s': Conn, k: nat)
    requires Takes(s, s', k)
    ensures OutputOk(s.out) && OutputOk(s'.out) && s.out.sched.control == [] && RulesOf(s') == RulesOf(s)
    ensures k == FirstReady(s.out.sched, s.out.win, 0) < |s.out.sched.order| && Pop(s.out.sched, s.out.win).Served?
    ensures s'.out == Dequeued(s.out, Pop(s.out.sched, s.out.win))
    ensures PointOf(s).line == Line(s.free, s.out.win.conn, States(s.table)) && !s.going.needToSend
  {
    PoppedAt(s.out, k);
  }

  lemma TakenLine(s: Conn, s': Conn, k: nat)
    requires Takes(s, s', k)
    ensures var l, wr := PointOf(s).line, Pop(s.out.sched, s.out.win).frame;
            && l.Line? && PointOf(s') == Point(l.(conn := l.conn - wr.DataSize()), [])
            && PointOf(s).control == [] && LoopPoint(s) == PointOf(s)
  {
    PoppedAt(s.out, k);
    SpentAt(s.out, k);
  }

  lemma TakenPoint(s: Conn, s': Conn, k: nat)
    requires Takes(s, s', k)
    ensures var r, l, wr := RulesOf(s), PointOf(s).line, Pop(s.out.sched, s.out.win).frame;
            var l1 := l.(conn := l.conn - wr.DataSize());
            && Streams(s.out) == s.out.sched && Streams(s'.out) == s'.out.sched && PointOf(s).control == [] && LoopPoint(s) == PointOf(s)
            && LoopPoint(s') == (if Written(r, l1, wr).Stuck? then STUCK else Point(Written(r, l1, wr), Follows(l1, wr)))
  {
    var wr := Pop(s.out.sched, s.out.win).frame;
    PoppedAt(s.out, k);
    TakenLine(s, s', k);
    PerformedOne(RulesOf(s), PointOf(s'), Start(wr));
    assert [] + Follows(PointOf(s').line, wr) == Follows(PointOf(s').line, wr);
  }

  lemma OtherArrives(s: Conn, s': Conn, l1: Line, wr: Request, id: nat)
    requires OutputOk(s.out) && OutputOk(s'.out) && RulesOf(s') == RulesOf(s)
    requires Streams(s.out) == s.out.sched && Streams(s'.out) == s'.out.sched && l1.Line?
    requires PointOf(s).control == [] && LoopPoint(s) == PointOf(s)
    requires LoopPoint(s') == if Written(RulesOf(s), l1, wr).Stuck? then STUCK
                              else Point(Written(RulesOf(s), l1, wr), Follows(l1, wr))
    requires l1 == Line(s.free, s.out.win.conn - wr.DataSize(), States(s.table)) && SameLine(s, s', wr, id)
    requires SameAt(s.out.sched, s.out.win, s'.out.sched, s'.out.win, id)
    ensures Reached(s', LoopPoint(s'), id) <==> Reached(s, LoopPoint(s), id)
  {
    var r, l2 := RulesOf(s), Written(RulesOf(s), l1, wr);
    var l' := LineUp(r, AfterHead(r, l1, wr), s'.out.sched, s'.out.win, s'.out.sched.order, id);
    if l2.Stuck? {
      StuckStays(r, Follows(l1, wr));
      StuckNowhere(s', STUCK, id);
    }
    if l'.Line? {
      SameSend(s.out, s'.out, l'.conn, id);
    }
  }

  lemma SameSend(o: Output, o': Output, conn: int, id: nat)
    requires OutputOk(o) && OutputOk(o') && SameAt(o.sched, o.win, o'.sched, o'.win, id)
    ensures CanSend(o.sched, o.win.(conn := conn), id) <==> CanSend(o'.sched, o'.win.(conn := conn), id)
  {
  }

  /** The round in which the next stream is served. */
  lemma RoundServes(s: Conn, s': Conn, id: nat, k: nat)
    requires CoreOk(s) && PendingOk(s) && Takes(s, s', k) && s.outer != [] && s.outer[0] == SchedClose(id)
    requires s.flags.inFlight == None && NoError(s)
    ensures Reaches(s', id) <==> Reaches(s, id)
  {
    var order := s.out.sched.order;
    PoppedAt(s.out, k);
    if order[k] == id {
      TakesIt(s, id, k);
    } else if id in order[k + 1..] {
      ServedIsTracked(s, id, k);
      TakesOther(s, s', id, k);
    } else {
      forall j | k <= j < |order|
        ensures order[j] != id
      {
        assert j > k ==> order[k + 1..][j - k - 1] == order[j];
      }
      PassedBy(s, s', id, k);
    }
  }

  /** Only one stream can be closing when it is time for the next frame. */
  lemma ServedIsTracked(s: Conn, id: nat, k: nat)
    requires CoreOk(s) && PendingOk(s) && s.inLoop && s.inner == [] && SchedClose(id) in s.outer
    requires k < |s.out.sched.order| && s.out.sched.order[k] != id
    ensures s.out.sched.order[k] in s.table.streams
  {
    var x := s.out.sched.order[k];
    assert x in s.out.sched.queues;
    if x in s.out.closing {
      OneClose(s, id, x);
    }
  }

  /** When the loop ends with nothing in flight, the scheduler is told next. */
  lemma LoopEnds(s: Conn, s': Conn, id: nat)
    requires PendingOk(s) && s.inLoop && s.inner == [] && !s.going.needToSend && s.flags.inFlight == None
    requires OutputOk(s'.out) && !s'.inLoop && s'.outer == s.outer
    ensures !Reaches(s', id)
  {
    assert |s.outer| > 1 ==> CloseAt(s, 1);
    assert |s.outer| > 2 ==> CloseAt(s, 2);
  }

  lemma InsideRound(s: Conn, c: Choice, id: nat)
    requires CoreOk(s) && CanStep(s) && PendingOk(s) && s.inLoop && Next(s) == None
    requires OutputOk(Step(s, c).out) && s.flags.inFlight == None
    ensures Reaches(Step(s, c), id) <==> Reaches(s, id)
  {
    var s' := Step(s, c);
    if s.going.needToSend {
      InTheWay(s', s'.inner[0].wr, [], id);
      StuckNowhere(s, STUCK, id);
    } else if s.needToSendSettingsAck {
      assert ControlOf(s) == [Control(SettingsAck)] + ControlOf(s');
      TakesControl(s, s', Control(SettingsAck), id);
    } else if NoError(s) && s.outer != [] && s.outer[0] == SchedClose(id) {
      RoundPops(s, c, id);
    } else {
      RoundElse(s, c, id);
    }
  }

  lemma RoundEmpty(s: Conn, c: Choice, id: nat)
    requires CoreOk(s) && CanStep(s) && PendingOk(s) && s.inLoop && Next(s) == None
    requires OutputOk(Step(s, c).out) && s.flags.inFlight == None && !s.going.needToSend && !s.needToSendSettingsAck
    requires NoError(s) && s.outer != [] && s.outer[0] == SchedClose(id) && Pop(s.out.sched, s.out.win).Empty?
    ensures Reaches(Step(s, c), id) <==> Reaches(s, id)
  {
    hide Reaches, PendingOk, TableOk, TasksOk;
    TakesNothing(s, id);
    if s.flags.needsFrameFlush {
      InTheWay(Step(s, c), Control(Flush), [ClearFlush], id);
    } else {
      LoopEnds(s, Step(s, c), id);
    }
  }

  lemma RoundPops(s: Conn, c: Choice, id: nat)
    requires CoreOk(s) && CanStep(s) && PendingOk(s) && s.inLoop && Next(s) == None
    requires OutputOk(Step(s, c).out) && s.flags.inFlight == None && !s.going.needToSend && !s.needToSendSettingsAck
    requires NoError(s) && s.outer != [] && s.outer[0] == SchedClose(id)
    ensures Reaches(Step(s, c), id) <==> Reaches(s, id)
  {
    hide TableOk, TasksOk, ClosePending, Apart;
    var s', popped := Step(s, c), Pop(s.out.sched, s.out.win);
    hide Reaches, PendingOk;
    if popped.Empty? {
      RoundEmpty(s, c, id);
    } else if s.out.sched.control != [] {
      DequeueOk(s.table, s.out);
      TakesControl(s, s', s.out.sched.control[0], id);
    } else {
      RoundServes(s, s', id, FirstReady(s.out.sched, s.out.win, 0));
    }
  }

  lemma RoundElse(s: Conn, c: Choice, id: nat)
    requires CoreOk(s) && CanStep(s) && PendingOk(s) && s.inLoop && Next(s) == None
    requires OutputOk(Step(s, c).out) && s.flags.inFlight == None && !s.going.needToSend && !s.needToSendSettingsAck
    requires !(NoError(s) && s.outer != [] && s.outer[0] == SchedClose(id))
    ensures !Reaches(Step(s, c), id) && !Reaches(s, id)
  {
    var s' := Step(s, c);
    if NoError(s) && !s'.inLoop {
      LoopEnds(s, s', id);
    }
  }

  // ----- Outside the loop

  /** A step outside the loop before the scheduler is told. */
  lemma OutsideStep(s: Conn, c: Choice, id: nat)
    requires CoreOk(s) && CanStep(s) && PendingOk(s) && !s.inLoop && SchedClose(id) in s.outer
    requires OutputOk(Step(s, c).out) && Step(s, c).panic == None && s.outer[0] != SchedClose(id) && s.flags.inFlight == None
    ensures Reaches(Step(s, c), id) <==> Reaches(s, id)
  {
    var n :| 0 <= n < |s.outer| && s.outer[n] == SchedClose(id);
    assert CloseAt(s, n);
    if s.outer[0] == Schedule {
      OutsideSchedule(s, c, id, n);
    } else if s.outer[0] == GoAwayNow(0) {
      OutsideGoAway(s, c, id, n);
    } else {
      OutsideUpdate(s, c, id);
    }
  }

  lemma OutsideSchedule(s: Conn, c: Choice, id: nat, n: nat)
    requires CoreOk(s) && CanStep(s) && PendingOk(s) && !s.inLoop && 0 < n < |s.outer|
    requires s.outer[n] == SchedClose(id) && Before(s, n) && OutputOk(Step(s, c).out) && s.outer[0] == Schedule
    requires s.flags.inFlight == None && Tail(s.outer[n + 1..])
    ensures Reaches(Step(s, c), id) <==> Reaches(s, id)
  {
    hide TableOk, OutOk, TasksOk, FlagsOk;
    var s' := Step(s, c);
    ScheduleFlags(s);
    if n == 1 {
      PerformedOne(RulesOf(s), PointOf(s), Schedule);
      assert s.outer[..1] == [Schedule];
      assert |s.outer| > 2 ==> s.outer[2] == s.outer[2..][0];
    } else {
      PerformedStuck(RulesOf(s), STUCK, s.outer[..2]);
      StuckNowhere(s, Performed(RulesOf(s), STUCK, s.outer[..2]), id);
    }
  }

  lemma OutsideUpdate(s: Conn, c: Choice, id: nat)
    requires CoreOk(s) && CanStep(s) && PendingOk(s) && !s.inLoop && |s.outer| > 1 && s.outer[1] == SchedClose(id)
    requires OutputOk(Step(s, c).out) && Step(s, c).panic == None && IsUpdate(s.outer[0]) && s.flags.inFlight == None
    ensures Reaches(Step(s, c), id) <==> Reaches(s, id)
  {
    hide TableOk, OutOk, TasksOk, FlagsOk;
    var s', wr := Step(s, c), s.outer[0].wr;
    WritePoint(Rest(s), wr);
    DoPushes(Rest(s), s.outer[0], c);
    assert CloseAt(s, 1);
    assert s'.outer == [Schedule] + s.outer[1..];
    assert s'.outer[..1] == [Schedule] && s.outer[..1] == [s.outer[0]];
    PerformedOne(RulesOf(s), PointOf(s), s.outer[0]);
    assert |s.outer| > 2 ==> s.outer[2] == s.outer[2..][0];
  }

  lemma OutsideGoAway(s: Conn, c: Choice, id: nat, n: nat)
    requires CoreOk(s) && CanStep(s) && PendingOk(s) && !s.inLoop && 0 < n < |s.outer|
    requires s.outer[n] == SchedClose(id) && Before(s, n) && OutputOk(Step(s, c).out) && s.outer[0] == GoAwayNow(0)
    requires s.flags.inFlight == None && Tail(s.outer[n + 1..])
    ensures Reaches(Step(s, c), id) <==> Reaches(s, id)
  {
    hide TableOk, OutOk, TasksOk, FlagsOk, ShapeOk;
    if !s.going.inGoAway {
      StopsLoop(s, c, id, n);
    } else if n == 2 {
      assert s.outer[..2] == [GoAwayNow(0), s.outer[1]] && s.outer[..2][1..] == [s.outer[1]];
      assert Step(s, c).outer[..1] == [s.outer[1]];
      PerformedFirst(RulesOf(s), PointOf(s), s.outer[..2]);
      assert |s.outer| > 3 ==> s.outer[3] == s.outer[3..][0];
    }
  }

  /** The GOAWAY that is due keeps the loop from all queues. */
  lemma StopsLoop(s: Conn, c: Choice, id: nat, n: nat)
    requires CoreOk(s) && CanStep(s) && PendingOk(s) && !s.inLoop && 0 < n < |s.outer|
    requires s.outer[n] == SchedClose(id) && Before(s, n) && OutputOk(Step(s, c).out) && s.outer[0] == GoAwayNow(0)
    requires s.flags.inFlight == None && Tail(s.outer[n + 1..]) && !s.going.inGoAway
    ensures Reaches(Step(s, c), id) <==> Reaches(s, id)
  {
    hide TableOk, OutOk, TasksOk, FlagsOk, ShapeOk;
    var s', r := Step(s, c), RulesOf(s);
    PerformedStuck(RulesOf(s'), STUCK, s'.outer[..1]);
    StuckNowhere(s', Performed(RulesOf(s'), STUCK, s'.outer[..1]), id);
    if n == 2 {
      PerformedStuck(RulesOf(s'), STUCK, s'.outer[..2]);
      StuckNowhere(s', Performed(RulesOf(s'), STUCK, s'.outer[..2]), id);
      PerformedFirst(r, PointOf(s), s.outer[..2]);
      PerformedStuck(r, STUCK, s.outer[..2][1..]);
      StuckNowhere(s, Performed(r, PointOf(s), s.outer[..2]), id);
    }
  }

  // ----- Every step

  lemma InsideStep(s: Conn, c: Choice, id: nat)
    requires CoreOk(s) && CanStep(s) && PendingOk(s) && s.inLoop && SchedClose(id) in s.outer
    requires OutputOk(Step(s, c).out) && Step(s, c).panic == None && s.flags.inFlight == None
    ensures Reaches(Step(s, c), id) ==> Reaches(s, id)
    ensures c == LEAST ==> (Reaches(Step(s, c), id) <==> Reaches(s, id))
  {
    hide *;
    if Next(s) == None {
      InsideRound(s, c, id);
    } else {
      InsideKinds(s);
      match Next(s).value
      case Start(_) => InsideStart(s, c, id);
      case Schedule => InsideIdle(s, c, id);
      case ClearFlush => InsideIdle(s, c, id);
      case CloseNow(x) => InsideClose(s, c, id, x);
      case SchedClose(x) => NotInside(s, id, x); InsideSchedClose(s, c, id, x);
      case Write(_) => FixedKinds(s); InsideFixed(s, c, id);
      case Wrote(_) => FixedKinds(s); InsideFixed(s, c, id);
      case Reset(_, _) => FixedKinds(s); InsideFixed(s, c, id);
      case MarkReset(_) => FixedKinds(s); InsideFixed(s, c, id);
      case GoAwayNow(_) => FixedKinds(s); InsideFixed(s, c, id);
      case _ =>
    }
  }

  lemma InsideKinds(s: Conn)
    requires PendingOk(s) && s.inLoop && Next(s).Some?
    ensures var k := Next(s).value;
            !k.ConnUpdate? && !k.StreamUpdate? && !k.EndStream? && !k.DisablePush? && !k.AfterBodyRead?
  {
    assert LoopTask(s.inner[0]);
  }

  lemma FixedKinds(s: Conn)
    requires Next(s).Some?
    ensures var k := Next(s).value; k.Write? || k.Wrote? || k.Reset? || k.MarkReset? || k.GoAwayNow? ==> Fixed(k)
  {
  }

  lemma NotInside(s: Conn, id: nat, x: nat)
    requires PendingOk(s) && s.inLoop && SchedClose(id) in s.outer && Next(s) == Some(SchedClose(x))
    ensures x != id
  {
    assert s.inner[0] == SchedClose(x);
  }

  /** Whatever is decided, a step does not bring the loop closer to the stream; and with the least
      announced it comes no less close. */
  lemma ReachStep(s: Conn, c: Choice, id: nat)
    requires CoreOk(s) && CanStep(s) && PendingOk(s) && SchedClose(id) in s.outer
    requires OutputOk(Step(s, c).out) && Step(s, c).panic == None && Next(s) != Some(SchedClose(id))
    ensures Reaches(Step(s, c), id) ==> Reaches(s, id)
    ensures c == LEAST ==> (Reaches(Step(s, c), id) <==> Reaches(s, id))
  {
    if s.flags.inFlight.Some? {
      InFlightStays(s, c);
    } else if s.inLoop {
      InsideStep(s, c, id);
    } else {
      OutsideStep(s, c, id);
    }
  }
}
