/** Why no frame goes out on a stream that cannot take it (h2_bundle.go, startFrameWrite). */
module ServerSafety {
  import opened Foundations
  import opened WriteQueues
  import opened ServerConns
  import opened ServerLoops
  import opened ServerSteps

  // ----- A stream that is half-closed (local) is about to be reset

  predicate IsReset(wr: Request, id: nat) {
    wr.write.StreamError? && wr.write.streamID == id
  }

  /** The next call deals with the reset of the stream. */
  predicate HeadResets(k: Task, id: nat) {
    match k
    case Reset(x, _) => x == id
    case Write(wr) => IsReset(wr, id)
    case Start(wr) => IsReset(wr, id)
    case Wrote(wr) => IsReset(wr, id)
    case CloseNow(x) => x == id
    case _ => false
  }

  predicate ResetQueued(control: seq<Request>, id: nat) {
    exists i :: 0 <= i < |control| && IsReset(control[i], id)
  }

  /** Its RST_STREAM is queued, in flight, or dealt with by the next call. */
  ghost predicate ResetComing(s: Conn, id: nat) {
    || ResetQueued(s.out.sched.control, id)
    || (s.flags.inFlight.Some? && IsReset(s.flags.inFlight.value, id))
    || (Next(s).Some? && HeadResets(Next(s).value, id))
  }

  predicate Local(t: Table, id: nat) {
    id in t.streams && t.streams[id].state == HalfClosedLocal
  }

  ghost predicate ResetsOk(s: Conn) {
    forall id :: Local(s.table, id) ==> ResetComing(s, id)
  }

  // ----- Resets

  /** Control frames that are queued stay queued. */
  predicate Grows(control: seq<Request>, control': seq<Request>) {
    |control| <= |control'| && control'[..|control|] == control
  }

  lemma DoGrows(s: Conn, k: Task, c: Choice)
    requires TaskOk(s.table, k) && s.table.maxPush + 2 !in s.out.sched.queues
    ensures Grows(s.out.sched.control, Do(s, k, c).out.sched.control)
  {
    hide HalfClosed, RemoveStream, Finished, Farewell, SetStream, AddStream, NoteHeaders, Ignored;
    if k.Write? {
      hide DoStart;
    } else if k.Start? {
      hide DoWrite;
    } else {
      hide DoWrite, DoStart;
    }
  }

  lemma ResetStays(control: seq<Request>, control': seq<Request>, id: nat)
    requires Grows(control, control') && ResetQueued(control, id)
    ensures ResetQueued(control', id)
  {
    var i :| 0 <= i < |control| && IsReset(control[i], id);
    assert control'[..|control|][i] == control'[i];
  }

  /** Which streams a call makes half-closed (local). */
  lemma NewLocal(s: Conn, k: Task, c: Choice, id: nat)
    requires TaskOk(s.table, k) && s.table.maxPush + 2 !in s.out.sched.queues && Local(Do(s, k, c).table, id) && !Local(s.table, id)
    requires s.panic == None && Do(s, k, c).panic == None
    ensures k.Wrote? && Finished(s.table, k.wr) == [Reset(id, 0)]
  {
    hide Farewell, CloseQueue, OpenQueue, Enqueue;
  }

  /** The reset of a stream is passed on from call to call. */
  lemma ResetPassedOn(s: Conn, c: Choice, id: nat)
    requires CanStep(s) && Next(s).Some? && HeadResets(Next(s).value, id) && Local(s.table, id) && Step(s, c).panic == None
    requires Local(Step(s, c).table, id)
    ensures ResetComing(Step(s, c), id)
  {
    hide Farewell, SetStream, AddStream, CloseQueue;
    var k, s' := Next(s).value, Step(s, c);
    match k
    case Reset(_, code) =>
    case Write(wr) =>
      var control := s'.out.sched.control;
      assert IsReset(control[|control| - 1], id);
    case Start(wr) =>
    case Wrote(wr) =>
    case CloseNow(_) =>
  }

  lemma ResetComes(s: Conn, c: Choice, id: nat)
    requires CanStep(s) && Next(s).Some? && Step(s, c).panic == None && Local(Step(s, c).table, id)
    requires Local(s.table, id) ==> ResetComing(s, id)
    requires s.flags.inFlight.Some? ==> Step(s, c).flags.inFlight == s.flags.inFlight
    ensures ResetComing(Step(s, c), id)
  {
    var k, s' := Next(s).value, Step(s, c);
    if !Local(s.table, id) {
      NewLocal(Rest(s), k, c, id);
    } else if HeadResets(k, id) {
      ResetPassedOn(s, c, id);
    } else if ResetQueued(s.out.sched.control, id) {
      DoGrows(Rest(s), k, c);
      ResetStays(s.out.sched.control, s'.out.sched.control, id);
    }
  }

  lemma DoResets(s: Conn, c: Choice)
    requires CoreOk(s) && CanStep(s) && Next(s).Some? && ResetsOk(s) && Step(s, c).panic == None
    ensures ResetsOk(Step(s, c))
  {
    if s.flags.inFlight.Some? {
      InFlightStays(s, c);
    }
    forall id | Local(Step(s, c).table, id)
      ensures ResetComing(Step(s, c), id)
    {
      ResetComes(s, c, id);
    }
  }

  lemma InFlightStays(s: Conn, c: Choice)
    requires CoreOk(s) && CanStep(s) && s.flags.inFlight.Some?
    ensures Step(s, c).flags.inFlight == s.flags.inFlight
  {
    if Next(s).Some? {
      OneFrameAtATime(s);
    }
  }

  lemma IterateResets(s: Conn, c: Choice)
    requires CoreOk(s) && CanStep(s) && Next(s) == None && ResetsOk(s)
    ensures ResetsOk(Step(s, c))
  {
    var s' := Step(s, c);
    var control, control' := s.out.sched.control, s'.out.sched.control;
    forall id | Local(s'.table, id)
      ensures ResetComing(s', id)
    {
      assert ResetComing(s, id);
      if ResetQueued(control, id) && control' != control {
        var i :| 0 <= i < |control| && IsReset(control[i], id);
        assert control' == control[1..] && s'.inner == [Start(control[0])];
        if i > 0 {
          assert IsReset(control'[i - 1], id);
        }
      }
    }
  }

  // ----- Calls behind others

  /** A call leaves the calls behind it where they are. */
  predicate Behind(s: Conn, s': Conn) {
    && (forall k :: k in s.inner ==> k in s'.inner) && (forall k :: k in s.outer ==> k in s'.outer)
  }

  lemma StepBehind(s: Conn, c: Choice)
    requires ShapeOk(s) && CanStep(s) && Next(s).Some? && Step(s, c).panic == None
    ensures Behind(Rest(s), Step(s, c))
  {
    var k := Next(s).value;
    if k.Start? {
      StartEffect(Rest(s), k.wr, c);
    } else if Plain(k) {
      DoPushes(Rest(s), k, c);
    }
  }

  lemma Stays(ts: seq<Task>, k: Task)
    requires k in ts && ts[0] != k
    ensures k in ts[1..]
  {
    assert ts == [ts[0]] + ts[1..];
  }
}
