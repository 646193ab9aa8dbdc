/** What stands in line behind a stream that is being closed: closeStream announces the unread
    bytes before it tells the scheduler (h2_bundle.go:5479-5523). */
module ServerPendings {
  import opened Foundations
  import opened ServerConns
  import opened ServerEvents
  import opened ServerTables
  import opened ServerLoops
  import opened ServerOutputs
  import opened ServerSteps
  import opened ServerSafety

  predicate IsUpdate(k: Task) {
    k.Write? && k.wr.stream == None && k.wr.write.WindowUpdate?
  }

  /** The calls made inside the loop. */
  predicate LoopTask(k: Task) {
    || k.Start? || k.ClearFlush? || k.Wrote? || k.Schedule? || k.CloseNow? || k.SchedClose? || k.Reset? || k.MarkReset?
    || k == GoAwayNow(0) || IsUpdate(k) || (k.Write? && k.wr.stream == None && k.wr.write.StreamError?)
  }

  /** Nothing but attempts to start the loop. */
  predicate Tail(ts: seq<Task>) {
    forall i :: 0 <= i < |ts| ==> ts[i] == Schedule
  }

  /** The end of a frame, or of a stream. */
  predicate EndsSomething(k: Task) {
    k.Wrote? || k.CloseNow?
  }

  predicate EndsFirst(ts: seq<Task>) {
    ts != [] && EndsSomething(ts[0]) ==> Tail(ts[1..])
  }

  ghost predicate InnerShape(s: Conn) {
    (forall i :: 0 <= i < |s.inner| ==> LoopTask(s.inner[i])) && EndsFirst(s.inner)
  }

  /** The loop is about to write a GOAWAY, or it ends with a frame in flight. */
  predicate GoingOut(s: Conn) {
    || s.flags.inFlight.Some?
    || (s.inner == [] && s.going.needToSend && !s.flags.writingFrameAsync)
    || (|s.inner| == 1 && s.inner[0].Start? && s.inner[0].wr.write.GoAway?)
  }

  /** What comes before the call that tells the scheduler of the end of the stream. */
  predicate Before(s: Conn, n: nat)
    requires n < |s.outer|
  {
    || n == 0
    || (n == 1 && IsUpdate(s.outer[0]) && (s.inLoop ==> GoingOut(s)))
    || (n == 1 && !s.inLoop && (s.outer[0] == Schedule || s.outer[0] == GoAwayNow(0)))
    || (n == 2 && !s.inLoop && IsUpdate(s.outer[1])
        && (s.outer[0] == GoAwayNow(0) || (s.outer[0] == Schedule && (s.going.needToSend || s.flags.inFlight.Some?))))
  }

  /** Only one stream at a time is being closed outside the loop. */
  predicate CloseAt(s: Conn, n: nat) {
    n < |s.outer| && s.outer[n].SchedClose? ==> Before(s, n) && Tail(s.outer[n + 1..])
  }

  ghost predicate OuterShape(s: Conn) {
    (forall n :: 0 <= n < |s.outer| ==> CloseAt(s, n)) && EndsFirst(s.outer)
  }

  /** Every stream that has left the table has a call pending that tells the scheduler. */
  ghost predicate ClosePending(s: Conn) {
    forall id :: id in s.out.closing ==> SchedClose(id) in s.inner || SchedClose(id) in s.outer
  }

  /** No stream is closed twice. */
  ghost predicate Apart(s: Conn) {
    forall i :: 0 <= i < |s.inner| && s.inner[i].SchedClose? ==> s.inner[i] !in s.outer
  }

  ghost predicate PendingOk(s: Conn) {
    InnerShape(s) && OuterShape(s) && ClosePending(s) && Apart(s)
  }

  lemma OneClose(s: Conn, id: nat, x: nat)
    requires OuterShape(s) && SchedClose(id) in s.outer && SchedClose(x) in s.outer
    ensures x == id
  {
    var n :| 0 <= n < |s.outer| && s.outer[n] == SchedClose(id);
    var m :| 0 <= m < |s.outer| && s.outer[m] == SchedClose(x);
    assert CloseAt(s, n) && CloseAt(s, m);
  }

  // ----- Steps inside the loop

  /** What calls inside the loop lead to. */
  lemma PushesInside(s: Conn, k: Task, c: Choice)
    requires LoopTask(k) && Plain(k)
    ensures forall i :: 0 <= i < |Pushes(s, k, c)| ==> LoopTask(Pushes(s, k, c)[i])
    ensures EndsFirst(Pushes(s, k, c)) && (Pushes(s, k, c) != [] && EndsSomething(Pushes(s, k, c)[0]) ==> k.Wrote?)
  {
  }

  lemma FrontShape(ts: seq<Task>, rest: seq<Task>)
    requires forall i :: 0 <= i < |ts| ==> LoopTask(ts[i])
    requires forall i :: 0 <= i < |rest| ==> LoopTask(rest[i])
    requires EndsFirst(ts) && EndsFirst(rest) && (ts != [] && EndsSomething(ts[0]) ==> Tail(rest))
    ensures EndsFirst(ts + rest) && forall i :: 0 <= i < |ts + rest| ==> LoopTask((ts + rest)[i])
  {
    if ts == [] {
      assert ts + rest == rest;
    } else {
      assert (ts + rest)[1..] == ts[1..] + rest;
    }
  }

  /** What is left of the calls once the first is taken. */
  lemma RestShape(s: Conn)
    requires ShapeOk(s) && s.inLoop && s.inner != [] && InnerShape(s)
    ensures EndsFirst(s.inner[1..]) && forall i :: 0 <= i < |s.inner[1..]| ==> LoopTask(s.inner[1..][i])
  {
    if |s.inner| > 1 {
      assert InnerOk(s.inner, 1);
    }
  }

  lemma InnerPlain(s: Conn, c: Choice)
    requires CoreOk(s) && CanStep(s) && InnerShape(s) && s.inLoop && Next(s).Some? && Plain(Next(s).value)
    requires Step(s, c).panic == None
    ensures InnerShape(Step(s, c))
  {
    var k := Next(s).value;
    RestShape(s);
    DoPushes(Rest(s), k, c);
    PushesInside(Rest(s), k, c);
    FrontShape(Pushes(Rest(s), k, c), s.inner[1..]);
  }

  lemma InnerStarted(s: Conn, c: Choice)
    requires CoreOk(s) && CanStep(s) && InnerShape(s) && s.inLoop && Next(s).Some? && Next(s).value.Start?
    requires Step(s, c).panic == None
    ensures InnerShape(Step(s, c))
  {
    var wr := Next(s).value.wr;
    assert InnerOk(s.inner, 0);
    StartEffect(Rest(s), wr, c);
    RestShape(s);
    var s' := Step(s, c);
    assert s'.inner == s.inner[1..] || s'.inner == [Wrote(wr)] + s.inner[1..] || s'.inner == [GoAwayNow(0)] + s.inner[1..];
  }

  lemma InnerStep(s: Conn, c: Choice)
    requires CoreOk(s) && CanStep(s) && InnerShape(s) && Step(s, c).panic == None
    ensures InnerShape(Step(s, c))
  {
    if s.inLoop && Next(s).Some? {
      if Plain(Next(s).value) {
        InnerPlain(s, c);
      } else if Next(s).value.Start? {
        InnerStarted(s, c);
      } else {
        RestShape(s);
      }
    } else if !s.inLoop {
      OutsideInner(s, c);
    }
  }

  /** Outside the loop no call is made inside it. */
  lemma OutsideInner(s: Conn, c: Choice)
    requires CoreOk(s) && CanStep(s) && !s.inLoop && Step(s, c).panic == None
    ensures Step(s, c).inner == []
  {
    assert OuterOk(s.outer, 0);
    if Plain(Next(s).value) {
      DoPushes(Rest(s), Next(s).value, c);
    }
  }

  // ----- Steps outside the loop

  lemma LoopOuter(s: Conn, c: Choice)
    requires CoreOk(s) && CanStep(s) && s.inLoop && Step(s, c).panic == None
    ensures Step(s, c).outer == s.outer
  {
    if Next(s).Some? {
      if Plain(Next(s).value) {
        DoPushes(Rest(s), Next(s).value, c);
      } else if Next(s).value.Start? {
        StartEffect(Rest(s), Next(s).value.wr, c);
      }
    }
  }

  lemma GoingOutStays(s: Conn, c: Choice)
    requires CoreOk(s) && CanStep(s) && s.inLoop && GoingOut(s) && Step(s, c).panic == None
    ensures Step(s, c).inLoop ==> GoingOut(Step(s, c))
  {
    if s.flags.inFlight.Some? {
      InFlightStays(s, c);
    } else if s.inner != [] {
      OneFrameAtATime(s);
    }
  }

  lemma OuterInLoop(s: Conn, c: Choice)
    requires CoreOk(s) && CanStep(s) && OuterShape(s) && s.inLoop && Step(s, c).panic == None
    ensures OuterShape(Step(s, c))
  {
    var s' := Step(s, c);
    LoopOuter(s, c);
    forall n | 0 <= n < |s'.outer|
      ensures CloseAt(s', n)
    {
      assert CloseAt(s, n);
      if s'.outer[n].SchedClose? && n > 0 {
        GoingOutStays(s, c);
      }
    }
  }

  /** The place of the call moves by what a call leads to. */
  lemma PushedClose(s: Conn, s': Conn, ts: seq<Task>)
    requires !s.inLoop && s.outer != [] && s'.outer == ts + s.outer[1..] && !s'.inLoop && OuterShape(s)
    requires forall i :: 0 <= i < |ts| ==> !ts[i].SchedClose?
    requires forall n :: 0 < n < |s.outer| && s.outer[n].SchedClose? ==> Before(s', |ts| + n - 1)
    requires EndsFirst(s'.outer)
    ensures OuterShape(s')
  {
    forall m | 0 <= m < |s'.outer|
      ensures CloseAt(s', m)
    {
      if m >= |ts| {
        assert CloseAt(s, m - |ts| + 1);
        assert s'.outer[m + 1..] == s.outer[m - |ts| + 2..];
      }
    }
  }

  lemma EndsBehind(s: Conn, ts: seq<Task>)
    requires ShapeOk(s) && !s.inLoop && s.outer != [] && EndsFirst(s.outer)
    requires EndsFirst(ts) && (ts != [] && EndsSomething(ts[0]) ==> s.outer[0].Wrote?)
    ensures EndsFirst(ts + s.outer[1..])
  {
    assert |s.outer| > 1 ==> OuterOk(s.outer, 1);
    if ts != [] {
      assert (ts + s.outer[1..])[1..] == ts[1..] + s.outer[1..];
    } else {
      assert ts + s.outer[1..] == s.outer[1..];
    }
  }

  /** The calls made when a stream is closed. */
  lemma StartsClosing(s: Conn, c: Choice, id: nat)
    requires CoreOk(s) && CanStep(s) && OuterShape(s) && !s.inLoop && Next(s) == Some(CloseNow(id))
    requires Step(s, c).panic == None
    ensures OuterShape(Step(s, c)) && SchedClose(id) in Step(s, c).outer
  {
    hide TableOk, OutOk, TasksOk, FlagsOk;
    var s' := Step(s, c);
    DoPushes(Rest(s), CloseNow(id), c);
    var ts := Farewell(RemoveStream(s.table, id), c);
    assert s'.outer == ts + [SchedClose(id)] + s.outer[1..];
    assert s'.outer[|ts|] == SchedClose(id);
    forall n | 0 <= n < |s'.outer|
      ensures CloseAt(s', n)
    {
      assert n > |ts| ==> s'.outer[n] == s.outer[1..][n - |ts| - 1];
      assert n == |ts| ==> s'.outer[n + 1..] == s.outer[1..];
    }
  }

  lemma OuterPlain(s: Conn, c: Choice)
    requires CoreOk(s) && CanStep(s) && OuterShape(s) && !s.inLoop && Next(s).Some? && Plain(Next(s).value)
    requires !Next(s).value.CloseNow? && Step(s, c).panic == None
    ensures OuterShape(Step(s, c))
  {
    var k, s' := Next(s).value, Step(s, c);
    DoPushes(Rest(s), k, c);
    var ts := Pushes(Rest(s), k, c);
    PushesOutside(Rest(s), k, c);
    EndsBehind(s, ts);
    forall n | 0 < n < |s.outer| && s.outer[n].SchedClose?
      ensures Before(s', |ts| + n - 1)
    {
      assert CloseAt(s, n);
      BeforeMoves(s, c, n);
    }
    PushedClose(s, s', ts);
  }

  lemma BeforeMoves(s: Conn, c: Choice, n: nat)
    requires CoreOk(s) && CanStep(s) && !s.inLoop && Next(s).Some? && Plain(Next(s).value) && 0 < n < |s.outer|
    requires !Next(s).value.CloseNow? && Step(s, c).panic == None && Before(s, n)
    requires Step(s, c).outer == Pushes(Rest(s), Next(s).value, c) + s.outer[1..] && !Step(s, c).inLoop
    ensures Before(Step(s, c), |Pushes(Rest(s), Next(s).value, c)| + n - 1)
  {
  }

  lemma PushesOutside(s: Conn, k: Task, c: Choice)
    requires !k.CloseNow? && Plain(k)
    ensures forall i :: 0 <= i < |Pushes(s, k, c)| ==> !Pushes(s, k, c)[i].SchedClose?
    ensures EndsFirst(Pushes(s, k, c)) && (Pushes(s, k, c) != [] && EndsSomething(Pushes(s, k, c)[0]) ==> k.Wrote?)
  {
  }

  lemma OuterScheduled(s: Conn, c: Choice)
    requires CoreOk(s) && CanStep(s) && OuterShape(s) && !s.inLoop && Next(s) == Some(Schedule)
    ensures OuterShape(Step(s, c))
  {
    var s' := Step(s, c);
    ScheduleFlags(s);
    assert |s.outer| > 1 ==> OuterOk(s.outer, 1);
    forall n | 0 <= n < |s'.outer|
      ensures CloseAt(s', n)
    {
      assert CloseAt(s, n + 1);
      assert s'.outer[n + 1..] == s.outer[n + 2..];
    }
  }

  lemma OuterStep(s: Conn, c: Choice)
    requires CoreOk(s) && CanStep(s) && OuterShape(s) && Step(s, c).panic == None
    ensures OuterShape(Step(s, c))
  {
    if s.inLoop {
      OuterInLoop(s, c);
    } else {
      assert OuterOk(s.outer, 0);
      if Next(s).value.CloseNow? {
        StartsClosing(s, c, Next(s).value.id);
      } else if Next(s).value.Schedule? {
        OuterScheduled(s, c);
      } else {
        OuterPlain(s, c);
      }
    }
  }

  // ----- Streams that have left the table

  lemma ClosedOrNot(s: Conn, k: Task, c: Choice, id: nat)
    requires TaskOk(s.table, k) && s.table.maxPush + 2 !in s.out.sched.queues
    requires id in Do(s, k, c).out.closing
    ensures (id in s.out.closing && k != SchedClose(id)) || k == CloseNow(id)
  {
  }

  lemma ClosePendingStep(s: Conn, c: Choice)
    requires CoreOk(s) && CanStep(s) && ClosePending(s) && Step(s, c).panic == None
    ensures ClosePending(Step(s, c))
  {
    forall id | id in Step(s, c).out.closing
      ensures SchedClose(id) in Step(s, c).inner || SchedClose(id) in Step(s, c).outer
    {
      if Next(s).Some? {
        StillPending(s, c, id);
      }
    }
  }

  lemma StillPending(s: Conn, c: Choice, id: nat)
    requires CoreOk(s) && CanStep(s) && ClosePending(s) && Step(s, c).panic == None
    requires Next(s).Some? && id in Step(s, c).out.closing
    ensures SchedClose(id) in Step(s, c).inner || SchedClose(id) in Step(s, c).outer
  {
    ClosedOrNot(Rest(s), Next(s).value, c, id);
    if Next(s).value == CloseNow(id) {
      DoPushes(Rest(s), CloseNow(id), c);
      var ts := Pushes(Rest(s), CloseNow(id), c);
      assert ts[|ts| - 1] == SchedClose(id);
    } else {
      StepBehind(s, c);
      if SchedClose(id) in s.inner && s.inLoop {
        Stays(s.inner, SchedClose(id));
      } else if SchedClose(id) in s.outer && !s.inLoop {
        Stays(s.outer, SchedClose(id));
      }
    }
  }

  lemma ApartStep(s: Conn, c: Choice)
    requires CoreOk(s) && CanStep(s) && Apart(s) && Step(s, c).panic == None
    ensures Apart(Step(s, c))
  {
    if !s.inLoop {
      OutsideInner(s, c);
    } else {
      LoopOuter(s, c);
      if Next(s).Some? {
        ApartInside(s, c);
      }
    }
  }

  lemma ApartInside(s: Conn, c: Choice)
    requires CoreOk(s) && CanStep(s) && Apart(s) && Step(s, c).panic == None && s.inLoop && Next(s).Some?
    requires Step(s, c).outer == s.outer
    ensures Apart(Step(s, c))
  {
    var k, s' := Next(s).value, Step(s, c);
    if k.Start? {
      StartEffect(Rest(s), k.wr, c);
      forall i | 0 <= i < |s'.inner| && s'.inner[i].SchedClose?
        ensures s'.inner[i] !in s.outer
      {
        assert s'.inner[i] in s.inner;
      }
    } else if Plain(k) {
      DoPushes(Rest(s), k, c);
      ApartPushed(s, s', k, Pushes(Rest(s), k, c), c);
    }
  }

  lemma ApartPushed(s: Conn, s': Conn, k: Task, ts: seq<Task>, c: Choice)
    requires CoreOk(s) && Apart(s) && s.inLoop && Next(s) == Some(k) && ts == Pushes(Rest(s), k, c)
    requires k.CloseNow? ==> k.id in s.table.streams
    requires s'.inner == ts + s.inner[1..] && s'.outer == s.outer
    ensures Apart(s')
  {
    forall i | 0 <= i < |s'.inner| && s'.inner[i].SchedClose?
      ensures s'.inner[i] !in s.outer
    {
      if i >= |ts| {
        assert s'.inner[i] == s.inner[i - |ts| + 1];
      } else {
        NewSchedClose(Rest(s), k, c, i);
        assert s'.inner[i] in s.outer ==> TaskOk(s.table, s'.inner[i]);
      }
    }
  }

  lemma NewSchedClose(s: Conn, k: Task, c: Choice, i: nat)
    requires i < |Pushes(s, k, c)| && Pushes(s, k, c)[i].SchedClose?
    ensures k.CloseNow? && Pushes(s, k, c)[i] == SchedClose(k.id)
  {
  }

  /** Every step keeps what is pending in order. */
  lemma PendingStep(s: Conn, c: Choice)
    requires CoreOk(s) && CanStep(s) && PendingOk(s) && Step(s, c).panic == None
    ensures PendingOk(Step(s, c))
  {
    InnerStep(s, c);
    OuterStep(s, c);
    ClosePendingStep(s, c);
    ApartStep(s, c);
  }

  /** So does every event, when nothing is left to do. */
  lemma PendingOn(s: Conn, e: Event)
    requires Ready(s) && PendingOk(s) && Possible(s, e) && forall x :: x in s.out.sched.queues ==> Seen(s.table, x)
    requires On(s, e).out.closing == s.out.closing
    ensures PendingOk(On(s, e))
  {
    OnTasks(s, e);
    assert s.out.closing == {};
  }
}
