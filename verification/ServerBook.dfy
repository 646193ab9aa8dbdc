/** The books of a connection over every run: what the windows hold, that what is asked for is done
    once, that SETTINGS are acknowledged, and which error ends it, in terms of the messages and the
    frames that are started (h2_bundle.go, serverConn). */
module ServerBooks {
  import opened Foundations
  import opened WriteQueues
  import opened ServerConns
  import opened ServerEvents
  import opened ServerLoops
  import opened ServerOutputs
  import opened ServerTheorems
  import opened ServerAnswers
  import opened ServerLedgers

  // ----- Sums over a run

  ghost function AskedOn(s: Conn, actions: seq<Action>, d: Due): nat
    requires Inv(s) && AllowedRun(s, actions)
    decreases |actions|
  {
    if actions == [] then 0 else Asked(s, actions[0], d) + AskedOn(Act(s, actions[0]), actions[1..], d)
  }

  ghost function DoneOn(s: Conn, actions: seq<Action>, d: Due): nat
    requires Inv(s) && AllowedRun(s, actions)
    decreases |actions|
  {
    if actions == [] then 0
    else Done(s, Act(s, actions[0]), actions[0], d) + DoneOn(Act(s, actions[0]), actions[1..], d)
  }

  ghost function GrantedOn(s: Conn, actions: seq<Action>, id: nat): nat
    requires Inv(s) && AllowedRun(s, actions)
    decreases |actions|
  {
    if actions == [] then 0 else GrantedBy(s, actions[0], id) + GrantedOn(Act(s, actions[0]), actions[1..], id)
  }

  ghost function SentOn(s: Conn, actions: seq<Action>, id: nat): nat
    requires Inv(s) && AllowedRun(s, actions)
    decreases |actions|
  {
    if actions == [] then 0 else SentBy(s, Act(s, actions[0]), id) + SentOn(Act(s, actions[0]), actions[1..], id)
  }

  /** The value that was announced last, if any was. */
  ghost function AnnouncedOn(s: Conn, actions: seq<Action>, x: nat, before: int): int
    requires Inv(s) && AllowedRun(s, actions)
    decreases |actions|
  {
    if actions == [] then before else AnnouncedOn(Act(s, actions[0]), actions[1..], x, AnnouncedBy(s, actions[0], x, before))
  }

  /** The code of the first message that is a connection error, or 0. */
  ghost function FirstFatal(s: Conn, actions: seq<Action>): nat
    requires Inv(s) && AllowedRun(s, actions)
    decreases |actions|
  {
    if actions == [] then 0
    else if actions[0].External? && Fatal(s, actions[0].e).Some? then Fatal(s, actions[0].e).value
    else FirstFatal(Act(s, actions[0]), actions[1..])
  }

  ghost function PushingOn(s: Conn, actions: seq<Action>, before: bool): bool
    requires Inv(s) && AllowedRun(s, actions)
    decreases |actions|
  {
    if actions == [] then before else PushingOn(Act(s, actions[0]), actions[1..], PushingAfter(s, actions[0], before))
  }

  ghost function AckDue(s: Conn, actions: seq<Action>, due: bool): bool
    requires Inv(s) && AllowedRun(s, actions)
    decreases |actions|
  {
    if actions == [] then due else AckDue(Act(s, actions[0]), actions[1..], AckAfter(s, actions[0], due))
  }

  // ----- Runs

  lemma {:induction false} RunTidy(s: Conn, actions: seq<Action>)
    requires Inv(s) && AllowedRun(s, actions) && Tidy(s)
    ensures Tidy(RunTo(s, actions))
    ensures ErrorOf(RunTo(s, actions)) == if ErrorOf(s) != 0 then ErrorOf(s) else FirstFatal(s, actions)
    decreases |actions|
  {
    hide Inv, Tidy, MayAct, ErrorOf, Fatal;
    if actions != [] {
      ActTidy(s, actions[0]);
      if actions[0].External? {
        FatalCodes(s, actions[0].e);
      }
      RunTidy(Act(s, actions[0]), actions[1..]);
    }
  }

  /** Over every run, what is asked for is done once or still to come. */
  lemma {:induction false} RunDue(s: Conn, actions: seq<Action>, d: Due)
    requires Inv(s) && AllowedRun(s, actions) && Tidy(s)
    ensures Coming(RunTo(s, actions), d) + DoneOn(s, actions, d) == Coming(s, d) + AskedOn(s, actions, d)
    decreases |actions|
  {
    hide Inv, Tidy, MayAct, Coming, Asked, Done;
    if actions != [] {
      ActTidy(s, actions[0]);
      ActDue(s, actions[0], d);
      RunDue(Act(s, actions[0]), actions[1..], d);
    }
  }

  /** The window of the connection holds what was granted, less what was sent. */
  lemma {:induction false} RunConn(s: Conn, actions: seq<Action>)
    requires Inv(s) && AllowedRun(s, actions) && Tidy(s)
    ensures RunTo(s, actions).out.win.conn == s.out.win.conn + GrantedOn(s, actions, 0) - SentOn(s, actions, 0)
    decreases |actions|
  {
    hide Inv, Tidy, MayAct, GrantedBy, SentBy;
    if actions != [] {
      ActTidy(s, actions[0]);
      ActBalance(s, actions[0], 1);
      RunConn(Act(s, actions[0]), actions[1..]);
    }
  }

  /** Without an error, the values announced last are in force. */
  lemma {:induction false} RunAnnounced(s: Conn, actions: seq<Action>, x: nat)
    requires Inv(s) && AllowedRun(s, actions) && Tidy(s) && (x == 3 || x == 4 || x == 5) && ErrorOf(RunTo(s, actions)) == 0
    ensures Current(RunTo(s, actions), x) == AnnouncedOn(s, actions, x, Current(s, x))
    decreases |actions|
  {
    hide Inv, Tidy, MayAct, ErrorOf, AnnouncedBy, Current;
    if actions != [] {
      ActTidy(s, actions[0]);
      RunTidy(Act(s, actions[0]), actions[1..]);
      ActAnnounced(s, actions[0], x);
      RunAnnounced(Act(s, actions[0]), actions[1..], x);
    }
  }

  /** Without an error, pushes are on as the settings and GOAWAYs that were read say. */
  lemma {:induction false} RunPushing(s: Conn, actions: seq<Action>)
    requires Inv(s) && AllowedRun(s, actions) && Tidy(s) && ErrorOf(RunTo(s, actions)) == 0
    ensures Pushing(RunTo(s, actions)) == PushingOn(s, actions, Pushing(s))
    decreases |actions|
  {
    hide Inv, Tidy, MayAct, ErrorOf, Pushing, PushingAfter;
    if actions != [] {
      ActTidy(s, actions[0]);
      RunTidy(Act(s, actions[0]), actions[1..]);
      ActPushing(s, actions[0]);
      RunPushing(Act(s, actions[0]), actions[1..]);
    }
  }

  lemma {:induction false} RunAck(s: Conn, actions: seq<Action>)
    requires Inv(s) && AllowedRun(s, actions) && Tidy(s)
    ensures RunTo(s, actions).needToSendSettingsAck == AckDue(s, actions, s.needToSendSettingsAck)
    decreases |actions|
  {
    hide Inv, Tidy, MayAct, AckAfter;
    if actions != [] {
      ActTidy(s, actions[0]);
      ActAck(s, actions[0]);
      RunAck(Act(s, actions[0]), actions[1..]);
    }
  }

  // ----- The window of a stream

  /** The stream was seen and its queue is gone. */
  predicate Gone(s: Conn, id: nat) {
    Seen(s.table, id) && id !in s.out.sched.queues
  }

  lemma StepGone(s: Conn, c: Choice, id: nat)
    requires Sound(s) && CanStep(s) && Tidy(s) && Gone(s, id)
    ensures id !in Step(s, c).out.sched.queues
  {
    assert s.table.maxPush % 2 == 0;
    StepWindows(s, c);
    hide Step, Sound, CanStep, WindowStep, ErrorOf, NoCode, WindowsIn;
    NoneComes(s, Step(s, c), id);
  }

  lemma OnGone(s: Conn, e: Event, id: nat)
    requires Settled(s) && Possible(s, e) && Gone(s, id)
    ensures id !in On(s, e).out.sched.queues
  {
    OnOut(s, e);
    if Opens(s, e) {
      OpensFresh(s, e);
    }
    hide On, Settled, Possible, Opens, PeerAfter;
  }

  lemma ActGone(s: Conn, a: Action, id: nat)
    requires Inv(s) && MayAct(s, a) && Tidy(s) && Gone(s, id)
    ensures Gone(Act(s, a), id)
  {
    CanAct(s);
    SeenStays(s.table, Act(s, a).table, id);
    match a
    case Internal(c) =>
      StepGone(s, c, id);
      hide Step, Sound;
    case External(e) =>
      SettledReady(s);
      OnGone(s, e, id);
      hide On, Sound;
  }

  lemma {:induction false} RunGone(s: Conn, actions: seq<Action>, id: nat)
    requires Inv(s) && AllowedRun(s, actions) && Tidy(s) && Gone(s, id)
    ensures Gone(RunTo(s, actions), id)
    decreases |actions|
  {
    hide Inv, Tidy, MayAct, Gone;
    if actions != [] {
      ActTidy(s, actions[0]);
      ActGone(s, actions[0], id);
      RunGone(Act(s, actions[0]), actions[1..], id);
    }
  }

  /** A window that goes away belongs to a stream that was seen; without one nothing is granted or sent. */
  lemma NoWindow(s: Conn, a: Action, id: nat)
    requires Inv(s) && MayAct(s, a) && Tidy(s) && id != 0
    ensures id in s.out.win.streams && id !in Act(s, a).out.win.streams ==> Gone(Act(s, a), id)
    ensures id !in s.out.win.streams ==> Balance(s, id) == 0 && GrantedBy(s, a, id) == 0 && SentBy(s, Act(s, a), id) == 0
  {
    CanAct(s);
    if id in s.out.win.streams {
      QueuesSeen(s.table, s.out);
      ActTidy(s, a);
      SeenStays(s.table, Act(s, a).table, id);
      hide Act, Sound, MayAct;
    } else if a.Internal? {
      StepWindows(s, a.c);
      hide Step, Sound, MayAct, CanStep;
    }
  }

  /** Without an error, the window of a stream holds what was announced last and granted, less what was sent. */
  lemma {:induction false} RunBalance(s: Conn, actions: seq<Action>, id: nat)
    requires Inv(s) && AllowedRun(s, actions) && Tidy(s) && id != 0
    requires ErrorOf(RunTo(s, actions)) == 0 && id in RunTo(s, actions).out.win.streams
    ensures Balance(RunTo(s, actions), id) == Balance(s, id) + GrantedOn(s, actions, id) - SentOn(s, actions, id)
    decreases |actions|
  {
    if actions != [] {
      var s1 := Act(s, actions[0]);
      ActTidy(s, actions[0]);
      RunTidy(s1, actions[1..]);
      RunTidy(s, actions);
      NoWindow(s, actions[0], id);
      ActBalance(s, actions[0], id);
      if Gone(s1, id) {
        RunGone(s1, actions[1..], id);
      }
      hide Inv, MayAct, ErrorOf, GrantedBy, SentBy, WindowsIn;
      RunBalance(s1, actions[1..], id);
    }
  }

  // ----- From a new connection

  lemma InitialTidy(advMaxStreams: nat, d: Due)
    ensures Tidy(Initial(advMaxStreams)) && ErrorOf(Initial(advMaxStreams)) == 0
    ensures Coming(Initial(advMaxStreams), d) == One(Sending(Request(Settings, None, None)), d) + One(ConnCredit, d)
  {
    DueFew(Write(Control(Settings)), ConnUpdate, Schedule, d);
  }

  /** In every state of every run the window of the connection is 65535 plus the increments accepted on
      stream 0, less the DATA started. Until there is a connection error, the window of each stream is
      the initial window announced last (65535 if none was) plus the increments accepted on the stream,
      less the DATA started on it, and frames are as large as announced last (16384 if nothing was). */
  lemma WindowsHold(advMaxStreams: nat, actions: seq<Action>)
    requires AllowedRun(Initial(advMaxStreams), actions)
    ensures var s0 := Initial(advMaxStreams);
            var s := RunTo(s0, actions);
            && s.out.win.conn == 65535 + GrantedOn(s0, actions, 0) - SentOn(s0, actions, 0)
            && (FirstFatal(s0, actions) == 0 ==>
                  && s.out.win.maxFrameSize == AnnouncedOn(s0, actions, 5, 16384)
                  && forall id :: id in s.out.win.streams ==>
                       s.out.win.streams[id] ==
                       AnnouncedOn(s0, actions, 4, 65535) + GrantedOn(s0, actions, id) - SentOn(s0, actions, id))
  {
    var s0 := Initial(advMaxStreams);
    var s := RunTo(s0, actions);
    assert Current(s0, 4) == 65535 && Current(s0, 5) == 16384 && s0.out.win.conn == 65535;
    InitialTidy(advMaxStreams, ConnCredit);
    QueuesSeen(s.table, s.out);
    hide Initial, Inv, ErrorOf, Seen;
    RunConn(s0, actions);
    RunTidy(s0, actions);
    if FirstFatal(s0, actions) == 0 {
      RunAnnounced(s0, actions, 4);
      RunAnnounced(s0, actions, 5);
      forall id | id in s.out.win.streams
        ensures s.out.win.streams[id] == AnnouncedOn(s0, actions, 4, 65535) + GrantedOn(s0, actions, id) - SentOn(s0, actions, id)
      {
        StreamHolds(s0, actions, id);
      }
    }
  }

  /** Until there is a connection error, no more streams are pushed at once than the client announced
      last, and none once it turned pushes off or left. */
  lemma PeerHolds(advMaxStreams: nat, actions: seq<Action>)
    requires AllowedRun(Initial(advMaxStreams), actions) && FirstFatal(Initial(advMaxStreams), actions) == 0
    ensures var s0 := Initial(advMaxStreams);
            var s := RunTo(s0, actions);
            && s.peer.maxStreams == AnnouncedOn(s0, actions, 3, 0xffff_ffff)
            && (Ready(s) ==> s.peer.pushEnabled == PushingOn(s0, actions, true))
  {
    var s0 := Initial(advMaxStreams);
    var s := RunTo(s0, actions);
    assert Current(s0, 3) == 0xffff_ffff && s0.peer.pushEnabled;
    InitialTidy(advMaxStreams, NoPush);
    NoPushQueued(s.out.sched.control);
    hide Initial, Inv, ErrorOf, RunTo, AllowedRun, Queueing;
    RunTidy(s0, actions);
    RunAnnounced(s0, actions, 3);
    RunPushing(s0, actions);
  }

  lemma StreamHolds(s0: Conn, actions: seq<Action>, id: nat)
    requires Inv(s0) && AllowedRun(s0, actions) && Tidy(s0) && id != 0 && id !in s0.out.win.streams && Current(s0, 4) == 65535
    requires ErrorOf(RunTo(s0, actions)) == 0 && id in RunTo(s0, actions).out.win.streams
    ensures RunTo(s0, actions).out.win.streams[id]
         == AnnouncedOn(s0, actions, 4, 65535) + GrantedOn(s0, actions, id) - SentOn(s0, actions, id)
  {
    RunBalance(s0, actions, id);
    RunAnnounced(s0, actions, 4);
    hide Inv, Tidy, AllowedRun, RunTo, ErrorOf;
  }

  /** In every state of every run, what was asked for is done or still to come; between messages only
      answers are, and they are queued. */
  lemma AllDone(advMaxStreams: nat, actions: seq<Action>, d: Due)
    requires AllowedRun(Initial(advMaxStreams), actions)
    ensures var s0 := Initial(advMaxStreams);
            var s := RunTo(s0, actions);
            var asked := AskedOn(s0, actions, d) + One(Sending(Request(Settings, None, None)), d) + One(ConnCredit, d);
            && DoneOn(s0, actions, d) + Coming(s, d) == asked
            && (Ready(s) ==> DoneOn(s0, actions, d) + Queueing(s.out.sched.control, d) == asked)
  {
    var s0 := Initial(advMaxStreams);
    InitialTidy(advMaxStreams, d);
    hide Initial, Inv, AllowedRun, RunTo, Queueing;
    RunDue(s0, actions, d);
  }

  /** The first error is the one that the connection ends with. */
  lemma FirstErrorWins(advMaxStreams: nat, actions: seq<Action>)
    requires AllowedRun(Initial(advMaxStreams), actions) && Ready(RunTo(Initial(advMaxStreams), actions))
    ensures var g := RunTo(Initial(advMaxStreams), actions).going;
            g.code == FirstFatal(Initial(advMaxStreams), actions) && (g.code != 0 ==> g.inGoAway)
  {
    InitialTidy(advMaxStreams, ConnCredit);
    hide Initial, Inv, AllowedRun, WindowsIn;
    RunTidy(Initial(advMaxStreams), actions);
  }

  // ----- Pings

  /** The PINGs that are heard, and the acknowledgements that are started. */
  ghost function Pings(s: Conn, actions: seq<Action>): nat
    requires Inv(s) && AllowedRun(s, actions)
    decreases |actions|
  {
    if actions == [] then 0
    else
      (if actions[0].External? && actions[0].e.ReadPing? && Heard(s, actions[0].e) then 1 else 0)
      + Pings(Act(s, actions[0]), actions[1..])
  }

  ghost function PingAcks(s: Conn, actions: seq<Action>): nat
    requires Inv(s) && AllowedRun(s, actions)
    decreases |actions|
  {
    if actions == [] then 0
    else
      var f := Handed(s, Act(s, actions[0]));
      (if actions[0].Internal? && f.Some? && f.value.write.PingAck? then 1 else 0) + PingAcks(Act(s, actions[0]), actions[1..])
  }

  lemma AskedPing(s: Conn, a: Action)
    ensures Asked(s, a, PingAnswer) == if a.External? && a.e.ReadPing? && Heard(s, a.e) then 1 else 0
  {
    if a.External? && a.e.ReadPing? {
      assert !Misused(s, a.e) || Early(s, a.e);
    }
    hide Heard, Fatal, Faulty, Overflows, OnEnded, NewRequest, Opens, Accepted, Counted, Trailers;
  }

  lemma DonePing(s: Conn, s': Conn, a: Action)
    ensures Done(s, s', a, PingAnswer) ==
            if a.Internal? && Handed(s, s').Some? && Handed(s, s').value.write.PingAck? then 1 else 0
  {
  }

  lemma {:induction false} CountPings(s: Conn, actions: seq<Action>)
    requires Inv(s) && AllowedRun(s, actions)
    ensures AskedOn(s, actions, PingAnswer) == Pings(s, actions) && DoneOn(s, actions, PingAnswer) == PingAcks(s, actions)
    decreases |actions|
  {
    hide Inv, MayAct, Asked, Done, Handed, Heard;
    if actions != [] {
      AskedPing(s, actions[0]);
      DonePing(s, Act(s, actions[0]), actions[0]);
      CountPings(Act(s, actions[0]), actions[1..]);
    }
  }

  /** The acknowledgements of PINGs in a queue. */
  function PingAcksIn(q: seq<Request>): nat {
    if q == [] then 0 else (if q[0].write.PingAck? then 1 else 0) + PingAcksIn(q[1..])
  }

  lemma {:induction false} QueuedPings(q: seq<Request>)
    ensures Queueing(q, PingAnswer) == PingAcksIn(q)
  {
    if q != [] {
      QueuedPings(q[1..]);
    }
  }

  /** Between messages, the PINGs that were accepted are as many as the acknowledgements that were
      started and those that are queued. */
  lemma PingsAnswered(advMaxStreams: nat, actions: seq<Action>)
    requires AllowedRun(Initial(advMaxStreams), actions) && Ready(RunTo(Initial(advMaxStreams), actions))
    ensures var s0 := Initial(advMaxStreams);
            Pings(s0, actions) == PingAcks(s0, actions) + PingAcksIn(RunTo(s0, actions).out.sched.control)
  {
    var s0 := Initial(advMaxStreams);
    AllDone(advMaxStreams, actions, PingAnswer);
    hide Initial, Inv, AllowedRun, RunTo, Ready, Coming;
    CountPings(s0, actions);
    QueuedPings(RunTo(s0, actions).out.sched.control);
  }

  // ----- Acknowledgements of SETTINGS

  /** The loop runs, or will. */
  ghost predicate WillRun(s: Conn) {
    s.flags.inFlight.Some? || s.inLoop || exists i :: 0 <= i < |s.outer| && (s.outer[i].Schedule? || s.outer[i].Wrote?)
  }

  lemma LoopWillRun(s: Conn, c: Choice)
    requires Sound(s) && CanStep(s) && s.inLoop && Step(s, c).needToSendSettingsAck
    ensures WillRun(Step(s, c))
  {
    if Next(s).Some? {
      DoLoop(Rest(s), Next(s).value, c);
    } else {
      Round(s, c);
    }
  }

  lemma DoLoop(s: Conn, k: Task, c: Choice)
    requires TaskOk(s.table, k) && s.table.maxPush + 2 !in s.out.sched.queues
    ensures s.inLoop ==> Do(s, k, c).inLoop
    ensures s.flags.inFlight.Some? ==> Do(s, k, c).flags.inFlight.Some?
  {
    hide TaskOk, Enqueue, CloseQueue, Finished, Farewell;
  }

  /** A call outside the loop that starts it, or leads to one that does. */
  lemma HeadRuns(s: Conn, c: Choice)
    requires Sound(s) && CanStep(s) && !s.inLoop && s.flags.inFlight == None && s.outer != []
    requires s.outer[0].Schedule? || s.outer[0].Wrote?
    ensures WillRun(Step(s, c))
  {
    var k := s.outer[0];
    if k.Wrote? {
      StepPanics(s, c);
      DoPushes(Rest(s), k, c);
      var n := |Finished(s.table, k.wr)|;
      assert Step(s, c).outer[n] == Schedule;
    }
  }

  lemma StepWillRun(s: Conn, c: Choice)
    requires Sound(s) && CanStep(s) && WillRun(s) && Step(s, c).needToSendSettingsAck
    ensures WillRun(Step(s, c))
  {
    if s.inLoop {
      LoopWillRun(s, c);
    } else if s.flags.inFlight.Some? {
      DoLoop(Rest(s), Next(s).value, c);
    } else {
      var i :| 0 <= i < |s.outer| && (s.outer[i].Schedule? || s.outer[i].Wrote?);
      if i == 0 {
        HeadRuns(s, c);
      } else {
        LaterRuns(s, c, i);
      }
    }
    hide Step, Sound, CanStep;
  }

  lemma LaterRuns(s: Conn, c: Choice, i: nat)
    requires Sound(s) && CanStep(s) && !s.inLoop && 0 < i < |s.outer| && (s.outer[i].Schedule? || s.outer[i].Wrote?)
    ensures WillRun(Step(s, c))
  {
    StepOuter(s, c);
    hide Step, Sound, CanStep, Pushes;
    var outer := Step(s, c).outer;
    assert outer[|outer| - |s.outer| + i] == s.outer[i];
  }

  lemma OnWillRun(s: Conn, e: Event)
    requires Sound(s) && Ready(s) && Tidy(s) && Possible(s, e) && (s.needToSendSettingsAck ==> WillRun(s))
    requires Settled(s) && On(s, e).needToSendSettingsAck
    ensures WillRun(On(s, e))
  {
    OnOut(s, e);
    OnTasks(s, e);
    if !s.needToSendSettingsAck {
      AgreesSchedules(s, e);
      assert On(s, e).outer[0] == Schedule;
    } else if e.WriteDone? {
      assert On(s, e).outer[0].Wrote?;
    }
    hide On, Sound, Settled, Possible, Agrees;
  }

  lemma AgreesSchedules(s: Conn, e: Event)
    requires Settled(s) && Agrees(s, e)
    ensures On(s, e).outer == [Schedule]
  {
    HeardOn(s, e);
    SettingsOn(s, e);
    SettingsApplied(s.peer.(sawFirstSettings := true), s.out.win, e.settings, e.reached);
    hide OnFrame, On;
  }

  ghost predicate AckComing(s: Conn) {
    s.needToSendSettingsAck ==> WillRun(s)
  }

  lemma ActWillRun(s: Conn, a: Action)
    requires Inv(s) && MayAct(s, a) && Tidy(s) && AckComing(s)
    ensures AckComing(Act(s, a))
  {
    CanAct(s);
    match a
    case Internal(c) =>
      if Step(s, c).needToSendSettingsAck {
        StepAck(s, c);
        StepWillRun(s, c);
      }
      hide Step, Sound, WillRun;
    case External(e) =>
      SettledReady(s);
      if On(s, e).needToSendSettingsAck {
        OnWillRun(s, e);
      }
      hide On, Sound, WillRun, Settled;
  }

  lemma {:induction false} RunWillRun(s: Conn, actions: seq<Action>)
    requires Inv(s) && AllowedRun(s, actions) && Tidy(s) && AckComing(s)
    ensures AckComing(RunTo(s, actions))
    decreases |actions|
  {
    hide Inv, Tidy, MayAct, AckComing;
    if actions != [] {
      ActTidy(s, actions[0]);
      ActWillRun(s, actions[0]);
      RunWillRun(Act(s, actions[0]), actions[1..]);
    }
  }

  /** In every state of every run an acknowledgement of SETTINGS is due exactly if SETTINGS were accepted
      and none was started since; and between messages, while one is due, a frame is being written
      after which the loop goes on. */
  lemma SettingsAcknowledged(advMaxStreams: nat, actions: seq<Action>)
    requires AllowedRun(Initial(advMaxStreams), actions)
    ensures var s := RunTo(Initial(advMaxStreams), actions);
            && s.needToSendSettingsAck == AckDue(Initial(advMaxStreams), actions, false)
            && (s.needToSendSettingsAck && Ready(s) ==> s.flags.inFlight.Some?)
  {
    var s0 := Initial(advMaxStreams);
    InitialTidy(advMaxStreams, ConnCredit);
    assert !s0.needToSendSettingsAck;
    hide Initial, Inv, AllowedRun, RunTo, Tidy;
    RunAck(s0, actions);
    RunWillRun(s0, actions);
  }
}
