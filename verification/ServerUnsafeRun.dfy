/** Two runs of a new connection that end in a panic. In the first, the handler of stream 1 answers
    without reading the body; while its HEADERS with END_STREAM are being written, padded DATA makes
    the server queue a WINDOW_UPDATE for the stream and leaves unread bytes, and DATA with END_STREAM
    ends the request; when the write is reported, the stream is closed, its unread bytes are
    announced, and the loop takes the WINDOW_UPDATE of the closed stream. In the second, the handler
    of stream 3 panics when the write buffer is almost full, and the client resets the stream while
    the RST_STREAM is being written. */
module ServerUnsafeRuns {
  import opened Foundations
  import opened WriteQueues
  import opened RoundRobins
  import opened ServerConns
  import opened ServerEvents
  import opened ServerLoops
  import opened ServerLines
  import opened ServerTheorems

  /** Some run leads from one state to the other. */
  ghost predicate Leads(s: Conn, s': Conn)
    requires Inv(s)
  {
    exists actions :: AllowedRun(s, actions) && RunTo(s, actions) == s'
  }

  lemma LeadsNowhere(s: Conn)
    requires Inv(s)
    ensures Leads(s, s)
  {
    assert AllowedRun(s, []) && RunTo(s, []) == s;
  }

  lemma {:induction false} RunOn(s: Conn, actions: seq<Action>, a: Action)
    requires Inv(s) && AllowedRun(s, actions) && MayAct(RunTo(s, actions), a)
    ensures AllowedRun(s, actions + [a]) && RunTo(s, actions + [a]) == Act(RunTo(s, actions), a)
    decreases |actions|
  {
    hide Inv;
    if actions == [] {
      assert [a][1..] == [];
      assert actions + [a] == [a];
    } else {
      assert (actions + [a])[1..] == actions[1..] + [a];
      RunOn(Act(s, actions[0]), actions[1..], a);
    }
  }

  lemma LeadsOn(s: Conn, s1: Conn, a: Action)
    requires Inv(s) && Inv(s1) && Leads(s, s1) && MayAct(s1, a)
    ensures Leads(s, Act(s1, a))
  {
    hide Inv;
    var actions :| AllowedRun(s, actions) && RunTo(s, actions) == s1;
    RunOn(s, actions, a);
  }

  lemma LeadsInv(s: Conn, s1: Conn)
    requires Inv(s) && Leads(s, s1)
    ensures Inv(s1)
  {
  }

  /** One action, on given states. */
  ghost predicate Goes(s1: Conn, a: Action, s2: Conn) {
    && MayAct(s1, a)
    && match a
       case Internal(c) => CanStep(s1) ==> Step(s1, c) == s2
       case External(e) => (forall x :: x in s1.out.sched.queues ==> Seen(s1.table, x)) ==> On(s1, e) == s2
  }

  lemma LeadsThere(s: Conn, s1: Conn, a: Action, s2: Conn)
    requires Inv(s) && Leads(s, s1) && Goes(s1, a, s2)
    ensures Leads(s, s2)
  {
    LeadsInv(s, s1);
    CanAct(s1);
    LeadsOn(s, s1, a);
  }

  // The DATA frame has 5000 bytes, 256 of them padding, on a stream with a window of 5000 bytes.
  const PADDING := Choice(256, false, 1)
  const CREDIT := Choice(5000, false, 1)

  const SETTINGS := Control(Settings)
  const FLUSH := Control(Flush)
  const UPDATE := Control(WindowUpdate(5000))
  const RESPONSE := Request(ResHeaders(true), Some(1), None)
  const HEADERS := Request(ResHeaders(false), Some(1), None)
  const STREAM_UPDATE := Request(WindowUpdate(256), Some(1), None)
  const CHUNK := Request(Data(seq(4083, _ => 0), false), Some(1), None)
  const PANIC_RST := Request(HandlerPanicRST, Some(3), None)

  // The table: empty, with stream 1, answered, with its request ended, with stream 3, and after a close.
  const T0 := Table(map[], 0, 0, 0, 0, 2, {})
  const T1 := Table(map[1 := Stream(Open, false, false, false)], 1, 0, 1, 0, 2, {1})
  const ANSWERED := Table(map[1 := Stream(Open, false, false, true)], 1, 0, 1, 0, 2, {1})
  const ENDED := Table(map[1 := Stream(HalfClosedRemote, false, false, true)], 1, 0, 1, 0, 2, {1})
  const CLOSED1 := Table(map[], 0, 0, 1, 0, 2, {1})
  const T3 := Table(map[1 := Stream(Open, false, false, true), 3 := Stream(Open, false, false, false)], 2, 0, 3, 0, 2, {1, 3})
  const CLOSED3 := Table(map[1 := Stream(Open, false, false, true)], 1, 0, 3, 0, 2, {1, 3})

  const P0 := Peer(0xffff_ffff, true, false, 65535)
  const P1 := Peer(0xffff_ffff, true, true, 65535)

  function At(t: Table, p: Peer, o: Output, flags: Flags, free: nat, inLoop: bool, inner: seq<Task>, outer: seq<Task>): Conn {
    Conn(t, p, o, flags, Going(false, false, 0, None), false, free, inLoop, inner, outer, None)
  }

  function One(control: seq<Request>, q: seq<Request>, closing: set<nat>): Output {
    Output(Sched(control, [1], map[1 := q]), Windows(65535, map[1 := 65535], 16384), |control|, closing)
  }

  function Zero(control: seq<Request>): Output {
    Output(Sched(control, [], map[]), Windows(65535, map[], 16384), |control|, {})
  }

  function Two(order: seq<nat>, q1: seq<Request>, q3: seq<Request>, used: nat): Output {
    Output(Sched([], order, map[1 := q1, 3 := q3]), Windows(65535 - used, map[1 := 65535 - used, 3 := 65535], 16384), 0, {})
  }

  function After(q: seq<Request>): Output {
    Output(Sched([], [1], map[1 := q]), Windows(61452, map[1 := 61452], 16384), 0, {})
  }

  lemma Requeued(q: seq<Request>, wr: Request)
    ensures map[1 := q][1 := q + [wr]] == map[1 := q + [wr]] && [] + [wr] == [wr]
  {
  }

  lemma Requeued2(q1: seq<Request>, q3: seq<Request>, id: nat, wr: Request)
    ensures map[1 := q1, 3 := q3][1 := q1 + [wr]] == map[1 := q1 + [wr], 3 := q3]
    ensures map[1 := q1, 3 := q3][3 := q3 + [wr]] == map[1 := q1, 3 := q3 + [wr]] && [] + [wr] == [wr]
  {
  }

  // ----- The settings are exchanged

  const O0 := At(T0, P0, Zero([]), Flags(false, false, false, None), 4096, false, [], [Write(SETTINGS), ConnUpdate])
  const O1 := At(T0, P0, Zero([SETTINGS]), Flags(false, false, false, None), 4096, false, [], [Schedule, ConnUpdate])
  const O2 := At(T0, P0, Zero([SETTINGS]), Flags(false, false, false, None), 4096, true, [], [ConnUpdate])
  const O3 := At(T0, P0, Zero([]), Flags(false, false, false, None), 4096, true, [Start(SETTINGS)], [ConnUpdate])
  const O4 := At(T0, P0, Zero([]), Flags(true, false, true, None), 4057, true, [Wrote(SETTINGS)], [ConnUpdate])
  const O5 := At(T0, P0, Zero([]), Flags(false, false, true, None), 4057, true, [Schedule], [ConnUpdate])
  const O6 := At(T0, P0, Zero([]), Flags(false, false, true, None), 4057, true, [], [ConnUpdate])
  const O7 := At(T0, P0, Zero([]), Flags(false, false, true, None), 4057, true, [Start(FLUSH), ClearFlush], [ConnUpdate])
  const O8 := At(T0, P0, Zero([]), Flags(true, true, true, Some(FLUSH)), 4057, true, [ClearFlush], [ConnUpdate])
  const O9 := At(T0, P0, Zero([]), Flags(true, true, false, Some(FLUSH)), 4057, true, [], [ConnUpdate])
  const O10 := At(T0, P0, Zero([]), Flags(true, true, false, Some(FLUSH)), 4057, false, [], [ConnUpdate])
  const O11 := At(T0, P0, Zero([]), Flags(true, true, false, Some(FLUSH)), 4057, false, [], [])
  const O12 := At(T0, P0, Zero([]), Flags(true, true, false, None), 4096, false, [], [Wrote(FLUSH)])
  const O13 := At(T0, P0, Zero([]), Flags(false, false, false, None), 4096, false, [], [Schedule])
  const O14 := At(T0, P0, Zero([]), Flags(false, false, false, None), 4096, true, [], [])
  const O15 := At(T0, P0, Zero([]), Flags(false, false, false, None), 4096, false, [], [])
  const O16 := At(T0, P1, Zero([]), Flags(false, false, false, None), 4096, false, [], [])

  lemma Opening1()
    ensures Goes(O0, Internal(LEAST), O1)
    ensures Goes(O1, Internal(LEAST), O2)
    ensures Goes(O2, Internal(LEAST), O3)
  {
  }

  lemma Opening2()
    ensures Goes(O3, Internal(LEAST), O4)
    ensures Goes(O4, Internal(LEAST), O5)
    ensures Goes(O5, Internal(LEAST), O6)
  {
  }

  lemma Opening3()
    ensures Goes(O6, Internal(LEAST), O7)
    ensures Goes(O7, Internal(LEAST), O8)
    ensures Goes(O8, Internal(LEAST), O9)
  {
  }

  lemma Opening4()
    ensures Goes(O9, Internal(LEAST), O10)
    ensures Goes(O10, Internal(LEAST), O11)
    ensures Goes(O11, External(WriteDone(4096)), O12)
  {
  }

  lemma Opening5()
    ensures Goes(O12, Internal(LEAST), O13)
    ensures Goes(O13, Internal(LEAST), O14)
    ensures Goes(O14, Internal(LEAST), O15)
  {
  }

  lemma Opening6()
    ensures Goes(O15, External(ReadSettingsAck(true)), O16)
  {
  }

  lemma OpeningLeads(s: Conn)
    requires Inv(s) && Leads(s, O0)
    ensures Leads(s, O16)
  {
    hide *;
    Opening1();
    LeadsThere(s, O0, Internal(LEAST), O1);
    LeadsThere(s, O1, Internal(LEAST), O2);
    LeadsThere(s, O2, Internal(LEAST), O3);
    Opening2();
    LeadsThere(s, O3, Internal(LEAST), O4);
    LeadsThere(s, O4, Internal(LEAST), O5);
    LeadsThere(s, O5, Internal(LEAST), O6);
    Opening3();
    LeadsThere(s, O6, Internal(LEAST), O7);
    LeadsThere(s, O7, Internal(LEAST), O8);
    LeadsThere(s, O8, Internal(LEAST), O9);
    Opening4();
    LeadsThere(s, O9, Internal(LEAST), O10);
    LeadsThere(s, O10, Internal(LEAST), O11);
    LeadsThere(s, O11, External(WriteDone(4096)), O12);
    Opening5();
    LeadsThere(s, O12, Internal(LEAST), O13);
    LeadsThere(s, O13, Internal(LEAST), O14);
    LeadsThere(s, O14, Internal(LEAST), O15);
    Opening6();
    LeadsThere(s, O15, External(ReadSettingsAck(true)), O16);
  }

  // ----- The handler answers without reading

  const ANSWERING := Flags(true, true, true, Some(RESPONSE))
  const IDLE := Flags(false, false, true, None)
  const QUEUED := One([], [STREAM_UPDATE], {})
  const LEFT := One([], [STREAM_UPDATE], {1})

  const A0 := At(T0, P1, Zero([]), Flags(false, false, false, None), 4096, false, [], [])
  const A1 := At(T1, P1, One([], [], {}), Flags(false, false, false, None), 4096, false, [], [])
  const A2 := At(T1, P1, One([], [], {}), Flags(false, false, false, None), 4096, false, [], [Write(RESPONSE)])
  const A3 := At(ANSWERED, P1, One([], [RESPONSE], {}), Flags(false, false, false, None), 4096, false, [], [Schedule])
  const A4 := At(ANSWERED, P1, One([], [RESPONSE], {}), Flags(false, false, false, None), 4096, true, [], [])
  const A5 := At(ANSWERED, P1, One([], [], {}), Flags(false, false, false, None), 4096, true, [Start(RESPONSE)], [])
  const A6 := At(ANSWERED, P1, One([], [], {}), ANSWERING, 4096, true, [], [])
  const A7 := At(ANSWERED, P1, One([], [], {}), ANSWERING, 4096, false, [], [])
  const A8 := At(ANSWERED, P1, One([], [], {}), ANSWERING, 4096, false, [], [ConnUpdate, StreamUpdate(1)])
  const A9 := At(ANSWERED, P1, One([], [], {}), ANSWERING, 4096, false, [], [StreamUpdate(1)])
  const A10 := At(ANSWERED, P1, One([], [], {}), ANSWERING, 4096, false, [], [Write(STREAM_UPDATE)])
  const A11 := At(ANSWERED, P1, QUEUED, ANSWERING, 4096, false, [], [Schedule])
  const A12 := At(ANSWERED, P1, QUEUED, ANSWERING, 4096, false, [], [])
  const A13 := At(ANSWERED, P1, QUEUED, ANSWERING, 4096, false, [], [ConnUpdate, StreamUpdate(1), EndStream(1)])
  const A14 := At(ANSWERED, P1, QUEUED, ANSWERING, 4096, false, [], [StreamUpdate(1), EndStream(1)])
  const A15 := At(ANSWERED, P1, QUEUED, ANSWERING, 4096, false, [], [EndStream(1)])
  const A16 := At(ENDED, P1, QUEUED, ANSWERING, 4096, false, [], [])
  const A17 := At(ENDED, P1, QUEUED, Flags(true, true, true, None), 4000, false, [], [Wrote(RESPONSE)])
  const A18 := At(ENDED, P1, QUEUED, IDLE, 4000, false, [], [CloseNow(1), Schedule])
  const A19 := At(CLOSED1, P1, LEFT, IDLE, 4000, false, [], [Write(UPDATE), SchedClose(1), Schedule])
  const A20 := At(CLOSED1, P1, One([UPDATE], [STREAM_UPDATE], {1}), IDLE, 4000, false, [], [Schedule, SchedClose(1), Schedule])
  const A21 := At(CLOSED1, P1, One([UPDATE], [STREAM_UPDATE], {1}), IDLE, 4000, true, [], [SchedClose(1), Schedule])
  const A22 := At(CLOSED1, P1, LEFT, IDLE, 4000, true, [Start(UPDATE)], [SchedClose(1), Schedule])
  const A23 := At(CLOSED1, P1, LEFT, Flags(true, false, true, None), 3987, true, [Wrote(UPDATE)], [SchedClose(1), Schedule])
  const A24 := At(CLOSED1, P1, LEFT, IDLE, 3987, true, [Schedule], [SchedClose(1), Schedule])
  const A25 := At(CLOSED1, P1, LEFT, IDLE, 3987, true, [], [SchedClose(1), Schedule])
  const A26 := At(CLOSED1, P1, One([], [], {1}), IDLE, 3987, true, [Start(STREAM_UPDATE)], [SchedClose(1), Schedule])

  lemma Answer1()
    ensures Goes(A0, External(ReadHeaders(1, false, false, false, false)), A1)
    ensures Goes(A1, External(HandlerWrites(RESPONSE)), A2)
    ensures Goes(A2, Internal(LEAST), A3)
  {
    assert T1.streams[1 := ANSWERED.streams[1]] == ANSWERED.streams;
    Requeued([], RESPONSE);
  }

  lemma Answer2()
    ensures Goes(A3, Internal(LEAST), A4)
    ensures Goes(A4, Internal(LEAST), A5)
    ensures Goes(A5, Internal(LEAST), A6)
  {
  }

  lemma Answer3()
    ensures Goes(A6, Internal(LEAST), A7)
    ensures Goes(A7, External(ReadData(1, true, false, false, false)), A8)
    ensures Goes(A8, Internal(LEAST), A9)
  {
  }

  lemma Answer4()
    ensures Goes(A9, Internal(PADDING), A10)
    ensures Goes(A10, Internal(LEAST), A11)
    ensures Goes(A11, Internal(LEAST), A12)
  {
    Requeued([], STREAM_UPDATE);
  }

  lemma Answer5()
    ensures Goes(A12, External(ReadData(1, true, false, false, true)), A13)
    ensures Goes(A13, Internal(LEAST), A14)
    ensures Goes(A14, Internal(LEAST), A15)
  {
  }

  lemma Answer6()
    ensures Goes(A15, Internal(LEAST), A16)
    ensures Goes(A16, External(WriteDone(4000)), A17)
  {
  }

  lemma AnswerReported()
    ensures Goes(A17, Internal(LEAST), A18)
  {
  }

  lemma Answer7()
    ensures Goes(A18, Internal(CREDIT), A19)
    ensures Goes(A19, Internal(LEAST), A20)
    ensures Goes(A20, Internal(LEAST), A21)
  {
  }

  lemma Answer8()
    ensures Goes(A21, Internal(LEAST), A22)
    ensures Goes(A22, Internal(LEAST), A23)
    ensures Goes(A23, Internal(LEAST), A24)
  {
  }

  lemma Answer9()
    ensures Goes(A24, Internal(LEAST), A25)
    ensures Goes(A25, Internal(LEAST), A26)
  {
  }

  lemma AnswerLeads(s: Conn)
    requires Inv(s) && Leads(s, A0)
    ensures Leads(s, A26)
  {
    hide *;
    Answer1();
    LeadsThere(s, A0, External(ReadHeaders(1, false, false, false, false)), A1);
    LeadsThere(s, A1, External(HandlerWrites(RESPONSE)), A2);
    LeadsThere(s, A2, Internal(LEAST), A3);
    Answer2();
    LeadsThere(s, A3, Internal(LEAST), A4);
    LeadsThere(s, A4, Internal(LEAST), A5);
    LeadsThere(s, A5, Internal(LEAST), A6);
    Answer3();
    LeadsThere(s, A6, Internal(LEAST), A7);
    LeadsThere(s, A7, External(ReadData(1, true, false, false, false)), A8);
    LeadsThere(s, A8, Internal(LEAST), A9);
    Answer4();
    LeadsThere(s, A9, Internal(PADDING), A10);
    LeadsThere(s, A10, Internal(LEAST), A11);
    LeadsThere(s, A11, Internal(LEAST), A12);
    Answer5();
    LeadsThere(s, A12, External(ReadData(1, true, false, false, true)), A13);
    LeadsThere(s, A13, Internal(LEAST), A14);
    LeadsThere(s, A14, Internal(LEAST), A15);
    Answer6();
    LeadsThere(s, A15, Internal(LEAST), A16);
    LeadsThere(s, A16, External(WriteDone(4000)), A17);
    AnswerReported();
    LeadsThere(s, A17, Internal(LEAST), A18);
    Answer7();
    LeadsThere(s, A18, Internal(CREDIT), A19);
    LeadsThere(s, A19, Internal(LEAST), A20);
    LeadsThere(s, A20, Internal(LEAST), A21);
    Answer8();
    LeadsThere(s, A21, Internal(LEAST), A22);
    LeadsThere(s, A22, Internal(LEAST), A23);
    LeadsThere(s, A23, Internal(LEAST), A24);
    Answer9();
    LeadsThere(s, A24, Internal(LEAST), A25);
    LeadsThere(s, A25, Internal(LEAST), A26);
  }

  // ----- The handler panics

  const F0 := At(T0, P1, Zero([]), Flags(false, false, false, None), 4096, false, [], [])
  const F1 := At(T1, P1, One([], [], {}), Flags(false, false, false, None), 4096, false, [], [])
  const F2 := At(T1, P1, One([], [], {}), Flags(false, false, false, None), 4096, false, [], [Write(HEADERS)])
  const F3 := At(ANSWERED, P1, One([], [HEADERS], {}), Flags(false, false, false, None), 4096, false, [], [Schedule])
  const F4 := At(ANSWERED, P1, One([], [HEADERS], {}), Flags(false, false, false, None), 4096, true, [], [])
  const F5 := At(ANSWERED, P1, One([], [], {}), Flags(false, false, false, None), 4096, true, [Start(HEADERS)], [])
  const F6 := At(ANSWERED, P1, One([], [], {}), Flags(true, true, true, Some(HEADERS)), 4096, true, [], [])
  const F7 := At(ANSWERED, P1, One([], [], {}), Flags(true, true, true, Some(HEADERS)), 4096, false, [], [])
  const F8 := At(ANSWERED, P1, One([], [], {}), Flags(true, true, true, None), 4000, false, [], [Wrote(HEADERS)])
  const F9 := At(ANSWERED, P1, One([], [], {}), Flags(false, false, true, None), 4000, false, [], [Schedule])
  const F10 := At(ANSWERED, P1, One([], [], {}), Flags(false, false, true, None), 4000, true, [], [])
  const F11 := At(ANSWERED, P1, One([], [], {}), Flags(false, false, true, None), 4000, true, [Start(FLUSH), ClearFlush], [])
  const F12 := At(ANSWERED, P1, One([], [], {}), Flags(true, true, true, Some(FLUSH)), 4000, true, [ClearFlush], [])
  const F13 := At(ANSWERED, P1, One([], [], {}), Flags(true, true, false, Some(FLUSH)), 4000, true, [], [])
  const F14 := At(ANSWERED, P1, One([], [], {}), Flags(true, true, false, Some(FLUSH)), 4000, false, [], [])
  const F15 := At(T3, P1, Two([1, 3], [], [], 0), Flags(true, true, false, Some(FLUSH)), 4000, false, [], [])
  const F16 := At(T3, P1, Two([1, 3], [], [], 0), Flags(true, true, false, Some(FLUSH)), 4000, false, [], [Write(CHUNK)])
  const F17 := At(T3, P1, Two([1, 3], [CHUNK], [], 0), Flags(true, true, false, Some(FLUSH)), 4000, false, [], [Schedule])
  const F18 := At(T3, P1, Two([1, 3], [CHUNK], [], 0), Flags(true, true, false, Some(FLUSH)), 4000, false, [], [])
  const F19 := At(T3, P1, Two([1, 3], [CHUNK], [], 0), Flags(true, true, false, Some(FLUSH)), 4000, false, [], [Write(PANIC_RST)])
  const F20 := At(T3, P1, Two([1, 3], [CHUNK], [PANIC_RST], 0), Flags(true, true, false, Some(FLUSH)), 4000, false, [], [Schedule])
  const F21 := At(T3, P1, Two([1, 3], [CHUNK], [PANIC_RST], 0), Flags(true, true, false, Some(FLUSH)), 4000, false, [], [])
  const F22 := At(T3, P1, Two([1, 3], [CHUNK], [PANIC_RST], 0), Flags(true, true, false, None), 4096, false, [], [Wrote(FLUSH)])
  const F23 := At(T3, P1, Two([1, 3], [CHUNK], [PANIC_RST], 0), Flags(false, false, false, None), 4096, false, [], [Schedule])
  const F24 := At(T3, P1, Two([1, 3], [CHUNK], [PANIC_RST], 0), Flags(false, false, false, None), 4096, true, [], [])
  const F25 := At(T3, P1, Two([3, 1], [], [PANIC_RST], 4083), Flags(false, false, false, None), 4096, true, [Start(CHUNK)], [])
  const F26 := At(T3, P1, Two([3, 1], [], [PANIC_RST], 4083), Flags(true, false, true, None), 4, true, [Wrote(CHUNK)], [])
  const F27 := At(T3, P1, Two([3, 1], [], [PANIC_RST], 4083), Flags(false, false, true, None), 4, true, [Schedule], [])
  const F28 := At(T3, P1, Two([3, 1], [], [PANIC_RST], 4083), Flags(false, false, true, None), 4, true, [], [])
  const F29 := At(T3, P1, Two([1, 3], [], [], 4083), Flags(false, false, true, None), 4, true, [Start(PANIC_RST)], [])
  const F30 := At(T3, P1, Two([1, 3], [], [], 4083), Flags(true, true, true, Some(PANIC_RST)), 4, true, [], [])
  const F31 := At(T3, P1, Two([1, 3], [], [], 4083), Flags(true, true, true, Some(PANIC_RST)), 4, false, [], [])
  const F32 := At(T3, P1, Two([1, 3], [], [], 4083), Flags(true, true, true, Some(PANIC_RST)), 4, false, [], [CloseNow(3)])
  const F33 := At(CLOSED3, P1, Two([1, 3], [], [], 4083).(closing := {3}), Flags(true, true, true, Some(PANIC_RST)), 4, false, [], [SchedClose(3)])
  const F34 := At(CLOSED3, P1, After([]), Flags(true, true, true, Some(PANIC_RST)), 4, false, [], [])
  const F35 := At(CLOSED3, P1, After([]), Flags(true, true, true, None), 4096, false, [], [Wrote(PANIC_RST)])
  const F36 := At(CLOSED3, P1, After([]), Flags(false, false, true, None), 4096, false, [], [CloseNow(3), Schedule])

  lemma Failure1()
    ensures Goes(F0, External(ReadHeaders(1, false, false, false, false)), F1)
    ensures Goes(F1, External(HandlerWrites(HEADERS)), F2)
  {
  }

  lemma Failure2()
    ensures Goes(F2, Internal(LEAST), F3)
    ensures Goes(F3, Internal(LEAST), F4)
  {
    assert T1.streams[1 := ANSWERED.streams[1]] == ANSWERED.streams;
    Requeued([], HEADERS);
  }

  lemma Failure3()
    ensures Goes(F4, Internal(LEAST), F5)
    ensures Goes(F5, Internal(LEAST), F6)
  {
  }

  lemma Failure4()
    ensures Goes(F6, Internal(LEAST), F7)
    ensures Goes(F7, External(WriteDone(4000)), F8)
  {
  }

  lemma Failure5()
    ensures Goes(F8, Internal(LEAST), F9)
    ensures Goes(F9, Internal(LEAST), F10)
  {
  }

  lemma Failure6()
    ensures Goes(F10, Internal(LEAST), F11)
    ensures Goes(F11, Internal(LEAST), F12)
  {
  }

  lemma Failure7()
    ensures Goes(F12, Internal(LEAST), F13)
    ensures Goes(F13, Internal(LEAST), F14)
  {
  }

  lemma Failure8()
    ensures Goes(F14, External(ReadHeaders(3, false, false, false, false)), F15)
    ensures Goes(F15, External(HandlerWrites(CHUNK)), F16)
  {
  }

  lemma Failure9()
    ensures Goes(F16, Internal(LEAST), F17)
    ensures Goes(F17, Internal(LEAST), F18)
  {
    Requeued2([], [], 1, CHUNK);
  }

  lemma Failure10()
    ensures Goes(F18, External(HandlerWrites(PANIC_RST)), F19)
    ensures Goes(F19, Internal(LEAST), F20)
  {
    Requeued2([CHUNK], [], 3, PANIC_RST);
  }

  lemma Failure11()
    ensures Goes(F20, Internal(LEAST), F21)
    ensures Goes(F21, External(WriteDone(4096)), F22)
  {
  }

  lemma Failure12()
    ensures Goes(F22, Internal(LEAST), F23)
    ensures Goes(F23, Internal(LEAST), F24)
  {
  }

  lemma Failure13()
    ensures Goes(F24, Internal(LEAST), F25)
  {
    hide Inv, Seen;
  }

  lemma Failure14()
    ensures Goes(F25, Internal(LEAST), F26)
  {
  }

  lemma Failure15()
    ensures Goes(F26, Internal(LEAST), F27)
  {
  }

  lemma Failure16()
    ensures Goes(F27, Internal(LEAST), F28)
  {
  }

  lemma Failure17()
    ensures Goes(F28, Internal(LEAST), F29)
  {
  }

  lemma Failure18()
    ensures Goes(F29, Internal(LEAST), F30)
  {
  }

  lemma Failure19()
    ensures Goes(F30, Internal(LEAST), F31)
  {
  }

  lemma Failure20()
    ensures Goes(F31, External(ReadReset(3)), F32)
  {
  }

  lemma Failure21()
    ensures Goes(F32, Internal(LEAST), F33)
  {
  }

  lemma Failure22()
    ensures Goes(F33, Internal(LEAST), F34)
  {
  }

  lemma Failure23()
    ensures Goes(F34, External(WriteDone(4096)), F35)
    ensures Goes(F35, Internal(LEAST), F36)
  {
  }

  lemma FailureLeads(s: Conn)
    requires Inv(s) && Leads(s, F0)
    ensures Leads(s, F36)
  {
    hide *;
    Failure1();
    LeadsThere(s, F0, External(ReadHeaders(1, false, false, false, false)), F1);
    LeadsThere(s, F1, External(HandlerWrites(HEADERS)), F2);
    Failure2();
    LeadsThere(s, F2, Internal(LEAST), F3);
    LeadsThere(s, F3, Internal(LEAST), F4);
    Failure3();
    LeadsThere(s, F4, Internal(LEAST), F5);
    LeadsThere(s, F5, Internal(LEAST), F6);
    Failure4();
    LeadsThere(s, F6, Internal(LEAST), F7);
    LeadsThere(s, F7, External(WriteDone(4000)), F8);
    Failure5();
    LeadsThere(s, F8, Internal(LEAST), F9);
    LeadsThere(s, F9, Internal(LEAST), F10);
    Failure6();
    LeadsThere(s, F10, Internal(LEAST), F11);
    LeadsThere(s, F11, Internal(LEAST), F12);
    Failure7();
    LeadsThere(s, F12, Internal(LEAST), F13);
    LeadsThere(s, F13, Internal(LEAST), F14);
    Failure8();
    LeadsThere(s, F14, External(ReadHeaders(3, false, false, false, false)), F15);
    LeadsThere(s, F15, External(HandlerWrites(CHUNK)), F16);
    Failure9();
    LeadsThere(s, F16, Internal(LEAST), F17);
    LeadsThere(s, F17, Internal(LEAST), F18);
    Failure10();
    LeadsThere(s, F18, External(HandlerWrites(PANIC_RST)), F19);
    LeadsThere(s, F19, Internal(LEAST), F20);
    Failure11();
    LeadsThere(s, F20, Internal(LEAST), F21);
    LeadsThere(s, F21, External(WriteDone(4096)), F22);
    Failure12();
    LeadsThere(s, F22, Internal(LEAST), F23);
    LeadsThere(s, F23, Internal(LEAST), F24);
    Failure13();
    LeadsThere(s, F24, Internal(LEAST), F25);
    Failure14();
    LeadsThere(s, F25, Internal(LEAST), F26);
    Failure15();
    LeadsThere(s, F26, Internal(LEAST), F27);
    Failure16();
    LeadsThere(s, F27, Internal(LEAST), F28);
    Failure17();
    LeadsThere(s, F28, Internal(LEAST), F29);
    Failure18();
    LeadsThere(s, F29, Internal(LEAST), F30);
    Failure19();
    LeadsThere(s, F30, Internal(LEAST), F31);
    Failure20();
    LeadsThere(s, F31, External(ReadReset(3)), F32);
    Failure21();
    LeadsThere(s, F32, Internal(LEAST), F33);
    Failure22();
    LeadsThere(s, F33, Internal(LEAST), F34);
    Failure23();
    LeadsThere(s, F34, External(WriteDone(4096)), F35);
    LeadsThere(s, F35, Internal(LEAST), F36);
  }

  /** A run that ends in a panic. */
  lemma Ends(s: Conn, last: Conn, c: Choice, panic: Panic)
    requires Inv(s) && Leads(s, last) && Busy(last) && (CanStep(last) ==> Step(last, c).panic == Some(panic))
    ensures exists actions :: AllowedRun(s, actions) && RunTo(s, actions).panic == Some(panic)
  {
    LeadsInv(s, last);
    CanAct(last);
    LeadsOn(s, last, Internal(c));
    hide Step;
    var actions :| AllowedRun(s, actions) && RunTo(s, actions) == Act(last, Internal(c));
  }

  lemma StartsClosed()
    ensures Busy(A26) && (CanStep(A26) ==> Step(A26, LEAST).panic == Some(OnClosed))
  {
  }

  lemma ClosesAgain()
    ensures Busy(F36) && (CanStep(F36) ==> Step(F36, LEAST).panic == Some(CloseAgain))
  {
  }

  /** A frame is started on a closed stream. */
  lemma ClosedStreamReached()
    ensures exists actions :: AllowedRun(Initial(2), actions) && RunTo(Initial(2), actions).panic == Some(OnClosed)
  {
    hide CanStep, Step, Busy, Leads, AllowedRun, RunTo, Inv;
    var s := Initial(2);
    LeadsNowhere(s);
    OpeningLeads(s);
    AnswerLeads(s);
    StartsClosed();
    Ends(s, A26, LEAST, OnClosed);
  }

  /** A stream is closed again. */
  lemma ClosedTwiceReached()
    ensures exists actions :: AllowedRun(Initial(2), actions) && RunTo(Initial(2), actions).panic == Some(CloseAgain)
  {
    hide CanStep, Step, Busy, Leads, AllowedRun, RunTo, Inv;
    var s := Initial(2);
    LeadsNowhere(s);
    OpeningLeads(s);
    FailureLeads(s);
    ClosesAgain();
    Ends(s, F36, LEAST, CloseAgain);
  }
}
