/** The calls a server makes to its scheduler, and a run whose calls make the priority scheduler panic.
    Nothing is queued for a stream in this run, so the order in which frames are written is that of any
    scheduler. */
module ServerPriorities {
  import opened Foundations
  import opened ServerConns
  import opened ServerEvents
  import opened ServerLines
  import opened ServerTheorems
  import opened ServerUnsafeRuns
  import P = PriorityIndexes

  type Op = P.Op

  /** The streams an action opens, closes, or gives a priority. */
  function Calls(s: Conn, a: Action): seq<Op> {
    match a
    case Internal(_) => if Next(s).Some? then CallsOf(s, Next(s).value) else []
    case External(e) => if e.ReadHeaders? || e.ReadPriority? then CallsOn(s, e) else []
  }

  function CallsOf(s: Conn, k: Task): seq<Op> {
    if k.SchedClose? then [P.CloseOp(k.id)]
    else if k.Start? && k.wr.write.PushPromise? && StartPanic(s, k.wr) == None && MayPush(s) && HasPushID(s) then
      [P.OpenOp(s.table.maxPush + 2)]
    else []
  }

  function CallsOn(s: Conn, e: Event): seq<Op>
    requires e.ReadHeaders? || e.ReadPriority?
  {
    if !s.peer.sawFirstSettings || Discards(s, e.id) then []
    else if e.ReadPriority? then (if e.self || e.id == 0 then [] else [P.AdjustOp(e.id)])
    else if e.id % 2 == 1 && e.id !in s.table.streams && e.id > s.table.maxClient && s.table.clients + 1 <= s.table.advMaxStreams then
      [P.OpenOp(e.id)]
    else []
  }

  ghost function CallsOver(s: Conn, actions: seq<Action>): seq<Op>
    requires Inv(s) && AllowedRun(s, actions)
    decreases |actions|
  {
    if actions == [] then [] else Calls(s, actions[0]) + CallsOver(Act(s, actions[0]), actions[1..])
  }

  /** Some run leads from one state to the other with these calls. */
  ghost predicate LeadsCalling(s: Conn, s': Conn, ops: seq<Op>)
    requires Inv(s)
  {
    exists actions :: AllowedRun(s, actions) && RunTo(s, actions) == s' && CallsOver(s, actions) == ops
  }

  lemma {:induction false} CallsAppend(s: Conn, actions: seq<Action>, a: Action)
    requires Inv(s) && AllowedRun(s, actions) && MayAct(RunTo(s, actions), a) && AllowedRun(s, actions + [a])
    ensures CallsOver(s, actions + [a]) == CallsOver(s, actions) + Calls(RunTo(s, actions), a)
    decreases |actions|
  {
    hide Inv, Calls;
    if actions == [] {
      assert actions + [a] == [a] && [a][1..] == [];
    } else {
      assert (actions + [a])[1..] == actions[1..] + [a];
      CallsAppend(Act(s, actions[0]), actions[1..], a);
    }
  }

  lemma CallsThere(s: Conn, s1: Conn, ops: seq<Op>, a: Action, s2: Conn, more: seq<Op>)
    requires Inv(s) && LeadsCalling(s, s1, ops) && Goes(s1, a, s2) && Calls(s1, a) == more
    ensures LeadsCalling(s, s2, ops + more)
  {
    hide Inv, Calls;
    var actions :| AllowedRun(s, actions) && RunTo(s, actions) == s1 && CallsOver(s, actions) == ops;
    LeadsInv(s, s1);
    CanAct(s1);
    RunOn(s, actions, a);
    CallsAppend(s, actions, a);
  }

  // ----- The run

  lemma OpeningSilent()
    ensures Calls(O0, Internal(LEAST)) == [] && Calls(O1, Internal(LEAST)) == [] && Calls(O2, Internal(LEAST)) == []
    ensures Calls(O3, Internal(LEAST)) == [] && Calls(O4, Internal(LEAST)) == [] && Calls(O5, Internal(LEAST)) == []
    ensures Calls(O6, Internal(LEAST)) == [] && Calls(O7, Internal(LEAST)) == [] && Calls(O8, Internal(LEAST)) == []
    ensures Calls(O9, Internal(LEAST)) == [] && Calls(O10, Internal(LEAST)) == [] && Calls(O11, External(WriteDone(4096))) == []
    ensures Calls(O12, Internal(LEAST)) == [] && Calls(O13, Internal(LEAST)) == [] && Calls(O14, Internal(LEAST)) == []
    ensures Calls(O15, External(ReadSettingsAck(true))) == []
  {
  }

  /** No scheduler hears of the opening. */
  lemma OpeningCalls(s: Conn)
    requires Inv(s) && LeadsCalling(s, O0, [])
    ensures LeadsCalling(s, O16, [])
  {
    hide *;
    OpeningSilent();
    var none: seq<Op> := [];
    assert none + [] == none;
    Opening1();
    CallsThere(s, O0, [], Internal(LEAST), O1, []);
    CallsThere(s, O1, [], Internal(LEAST), O2, []);
    CallsThere(s, O2, [], Internal(LEAST), O3, []);
    Opening2();
    CallsThere(s, O3, [], Internal(LEAST), O4, []);
    CallsThere(s, O4, [], Internal(LEAST), O5, []);
    CallsThere(s, O5, [], Internal(LEAST), O6, []);
    Opening3();
    CallsThere(s, O6, [], Internal(LEAST), O7, []);
    CallsThere(s, O7, [], Internal(LEAST), O8, []);
    CallsThere(s, O8, [], Internal(LEAST), O9, []);
    Opening4();
    CallsThere(s, O9, [], Internal(LEAST), O10, []);
    CallsThere(s, O10, [], Internal(LEAST), O11, []);
    CallsThere(s, O11, [], External(WriteDone(4096)), O12, []);
    Opening5();
    CallsThere(s, O12, [], Internal(LEAST), O13, []);
    CallsThere(s, O13, [], Internal(LEAST), O14, []);
    CallsThere(s, O14, [], Internal(LEAST), O15, []);
    Opening6();
    CallsThere(s, O15, [], External(ReadSettingsAck(true)), O16, []);
  }

  const CLOSING := At(T1, P1, One([], [], {}), Flags(false, false, false, None), 4096, false, [], [CloseNow(1)])
  const TELLING := At(CLOSED1, P1, One([], [], {1}), Flags(false, false, false, None), 4096, false, [], [SchedClose(1)])

  lemma GivesPriority(id: nat)
    requires id != 0
    ensures Goes(A0, External(ReadPriority(id, false)), A0) && Calls(A0, External(ReadPriority(id, false))) == [P.AdjustOp(id)]
    ensures Goes(A1, External(ReadPriority(id, false)), A1) && Calls(A1, External(ReadPriority(id, false))) == [P.AdjustOp(id)]
  {
  }

  lemma Requests()
    ensures Goes(A0, External(ReadHeaders(1, false, false, false, false)), A1)
    ensures Calls(A0, External(ReadHeaders(1, false, false, false, false))) == [P.OpenOp(1)]
  {
    Answer1();
  }

  lemma Cancels()
    ensures Goes(A1, External(ReadReset(1)), CLOSING) && Calls(A1, External(ReadReset(1))) == []
    ensures Goes(CLOSING, Internal(LEAST), TELLING) && Calls(CLOSING, Internal(LEAST)) == []
    ensures MayAct(TELLING, Internal(LEAST)) && Calls(TELLING, Internal(LEAST)) == [P.CloseOp(1)]
  {
    assert RemoveStream(T1, 1).streams == map[];
  }

  lemma {:induction false} OthersPrioritised(s: Conn, ops: seq<Op>, n: nat, id: nat)
    requires Inv(s) && LeadsCalling(s, A1, ops) && id != 0
    ensures LeadsCalling(s, A1, ops + P.Others(n, id))
    decreases n
  {
    hide Inv, Calls, Goes, LeadsCalling;
    if n == 0 {
      assert ops + [] == ops;
    } else {
      GivesPriority(id);
      CallsThere(s, A1, ops, External(ReadPriority(id, false)), A1, [P.AdjustOp(id)]);
      OthersPrioritised(s, ops + [P.AdjustOp(id)], n - 1, id + 2);
      assert ops + P.Others(n, id) == (ops + [P.AdjustOp(id)]) + P.Others(n - 1, id + 2);
    }
  }

  /** A client gives stream 1 a priority, opens it, gives other streams priorities and cancels it: the
      server then closes an open stream whose node the priority scheduler has lost, and panics. */
  lemma PriorityPanicReached(limits: P.Limits)
    requires limits.maxIdle > 0
    ensures exists actions :: AllowedRun(Initial(2), actions) &&
              var s, ops := RunTo(Initial(2), actions), CallsOver(Initial(2), actions);
              && MayAct(s, Internal(LEAST)) && Calls(s, Internal(LEAST)) == [P.CloseOp(1)]
              && P.CanRun(P.NEW, ops, limits)
              && var h := P.RunTo(P.NEW, ops, limits);
                 1 in h.begun && 1 !in h.ended && 1 !in h.x.states
  {
    var s := Initial(2);
    var ops := FIRST + P.Others(limits.maxIdle, 3);
    RunOfTheClient(s, limits.maxIdle);
    Cancels();
    P.LostWhileOpen(limits);
    StaysBegun(limits);
    hide Inv, Calls, Initial;
    var actions :| AllowedRun(s, actions) && RunTo(s, actions) == TELLING && CallsOver(s, actions) == ops;
  }

  lemma RunOfTheClient(s: Conn, n: nat)
    requires s == Initial(2)
    ensures LeadsCalling(s, TELLING, FIRST + P.Others(n, 3))
  {
    Starts(s);
    hide Inv, Calls, Goes, LeadsCalling, Initial, A1, TELLING;
    OpeningCalls(s);
    FirstCalls(s);
    OthersPrioritised(s, FIRST, n, 3);
    LastCalls(s, FIRST + P.Others(n, 3));
  }

  const FIRST: seq<Op> := [P.AdjustOp(1), P.OpenOp(1)]

  lemma FirstCalls(s: Conn)
    requires Inv(s) && LeadsCalling(s, O16, [])
    ensures LeadsCalling(s, A1, FIRST)
  {
    hide Inv, Calls, Goes, LeadsCalling, A1;
    GivesPriority(1);
    Requests();
    var none: seq<Op> := [];
    CallsThere(s, A0, none, External(ReadPriority(1, false)), A0, [P.AdjustOp(1)]);
    CallsThere(s, A0, none + [P.AdjustOp(1)], External(ReadHeaders(1, false, false, false, false)), A1, [P.OpenOp(1)]);
    assert none + [P.AdjustOp(1)] + [P.OpenOp(1)] == FIRST;
  }

  lemma LastCalls(s: Conn, ops: seq<Op>)
    requires Inv(s) && LeadsCalling(s, A1, ops)
    ensures LeadsCalling(s, TELLING, ops)
  {
    hide Inv, Calls, Goes, LeadsCalling, A1, CLOSING, TELLING;
    Cancels();
    CallsThere(s, A1, ops, External(ReadReset(1)), CLOSING, []);
    CallsThere(s, CLOSING, ops + [], Internal(LEAST), TELLING, []);
    assert ops + [] == ops;
  }

  lemma Starts(s: Conn)
    requires s == Initial(2)
    ensures Inv(s) && LeadsCalling(s, O0, [])
  {
    assert AllowedRun(s, []) && RunTo(s, []) == s && CallsOver(s, []) == [];
  }

  /** Stream 1 is open at the end of these calls. */
  lemma StaysBegun(limits: P.Limits)
    ensures var h := P.RunTo(P.NEW, FIRST + P.Others(limits.maxIdle, 3), limits);
            1 in h.begun && 1 !in h.ended
  {
    var others := P.Others(limits.maxIdle, 3);
    var h1 := P.After(P.NEW, P.AdjustOp(1), limits);
    var h := P.After(h1, P.OpenOp(1), limits);
    var ops := FIRST + others;
    assert ops[1..] == [P.OpenOp(1)] + others && ops[1..][1..] == others;
    OthersOpenNothing(h, limits.maxIdle, 3, limits);
  }

  lemma {:induction false} OthersOpenNothing(h: P.Story, n: nat, id: nat, limits: P.Limits)
    ensures var h' := P.RunTo(h, P.Others(n, id), limits); h'.begun == h.begun && h'.ended == h.ended
    decreases n
  {
    if n > 0 {
      assert P.Others(n, id)[1..] == P.Others(n - 1, id + 2);
      OthersOpenNothing(P.After(h, P.AdjustOp(id), limits), n - 1, id + 2, limits);
    }
  }
}
