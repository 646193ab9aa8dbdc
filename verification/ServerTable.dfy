/** The table of streams: its invariant, and that states only move forward (h2_bundle.go; section
    5.1 of RFC 7540). */
module ServerTables {
  import opened WriteQueues
  import opened ServerConns
  import opened ServerEvents

  function Odd(streams: map<nat, Stream>): set<nat> {
    set id | id in streams && id % 2 == 1
  }

  function Even(streams: map<nat, Stream>): set<nat> {
    set id | id in streams && id % 2 == 0
  }

  predicate Tracked(t: Table, id: nat)
    requires id in t.streams
  {
    && id != 0 && Seen(t, id) && t.streams[id].state != Idle && t.streams[id].state != Closed
    && (id % 2 == 1 ==> id in t.created)
  }

  /** Streams in the table are open or half-closed, their IDs are bounded by the highest ones seen,
      the counters count them, and there are no more of the client than it was told. */
  ghost predicate TableOk(t: Table) {
    && t.maxPush % 2 == 0
    && (forall id :: id in t.streams ==> Tracked(t, id))
    && (forall id :: id in t.created ==> id <= t.maxClient)
    && t.clients == |Odd(t.streams)| && t.pushed == |Even(t.streams)| && t.clients <= t.advMaxStreams
  }

  /** How far a stream has come. */
  function Rank(state: StreamState): nat {
    match state
    case Idle => 0
    case Open => 1
    case HalfClosedLocal => 2
    case HalfClosedRemote => 2
    case Closed => 3
  }

  /** The moves of section 5.1: forward only, and not from one half-closed state to the other. */
  predicate Forward(before: StreamState, after: StreamState) {
    before == after || Rank(before) < Rank(after)
  }

  ghost predicate AllForward(t: Table, t': Table) {
    forall id: nat :: Forward(StateOf(t, id), StateOf(t', id))
  }

  // ----- The operations on the table

  lemma SetStreamOk(t: Table, id: nat, st: Stream)
    requires TableOk(t) && id in t.streams && st.state != Idle && st.state != Closed
    ensures TableOk(SetStream(t, id, st))
    ensures Forward(t.streams[id].state, st.state) ==> AllForward(t, SetStream(t, id, st))
  {
    assert Odd(SetStream(t, id, st).streams) == Odd(t.streams);
    assert Even(SetStream(t, id, st).streams) == Even(t.streams);
  }

  lemma CountAdded(streams: map<nat, Stream>, id: nat, st: Stream)
    requires id !in streams
    ensures |Odd(streams[id := st])| == |Odd(streams)| + (if id % 2 == 0 then 0 else 1)
    ensures |Even(streams[id := st])| == |Even(streams)| + (if id % 2 == 0 then 1 else 0)
  {
    OddAdded(streams, id, st);
    EvenAdded(streams, id, st);
  }

  lemma OddAdded(streams: map<nat, Stream>, id: nat, st: Stream)
    requires id !in streams
    ensures |Odd(streams[id := st])| == |Odd(streams)| + (if id % 2 == 0 then 0 else 1)
  {
    assert Odd(streams[id := st]) == if id % 2 == 1 then Odd(streams) + {id} else Odd(streams);
  }

  lemma EvenAdded(streams: map<nat, Stream>, id: nat, st: Stream)
    requires id !in streams
    ensures |Even(streams[id := st])| == |Even(streams)| + (if id % 2 == 0 then 1 else 0)
  {
    assert Even(streams[id := st]) == if id % 2 == 0 then Even(streams) + {id} else Even(streams);
  }

  lemma CountRemoved(streams: map<nat, Stream>, id: nat)
    requires id in streams
    ensures |Odd(streams - {id})| == |Odd(streams)| - (if id % 2 == 0 then 0 else 1)
    ensures |Even(streams - {id})| == |Even(streams)| - (if id % 2 == 0 then 1 else 0)
  {
    CountAdded(streams - {id}, id, streams[id]);
    assert (streams - {id})[id := streams[id]] == streams;
  }

  lemma AddStreamOk(t: Table, id: nat, state: StreamState)
    requires TableOk(t) && id !in t.streams && id != 0 && Seen(t, id) && state != Idle && state != Closed
    requires id % 2 == 1 ==> t.clients + 1 <= t.advMaxStreams
    ensures TableOk(AddStream(t, id, state))
  {
    CountAdded(t.streams, id, Stream(state, false, false, false));
  }

  lemma RemoveStreamOk(t: Table, id: nat)
    requires TableOk(t) && id in t.streams
    ensures TableOk(RemoveStream(t, id)) && AllForward(t, RemoveStream(t, id))
  {
    assert Tracked(t, id);
    CountRemoved(t.streams, id);
  }

  /** Raising the highest client ID closes the idle streams below it. */
  lemma RaiseOk(t: Table, id: nat)
    requires TableOk(t) && id > t.maxClient
    ensures TableOk(t.(maxClient := id)) && AllForward(t, t.(maxClient := id))
  {
  }

  /** A new stream: raising the highest ID and adding it is a move from idle. */
  lemma NewClientOk(t: Table, id: nat, state: StreamState)
    requires TableOk(t) && id > t.maxClient && id % 2 == 1 && state != Idle && state != Closed && t.clients + 1 <= t.advMaxStreams
    ensures TableOk(AddStream(t.(maxClient := id), id, state)) && AllForward(t, AddStream(t.(maxClient := id), id, state))
  {
    RaiseOk(t, id);
    assert !Seen(t, id);
    AddStreamOk(t.(maxClient := id), id, state);
  }

  lemma NewPushOk(t: Table, id: nat)
    requires TableOk(t) && id == t.maxPush + 2
    ensures TableOk(AddStream(t.(maxPush := id), id, HalfClosedRemote))
    ensures AllForward(t, AddStream(t.(maxPush := id), id, HalfClosedRemote))
  {
    assert !Seen(t, id);
    AddStreamOk(t.(maxPush := id), id, HalfClosedRemote);
  }


  // ----- Steps

  lemma NoteHeadersOk(t: Table, wr: Request)
    requires TableOk(t) && RequestOk(wr)
    ensures TableOk(NoteHeaders(t, wr)) && AllForward(t, NoteHeaders(t, wr))
  {
    if wr.write.ResHeaders? && wr.stream.value in t.streams {
      assert Tracked(t, wr.stream.value);
      SetStreamOk(t, wr.stream.value, t.streams[wr.stream.value].(wroteHeaders := true));
    }
  }

  lemma HalfClosedOk(t: Table, wr: Request)
    requires TableOk(t)
    ensures TableOk(HalfClosed(t, wr)) && AllForward(t, HalfClosed(t, wr))
  {
    if EndsStream(wr.write) && wr.stream.Some? && wr.stream.value in t.streams {
      SetStreamOk(t, wr.stream.value, t.streams[wr.stream.value].(state := HalfClosedLocal));
    }
  }

  /** The calls that change the table. */
  predicate ChangesTable(k: Task) {
    k.Write? || k.Start? || k.Wrote? || k.CloseNow? || k.EndStream? || k.MarkReset?
  }

  lemma TableStays(s: Conn, k: Task, c: Choice)
    requires TaskOk(s.table, k) && s.table.maxPush + 2 !in s.out.sched.queues && !ChangesTable(k)
    ensures Do(s, k, c).table == s.table
  {
  }

  lemma TableAfterWrite(s: Conn, wr: Request)
    requires RequestOk(wr)
    ensures DoWrite(s, wr).table == NoteHeaders(s.table, wr)
  {
  }

  lemma TableAfterStart(s: Conn, wr: Request, c: Choice)
    requires s.table.maxPush + 2 !in s.out.sched.queues
    ensures var t := DoStart(s, wr, c).table;
            t == s.table || t == AddStream(s.table.(maxPush := s.table.maxPush + 2), s.table.maxPush + 2, HalfClosedRemote)
  {
  }

  /** What carrying out a call does to the table. */
  lemma DoTable(s: Conn, k: Task, c: Choice)
    requires TableOk(s.table) && TaskOk(s.table, k) && s.table.maxPush + 2 !in s.out.sched.queues
    ensures TableOk(Do(s, k, c).table) && AllForward(s.table, Do(s, k, c).table)
  {
    if !ChangesTable(k) {
      TableStays(s, k, c);
    } else {
      DoTableChange(s, k, c);
    }
  }

  lemma DoTableChange(s: Conn, k: Task, c: Choice)
    requires TableOk(s.table) && TaskOk(s.table, k) && s.table.maxPush + 2 !in s.out.sched.queues && ChangesTable(k)
    ensures TableOk(Do(s, k, c).table) && AllForward(s.table, Do(s, k, c).table)
  {
    match k
    case Write(wr) => WriteTable(s, wr);
    case Start(wr) => StartTable(s, wr, c);
    case Wrote(wr) => WroteTable(s, wr);
    case CloseNow(id) => CloseTable(s, id, c);
    case EndStream(id) => EndTable(s, id);
    case MarkReset(id) => MarkTable(s, id);
  }

  lemma WroteTable(s: Conn, wr: Request)
    requires TableOk(s.table)
    ensures TableOk(DoWrote(s, wr).table) && AllForward(s.table, DoWrote(s, wr).table)
  {
    HalfClosedOk(s.table, wr);
  }

  lemma StartTable(s: Conn, wr: Request, c: Choice)
    requires TableOk(s.table) && s.table.maxPush + 2 !in s.out.sched.queues
    ensures TableOk(DoStart(s, wr, c).table) && AllForward(s.table, DoStart(s, wr, c).table)
  {
    TableAfterStart(s, wr, c);
    NewPushOk(s.table, s.table.maxPush + 2);
  }

  lemma WriteTable(s: Conn, wr: Request)
    requires TableOk(s.table) && RequestOk(wr)
    ensures TableOk(DoWrite(s, wr).table) && AllForward(s.table, DoWrite(s, wr).table)
  {
    TableAfterWrite(s, wr);
    NoteHeadersOk(s.table, wr);
  }

  lemma CloseTable(s: Conn, id: nat, c: Choice)
    requires TableOk(s.table)
    ensures TableOk(DoClose(s, id, c).table) && AllForward(s.table, DoClose(s, id, c).table)
  {
    if id in s.table.streams {
      RemoveStreamOk(s.table, id);
    }
  }

  lemma EndTable(s: Conn, id: nat)
    requires TableOk(s.table)
    ensures TableOk(DoEndStream(s, id).table) && AllForward(s.table, DoEndStream(s, id).table)
  {
    if id in s.table.streams {
      SetStreamOk(s.table, id, s.table.streams[id].(state := HalfClosedRemote));
    }
  }

  lemma MarkTable(s: Conn, id: nat)
    requires TableOk(s.table)
    ensures TableOk(DoMarkReset(s, id).table) && AllForward(s.table, DoMarkReset(s, id).table)
  {
    if id in s.table.streams {
      assert Tracked(s.table, id);
      SetStreamOk(s.table, id, s.table.streams[id].(resetQueued := true));
    }
  }

  // ----- Events

  lemma ConnErrorTable(s: Conn, id: nat, code: nat)
    requires TableOk(s.table)
    ensures TableOk(ConnError(s, id, code).table) && AllForward(s.table, ConnError(s, id, code).table)
  {
    if id > s.table.maxClient {
      RaiseOk(s.table, id);
    }
  }

  lemma HeadersTable(s: Conn, id: nat, ended: bool, bad: bool, refused: bool, busy: bool)
    requires TableOk(s.table) && forall x :: x in s.out.sched.queues ==> Seen(s.table, x)
    ensures var t := OnHeaders(s, id, ended, bad, refused, busy).table; TableOk(t) && AllForward(s.table, t)
  {
    ConnErrorTable(s, id, PROTOCOL_ERROR);
    if id % 2 == 1 {
      if id in s.table.streams {
        assert Tracked(s.table, id);
        SetStreamOk(s.table, id, s.table.streams[id].(gotTrailer := true));
      } else if id > s.table.maxClient {
        RaiseOk(s.table, id);
        if s.table.clients + 1 <= s.table.advMaxStreams {
          NewClientOk(s.table, id, if ended then HalfClosedRemote else Open);
        }
      }
    }
  }

  lemma OnTable(s: Conn, e: Event)
    requires TableOk(s.table) && forall x :: x in s.out.sched.queues ==> Seen(s.table, x)
    ensures TableOk(On(s, e).table) && AllForward(s.table, On(s, e).table)
  {
    if IsFrame(e) {
      FrameTable(s, e);
    }
  }

  lemma FrameTable(s: Conn, e: Event)
    requires TableOk(s.table) && forall x :: x in s.out.sched.queues ==> Seen(s.table, x)
    ensures TableOk(ProcessFrame(s, e).table) && AllForward(s.table, ProcessFrame(s, e).table)
  {
    var s1 := s.(peer := s.peer.(sawFirstSettings := true));
    ConnErrorTable(s, FrameStream(e), PROTOCOL_ERROR);
    OnFrameTable(s1, e);
    assert AllForward(s.table, s.table);
    hide OnFrame, ConnError, TableOk, AllForward;
  }

  lemma OnFrameTable(s: Conn, e: Event)
    requires TableOk(s.table) && forall x :: x in s.out.sched.queues ==> Seen(s.table, x)
    ensures TableOk(OnFrame(s, e).table) && AllForward(s.table, OnFrame(s, e).table)
  {
    if e.ReadHeaders? {
      HeadersTable(s, e.id, e.ended, e.bad, e.refused, e.busy);
    } else {
      ConnErrorTable(s, FrameStream(e), PROTOCOL_ERROR);
      OtherFrames(s, e);
      assert AllForward(s.table, s.table);
      hide OnFrame, ConnError, TableOk, AllForward;
    }
  }

  lemma OtherFrames(s: Conn, e: Event)
    requires !e.ReadHeaders? && forall x :: x in s.out.sched.queues ==> Seen(s.table, x)
    ensures var t := OnFrame(s, e).table; t == s.table || t == ConnError(s, FrameStream(e), PROTOCOL_ERROR).table
  {
  }
}
