/** The frames ahead of a stream, written in place one after the other: what that leaves of the
    write buffer, of the connection's window and of the streams, with nothing announced on the way
    (h2_bundle.go, the loop of scheduleFrameWrite). No call is modelled here: a frame is a number of
    bytes and the stream it ends. */
module ServerLines {
  import opened Foundations
  import opened WriteQueues
  import opened RoundRobins
  import opened ServerConns

  /** Whether a push is written, refused, or makes the connection go away. */
  datatype Rules = Rules(push: bool, maxStreams: nat, maxPush: nat, going: bool)

  /** Stuck once a frame is not written in place; else the free bytes of the buffer, the window of
      the connection, and the streams that are left. */
  datatype Line = Stuck | Line(free: nat, conn: int, states: map<nat, StreamState>)

  /** Announces nothing, and writes a status in one byte. */
  const LEAST := Choice(0, false, 1)

  function EvenIDs(states: map<nat, StreamState>): set<nat> {
    set id | id in states && id % 2 == 0
  }

  /** The streams after a frame was written. */
  function Left(l: Line, wr: Request): Line
    requires l.Line?
  {
    if EndsStream(wr.write) && wr.stream.Some? then
      var id := wr.stream.value;
      if id !in l.states then l
      else if l.states[id] == Open then l.(states := l.states[id := HalfClosedLocal])
      else if l.states[id] == HalfClosedRemote then l.(states := l.states - {id})
      else l
    else if wr.write.StreamError? then l.(states := l.states - {wr.write.streamID})
    else if wr.write.HandlerPanicRST? && wr.stream.Some? then l.(states := l.states - {wr.stream.value})
    else l
  }

  /** The RST_STREAM that the end of an open stream calls for. */
  function Follows(l: Line, wr: Request): seq<Request> {
    if l.Line? && EndsStream(wr.write) && wr.stream.Some? && wr.stream.value in l.states && l.states[wr.stream.value] == Open
    then [Control(StreamError(wr.stream.value, 0))] else []
  }

  /** One frame. A push that is refused takes no bytes. */
  function Written(r: Rules, l: Line, wr: Request): Line {
    if l.Stuck? then Stuck
    else if wr.write.PushPromise? then
      if r.push && |EvenIDs(l.states)| + 1 <= r.maxStreams && (r.maxPush + 2 < 0x8000_0000 || !r.going) then Stuck else l
    else if !InPlace(wr.write, l.free) then Stuck
    else Left(l.(free := l.free - Used(wr.write, LEAST)), wr)
  }

  function AllWritten(r: Rules, l: Line, q: seq<Request>): Line
    decreases |q|
  {
    if q == [] then l else AllWritten(r, Written(r, l, q[0]), q[1..])
  }

  /** The turn of a stream: the head of its queue, if it can be sent, and the RST_STREAM after it. */
  function Turn(r: Rules, l: Line, sched: Sched, win: Windows, x: nat): Line
    requires SchedOk(sched) && WindowsFor(sched, win)
  {
    if l.Stuck? || x !in l.states || !CanSend(sched, win.(conn := l.conn), x) then l
    else
      var wr := ConsumeHead(sched.queues[x], MAX_INT32, win.(conn := l.conn)).frame;
      AllWritten(r, Written(r, l.(conn := l.conn - wr.DataSize()), wr), Follows(l, wr))
  }

  /** The streams in turn, until it is the turn of `id`. */
  function LineUp(r: Rules, l: Line, sched: Sched, win: Windows, order: seq<nat>, id: nat): Line
    requires SchedOk(sched) && WindowsFor(sched, win)
    decreases |order|
  {
    if l.Stuck? || order == [] then Stuck
    else if order[0] == id then l
    else LineUp(r, Turn(r, l, sched, win, order[0]), sched, win, order[1..], id)
  }

  /** The control frames and then the heads of the streams ahead are all written in place, and what
      they leave of the connection's window lets the head of this stream be sent. */
  predicate Arrives(r: Rules, l: Line, control: seq<Request>, sched: Sched, win: Windows, id: nat)
    requires SchedOk(sched) && WindowsFor(sched, win)
  {
    var l' := LineUp(r, AllWritten(r, l, control), sched, win, sched.order, id);
    l'.Line? && CanSend(sched, win.(conn := l'.conn), id)
  }

  // ----- More free bytes never hurt

  predicate Le(l: Line, l': Line) {
    l.Stuck? || (l'.Line? && l.free <= l'.free && l.conn == l'.conn && l.states == l'.states)
  }

  lemma WrittenLe(r: Rules, l: Line, l': Line, wr: Request)
    requires Le(l, l')
    ensures Le(Written(r, l, wr), Written(r, l', wr))
  {
  }

  lemma {:induction false} AllWrittenLe(r: Rules, l: Line, l': Line, q: seq<Request>)
    requires Le(l, l')
    ensures Le(AllWritten(r, l, q), AllWritten(r, l', q))
    decreases |q|
  {
    if q != [] {
      WrittenLe(r, l, l', q[0]);
      AllWrittenLe(r, Written(r, l, q[0]), Written(r, l', q[0]), q[1..]);
    }
  }

  lemma {:induction false} StuckStays(r: Rules, q: seq<Request>)
    ensures AllWritten(r, Stuck, q) == Stuck
  {
    if q != [] {
      StuckStays(r, q[1..]);
    }
  }

  lemma TurnLe(r: Rules, l: Line, l': Line, sched: Sched, win: Windows, x: nat)
    requires SchedOk(sched) && WindowsFor(sched, win) && Le(l, l')
    ensures Le(Turn(r, l, sched, win, x), Turn(r, l', sched, win, x))
  {
    if l.Line? && x in l.states && CanSend(sched, win.(conn := l.conn), x) {
      var wr := ConsumeHead(sched.queues[x], MAX_INT32, win.(conn := l.conn)).frame;
      var m, m' := l.(conn := l.conn - wr.DataSize()), l'.(conn := l.conn - wr.DataSize());
      WrittenLe(r, m, m', wr);
      AllWrittenLe(r, Written(r, m, wr), Written(r, m', wr), Follows(l, wr));
    }
  }

  lemma {:induction false} LineUpLe(r: Rules, l: Line, l': Line, sched: Sched, win: Windows, order: seq<nat>, id: nat)
    requires SchedOk(sched) && WindowsFor(sched, win) && Le(l, l')
    ensures Le(LineUp(r, l, sched, win, order, id), LineUp(r, l', sched, win, order, id))
    decreases |order|
  {
    if l.Line? && order != [] && order[0] != id {
      TurnLe(r, l, l', sched, win, order[0]);
      LineUpLe(r, Turn(r, l, sched, win, order[0]), Turn(r, l', sched, win, order[0]), sched, win, order[1..], id);
    }
  }

  lemma ArrivesLe(r: Rules, l: Line, l': Line, control: seq<Request>, sched: Sched, win: Windows, id: nat)
    requires SchedOk(sched) && WindowsFor(sched, win) && Le(l, l') && Arrives(r, l, control, sched, win, id)
    ensures Arrives(r, l', control, sched, win, id)
  {
    AllWrittenLe(r, l, l', control);
    LineUpLe(r, AllWritten(r, l, control), AllWritten(r, l', control), sched, win, sched.order, id);
  }

  // ----- Frames only take bytes, window and streams away

  predicate Within(l: Line, l': Line) {
    l'.Line? ==> l.Line? && l'.free <= l.free && l'.conn <= l.conn && l'.states.Keys <= l.states.Keys
  }

  lemma {:induction false} AllWrittenWithin(r: Rules, l: Line, q: seq<Request>)
    ensures Within(l, AllWritten(r, l, q)) && (AllWritten(r, l, q).Line? ==> AllWritten(r, l, q).conn == l.conn)
    decreases |q|
  {
    if q != [] {
      AllWrittenWithin(r, Written(r, l, q[0]), q[1..]);
    }
  }

  lemma TurnWithin(r: Rules, l: Line, sched: Sched, win: Windows, x: nat)
    requires SchedOk(sched) && WindowsFor(sched, win)
    ensures Within(l, Turn(r, l, sched, win, x))
  {
    if l.Line? && x in l.states && CanSend(sched, win.(conn := l.conn), x) {
      var wr := ConsumeHead(sched.queues[x], MAX_INT32, win.(conn := l.conn)).frame;
      AllWrittenWithin(r, Written(r, l.(conn := l.conn - wr.DataSize()), wr), Follows(l, wr));
    }
  }

  lemma {:induction false} LineUpWithin(r: Rules, l: Line, sched: Sched, win: Windows, order: seq<nat>, id: nat)
    requires SchedOk(sched) && WindowsFor(sched, win)
    ensures Within(l, LineUp(r, l, sched, win, order, id))
    decreases |order|
  {
    if l.Line? && order != [] && order[0] != id {
      TurnWithin(r, l, sched, win, order[0]);
      LineUpWithin(r, Turn(r, l, sched, win, order[0]), sched, win, order[1..], id);
    }
  }

  /** A smaller window of the connection lets no more be sent. */
  lemma CanSendLess(sched: Sched, win: Windows, conn: int, conn': int, id: nat)
    requires SchedOk(sched) && WindowsFor(sched, win) && conn <= conn' && CanSend(sched, win.(conn := conn), id)
    ensures CanSend(sched, win.(conn := conn'), id)
  {
  }

  lemma ArrivesCanSend(r: Rules, l: Line, control: seq<Request>, sched: Sched, win: Windows, id: nat)
    requires SchedOk(sched) && WindowsFor(sched, win) && Arrives(r, l, control, sched, win, id)
    ensures l.Line? && CanSend(sched, win.(conn := l.conn), id)
  {
    AllWrittenWithin(r, l, control);
    var l1 := AllWritten(r, l, control);
    LineUpWithin(r, l1, sched, win, sched.order, id);
    CanSendLess(sched, win, LineUp(r, l1, sched, win, sched.order, id).conn, l.conn, id);
  }

  /** One control frame more only takes bytes. */
  lemma {:induction false} AllWrittenOneMore(r: Rules, l: Line, q: seq<Request>, wr: Request)
    ensures AllWritten(r, l, q + [wr]) == Written(r, AllWritten(r, l, q), wr)
    decreases |q|
  {
    if q == [] {
      assert ([] + [wr])[1..] == [];
      assert AllWritten(r, Written(r, l, wr), []) == Written(r, l, wr);
    } else {
      assert (q + [wr])[1..] == q[1..] + [wr];
      AllWrittenOneMore(r, Written(r, l, q[0]), q[1..], wr);
    }
  }

  lemma ArrivesWithoutUpdate(r: Rules, l: Line, control: seq<Request>, wr: Request, sched: Sched, win: Windows, id: nat)
    requires SchedOk(sched) && WindowsFor(sched, win) && wr.write.WindowUpdate? && Arrives(r, l, control + [wr], sched, win, id)
    ensures Arrives(r, l, control, sched, win, id)
  {
    AllWrittenOneMore(r, l, control, wr);
    LineUpLe(r, AllWritten(r, l, control + [wr]), AllWritten(r, l, control), sched, win, sched.order, id);
  }

  // ----- What the line does not depend on

  /** The queue and the window of a stream are the same. */
  predicate SameAt(sched: Sched, win: Windows, sched': Sched, win': Windows, x: nat) {
    && win'.maxFrameSize == win.maxFrameSize && (x in sched.queues <==> x in sched'.queues)
    && (x in sched.queues && x in win.streams && x in win'.streams ==>
          sched'.queues[x] == sched.queues[x] && win'.streams[x] == win.streams[x])
  }

  lemma TurnSame(r: Rules, l: Line, sched: Sched, win: Windows, sched': Sched, win': Windows, x: nat)
    requires SchedOk(sched) && WindowsFor(sched, win) && SchedOk(sched') && WindowsFor(sched', win')
    requires SameAt(sched, win, sched', win', x)
    ensures Turn(r, l, sched', win', x) == Turn(r, l, sched, win, x)
  {
  }

  lemma {:induction false} LineUpSame(r: Rules, l: Line, sched: Sched, win: Windows, sched': Sched, win': Windows,
                                      order: seq<nat>, id: nat)
    requires SchedOk(sched) && WindowsFor(sched, win) && SchedOk(sched') && WindowsFor(sched', win')
    requires forall i :: 0 <= i < |order| && id !in order[..i + 1] ==> SameAt(sched, win, sched', win', order[i])
    ensures LineUp(r, l, sched', win', order, id) == LineUp(r, l, sched, win, order, id)
    decreases |order|
  {
    if l.Line? && order != [] && order[0] != id {
      assert order[..1] == [order[0]];
      TurnSame(r, l, sched, win, sched', win', order[0]);
      forall i | 0 <= i < |order[1..]| && id !in order[1..][..i + 1]
        ensures SameAt(sched, win, sched', win', order[1..][i])
      {
        assert order[..i + 2] == [order[0]] + order[1..][..i + 1];
      }
      LineUpSame(r, Turn(r, l, sched, win, order[0]), sched, win, sched', win', order[1..], id);
    }
  }

  /** What comes behind the stream does not matter. */
  lemma {:induction false} LineUpAppend(r: Rules, l: Line, sched: Sched, win: Windows, order: seq<nat>, more: seq<nat>, id: nat)
    requires SchedOk(sched) && WindowsFor(sched, win) && id in order
    ensures LineUp(r, l, sched, win, order + more, id) == LineUp(r, l, sched, win, order, id)
    decreases |order|
  {
    if l.Line? && order[0] != id {
      assert (order + more)[1..] == order[1..] + more;
      LineUpAppend(r, Turn(r, l, sched, win, order[0]), sched, win, order[1..], more, id);
    }
  }

  /** Streams that cannot send are passed over. */
  lemma {:induction false} LineUpSkips(r: Rules, l: Line, sched: Sched, win: Windows, order: seq<nat>, k: nat, id: nat)
    requires SchedOk(sched) && WindowsFor(sched, win) && l.Line? && k <= |order|
    requires forall i :: 0 <= i < k ==> order[i] != id && !CanSend(sched, win.(conn := l.conn), order[i])
    ensures LineUp(r, l, sched, win, order, id) == LineUp(r, l, sched, win, order[k..], id)
  {
    if k > 0 {
      assert order[1..][k - 1..] == order[k..];
      LineUpSkips(r, l, sched, win, order[1..], k - 1, id);
    } else {
      assert order[0..] == order;
    }
  }

  /** So are streams that have been closed, whether the scheduler knows or not. */
  lemma {:induction false} LineUpWithout(r: Rules, l: Line, sched: Sched, win: Windows, order: seq<nat>, x: nat, id: nat)
    requires SchedOk(sched) && WindowsFor(sched, win) && x != id && (l.Line? ==> x !in l.states)
    ensures LineUp(r, l, sched, win, Without(order, x), id) == LineUp(r, l, sched, win, order, id)
    decreases |order|
  {
    if l.Line? && order != [] && order[0] != id {
      TurnWithin(r, l, sched, win, order[0]);
      LineUpWithout(r, Turn(r, l, sched, win, order[0]), sched, win, order[1..], x, id);
    }
  }

  /** Nothing that matters for other streams changes when the scheduler closes one. */
  lemma OthersSame(sched: Sched, win: Windows, x: nat, y: nat)
    requires y != x
    ensures SameAt(sched, win, Close(sched, x), win.(streams := win.streams - {x}), y)
  {
  }

  lemma ClosedLineUp(r: Rules, l: Line, sched: Sched, win: Windows, x: nat, id: nat)
    requires SchedOk(sched) && WindowsFor(sched, win) && x != id && (l.Line? ==> x !in l.states)
    requires SchedOk(Close(sched, x)) && WindowsFor(Close(sched, x), win.(streams := win.streams - {x}))
    ensures LineUp(r, l, Close(sched, x), win.(streams := win.streams - {x}), Close(sched, x).order, id)
            == LineUp(r, l, sched, win, sched.order, id)
  {
    var order := Without(sched.order, x);
    forall i | 0 <= i < |order|
      ensures SameAt(sched, win, Close(sched, x), win.(streams := win.streams - {x}), order[i])
    {
      assert order[i] in order;
      OthersSame(sched, win, x, order[i]);
    }
    LineUpWithout(r, l, sched, win, sched.order, x, id);
    NotThere(sched.order, x);
    assert x !in sched.queues ==> x !in sched.order by {
      assert forall i :: 0 <= i < |sched.order| ==> sched.order[i] in sched.queues;
    }
    LineUpSame(r, l, sched, win, Close(sched, x), win.(streams := win.streams - {x}), order, id);
  }

  lemma {:induction false} NotThere(order: seq<nat>, x: nat)
    ensures x !in order ==> Without(order, x) == order
  {
    if order != [] {
      NotThere(order[1..], x);
    }
  }

  lemma ArrivesClosed(r: Rules, l: Line, control: seq<Request>, sched: Sched, win: Windows, x: nat, id: nat)
    requires SchedOk(sched) && WindowsFor(sched, win) && x != id && (l.Line? ==> x !in l.states)
    requires SchedOk(Close(sched, x)) && WindowsFor(Close(sched, x), win.(streams := win.streams - {x}))
    ensures Arrives(r, l, control, Close(sched, x), win.(streams := win.streams - {x}), id) <==> Arrives(r, l, control, sched, win, id)
  {
    AllWrittenWithin(r, l, control);
    var l' := LineUp(r, AllWritten(r, l, control), sched, win, sched.order, id);
    ClosedLineUp(r, AllWritten(r, l, control), sched, win, x, id);
    if l'.Line? {
      ClosedCanSend(sched, win.(conn := l'.conn), x, id);
    }
  }

  lemma ClosedCanSend(sched: Sched, win: Windows, x: nat, id: nat)
    requires SchedOk(sched) && WindowsFor(sched, win) && x != id
    requires SchedOk(Close(sched, x)) && WindowsFor(Close(sched, x), win.(streams := win.streams - {x}))
    ensures CanSend(Close(sched, x), win.(streams := win.streams - {x}), id) <==> CanSend(sched, win, id)
  {
  }
}
