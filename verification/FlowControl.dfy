/** Flow control windows with 32-bit arithmetic: inflow, outflow, and what the server does to
    them for WINDOW_UPDATE, SETTINGS and DATA frames (h2_bundle.go). */
module FlowControls {
  import opened Foundations
  import opened WriteQueues

  // ----- Receive windows

  const MIN_REFRESH := 4096

  /** What the peer may send, and the credit not yet announced to it. */
  datatype Window = Window(avail: int, unsent: int)

  predicate WindowOk(w: Window) {
    0 <= w.avail && 0 <= w.unsent && w.avail + w.unsent <= MAX_INT32
  }

  /** Withheld credit is small: below the refresh size, and less than what the peer has left. */
  predicate Settled(w: Window) {
    w.unsent == 0 || (w.unsent < MIN_REFRESH && w.unsent < w.avail)
  }

  /** Crediting n bytes would make the window larger than the largest one. */
  predicate Overflows(w: Window, n: nat) {
    w.avail + w.unsent + n > MAX_INT32
  }

  function Added(w: Window, n: nat): Window {
    var unsent := w.unsent + n;
    if unsent < MIN_REFRESH && unsent < w.avail then w.(unsent := unsent) else Window(w.avail + unsent, 0)
  }

  /** The increment announced when n bytes are credited. */
  function Announced(w: Window, n: nat): int {
    var unsent := w.unsent + n;
    if unsent < MIN_REFRESH && unsent < w.avail then 0 else unsent
  }

  class Inflow {
    var avail: int
    var unsent: int

    ghost predicate Valid()
      reads this
    {
      WindowOk(View())
    }

    ghost function View(): Window
      reads this
    {
      Window(avail, unsent)
    }

    constructor (n: int)
      requires 0 <= n <= MAX_INT32
      ensures Valid() && View() == Window(n, 0)
    {
      avail, unsent := n, 0;
    }

    /** add; panicked stands for the "exceeds maximum window size" panic. */
    method Add(n: nat) returns (send: int, panicked: bool)
      requires Valid()
      modifies this
      ensures panicked <==> Overflows(old(View()), n)
      ensures panicked ==> View() == old(View()) && send == 0
      ensures !panicked ==> Valid() && View() == Added(old(View()), n) && send == Announced(old(View()), n) && Settled(View())
    {
      var sum := unsent + n;
      if sum + avail > MAX_INT32 {
        return 0, true;
      }
      unsent := sum;
      if unsent < MIN_REFRESH && unsent < avail {
        return 0, false;
      }
      avail := avail + unsent;
      unsent := 0;
      return sum, false;
    }

    /** take. */
    method Take(n: nat) returns (ok: bool)
      requires Valid()
      modifies this
      ensures Valid() && ok == (n <= old(avail))
      ensures View() == if ok then old(View()).(avail := old(avail) - n) else old(View())
    {
      if n > avail {
        return false;
      }
      avail := avail - n;
      return true;
    }
  }

  /** takeInflows. */
  method TakeInflows(f1: Inflow, f2: Inflow, n: nat) returns (ok: bool)
    requires f1 != f2 && f1.Valid() && f2.Valid()
    modifies f1`avail, f2`avail
    ensures f1.Valid() && f2.Valid() && ok == (n <= old(f1.avail) && n <= old(f2.avail))
    ensures f1.avail == old(f1.avail) - (if ok then n else 0) && f2.avail == old(f2.avail) - (if ok then n else 0)
  {
    if n > f1.avail || n > f2.avail {
      return false;
    }
    f1.avail := f1.avail - n;
    f2.avail := f2.avail - n;
    return true;
  }

  // ----- Every run of a receive window

  datatype Event = Credit(n: nat) | Receive(n: nat)

  /** The window next to what both sides know of it. */
  datatype Account = Account(w: Window, peer: int, credited: nat, taken: nat)

  function Step(a: Account, e: Event): Account {
    match e
    case Credit(n) =>
      Account(Added(a.w, n), a.peer + Announced(a.w, n), a.credited + n, a.taken)
    case Receive(n) =>
      if n <= a.w.avail then Account(a.w.(avail := a.w.avail - n), a.peer - n, a.credited, a.taken + n) else a
  }

  /** No step runs into the overflow panic. */
  predicate NoPanic(a: Account, es: seq<Event>)
    decreases |es|
  {
    es == [] ||
    ((es[0].Credit? ==> !Overflows(a.w, es[0].n)) && NoPanic(Step(a, es[0]), es[1..]))
  }

  function Steps(a: Account, es: seq<Event>): Account
    decreases |es|
  {
    if es == [] then a else Steps(Step(a, es[0]), es[1..])
  }

  /** The window is what the peer sees, and no credit is lost or made up. */
  predicate Balanced(a: Account, initial: int) {
    && WindowOk(a.w) && a.w.avail == a.peer
    && a.w.avail + a.w.unsent == initial + a.credited - a.taken
  }

  lemma {:induction false} AlwaysBalanced(a: Account, es: seq<Event>, initial: int)
    requires Balanced(a, initial) && NoPanic(a, es)
    ensures Balanced(Steps(a, es), initial)
    decreases |es|
  {
    if es != [] {
      AlwaysBalanced(Step(a, es[0]), es[1..], initial);
    }
  }

  /** Bytes that are credited only after they were received cannot run into the panic. */
  lemma {:induction false} NoPanicIfCreditedOnce(a: Account, es: seq<Event>, initial: int)
    requires Balanced(a, initial) && initial <= MAX_INT32 && CreditsReceived(a, es)
    ensures NoPanic(a, es)
    decreases |es|
  {
    if es != [] {
      NoPanicIfCreditedOnce(Step(a, es[0]), es[1..], initial);
    }
  }

  predicate CreditsReceived(a: Account, es: seq<Event>)
    decreases |es|
  {
    es == [] || ((es[0].Credit? ==> a.credited + es[0].n <= a.taken) && CreditsReceived(Step(a, es[0]), es[1..]))
  }

  // ----- DATA frames

  datatype DataResult = FlowError | Closed | TooMuch | Refused | Buffered | EmptyFrame

  /** What becomes of a DATA frame. `open` says that the stream can take data, `left` how much is
      left of the declared length if there is one, `accepts` whether the body still takes data.
      The length counts the padding. */
  function DataOutcome(conn: Window, st: Window, open: bool, left: Option<int>, length: nat, data: nat, accepts: bool): DataResult {
    if conn.avail < length then FlowError
    else if !open then Closed
    else if left.Some? && data > left.value then TooMuch
    else if length == 0 then EmptyFrame
    else if st.avail < length then FlowError
    else if data > 0 && !accepts then Refused
    else Buffered
  }

  /** n bytes taken, and k of them credited at once. */
  function Exchanged(w: Window, n: nat, k: nat): Window {
    Added(w.(avail := w.avail - n), k)
  }

  lemma ExchangedOk(w: Window, n: nat, k: nat)
    requires WindowOk(w) && k <= n <= w.avail
    ensures !Overflows(w.(avail := w.avail - n), k)
    ensures WindowOk(Exchanged(w, n, k)) && Settled(Exchanged(w, n, k))
    ensures Announced(w.(avail := w.avail - n), k) == Exchanged(w, n, k).avail - w.avail + n
    ensures Exchanged(w, n, k).avail + Exchanged(w, n, k).unsent == w.avail + w.unsent - n + k
  {
  }

  function ConnAfter(conn: Window, r: DataResult, length: nat, data: nat): Window
    requires data <= length
  {
    match r
    case FlowError | EmptyFrame => conn
    case Closed | TooMuch | Refused => Exchanged(conn, length, length)
    case Buffered => Exchanged(conn, length, length - data)
  }

  function StreamAfter(st: Window, r: DataResult, length: nat, data: nat): Window
    requires data <= length
  {
    match r
    case Refused => st.(avail := st.avail - length)
    case Buffered => Exchanged(st, length, length - data)
    case _ => st
  }

  /** Data nobody will read: its connection credit is taken and returned at once. */
  method Discard(conn: Inflow, length: nat) returns (ok: bool, connUpdate: int)
    requires conn.Valid()
    modifies conn
    ensures ok <==> length <= old(conn.avail)
    ensures conn.Valid() && conn.View() == if ok then Exchanged(old(conn.View()), length, length) else old(conn.View())
    ensures connUpdate == conn.avail - old(conn.avail) + (if ok then length else 0)
  {
    connUpdate := 0;
    ok := conn.Take(length);
    if ok {
      ExchangedOk(old(conn.View()), length, length);
      var panicked;
      connUpdate, panicked := conn.Add(length);
    }
  }

  /** Data for a body. */
  method Deliver(conn: Inflow, st: Inflow, length: nat, data: nat, accepts: bool)
    returns (result: DataResult, connUpdate: int, streamUpdate: int)
    requires conn != st && conn.Valid() && st.Valid() && data <= length && 0 < length
    modifies conn, st
    ensures result == DataOutcome(old(conn.View()), old(st.View()), true, None, length, data, accepts)
    ensures conn.Valid() && conn.View() == ConnAfter(old(conn.View()), result, length, data)
    ensures st.Valid() && st.View() == StreamAfter(old(st.View()), result, length, data)
    ensures connUpdate == conn.avail - old(conn.avail) + (if result.FlowError? then 0 else length)
    ensures streamUpdate == st.avail - old(st.avail) + (if result.Buffered? || result.Refused? then length else 0)
  {
    var ok := TakeInflows(conn, st, length);
    if !ok {
      return FlowError, 0, 0;
    }
    ExchangedOk(old(conn.View()), length, length);
    ExchangedOk(old(conn.View()), length, length - data);
    ExchangedOk(old(st.View()), length, length - data);
    hide Added, Announced, Settled, Overflows;
    var panicked;
    if data > 0 && !accepts {
      connUpdate, panicked := conn.Add(length);
      return Refused, connUpdate, 0;
    }
    connUpdate, panicked := conn.Add(length - data);
    streamUpdate, panicked := st.Add(length - data);
    result := Buffered;
  }

  /** What processData does to the windows; a body that does not accept data takes none of it. */
  method ReceiveData(conn: Inflow, st: Inflow, open: bool, left: Option<int>, length: nat, data: nat, accepts: bool)
    returns (result: DataResult, connUpdate: int, streamUpdate: int)
    requires conn != st && conn.Valid() && st.Valid() && data <= length
    modifies conn, st
    ensures result == DataOutcome(old(conn.View()), old(st.View()), open, left, length, data, accepts)
    ensures conn.Valid() && conn.View() == ConnAfter(old(conn.View()), result, length, data)
    ensures st.Valid() && st.View() == StreamAfter(old(st.View()), result, length, data)
    ensures connUpdate == conn.avail - old(conn.avail) + (if result.FlowError? then 0 else length)
    ensures streamUpdate == st.avail - old(st.avail) + (if result.Buffered? || result.Refused? then length else 0)
  {
    hide Added;
    if !open || (left.Some? && data > left.value) {
      var ok;
      ok, connUpdate := Discard(conn, length);
      return if !ok then FlowError else if open then TooMuch else Closed, connUpdate, 0;
    }
    if length == 0 {
      return EmptyFrame, 0, 0;
    }
    result, connUpdate, streamUpdate := Deliver(conn, st, length, data, accepts);
  }

  /** No frame makes withheld credit large. */
  lemma StaysSettled(conn: Window, st: Window, open: bool, left: Option<int>, length: nat, data: nat, accepts: bool)
    requires WindowOk(conn) && Settled(conn) && data <= length
    ensures Settled(ConnAfter(conn, DataOutcome(conn, st, open, left, length, data, accepts), length, data))
  {
    if length <= conn.avail {
      ExchangedOk(conn, length, length);
      ExchangedOk(conn, length, length - data);
    }
  }

  /** A peer that has no window left is owed nothing: withheld credit never stalls it. */
  lemma NeverStalled(w: Window)
    requires WindowOk(w) && Settled(w)
    ensures w.avail == 0 ==> w.unsent == 0
    ensures w.avail + w.unsent > 0 ==> w.avail > 0 && 2 * w.avail > w.avail + w.unsent
  {
  }

  // ----- Send windows

  class Outflow {
    var n: int
    const conn: Outflow?

    constructor (n: int, conn: Outflow?)
      requires Int32(n)
      ensures this.n == n && this.conn == conn
    {
      this.n, this.conn := n, conn;
    }

    /** available. */
    function Available(): (a: int)
      reads this, conn
      ensures a <= n && (conn != null ==> a <= conn.n)
      ensures a == n || (conn != null && a == conn.n)
    {
      if conn != null && conn.n < n then conn.n else n
    }

    /** take; panicked stands for the "took too much" panic. */
    method Take(k: int) returns (panicked: bool)
      requires conn != this
      modifies this, conn
      ensures panicked <==> k > old(n) || (conn != null && k > old(conn.n))
      ensures n == old(n) - (if panicked then 0 else k)
      ensures conn != null ==> conn.n == old(conn.n) - (if panicked then 0 else k)
    {
      if k > Available() {
        return true;
      }
      panicked := false;
      n := n - k;
      if conn != null {
        conn.n := conn.n - k;
      }
    }

    /** add: the test on the wrapped sum rejects exactly the sums that do not fit. */
    method Add(k: int) returns (ok: bool)
      requires Int32(n) && Int32(k)
      modifies this`n
      ensures ok <==> Int32(old(n) + k)
      ensures n == if ok then old(n) + k else old(n)
    {
      var sum := Wrap32(n + k);
      if (sum > k) == (n > 0) {
        n := sum;
        return true;
      }
      return false;
    }
  }

  /** processSettingInitialWindowSize, on the windows of the streams. */
  method AdjustStreams(streams: map<nat, int>, growth: int) returns (ok: bool, streams': map<nat, int>)
    requires Int32(growth) && forall id :: id in streams ==> Int32(streams[id])
    ensures ok <==> forall id :: id in streams ==> Int32(streams[id] + growth)
    ensures streams'.Keys == streams.Keys
    ensures ok ==> forall id :: id in streams ==> streams'[id] == streams[id] + growth
    ensures forall id :: id in streams ==> streams'[id] == streams[id] || streams'[id] == streams[id] + growth
  {
    var rest := streams.Keys;
    streams' := streams;
    while rest != {}
      invariant rest <= streams.Keys == streams'.Keys
      invariant forall id :: id in rest ==> streams'[id] == streams[id]
      invariant forall id :: id in streams && id !in rest ==>
                  streams'[id] == streams[id] + growth && Int32(streams[id] + growth)
      decreases |rest|
    {
      var id :| id in rest;
      var flow := new Outflow(streams'[id], null);
      var added := flow.Add(growth);
      if !added {
        return false, streams';
      }
      streams' := streams'[id := flow.n];
      rest := rest - {id};
    }
    return true, streams';
  }

  // ----- Every run of the send windows

  const INITIAL_WINDOW := 65535

  /** The windows, the initial window of new streams, and what was granted and sent. */
  datatype Ledger = Ledger(win: Windows, initial: int, connGranted: nat, connSent: nat,
                           granted: map<nat, nat>, sent: map<nat, nat>)

  datatype SendEvent =
    | OpenStream(id: nat)
    | CloseStream(id: nat)
    | ConnUpdate(n: nat)
    | StreamUpdate(id: nat, n: nat)
    | InitialWindow(val: nat)
    | FrameSize(max: nat)
    | Send(frame: Request)

  /** What the peer and the schedulers can do: increments and settings in their ranges, and
      frames that fit the windows. */
  predicate Possible(l: Ledger, e: SendEvent) {
    match e
    case OpenStream(id) => id !in l.win.streams
    case ConnUpdate(n) => n <= MAX_INT32
    case StreamUpdate(id, n) => n <= MAX_INT32
    case InitialWindow(val) => val <= MAX_INT32
    case Send(frame) => frame.DataSize() > 0 ==>
      frame.stream.Some? && frame.stream.value in l.win.streams && frame.DataSize() <= Available(l.win, frame.stream.value)
    case _ => true
  }

  /** A new initial window moves every stream window by the difference. */
  function Shifted(l: Ledger, val: nat): (r: Option<Ledger>)
    requires LedgerOk(l) && val <= MAX_INT32
    ensures r.Some? ==> LedgerOk(r.value)
  {
    if exists id :: id in l.win.streams && !Int32(l.win.streams[id] + (val - l.initial)) then None
    else Some(l.(win := l.win.(streams := map id | id in l.win.streams :: l.win.streams[id] + (val - l.initial)), initial := val))
  }

  /** The next state, or None when the connection ends with a flow control error. */
  function Next(l: Ledger, e: SendEvent): (r: Option<Ledger>)
    requires Possible(l, e) && LedgerOk(l)
    ensures r.Some? ==> LedgerOk(r.value)
  {
    match e
    case OpenStream(id) =>
      Some(l.(win := l.win.(streams := l.win.streams[id := l.initial]), granted := l.granted[id := 0], sent := l.sent[id := 0]))
    case CloseStream(id) =>
      Some(l.(win := l.win.(streams := l.win.streams - {id}), granted := l.granted - {id}, sent := l.sent - {id}))
    case ConnUpdate(n) =>
      if !Int32(l.win.conn + n) then None
      else Some(l.(win := l.win.(conn := l.win.conn + n), connGranted := l.connGranted + n))
    case StreamUpdate(id, n) =>
      if id !in l.win.streams || !Int32(l.win.streams[id] + n) then Some(l)
      else Some(l.(win := l.win.(streams := l.win.streams[id := l.win.streams[id] + n]), granted := l.granted[id := l.granted[id] + n]))
    case InitialWindow(val) => Shifted(l, val)
    case FrameSize(max) => Some(l.(win := l.win.(maxFrameSize := max)))
    case Send(frame) =>
      if frame.DataSize() == 0 then Some(l)
      else
        var id, k := frame.stream.value, frame.DataSize();
        Some(l.(win := Take(l.win, id, k), connSent := l.connSent + k, sent := l.sent[id := l.sent[id] + k]))
  }

  /** Windows are exactly credit less bytes sent; the connection window is not negative and a
      stream window, which a smaller initial window may push below zero, is bounded below. */
  predicate LedgerOk(l: Ledger) {
    && 0 <= l.initial <= MAX_INT32
    && l.win.conn == INITIAL_WINDOW + l.connGranted - l.connSent && 0 <= l.win.conn <= MAX_INT32
    && l.win.streams.Keys == l.granted.Keys == l.sent.Keys
    && forall id :: id in l.win.streams ==>
         && l.win.streams[id] == l.initial + l.granted[id] - l.sent[id]
         && l.initial - MAX_INT32 <= l.win.streams[id] <= MAX_INT32
  }

  /** In a legal state no sum can be too small, so an update is rejected exactly if the window
      would exceed the largest one. */
  lemma RejectedExactly(l: Ledger, id: nat, n: nat, val: nat)
    requires LedgerOk(l) && n <= MAX_INT32 && val <= MAX_INT32
    ensures Int32(l.win.conn + n) <==> l.win.conn + n <= MAX_INT32
    ensures id in l.win.streams ==> (Int32(l.win.streams[id] + n) <==> l.win.streams[id] + n <= MAX_INT32)
    ensures id in l.win.streams ==>
              (Int32(l.win.streams[id] + (val - l.initial)) <==> l.win.streams[id] + (val - l.initial) <= MAX_INT32)
  {
  }

  /** A frame with data is sent only within the credit of its stream at that moment. */
  lemma WithinStreamCredit(l: Ledger, frame: Request)
    requires LedgerOk(l) && Possible(l, Send(frame)) && frame.DataSize() > 0
    ensures var id, l' := frame.stream.value, Next(l, Send(frame)).value;
            && l'.sent[id] == l.sent[id] + frame.DataSize() <= l.initial + l.granted[id]
            && l'.connSent == l.connSent + frame.DataSize() <= INITIAL_WINDOW + l.connGranted
  {
  }

  /** The events of a run, as long as no error ends it. */
  predicate PossibleRun(l: Ledger, es: seq<SendEvent>)
    requires LedgerOk(l)
    decreases |es|
  {
    es == [] || (Possible(l, es[0]) && Next(l, es[0]).Some? && PossibleRun(Next(l, es[0]).value, es[1..]))
  }

  function RunTo(l: Ledger, es: seq<SendEvent>): (l': Ledger)
    requires LedgerOk(l) && PossibleRun(l, es)
    ensures LedgerOk(l')
    decreases |es|
  {
    if es == [] then l else RunTo(Next(l, es[0]).value, es[1..])
  }

  function BytesSent(es: seq<SendEvent>): nat {
    if es == [] then 0 else (if es[0].Send? then es[0].frame.DataSize() else 0) + BytesSent(es[1..])
  }

  function BytesGranted(es: seq<SendEvent>): nat {
    if es == [] then 0 else (if es[0].ConnUpdate? then es[0].n else 0) + BytesGranted(es[1..])
  }

  /** Over every run that no error ends, the bytes of the DATA frames sent are no more than the
      initial connection window and the updates received. */
  lemma {:induction false} NeverOverspent(l: Ledger, es: seq<SendEvent>)
    requires LedgerOk(l) && PossibleRun(l, es)
    ensures var l' := RunTo(l, es);
            && l'.connSent == l.connSent + BytesSent(es) && l'.connGranted == l.connGranted + BytesGranted(es)
            && l.connSent + BytesSent(es) <= INITIAL_WINDOW + l.connGranted + BytesGranted(es)
    decreases |es|
  {
    if es != [] {
      NeverOverspent(Next(l, es[0]).value, es[1..]);
    }
  }

  /** What the schedulers pop can be sent. */
  lemma SpentIsPossible(l: Ledger, win': Windows, frame: Request)
    requires LedgerOk(l) && Spent(l.win, win', frame)
    ensures Possible(l, Send(frame)) && Next(l, Send(frame)).value.win == win'
  {
  }
}
