/** Receive credit from end to end: DATA frames, the bodies they fill, the handlers that read them
    and the closing of streams, over every run (h2_bundle.go). */
module ReceiveCredits {
  import opened Foundations
  import opened FlowControls

  /** The pipe of a request body: bytes still to be read, bytes counted when the handler closed it,
      and which of its two errors are set. */
  datatype Body = Body(buffered: nat, unread: nat, broken: bool, failed: bool) {
    /** Len. */
    function Len(): nat {
      buffered + unread
    }
  }

  datatype Phase = Receiving | Ended | Gone

  /** A stream with a body; `noted` are bytes its handler has read and the server loop has not
      heard of. The handler keeps the body when the stream is gone. */
  datatype Upload = Upload(phase: Phase, w: Window, body: Body, noted: nat)

  datatype Receiver = Receiver(w: Window, initial: nat, uploads: seq<Upload>)

  datatype UploadEvent =
    | Begin
    | Arrive(i: nat, length: nat, data: nat, open: bool, left: Option<int>, last: bool)
    | Fail(i: nat)
    | Break(i: nat)
    | Read(i: nat, n: nat)
    | Report(i: nat, n: nat)
    | Finish(i: nat)

  /** What can happen: streams that exist, handlers that read what is there, reports of what was read. */
  predicate Possible(r: Receiver, e: UploadEvent) {
    && (!e.Begin? ==> e.i < |r.uploads|)
    && match e
       case Arrive(i, length, data, open, _, _) => data <= length && (open ==> r.uploads[i].phase == Receiving)
       case Read(i, n) => n <= r.uploads[i].body.buffered
       case Report(i, n) => n <= r.uploads[i].noted
       case Finish(i) => r.uploads[i].phase != Gone
       case _ => true
  }

  /** Write and endStream, after the windows have been dealt with. */
  function Filled(u: Upload, result: DataResult, data: nat, last: bool): Upload {
    var body := match result
      case Buffered => u.body.(buffered := u.body.buffered + data)
      case TooMuch => u.body.(failed := true)
      case _ => u.body;
    if last && (result.Buffered? || result.EmptyFrame?) then u.(body := body.(failed := true), phase := Ended) else u.(body := body)
  }

  /** processData. */
  function AfterData(r: Receiver, i: nat, length: nat, data: nat, open: bool, left: Option<int>, last: bool): Receiver
    requires i < |r.uploads| && data <= length
  {
    var u := r.uploads[i];
    var result := DataOutcome(r.w, u.w, open, left, length, data, !u.body.failed && !u.body.broken);
    r.(w := ConnAfter(r.w, result, length, data),
       uploads := r.uploads[i := Filled(u.(w := StreamAfter(u.w, result, length, data)), result, data, last)])
  }

  /** The next state, or None for the panic of a window that grows too large. */
  function Next(r: Receiver, e: UploadEvent): Option<Receiver>
    requires Possible(r, e)
  {
    match e
    case Begin =>
      Some(r.(uploads := r.uploads + [Upload(Receiving, Window(r.initial, 0), Body(0, 0, false, false), 0)]))
    case Arrive(i, length, data, open, left, last) =>
      Some(AfterData(r, i, length, data, open, left, last))
    case Fail(i) =>
      Some(With(r, i, r.uploads[i].(body := r.uploads[i].body.(failed := true))))
    case Break(i) =>
      var body := r.uploads[i].body;
      Some(With(r, i, r.uploads[i].(body := Body(0, body.unread + body.buffered, true, body.failed))))
    case Read(i, n) =>
      var u := r.uploads[i];
      Some(With(r, i, u.(body := u.body.(buffered := u.body.buffered - n), noted := u.noted + n)))
    case Report(i, n) =>
      var u := r.uploads[i];
      if Overflows(r.w, n) || (u.phase == Receiving && Overflows(u.w, n)) then None
      else
        var w := if u.phase == Receiving then Added(u.w, n) else u.w;
        Some(With(r, i, u.(w := w, noted := u.noted - n)).(w := Added(r.w, n)))
    case Finish(i) =>
      var u := r.uploads[i];
      if Overflows(r.w, u.body.Len()) then None
      else Some(With(r, i, u.(phase := Gone, body := u.body.(failed := true))).(w := Added(r.w, u.body.Len())))
  }

  function With(r: Receiver, i: nat, u: Upload): Receiver
    requires i < |r.uploads|
  {
    r.(uploads := r.uploads[i := u])
  }

  // ----- What is owed

  /** Connection credit that a stream will still give back. */
  function Owed(u: Upload): nat {
    (if u.phase == Gone then 0 else u.body.Len()) + u.noted
  }

  function OwedBy(us: seq<Upload>): nat {
    if us == [] then 0 else Owed(us[0]) + OwedBy(us[1..])
  }

  /** All the connection credit there is: announced, withheld and owed. */
  function Total(r: Receiver): int {
    r.w.avail + r.w.unsent + OwedBy(r.uploads)
  }

  lemma {:induction false} OwedUpdate(us: seq<Upload>, i: nat, u: Upload)
    requires i < |us|
    ensures OwedBy(us[i := u]) == OwedBy(us) - Owed(us[i]) + Owed(u)
    ensures OwedBy(us) >= Owed(us[i])
  {
    if i == 0 {
      assert us[i := u][1..] == us[1..];
    } else {
      assert us[i := u][1..] == us[1..][i - 1 := u];
      OwedUpdate(us[1..], i - 1, u);
    }
  }

  lemma {:induction false} OwedAppend(us: seq<Upload>, u: Upload)
    ensures OwedBy(us + [u]) == OwedBy(us) + Owed(u)
  {
    if us != [] {
      assert (us + [u])[1..] == us[1..] + [u];
      OwedAppend(us[1..], u);
    }
  }

  // ----- One event

  /** A stream owes itself no more than its initial window, and a closed pipe holds no bytes. */
  predicate UploadOk(u: Upload, initial: nat) {
    && WindowOk(u.w)
    && (if u.body.broken then u.body.buffered == 0 else u.body.unread == 0)
    && (u.phase == Receiving ==> u.w.avail + u.w.unsent + u.body.Len() + u.noted <= initial)
  }

  predicate ReceiverOk(r: Receiver) {
    && WindowOk(r.w) && Settled(r.w) && r.initial <= MAX_INT32
    && forall i :: 0 <= i < |r.uploads| ==> UploadOk(r.uploads[i], r.initial)
  }

  /** Bytes that a handler reads from a stream that is gone. */
  function LateBytes(r: Receiver, e: UploadEvent): nat
    requires Possible(r, e)
  {
    if e.Read? && r.uploads[e.i].phase == Gone then e.n else 0
  }

  /** An event that changes one stream and the connection window. */
  lemma OneChanged(r: Receiver, r': Receiver, i: nat)
    requires ReceiverOk(r) && i < |r.uploads| == |r'.uploads| && r'.uploads == r.uploads[i := r'.uploads[i]]
    requires r'.initial == r.initial && UploadOk(r'.uploads[i], r.initial) && WindowOk(r'.w) && Settled(r'.w)
    ensures ReceiverOk(r') && Owed(r.uploads[i]) <= OwedBy(r.uploads)
    ensures Total(r') - r'.w.avail - r'.w.unsent - Owed(r'.uploads[i]) == Total(r) - r.w.avail - r.w.unsent - Owed(r.uploads[i])
  {
    OwedUpdate(r.uploads, i, r'.uploads[i]);
    hide Settled, UploadOk, WindowOk, Owed, OwedBy;
  }

  /** Every event keeps the total but for late bytes, which are credited twice; the only panic is
      that of the connection window, and it needs a total above the largest window. */
  lemma NextOk(r: Receiver, e: UploadEvent)
    requires ReceiverOk(r) && Possible(r, e)
    ensures Next(r, e).None? ==> Total(r) > MAX_INT32
    ensures Next(r, e).Some? ==> ReceiverOk(Next(r, e).value) && Total(Next(r, e).value) == Total(r) + LateBytes(r, e)
  {
    if e.Begin? {
      BeginOk(r);
    } else if Next(r, e).Some? {
      UploadAfter(r, e);
      assert Next(r, e).value.uploads == r.uploads[e.i := Next(r, e).value.uploads[e.i]];
      hide Next, ReceiverOk, Total, LateBytes, UploadOk, WindowOk, Settled, Owed;
      OneChanged(r, Next(r, e).value, e.i);
      TotalAfter(r, Next(r, e).value, r.uploads[e.i], Next(r, e).value.uploads[e.i], LateBytes(r, e));
    } else {
      PanicNeeds(r, e);
    }
  }

  lemma TotalAfter(r: Receiver, r': Receiver, u: Upload, u': Upload, late: nat)
    requires Total(r') - r'.w.avail - r'.w.unsent - Owed(u') == Total(r) - r.w.avail - r.w.unsent - Owed(u)
    requires r'.w.avail + r'.w.unsent + Owed(u') == r.w.avail + r.w.unsent + Owed(u) + late
    ensures Total(r') == Total(r) + late
  {
    hide Total, Owed;
  }

  lemma BeginOk(r: Receiver)
    requires ReceiverOk(r)
    ensures ReceiverOk(Next(r, Begin).value) && Total(Next(r, Begin).value) == Total(r)
  {
    OwedAppend(r.uploads, Upload(Receiving, Window(r.initial, 0), Body(0, 0, false, false), 0));
  }

  lemma PanicNeeds(r: Receiver, e: UploadEvent)
    requires ReceiverOk(r) && Possible(r, e) && Next(r, e).None?
    ensures Total(r) > MAX_INT32
  {
    assert UploadOk(r.uploads[e.i], r.initial);
    OwedUpdate(r.uploads, e.i, r.uploads[e.i]);
  }

  /** What an event does to its stream and to the connection window. */
  lemma UploadAfter(r: Receiver, e: UploadEvent)
    requires ReceiverOk(r) && Possible(r, e) && !e.Begin? && Next(r, e).Some?
    ensures var r', u := Next(r, e).value, r.uploads[e.i];
            && |r'.uploads| == |r.uploads|
            && var u' := r'.uploads[e.i];
            && UploadOk(u', r.initial) && WindowOk(r'.w) && Settled(r'.w) && r'.initial == r.initial
            && r'.w.avail + r'.w.unsent + Owed(u') == r.w.avail + r.w.unsent + Owed(u) + LateBytes(r, e)
  {
    assert UploadOk(r.uploads[e.i], r.initial);
    if e.Arrive? {
      UploadAfterData(r, e.i, e.length, e.data, e.open, e.left, e.last);
    }
  }

  lemma UploadAfterData(r: Receiver, i: nat, length: nat, data: nat, open: bool, left: Option<int>, last: bool)
    requires ReceiverOk(r) && Possible(r, Arrive(i, length, data, open, left, last))
    ensures var r', u := AfterData(r, i, length, data, open, left, last), r.uploads[i];
            var u' := r'.uploads[i];
            && UploadOk(u', r.initial) && WindowOk(r'.w) && Settled(r'.w)
            && r'.w.avail + r'.w.unsent + Owed(u') == r.w.avail + r.w.unsent + Owed(u)
  {
    var u := r.uploads[i];
    var accepts := !u.body.failed && !u.body.broken;
    assert UploadOk(u, r.initial);
    StaysSettled(r.w, u.w, open, left, length, data, accepts);
    WindowsAfter(r.w, u.w, open, left, length, data, accepts);
    hide Settled, DataOutcome, ConnAfter, StreamAfter, ReceiverOk;
  }

  /** What a DATA frame takes from the two windows for good. */
  lemma WindowsAfter(conn: Window, st: Window, open: bool, left: Option<int>, length: nat, data: nat, accepts: bool)
    requires WindowOk(conn) && WindowOk(st) && data <= length
    ensures var result := DataOutcome(conn, st, open, left, length, data, accepts);
            var conn', st' := ConnAfter(conn, result, length, data), StreamAfter(st, result, length, data);
            && WindowOk(conn') && WindowOk(st')
            && conn'.avail + conn'.unsent == conn.avail + conn.unsent - (if result.Buffered? then data else 0)
            && st'.avail + st'.unsent <= st.avail + st.unsent - (if result.Buffered? then data else 0)
            && (result.Buffered? ==> data == 0 || accepts) && (result.Buffered? || result.EmptyFrame? ==> open)
  {
    if length <= conn.avail {
      ExchangedOk(conn, length, length);
      ExchangedOk(conn, length, length - data);
    }
    if length <= st.avail {
      ExchangedOk(st, length, length - data);
    }
  }

  // ----- Every run

  predicate PossibleRun(r: Receiver, es: seq<UploadEvent>)
    decreases |es|
  {
    es == [] || (Possible(r, es[0]) && (Next(r, es[0]).Some? ==> PossibleRun(Next(r, es[0]).value, es[1..])))
  }

  /** The state after a run, or None if it ends with the panic. */
  function RunTo(r: Receiver, es: seq<UploadEvent>): Option<Receiver>
    requires PossibleRun(r, es)
    decreases |es|
  {
    if es == [] then Some(r) else if Next(r, es[0]).None? then None else RunTo(Next(r, es[0]).value, es[1..])
  }

  function LateOver(r: Receiver, es: seq<UploadEvent>): nat
    requires PossibleRun(r, es)
    decreases |es|
  {
    if es == [] then 0
    else LateBytes(r, es[0]) + if Next(r, es[0]).None? then 0 else LateOver(Next(r, es[0]).value, es[1..])
  }

  function Initial(conn: nat, initial: nat): (r: Receiver)
    requires conn <= MAX_INT32 && initial <= MAX_INT32
    ensures ReceiverOk(r) && Total(r) == conn
  {
    Receiver(Window(conn, 0), initial, [])
  }

  /** Over every run the credit of the connection is conserved exactly if no handler reads from a
      stream that is gone: what is read there comes back twice. */
  lemma {:induction false} CreditConserved(r: Receiver, es: seq<UploadEvent>)
    requires ReceiverOk(r) && PossibleRun(r, es)
    ensures RunTo(r, es).Some? ==> ReceiverOk(RunTo(r, es).value) && Total(RunTo(r, es).value) == Total(r) + LateOver(r, es)
    ensures RunTo(r, es).None? ==> Total(r) + LateOver(r, es) > MAX_INT32
    decreases |es|
  {
    if es != [] {
      NextOk(r, es[0]);
      if Next(r, es[0]).Some? {
        CreditConserved(Next(r, es[0]).value, es[1..]);
      }
    }
  }

  /** When every stream is gone and every read reported, the peer has its initial window back,
      less what is withheld, exactly if there were no late bytes. */
  lemma AllReturned(conn: nat, initial: nat, es: seq<UploadEvent>)
    requires conn <= MAX_INT32 && initial <= MAX_INT32 && PossibleRun(Initial(conn, initial), es)
    requires RunTo(Initial(conn, initial), es).Some?
    requires forall u :: u in RunTo(Initial(conn, initial), es).value.uploads ==> u.phase == Gone && u.noted == 0
    ensures var r := RunTo(Initial(conn, initial), es).value;
            (r.w.avail + r.w.unsent == conn <==> LateOver(Initial(conn, initial), es) == 0)
  {
    CreditConserved(Initial(conn, initial), es);
    NothingOwed(RunTo(Initial(conn, initial), es).value.uploads);
  }

  lemma {:induction false} NothingOwed(us: seq<Upload>)
    requires forall u :: u in us ==> u.phase == Gone && u.noted == 0
    ensures OwedBy(us) == 0
  {
    if us != [] {
      NothingOwed(us[1..]);
    }
  }

  // ----- The panic

  lemma RunCons(r: Receiver, e: UploadEvent, es: seq<UploadEvent>)
    requires Possible(r, e) && (Next(r, e).Some? ==> PossibleRun(Next(r, e).value, es))
    ensures PossibleRun(r, [e] + es)
    ensures RunTo(r, [e] + es) == if Next(r, e).None? then None else RunTo(Next(r, e).value, es)
  {
    assert ([e] + es)[1..] == es;
  }

  lemma {:induction false} RunAppend(r: Receiver, es: seq<UploadEvent>, more: seq<UploadEvent>)
    requires PossibleRun(r, es) && RunTo(r, es).Some? && PossibleRun(RunTo(r, es).value, more)
    ensures PossibleRun(r, es + more) && RunTo(r, es + more) == RunTo(RunTo(r, es).value, more)
    decreases |es|
  {
    if es == [] {
      assert es + more == more;
    } else {
      RunAppend(Next(r, es[0]).value, es[1..], more);
      RunCons(r, es[0], es[1..] + more);
      assert es + more == [es[0]] + (es[1..] + more);
    }
  }

  /** No stream has anything left, and there is credit to send with. */
  predicate Idle(r: Receiver) {
    ReceiverOk(r) && 1 <= r.initial && 1 <= r.w.avail + r.w.unsent && OwedBy(r.uploads) == 0
  }

  /** A stream that is gone, with one byte left to read. */
  predicate Leftover(r: Receiver) {
    && ReceiverOk(r) && r.uploads != [] && OwedBy(r.uploads) == 0 && 1 <= r.initial
    && var u := r.uploads[|r.uploads| - 1]; u.phase == Gone && u.noted == 0 && u.body.buffered == 1
  }

  /** A stream receives one byte and is closed. */
  function Abandoned(i: nat): seq<UploadEvent> {
    [Begin, Arrive(i, 1, 1, true, None, false), Finish(i)]
  }

  lemma Abandon(r: Receiver)
    requires Idle(r)
    ensures var es := Abandoned(|r.uploads|);
            && PossibleRun(r, es) && RunTo(r, es).Some?
            && var r' := RunTo(r, es).value;
               Leftover(r') && r'.initial == r.initial && |r'.uploads| == |r.uploads| + 1 && r'.w.avail + r'.w.unsent == r.w.avail + r.w.unsent
  {
    var i := |r.uploads|;
    var es := Abandoned(i);
    var r1, r2 := WithNew(r, r.w, NEW.(w := Window(r.initial, 0))), OneByte(r);
    var r3 := WithNew(r, Added(r2.w, 1), Upload(Gone, r2.uploads[i].w, Body(1, 0, false, true), 0));
    NextOk(r, es[0]);
    ByteArrives(r);
    NextOk(r1, es[1]);
    NextOk(r2, es[2]);
    OwedAppend(r.uploads, r3.uploads[i]);
    assert r2.uploads[i := r3.uploads[i]] == r3.uploads;
    assert Next(r2, es[2]) == Some(r3);
    hide ReceiverOk, Settled, AfterData, Next;
    RunCons(r2, es[2], []);
    RunCons(r1, es[1], [es[2]]);
    assert [es[1]] + [es[2]] == [es[1], es[2]];
    RunCons(r, es[0], [es[1], es[2]]);
    assert es == [es[0]] + [es[1], es[2]];
  }

  const NEW := Upload(Receiving, Window(0, 0), Body(0, 0, false, false), 0)

  function WithNew(r: Receiver, w: Window, u: Upload): Receiver {
    Receiver(w, r.initial, r.uploads + [u])
  }

  /** One byte has come on a new stream. */
  function OneByte(r: Receiver): Receiver {
    WithNew(r, Exchanged(r.w, 1, 0), NEW.(w := Exchanged(Window(r.initial, 0), 1, 0), body := Body(1, 0, false, false)))
  }

  lemma ByteArrives(r: Receiver)
    requires Idle(r)
    ensures var r1, e := WithNew(r, r.w, NEW.(w := Window(r.initial, 0))), Arrive(|r.uploads|, 1, 1, true, None, false);
            Possible(r1, e) && Next(r1, e) == Some(OneByte(r)) && OneByte(r).w.avail + OneByte(r).w.unsent == r.w.avail + r.w.unsent - 1
  {
    ExchangedOk(r.w, 1, 0);
    var u1 := NEW.(w := Window(r.initial, 0));
    assert (r.uploads + [u1])[|r.uploads| := OneByte(r).uploads[|r.uploads|]] == OneByte(r).uploads;
  }

  lemma ReadLate(r: Receiver)
    requires Leftover(r)
    ensures var es := [Read(|r.uploads| - 1, 1), Report(|r.uploads| - 1, 1)];
            && PossibleRun(r, es)
            && (RunTo(r, es).Some? <==> r.w.avail + r.w.unsent < MAX_INT32)
            && (RunTo(r, es).Some? ==>
                  var r' := RunTo(r, es).value; Idle(r') && r'.w.avail + r'.w.unsent == r.w.avail + r.w.unsent + 1)
  {
    var i := |r.uploads| - 1;
    var es := [Read(i, 1), Report(i, 1)];
    NextOk(r, es[0]);
    var r1 := Next(r, es[0]).value;
    NextOk(r1, es[1]);
    RunCons(r1, es[1], []);
    RunCons(r, es[0], [es[1]]);
    assert es == [es[0]] + [es[1]];
  }

  /** However small the initial windows are, enough late bytes end in the panic. */
  lemma {:induction false} LateReadsPanic(r: Receiver) returns (es: seq<UploadEvent>)
    requires Idle(r)
    ensures PossibleRun(r, es) && RunTo(r, es).None?
    decreases MAX_INT32 - r.w.avail - r.w.unsent
  {
    Abandon(r);
    var first := Abandoned(|r.uploads|);
    var r1 := RunTo(r, first).value;
    ReadLate(r1);
    var late := [Read(|r1.uploads| - 1, 1), Report(|r1.uploads| - 1, 1)];
    var rest := [];
    if RunTo(r1, late).Some? {
      rest := LateReadsPanic(RunTo(r1, late).value);
      RunAppend(r1, late, rest);
      late := late + rest;
    }
    es := first + late;
    RunAppend(r, first, late);
  }
}
