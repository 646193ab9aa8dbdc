/** What the server announces when it closes a stream, by the receive windows: the panic in terms of
    the connection's own state, and the amounts in the run that reaches it. */
module ServerCredits {
  import opened Foundations
  import opened ServerConns
  import opened ServerEvents
  import opened ServerDrains
  import opened ServerLines
  import opened ServerPanics
  import opened ServerUnsafeRuns
  import FlowControls
  import ReceiveCredits

  /** The unread bytes and what was withheld are as much as a refresh, or as the peer has left. */
  predicate LetsOut(w: FlowControls.Window, unread: nat) {
    var owed := w.unsent + unread;
    owed > 0 && (owed >= FlowControls.MIN_REFRESH || owed >= w.avail)
  }

  lemma AnnouncesIff(w: FlowControls.Window, unread: nat)
    requires FlowControls.WindowOk(w)
    ensures FlowControls.Announced(w, unread) >= 0
    ensures FlowControls.Announced(w, unread) > 0 <==> LetsOut(w, unread)
  {
  }

  /** What closeStream decides, with a window w of the connection and so many unread bytes. */
  function AtClose(w: FlowControls.Window, unread: nat, shutdown: bool): Choice
    requires FlowControls.WindowOk(w)
  {
    AnnouncesIff(w, unread);
    Choice(FlowControls.Announced(w, unread), shutdown, 1)
  }

  /** Given the window of the connection, the unread bytes of the stream, and whether keep-alives are
      off, the server can panic after a message exactly if it reports a frame, written by another
      goroutine, that closes a stream, and the stream is closed already, or its credit is announced,
      no GOAWAY comes first, and the frames ahead of it fit the write buffer and leave its head
      sendable. */
  lemma PanicsByCredit(s: Conn, e: Event, w: FlowControls.Window, unread: nat, shutdown: bool)
    requires Safe(s) && Ready(s) && Possible(s, e) && FlowControls.WindowOk(w)
    ensures Safe(On(s, e)) && forall x :: x in s.out.sched.queues ==> Seen(s.table, x)
    ensures (exists pick :: Decides(s, e, pick, AtClose(w, unread, shutdown)) && Drain(On(s, e), pick).panic.Some?) <==>
              && e.WriteDone? && s.flags.inFlight.Some?
              && exists id: nat :: Closes(s.table, s.flags.inFlight.value, id) &&
                   (id !in s.table.streams
                    || (LetsOut(w, unread) && Overtakes(s, id, e.free, 1)
                        && !(s.table.streams.Keys == {id} && shutdown && !s.going.inGoAway)))
  {
    var c := AtClose(w, unread, shutdown);
    PanicsExactlyBy(s, e, c);
    AnnouncesIff(w, unread);
    if e.WriteDone? {
      forall id: nat
        ensures Overtakes(s, id, e.free, c.announce) <==> Overtakes(s, id, e.free, 1)
        ensures id in s.table.streams ==>
                  (RemoveStream(s.table, id).streams == map[] <==> s.table.streams.Keys == {id})
      {
        AnyUpdate(s, id, e.free, c.announce, 1);
        LastStream(s.table, id);
      }
    }
    hide Safe, Possible, Overtakes, Closes, On, Drain, Decides, RemoveStream;
  }

  lemma LastStream(t: Table, id: nat)
    ensures id in t.streams ==> (RemoveStream(t, id).streams == map[] <==> t.streams.Keys == {id})
  {
    var left := RemoveStream(t, id).streams;
    assert left.Keys == t.streams.Keys - {id};
    assert left == map[] <==> left.Keys == {};
  }

  // ----- The amounts in the run to the panic

  const R0 := ReceiveCredits.Initial(65535, 5000)
  const R1 := ReceiveCredits.WithNew(R0, R0.w, ReceiveCredits.NEW.(w := FlowControls.Window(5000, 0)))
  const R2 := ReceiveCredits.WithNew(
                R0, FlowControls.Window(60535, 256),
                ReceiveCredits.Upload(ReceiveCredits.Receiving, FlowControls.Window(256, 0),
                                      ReceiveCredits.Body(4744, 0, false, false), 0))
  const R3 := ReceiveCredits.WithNew(
                R0, FlowControls.Window(60535, 256),
                ReceiveCredits.Upload(ReceiveCredits.Ended, FlowControls.Window(256, 0),
                                      ReceiveCredits.Body(4744, 0, false, true), 0))

  /** A DATA frame of 5000 bytes, 256 of them padding, on a new stream. */
  lemma PaddedData()
    ensures ReceiveCredits.Next(R0, ReceiveCredits.Begin) == Some(R1)
    ensures ReceiveCredits.AfterData(R1, 0, 5000, 4744, true, None, false) == R2
  {
    NewStream();
    var w, u := R1.w, R1.uploads[0];
    assert FlowControls.DataOutcome(w, u.w, true, None, 5000, 4744, true).Buffered?;
    assert FlowControls.Exchanged(w, 5000, 256) == R2.w && FlowControls.Exchanged(u.w, 5000, 256) == R2.uploads[0].w;
    assert R1.uploads[0 := R2.uploads[0]] == R2.uploads;
    hide FlowControls.DataOutcome, FlowControls.Exchanged;
  }

  lemma NewStream()
    ensures R0.w == FlowControls.Window(65535, 0) && R0.initial == 5000 && R0.uploads == []
    ensures R1.uploads == [ReceiveCredits.NEW.(w := FlowControls.Window(5000, 0))] && |R2.uploads| == 1
  {
  }

  /** An empty DATA frame that ends the request. */
  lemma EmptyData()
    ensures ReceiveCredits.AfterData(R2, 0, 0, 0, true, None, true) == R3
  {
    assert R2.uploads[0 := R3.uploads[0]] == R3.uploads;
  }

  /** The run to the panic announces what the windows let out: of the padding, nothing for the
      connection and all for the stream, and at the close all that is unread or withheld. */
  lemma AmountsOfTheRun()
    ensures FlowControls.Announced(R1.w.(avail := R1.w.avail - 5000), 256) == LEAST.announce
    ensures FlowControls.Announced(R1.uploads[0].w.(avail := 0), 256) == PADDING.announce
    ensures FlowControls.Announced(R3.w, R3.uploads[0].body.Len()) == CREDIT.announce
    ensures AtClose(R3.w, R3.uploads[0].body.Len(), false) == CREDIT
  {
    assert R3.uploads == [R3.uploads[0]];
  }
}
