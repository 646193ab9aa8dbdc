/** What each message asks of the server, in the numbers of RFC 7540, and that this is what the
    server then has to do (h2_bundle.go, processFrame and the cases of serve). */
module ServerAnswers {
  import opened Foundations
  import opened WriteQueues
  import opened ServerConns
  import opened ServerEvents
  import Frames

  // ----- What is due

  /** What the server still has to do: frames to answer with, window updates to consider, streams to
      end or close, the connection to leave, pushes to stop. */
  datatype Due =
    | PingAnswer
    | StreamReset(id: nat, code: nat)
    | Sending(wr: Request)
    | Leaving(code: nat)
    | ConnCredit
    | StreamCredit(id: nat)
    | BodyCredit(id: nat)
    | Ending(id: nat)
    | Closing(id: nat)
    | NoPush

  /** The frames that answer something. */
  /** One if the due is this, else none. */
  function One(x: Due, d: Due): nat {
    if x == d then 1 else 0
  }

  predicate IsAnswer(w: Writer) {
    w.PingAck? || w.StreamError?
  }

  function Answer(w: Writer, d: Due): nat {
    match w
    case PingAck => One(PingAnswer, d)
    case StreamError(id, code) => One(StreamReset(id, code), d)
    case _ => 0
  }

  function DueOf(k: Task, d: Due): nat {
    match k
    case Write(wr) => if IsAnswer(wr.write) then Answer(wr.write, d) else One(Sending(wr), d)
    case Reset(id, code) => One(StreamReset(id, code), d)
    case GoAwayNow(code) => One(Leaving(code), d)
    case ConnUpdate => One(ConnCredit, d)
    case StreamUpdate(id) => One(StreamCredit(id), d)
    case AfterBodyRead(id) => One(BodyCredit(id), d)
    case EndStream(id) => One(Ending(id), d)
    case CloseNow(id) => One(Closing(id), d)
    case DisablePush => One(NoPush, d)
    case _ => 0
  }

  function DueTasks(ts: seq<Task>, d: Due): nat {
    if ts == [] then 0 else DueOf(ts[0], d) + DueTasks(ts[1..], d)
  }

  // ----- Which frames are heard

  predicate FromClient(e: Event) {
    || e.ReadHeaders? || e.ReadData? || e.ReadReset? || e.ReadWindowUpdate? || e.ReadPriority? || e.ReadPushPromise?
    || e.ReadSettings? || e.ReadSettingsAck? || e.ReadPing? || e.ReadGoAway?
  }

  /** The stream of a frame; 0 for the connection. */
  function IdOf(e: Event): nat {
    if e.ReadHeaders? || e.ReadData? || e.ReadReset? || e.ReadWindowUpdate? || e.ReadPriority? || e.ReadPushPromise? then e.id else 0
  }

  /** A frame before the first SETTINGS. */
  predicate Early(s: Conn, e: Event) {
    FromClient(e) && !s.peer.sawFirstSettings && !e.ReadSettings? && !e.ReadSettingsAck?
  }

  /** A frame after the connection ended with an error, or for a stream above the last that counts. */
  predicate Late(s: Conn, e: Event) {
    s.going.inGoAway && (s.going.code != 0 || IdOf(e) > s.table.maxClient)
  }

  predicate Heard(s: Conn, e: Event) {
    FromClient(e) && !Early(s, e) && !Late(s, e)
  }

  // ----- Streams

  predicate Known(s: Conn, e: Event) {
    IdOf(e) in s.table.streams
  }

  /** The stream was never opened, and could be. */
  predicate NeverSeen(s: Conn, e: Event) {
    !Known(s, e) && if IdOf(e) % 2 == 1 then IdOf(e) > s.table.maxClient else IdOf(e) > s.table.maxPush
  }

  /** HEADERS of a new request. */
  predicate NewRequest(s: Conn, e: Event) {
    e.ReadHeaders? && Heard(s, e) && e.id % 2 == 1 && !Known(s, e) && e.id > s.table.maxClient
  }

  predicate Opens(s: Conn, e: Event) {
    NewRequest(s, e) && s.table.clients < s.table.advMaxStreams
  }

  /** HEADERS after those of the request. */
  predicate MoreHeaders(s: Conn, e: Event) {
    e.ReadHeaders? && Heard(s, e) && e.id % 2 == 1 && Known(s, e) && !s.table.streams[e.id].resetQueued
  }

  predicate Trailers(s: Conn, e: Event) {
    MoreHeaders(s, e) && s.table.streams[e.id].state != HalfClosedRemote && !s.table.streams[e.id].gotTrailer
  }

  /** DATA that is counted against the windows: on a stream there is or was, or late. */
  predicate Counted(s: Conn, e: Event) {
    e.ReadData? && !Early(s, e) && (Late(s, e) || (e.id != 0 && !NeverSeen(s, e)))
  }

  /** The stream takes DATA. */
  predicate Receives(s: Conn, e: Event) {
    && Known(s, e) && s.table.streams[IdOf(e)].state == Open
    && !s.table.streams[IdOf(e)].gotTrailer && !s.table.streams[IdOf(e)].resetQueued
  }

  predicate Accepted(s: Conn, e: Event) {
    e.ReadData? && Heard(s, e) && e.id != 0 && e.fits && Receives(s, e) && !e.tooMuch && !e.refused
  }

  /** A window update that is added to a window. */
  predicate Grants(s: Conn, e: Event) {
    && e.ReadWindowUpdate? && Heard(s, e)
    && if e.id == 0 then s.out.win.conn + e.n <= 0x7fff_ffff
       else Known(s, e) && e.id in s.out.win.streams && s.out.win.streams[e.id] + e.n <= 0x7fff_ffff
  }

  // ----- Settings

  predicate Repeats(settings: seq<Frames.Setting>) {
    exists i, j :: 0 <= i < j < |settings| && settings[i].id == settings[j].id
  }

  /** The code for which a setting is refused: a switch that is neither 0 nor 1, a frame size out of
      bounds, a window that is too large or makes one of a stream too large. */
  predicate Wrong(initial: int, streams: map<nat, int>, x: Frames.Setting, code: nat) {
    || (code == 1 && x.id == 2 && x.val >= 2)
    || (code == 1 && x.id == 5 && !(0x4000 <= x.val <= 0xff_ffff))
    || (code == 3 && x.id == 4 && (x.val > 0x7fff_ffff || exists id :: id in streams && streams[id] + x.val - initial > 0x7fff_ffff))
  }

  /** The first setting that is wrong gives the code. */
  ghost predicate FirstWrong(initial: int, streams: map<nat, int>, settings: seq<Frames.Setting>, code: nat) {
    exists i :: && 0 <= i < |settings| && Wrong(initial, streams, settings[i], code)
                && forall j :: 0 <= j < i ==> !Wrong(initial, streams, settings[j], 1) && !Wrong(initial, streams, settings[j], 3)
  }

  ghost predicate Refuses(s: Conn, e: Event, code: nat) {
    && e.ReadSettings? && Heard(s, e)
    && if |e.settings| > 100 || Repeats(e.settings) then code == 1
       else FirstWrong(s.peer.initialWindow, s.out.win.streams, e.settings, code)
  }

  ghost predicate Agrees(s: Conn, e: Event) {
    e.ReadSettings? && Heard(s, e) && !Refuses(s, e, 1) && !Refuses(s, e, 3)
  }

  // ----- Errors

  /** PROTOCOL_ERROR for the connection. */
  ghost predicate Misused(s: Conn, e: Event) {
    || Early(s, e)
    || (Heard(s, e)
        && (|| (e.ReadHeaders? && e.id % 2 == 0)
            || (e.ReadHeaders? && !Known(s, e) && e.id <= s.table.maxClient)
            || (MoreHeaders(s, e) && s.table.streams[e.id].state != HalfClosedRemote && s.table.streams[e.id].gotTrailer)
            || (e.ReadData? && (e.id == 0 || NeverSeen(s, e)))
            || ((e.ReadReset? || e.ReadWindowUpdate?) && NeverSeen(s, e))
            || (e.ReadSettingsAck? && !e.expected) || e.ReadPushPromise? || Refuses(s, e, 1)))
  }

  /** The code of a connection error: PROTOCOL_ERROR, FLOW_CONTROL_ERROR, FRAME_SIZE_ERROR or
      ENHANCE_YOUR_CALM. */
  ghost function Fatal(s: Conn, e: Event): Option<nat> {
    if Misused(s, e) then Some(1)
    else if Refuses(s, e, 3) || (e.ReadWindowUpdate? && Heard(s, e) && e.id == 0 && !Grants(s, e)) then Some(3)
    else if e.ReadTooLarge? then Some(6)
    else if Opens(s, e) && !e.bad && e.busy then Some(11)
    else None
  }

  /** Stream errors: PROTOCOL_ERROR, FLOW_CONTROL_ERROR, STREAM_CLOSED and REFUSED_STREAM. */
  predicate Faulty(s: Conn, e: Event) {
    || (Trailers(s, e) && (!e.ended || e.bad))
    || (NewRequest(s, e) && !Opens(s, e) && !e.refused)
    || (Opens(s, e) && e.bad)
    || (e.ReadData? && Heard(s, e) && e.id != 0 && e.fits && Receives(s, e) && e.tooMuch)
    || (e.ReadPriority? && Heard(s, e) && e.self)
  }

  predicate Overflows(s: Conn, e: Event) {
    || (Counted(s, e) && !e.fits)
    || (e.ReadWindowUpdate? && Heard(s, e) && e.id != 0 && Known(s, e) && e.id in s.out.win.streams && !Grants(s, e))
  }

  predicate OnEnded(s: Conn, e: Event) {
    || (MoreHeaders(s, e) && s.table.streams[e.id].state == HalfClosedRemote)
    || (Counted(s, e) && !Late(s, e) && e.fits && !Receives(s, e) && !(Known(s, e) && s.table.streams[e.id].resetQueued))
  }

  function If(b: bool, x: Due, d: Due): nat {
    if b && x == d then 1 else 0
  }

  /** RST_STREAM for a frame. */
  function Resets(s: Conn, e: Event, d: Due): nat {
    if Faulty(s, e) then One(StreamReset(IdOf(e), 1), d)
    else if Overflows(s, e) then One(StreamReset(IdOf(e), 3), d)
    else if OnEnded(s, e) then One(StreamReset(IdOf(e), 5), d)
    else if NewRequest(s, e) && !Opens(s, e) then One(StreamReset(IdOf(e), 7), d)
    else 0
  }

  ghost function Leaves(s: Conn, e: Event, d: Due): nat {
    if Fatal(s, e).Some? then One(Leaving(Fatal(s, e).value), d) else 0
  }

  /** All that a message asks for. */
  ghost function Asks(s: Conn, e: Event, d: Due): nat {
    match e
    case ReadHeaders(id, ended, bad, _, _) => Leaves(s, e, d) + Resets(s, e, d) + If(Trailers(s, e) && ended && !bad, Ending(id), d)
    case ReadData(id, fits, _, _, ended) =>
      Leaves(s, e, d) + Resets(s, e, d) + If(Counted(s, e) && fits, ConnCredit, d)
      + If(Accepted(s, e), StreamCredit(id), d) + If(Accepted(s, e) && ended, Ending(id), d)
    case ReadReset(id) => Leaves(s, e, d) + If(Heard(s, e) && Known(s, e), Closing(id), d)
    case ReadPing => Leaves(s, e, d) + If(Heard(s, e), PingAnswer, d)
    case ReadGoAway => Leaves(s, e, d) + If(Heard(s, e), NoPush, d) + If(Heard(s, e), Leaving(0), d)
    case ReadBadStream(id, code) => One(StreamReset(id, code), d)
    case HandlerWrites(wr) =>
      One(if wr.write.StreamError? then StreamReset(wr.write.streamID, wr.write.code) else Sending(wr), d)
    case HandlerPushes(parent) =>
      If(s.peer.pushEnabled && parent in s.table.streams && s.table.streams[parent].state in {Open, HalfClosedRemote},
         Sending(Request(PushPromise, Some(parent), None)), d)
    case HandlerRead(id) => One(ConnCredit, d) + One(BodyCredit(id), d)
    case WriteDone(_) => 0
    case Shutdown => One(Leaving(0), d)
    case _ => Leaves(s, e, d) + Resets(s, e, d)
  }

  /** Between messages: no call is left, and every stream has a window between these bounds. */
  ghost predicate Settled(s: Conn) {
    && Ready(s) && (forall x :: x in s.out.sched.queues ==> Seen(s.table, x))
    && (forall id :: id in s.table.streams ==> id in s.out.win.streams && Seen(s.table, id) && s.table.streams[id].state != Idle && s.table.streams[id].state != Closed && id != 0)
    && ((s.going.inGoAway && s.going.code != 0) || WindowsIn(s.peer.initialWindow, s.out.win))
  }

  predicate WindowsIn(initial: int, win: Windows) {
    && 0 <= initial <= 0x7fff_ffff && 0 <= win.conn <= 0x7fff_ffff && win.maxFrameSize > 0
    && forall id :: id in win.streams ==> initial - 0x7fff_ffff <= win.streams[id] <= 0x7fff_ffff
  }

  // ----- Settings that are applied

  lemma FirstFine(peer: Peer, win: Windows, x: Frames.Setting, reached: set<nat>)
    requires WindowsIn(peer.initialWindow, win)
    ensures var r := ApplySetting(peer, win, x, reached);
            match r.error
            case Some(code) => Wrong(peer.initialWindow, win.streams, x, code) && (code == 1 || code == 3)
            case None =>
              && !Wrong(peer.initialWindow, win.streams, x, 1) && !Wrong(peer.initialWindow, win.streams, x, 3)
              && WindowsIn(r.peer.initialWindow, r.win) && OneApplied(peer, win, x, r)
  {
  }

  /** What one setting that is all right leaves. */
  ghost predicate OneApplied(peer: Peer, win: Windows, x: Frames.Setting, r: Applied)
    requires r.win.streams.Keys == win.streams.Keys
  {
    && r.peer.initialWindow == (if x.id == 4 then x.val else peer.initialWindow)
    && r.peer.maxStreams == (if x.id == 3 then x.val else peer.maxStreams)
    && r.peer.pushEnabled == (if x.id == 2 then x.val == 1 else peer.pushEnabled)
    && r.peer.sawFirstSettings == peer.sawFirstSettings
    && r.win.maxFrameSize == (if x.id == 5 then x.val else win.maxFrameSize) && r.win.conn == win.conn
    && forall id :: id in win.streams ==> r.win.streams[id] == win.streams[id] + r.peer.initialWindow - peer.initialWindow
  }

  function Value(settings: seq<Frames.Setting>, id: nat, before: int): int {
    var v := Frames.ValueOf(settings, id);
    if v.Some? then v.value else before
  }

  /** What settings that are all right leave. */
  ghost predicate AllApplied(peer: Peer, win: Windows, settings: seq<Frames.Setting>, r: Applied) {
    && r.win.streams.Keys == win.streams.Keys && r.peer.initialWindow == Value(settings, 4, peer.initialWindow)
    && r.peer.maxStreams == Value(settings, 3, peer.maxStreams)
    && r.peer.pushEnabled == (Value(settings, 2, if peer.pushEnabled then 1 else 0) == 1)
    && r.peer.sawFirstSettings == peer.sawFirstSettings
    && r.win.maxFrameSize == Value(settings, 5, win.maxFrameSize) && r.win.conn == win.conn
    && forall id :: id in win.streams ==> r.win.streams[id] == win.streams[id] + r.peer.initialWindow - peer.initialWindow
  }

  lemma AbsentValue(settings: seq<Frames.Setting>, id: nat)
    requires forall j :: 0 <= j < |settings| ==> settings[j].id != id
    ensures Frames.ValueOf(settings, id) == None
  {
  }

  /** The settings are applied in order, up to the first that is wrong. */
  lemma {:induction false} SettingsApplied(peer: Peer, win: Windows, settings: seq<Frames.Setting>, reached: set<nat>)
    requires WindowsIn(peer.initialWindow, win) && !Duplicates(settings)
    ensures var r := ApplySettings(peer, win, settings, reached);
            if r.error.Some? then
              && FirstWrong(peer.initialWindow, win.streams, settings, r.error.value) && (r.error.value == 1 || r.error.value == 3)
            else
              && WindowsIn(r.peer.initialWindow, r.win) && AllApplied(peer, win, settings, r)
              && !FirstWrong(peer.initialWindow, win.streams, settings, 1) && !FirstWrong(peer.initialWindow, win.streams, settings, 3)
    decreases |settings|
  {
    if settings != [] {
      var x, rest := settings[0], settings[1..];
      var r1 := ApplySetting(peer, win, x, reached);
      FirstFine(peer, win, x, reached);
      OthersDiffer(settings);
      if r1.error.None? {
        SettingsApplied(r1.peer, r1.win, rest, reached);
        LaterWrong(peer, win, settings, r1);
        var r := ApplySettings(r1.peer, r1.win, rest, reached);
        if r.error.None? {
          LaterApplied(peer, win, settings, r1, r);
        }
        hide ApplySetting, FirstWrong, AllApplied;
      }
    }
  }

  lemma OthersDiffer(settings: seq<Frames.Setting>)
    requires settings != [] && !Duplicates(settings)
    ensures !Duplicates(settings[1..]) && forall j :: 0 <= j < |settings[1..]| ==> settings[1..][j].id != settings[0].id
  {
    var rest := settings[1..];
    forall i, j | 0 <= i < j < |rest|
      ensures rest[i].id != rest[j].id
    {
      assert settings[i + 1].id != settings[j + 1].id;
    }
  }

  lemma LaterApplied(peer: Peer, win: Windows, settings: seq<Frames.Setting>, r1: Applied, r: Applied)
    requires WindowsIn(peer.initialWindow, win) && WindowsIn(r1.peer.initialWindow, r1.win)
    requires settings != [] && forall j :: 0 <= j < |settings[1..]| ==> settings[1..][j].id != settings[0].id
    requires r1.win.streams.Keys == win.streams.Keys
    requires OneApplied(peer, win, settings[0], r1) && AllApplied(r1.peer, r1.win, settings[1..], r)
    ensures AllApplied(peer, win, settings, r)
  {
    AbsentValue(settings[1..], settings[0].id);
    assert Frames.ValueOf(settings, 2) == if settings[0].id == 2 then Some(settings[0].val) else Frames.ValueOf(settings[1..], 2);
    assert Frames.ValueOf(settings, 3) == if settings[0].id == 3 then Some(settings[0].val) else Frames.ValueOf(settings[1..], 3);
    assert Frames.ValueOf(settings, 4) == if settings[0].id == 4 then Some(settings[0].val) else Frames.ValueOf(settings[1..], 4);
    assert Frames.ValueOf(settings, 5) == if settings[0].id == 5 then Some(settings[0].val) else Frames.ValueOf(settings[1..], 5);
    hide Frames.ValueOf;
  }

  lemma LaterWrong(peer: Peer, win: Windows, settings: seq<Frames.Setting>, r1: Applied)
    requires settings != [] && forall j :: 0 <= j < |settings[1..]| ==> settings[0].id != settings[1..][j].id
    requires r1.win.streams.Keys == win.streams.Keys
    requires settings[0].id != 4 ==> r1.win.streams == win.streams && r1.peer.initialWindow == peer.initialWindow
    requires !Wrong(peer.initialWindow, win.streams, settings[0], 1) && !Wrong(peer.initialWindow, win.streams, settings[0], 3)
    ensures forall code ::
              FirstWrong(peer.initialWindow, win.streams, settings, code) <==>
              FirstWrong(r1.peer.initialWindow, r1.win.streams, settings[1..], code)
  {
  }

  // ----- What the server has to do after a message

  /** The table: a new request opens a stream, trailers are noted, and a connection error counts its
      stream among those that were seen. */
  ghost function TableAfter(s: Conn, e: Event): Table {
    var id, t := IdOf(e), s.table;
    var seen := (FromClient(e) && Fatal(s, e).Some?) || NewRequest(s, e);
    var t1 := t.(maxClient := if seen && id > t.maxClient then id else t.maxClient);
    if Opens(s, e) then
      t1.(streams := t.streams[id := Stream(if e.ended then HalfClosedRemote else Open, false, false, false)],
          clients := t.clients + 1, created := t.created + {id})
    else if Trailers(s, e) then t1.(streams := t.streams[id := t.streams[id].(gotTrailer := true)])
    else t1
  }

  /** The windows and the queues: a new stream has the window that the client announced, grants are
      added, and settings that are all right are applied. */
  ghost predicate OutAfter(s: Conn, e: Event, o: Output) {
    var id, w := IdOf(e), s.out.win;
    && o.sched.control == s.out.sched.control && o.closing == s.out.closing && o.queuedControlFrames == s.out.queuedControlFrames
    && o.sched.queues == (if Opens(s, e) then s.out.sched.queues[id := []] else s.out.sched.queues)
    && o.sched.order == (if Opens(s, e) then s.out.sched.order + [id] else s.out.sched.order)
    && if Opens(s, e) then o.win == w.(streams := w.streams[id := s.peer.initialWindow])
       else if Grants(s, e) && id == 0 then o.win == w.(conn := w.conn + e.n)
       else if Grants(s, e) then o.win == w.(streams := w.streams[id := w.streams[id] + e.n])
       else if e.ReadSettings? && Heard(s, e) then o.win.conn == w.conn && o.win.streams.Keys == w.streams.Keys
       else o.win == w
  }

  ghost predicate PeerAfter(s: Conn, e: Event, s': Conn) {
    && s'.peer.sawFirstSettings == (s.peer.sawFirstSettings || e.ReadSettings? || e.ReadSettingsAck?)
    && (!(e.ReadSettings? && Heard(s, e)) ==> s'.peer == s.peer.(sawFirstSettings := s'.peer.sawFirstSettings))
    && (Agrees(s, e) ==>
          && AllApplied(s.peer.(sawFirstSettings := true), s.out.win, e.settings, Applied(s'.peer, s'.out.win, None))
          && WindowsIn(s'.peer.initialWindow, s'.out.win))
  }

  /** What holds after a message, besides what the server then has to do. */
  ghost predicate StateAfter(s: Conn, e: Event, s': Conn) {
    && s'.table == TableAfter(s, e) && OutAfter(s, e, s'.out) && PeerAfter(s, e, s')
    && s'.needToSendSettingsAck == (s.needToSendSettingsAck || Agrees(s, e)) && s'.going == s.going
  }

  lemma DueFew(a: Task, b: Task, c: Task, d: Due)
    ensures DueTasks([], d) == 0 && DueTasks([a], d) == DueOf(a, d) && DueTasks([a, b], d) == DueOf(a, d) + DueOf(b, d)
    ensures DueTasks([a, b, c], d) == DueOf(a, d) + DueOf(b, d) + DueOf(c, d)
  {
    hide DueOf;
    assert [a, b, c][1..] == [b, c] && [b, c][1..] == [c] && [a, b][1..] == [b] && [c][1..] == [];
    assert DueTasks([b, c], d) == DueOf(b, d) + DueTasks([c], d);
  }

  lemma DueOne(a: Task, d: Due)
    ensures DueTasks([], d) == 0 && DueTasks([a], d) == DueOf(a, d)
  {
    DueFew(a, a, a, d);
  }

  ghost predicate Answered(s: Conn, e: Event, s': Conn, d: Due) {
    DueTasks(s'.outer, d) == Asks(s, e, d) && StateAfter(s, e, s')
  }

  lemma OnlySettings(s: Conn, e: Event)
    requires !e.ReadSettings?
    ensures !Refuses(s, e, 1) && !Refuses(s, e, 3) && !Agrees(s, e)
  {
  }

  lemma Unheard(s: Conn, e: Event)
    requires !Heard(s, e)
    ensures !Opens(s, e) && !Trailers(s, e) && !Grants(s, e) && !NewRequest(s, e) && !Agrees(s, e) && !MoreHeaders(s, e)
    ensures !(e.ReadSettings? && Early(s, e)) && !Faulty(s, e) && !Accepted(s, e) && !Refuses(s, e, 3) && (Misused(s, e) <==> Early(s, e))
    ensures Overflows(s, e) <==> Counted(s, e) && !e.fits
    ensures !OnEnded(s, e)
  {
  }

  lemma EarlyAsks(s: Conn, e: Event, d: Due)
    requires Early(s, e)
    ensures Fatal(s, e) == Some(1) && Asks(s, e, d) == One(Leaving(1), d)
  {
    Unheard(s, e);
    hide Opens, Trailers, Grants, NewRequest, Refuses, Faulty, Accepted, MoreHeaders, OnEnded, Overflows, Misused, Heard;
  }

  /** A message that changes neither streams nor windows. */
  predicate Changeless(s: Conn, e: Event) {
    !Opens(s, e) && !Trailers(s, e) && !Grants(s, e) && !NewRequest(s, e) && !(e.ReadSettings? && Heard(s, e))
  }

  predicate Unchanged(s: Conn, s': Conn) {
    && s'.out == s.out && s'.going == s.going && s'.needToSendSettingsAck == s.needToSendSettingsAck
    && s'.peer == s.peer.(sawFirstSettings := s'.peer.sawFirstSettings)
  }

  lemma ChangelessAfter(s: Conn, e: Event, s': Conn)
    requires Changeless(s, e) && Unchanged(s, s')
    requires s'.peer.sawFirstSettings == (s.peer.sawFirstSettings || e.ReadSettings? || e.ReadSettingsAck?)
    requires FromClient(e) && Fatal(s, e).Some? && IdOf(e) > s.table.maxClient ==> s'.table == s.table.(maxClient := IdOf(e))
    requires !(FromClient(e) && Fatal(s, e).Some? && IdOf(e) > s.table.maxClient) ==> s'.table == s.table
    ensures StateAfter(s, e, s')
  {
    assert !Agrees(s, e);
    hide Opens, Trailers, Grants, NewRequest, Agrees, Fatal, Heard, AllApplied;
  }

  /** The state in which a frame is processed. */
  function Met(s: Conn, e: Event): Conn {
    s.(peer := s.peer.(sawFirstSettings := s.peer.sawFirstSettings || e.ReadSettings? || e.ReadSettingsAck?))
  }

  lemma FatalAnswered(s: Conn, e: Event, code: nat, d: Due)
    requires Changeless(s, e) && FromClient(e) && Fatal(s, e) == Some(code) && Asks(s, e, d) == One(Leaving(code), d)
    ensures Answered(s, e, ConnError(Met(s, e), IdOf(e), code), d)
  {
    hide StateAfter, Asks, Fatal, FromClient, Changeless;
    DueFew(GoAwayNow(code), Schedule, Schedule, d);
    ChangelessAfter(s, e, ConnError(Met(s, e), IdOf(e), code));
  }

  lemma TasksAnswered(s: Conn, e: Event, ts: seq<Task>, d: Due)
    requires Changeless(s, e) && (FromClient(e) ==> Fatal(s, e) == None) && Asks(s, e, d) == DueTasks(ts, d)
    ensures Answered(s, e, Met(s, e).(outer := ts), d)
  {
    hide StateAfter, Asks, Fatal, FromClient, Changeless;
    ChangelessAfter(s, e, Met(s, e).(outer := ts));
  }

  // ----- Frames that are not heard

  lemma EarlyOn(s: Conn, e: Event)
    requires Early(s, e) && forall x :: x in s.out.sched.queues ==> Seen(s.table, x)
    ensures On(s, e) == ConnError(Met(s, e), IdOf(e), 1)
  {
    hide OnFrame, ConnError;
  }

  lemma EarlyAnswered(s: Conn, e: Event, d: Due)
    requires Settled(s) && Early(s, e)
    ensures Answered(s, e, On(s, e), d)
  {
    EarlyAsks(s, e, d);
    EarlyOn(s, e);
    Unheard(s, e);
    hide *;
    FatalAnswered(s, e, 1, d);
  }

  function LateTasks(e: Event): seq<Task> {
    if e.ReadData? then [if e.fits then ConnUpdate else Reset(e.id, 3)] else []
  }

  lemma LateAsks(s: Conn, e: Event, d: Due)
    requires FromClient(e) && !Early(s, e) && Late(s, e)
    ensures Changeless(s, e) && Fatal(s, e) == None
    ensures Asks(s, e, d) == if e.ReadData? then One(if e.fits then ConnCredit else StreamReset(e.id, 3), d) else 0
  {
    Unheard(s, e);
    hide Opens, Trailers, Grants, NewRequest, Refuses, Faulty, Accepted, MoreHeaders, OnEnded, Overflows, Misused;
  }

  lemma LateDue(e: Event, d: Due)
    ensures DueTasks(LateTasks(e), d) == if e.ReadData? then One(if e.fits then ConnCredit else StreamReset(e.id, 3), d) else 0
  {
    DueOne(if e.ReadData? && !e.fits then Reset(e.id, 3) else ConnUpdate, d);
  }

  lemma LateOn(s: Conn, e: Event)
    requires FromClient(e) && !Early(s, e) && Late(s, e) && Ready(s) && forall x :: x in s.out.sched.queues ==> Seen(s.table, x)
    ensures On(s, e) == Met(s, e).(outer := LateTasks(e))
  {
    hide OnFrame;
  }

  lemma LateAnswered(s: Conn, e: Event, d: Due)
    requires Settled(s) && FromClient(e) && !Early(s, e) && Late(s, e)
    ensures Answered(s, e, On(s, e), d)
  {
    LateAsks(s, e, d);
    LateDue(e, d);
    LateOn(s, e);
    hide *;
    TasksAnswered(s, e, LateTasks(e), d);
  }

  // ----- Frames that are heard

  lemma HeardOn(s: Conn, e: Event)
    requires Heard(s, e) && Ready(s) && forall x :: x in s.out.sched.queues ==> Seen(s.table, x)
    ensures On(s, e) == OnFrame(Met(s, e), e)
  {
    hide OnFrame;
  }

  /** The queues are those of streams that were seen. */
  ghost predicate AllSeen(s: Conn) {
    forall x :: x in s.out.sched.queues ==> Seen(s.table, x)
  }

  lemma HeadersFatal(s: Conn, e: Event, d: Due)
    requires e.ReadHeaders? && Misused(s, e) && Heard(s, e) && AllSeen(s)
    ensures Changeless(s, e) && Fatal(s, e) == Some(1) && Asks(s, e, d) == One(Leaving(1), d)
    ensures OnFrame(Met(s, e), e) == ConnError(Met(s, e), IdOf(e), 1)
  {
    OnlySettings(s, e);
    hide Refuses, Agrees;
  }

  /** HEADERS on a stream that is ended or about to be reset. */
  function PastTasks(s: Conn, e: Event): seq<Task>
    requires Known(s, e)
  {
    if s.table.streams[IdOf(e)].resetQueued then [] else [Reset(IdOf(e), 5)]
  }

  lemma HeadersPast(s: Conn, e: Event, d: Due)
    requires e.ReadHeaders? && Heard(s, e) && !Misused(s, e) && Known(s, e) && !Trailers(s, e) && Ready(s) && AllSeen(s)
    ensures Changeless(s, e) && Fatal(s, e) == None
    ensures Asks(s, e, d) == if s.table.streams[e.id].resetQueued then 0 else One(StreamReset(e.id, 5), d)
    ensures OnFrame(Met(s, e), e) == Met(s, e).(outer := PastTasks(s, e))
  {
    OnlySettings(s, e);
    hide Refuses, Agrees;
  }

  function TrailersTasks(e: Event): seq<Task>
    requires e.ReadHeaders?
  {
    [if e.ended && !e.bad then EndStream(e.id) else Reset(e.id, 1)]
  }

  lemma TrailersAsks(s: Conn, e: Event, d: Due)
    requires Trailers(s, e)
    ensures !Opens(s, e) && !Grants(s, e) && !NewRequest(s, e) && !Agrees(s, e) && Fatal(s, e) == None
    ensures Asks(s, e, d) == One(if e.ended && !e.bad then Ending(e.id) else StreamReset(e.id, 1), d)
  {
    OnlySettings(s, e);
    hide Refuses, Agrees;
  }

  lemma TrailersOn(s: Conn, e: Event)
    requires Trailers(s, e) && AllSeen(s)
    ensures OnFrame(Met(s, e), e)
         == Met(s, e).(table := s.table.(streams := s.table.streams[e.id := s.table.streams[e.id].(gotTrailer := true)]),
                       outer := TrailersTasks(e))
  {
  }

  lemma TrailersAfter(s: Conn, e: Event, s': Conn)
    requires Trailers(s, e) && !Opens(s, e) && !Grants(s, e) && !NewRequest(s, e) && !Agrees(s, e) && Fatal(s, e) == None
    requires s' == Met(s, e).(table := s.table.(streams := s.table.streams[e.id := s.table.streams[e.id].(gotTrailer := true)]),
                              outer := TrailersTasks(e))
    ensures StateAfter(s, e, s')
  {
    hide Opens, Grants, NewRequest, Agrees, Fatal, Heard, AllApplied;
  }

  lemma TrailersAnswered(s: Conn, e: Event, d: Due)
    requires Trailers(s, e) && AllSeen(s)
    ensures Answered(s, e, OnFrame(Met(s, e), e), d)
  {
    TrailersAsks(s, e, d);
    DueOne(TrailersTasks(e)[0], d);
    TrailersOn(s, e);
    TrailersAfter(s, e, OnFrame(Met(s, e), e));
    hide Asks, DueTasks, StateAfter, OnFrame;
  }

  function RequestTasks(s: Conn, e: Event): seq<Task>
    requires e.ReadHeaders?
  {
    if !Opens(s, e) then [Reset(e.id, if e.refused then 7 else 1)]
    else if e.bad then [Reset(e.id, 1)] else if e.busy then [GoAwayNow(11)] else []
  }

  lemma RequestAsks(s: Conn, e: Event, d: Due)
    requires NewRequest(s, e)
    ensures !Trailers(s, e) && !Grants(s, e) && !Agrees(s, e)
    ensures Asks(s, e, d) == if !Opens(s, e) then One(StreamReset(e.id, if e.refused then 7 else 1), d)
                          else if e.bad then One(StreamReset(e.id, 1), d)
                          else if e.busy then One(Leaving(11), d) else 0
  {
    OnlySettings(s, e);
    hide Refuses, Agrees;
  }

  lemma RequestDue(s: Conn, e: Event, d: Due)
    requires e.ReadHeaders?
    ensures DueTasks(RequestTasks(s, e), d) == if !Opens(s, e) then One(StreamReset(e.id, if e.refused then 7 else 1), d)
                                            else if e.bad then One(StreamReset(e.id, 1), d)
                                            else if e.busy then One(Leaving(11), d) else 0
  {
    hide Opens;
    DueOne(if Opens(s, e) && !e.bad then GoAwayNow(11) else Reset(e.id, if !Opens(s, e) && e.refused then 7 else 1), d);
  }

  /** A new request: the stream is opened, or there are too many. */
  function RequestState(s: Conn, e: Event): Conn
    requires e.ReadHeaders?
  {
    var id, t, w := e.id, s.table.(maxClient := e.id), s.out.win;
    if !Opens(s, e) then Met(s, e).(table := t, outer := RequestTasks(s, e))
    else
      Met(s, e).(
        table := t.(streams := t.streams[id := Stream(if e.ended then HalfClosedRemote else Open, false, false, false)],
                    clients := t.clients + 1, created := t.created + {id}),
        out := s.out.(sched := s.out.sched.(order := s.out.sched.order + [id], queues := s.out.sched.queues[id := []]),
                      win := w.(streams := w.streams[id := s.peer.initialWindow])),
        outer := RequestTasks(s, e))
  }

  lemma RequestOn(s: Conn, e: Event)
    requires NewRequest(s, e) && AllSeen(s) && Ready(s)
    ensures OnFrame(Met(s, e), e) == RequestState(s, e)
  {
  }

  lemma RequestAfter(s: Conn, e: Event)
    requires NewRequest(s, e) && !Trailers(s, e) && !Grants(s, e) && !Agrees(s, e)
    ensures StateAfter(s, e, RequestState(s, e))
  {
    hide Trailers, Grants, Agrees, Fatal, Heard, AllApplied, RequestTasks;
  }

  lemma HeadersAnswered(s: Conn, e: Event, d: Due)
    requires e.ReadHeaders? && Heard(s, e) && Ready(s) && AllSeen(s)
    ensures Answered(s, e, OnFrame(Met(s, e), e), d)
  {
    if Misused(s, e) {
      HeadersFatal(s, e, d);
      hide *;
      FatalAnswered(s, e, 1, d);
    } else if Trailers(s, e) {
      TrailersAnswered(s, e, d);
    } else if Known(s, e) {
      HeadersPast(s, e, d);
      DueOne(Reset(e.id, 5), d);
      hide *;
      TasksAnswered(s, e, PastTasks(s, e), d);
    } else {
      RequestAnswered(s, e, d);
    }
  }

  lemma RequestAnswered(s: Conn, e: Event, d: Due)
    requires NewRequest(s, e) && Ready(s) && AllSeen(s)
    ensures Answered(s, e, OnFrame(Met(s, e), e), d)
  {
    RequestAsks(s, e, d);
    RequestDue(s, e, d);
    RequestOn(s, e);
    RequestAfter(s, e);
    hide Asks, DueTasks, StateAfter, OnFrame;
  }

  lemma DataFatal(s: Conn, e: Event, d: Due)
    requires e.ReadData? && Heard(s, e) && Misused(s, e) && Settled(s)
    ensures Changeless(s, e) && Fatal(s, e) == Some(1) && Asks(s, e, d) == One(Leaving(1), d)
    ensures OnFrame(Met(s, e), e) == ConnError(Met(s, e), IdOf(e), 1)
  {
    OnlySettings(s, e);
    hide Refuses, Agrees, WindowsIn;
  }

  /** What DATA on a stream there is or was asks for. */
  function DataAsked(s: Conn, e: Event, d: Due): nat
    requires e.ReadData?
  {
    if !e.fits then One(StreamReset(e.id, 3), d)
    else if Known(s, e) && s.table.streams[e.id].resetQueued then One(ConnCredit, d)
    else if !Receives(s, e) then One(ConnCredit, d) + One(StreamReset(e.id, 5), d)
    else if e.tooMuch then One(ConnCredit, d) + One(StreamReset(e.id, 1), d)
    else if e.refused then One(ConnCredit, d)
    else if e.ended then One(ConnCredit, d) + One(StreamCredit(e.id), d) + One(Ending(e.id), d)
    else One(ConnCredit, d) + One(StreamCredit(e.id), d)
  }

  lemma DataAsks(s: Conn, e: Event, d: Due)
    requires e.ReadData? && Heard(s, e) && !Misused(s, e)
    ensures Changeless(s, e) && Fatal(s, e) == None && Asks(s, e, d) == DataAsked(s, e, d)
  {
    OnlySettings(s, e);
    hide Refuses, Agrees;
  }

  lemma DataDue(s: Conn, e: Event, d: Due)
    requires e.ReadData?
    ensures DueTasks(DataTasks(s.table, e.id, e.fits, e.tooMuch, e.refused, e.ended), d) == DataAsked(s, e, d)
  {
    hide DueTasks;
    DuePair(e.id, 3, d);
    DuePair(e.id, 5, d);
    DuePair(e.id, 1, d);
    hide DueOf;
  }

  lemma DuePair(id: nat, code: nat, d: Due)
    ensures DueTasks([ConnUpdate, Reset(id, code)], d) == One(ConnCredit, d) + One(StreamReset(id, code), d)
    ensures DueTasks([ConnUpdate, StreamUpdate(id)], d) == One(ConnCredit, d) + One(StreamCredit(id), d)
    ensures DueTasks([ConnUpdate, StreamUpdate(id), EndStream(id)], d) == One(ConnCredit, d) + One(StreamCredit(id), d) + One(Ending(id), d)
    ensures DueTasks([ConnUpdate], d) == One(ConnCredit, d) && DueTasks([Reset(id, code)], d) == One(StreamReset(id, code), d)
  {
    hide DueTasks, Answer;
    DueFew(ConnUpdate, Reset(id, code), Schedule, d);
    DueFew(ConnUpdate, StreamUpdate(id), EndStream(id), d);
    DueOne(Reset(id, code), d);
  }

  lemma DataOn(s: Conn, e: Event)
    requires e.ReadData? && Heard(s, e) && !Misused(s, e) && Settled(s)
    ensures OnFrame(Met(s, e), e)
         == Met(s, e).(outer := DataTasks(s.table, e.id, e.fits, e.tooMuch, e.refused, e.ended))
  {
    hide Refuses, Agrees, WindowsIn, DataTasks;
  }

  lemma DataAnswered(s: Conn, e: Event, d: Due)
    requires e.ReadData? && Heard(s, e) && Settled(s)
    ensures Answered(s, e, OnFrame(Met(s, e), e), d)
  {
    if Misused(s, e) {
      DataFatal(s, e, d);
      hide *;
      FatalAnswered(s, e, 1, d);
    } else {
      DataAsks(s, e, d);
      DataDue(s, e, d);
      DataOn(s, e);
      hide *;
      TasksAnswered(s, e, DataTasks(s.table, e.id, e.fits, e.tooMuch, e.refused, e.ended), d);
    }
  }

  // ----- Window updates

  /** A frame on a stream that was never opened. */
  lemma IdleFatal(s: Conn, e: Event, d: Due)
    requires (e.ReadReset? || e.ReadWindowUpdate?) && Heard(s, e) && NeverSeen(s, e) && Settled(s)
    ensures Changeless(s, e) && Fatal(s, e) == Some(1) && Asks(s, e, d) == One(Leaving(1), d)
    ensures OnFrame(Met(s, e), e) == ConnError(Met(s, e), IdOf(e), 1)
  {
    OnlySettings(s, e);
    hide Refuses, Agrees, WindowsIn;
  }

  lemma ConnOverflow(s: Conn, e: Event, d: Due)
    requires e.ReadWindowUpdate? && Heard(s, e) && e.id == 0 && !Grants(s, e) && Settled(s)
    ensures Changeless(s, e) && Fatal(s, e) == Some(3) && Asks(s, e, d) == One(Leaving(3), d)
    ensures OnFrame(Met(s, e), e) == ConnError(Met(s, e), IdOf(e), 3)
  {
    OnlySettings(s, e);
    hide Refuses, Agrees;
  }

  function OverflowTasks(s: Conn, e: Event): seq<Task> {
    if Known(s, e) then [Reset(IdOf(e), 3)] else []
  }

  /** A window update on a stream that is closed, or that makes its window too large. */
  lemma StreamOverflow(s: Conn, e: Event, d: Due)
    requires e.ReadWindowUpdate? && Heard(s, e) && e.id != 0 && !NeverSeen(s, e) && !Grants(s, e) && Settled(s)
    ensures Changeless(s, e) && Fatal(s, e) == None
    ensures Asks(s, e, d) == if Known(s, e) then One(StreamReset(e.id, 3), d) else 0
    ensures OnFrame(Met(s, e), e) == Met(s, e).(outer := OverflowTasks(s, e))
  {
    OnlySettings(s, e);
    hide Refuses, Agrees;
  }

  lemma GrantAsks(s: Conn, e: Event, d: Due)
    requires Grants(s, e)
    ensures !Opens(s, e) && !Trailers(s, e) && !NewRequest(s, e) && !Agrees(s, e)
    ensures !NeverSeen(s, e) ==> Fatal(s, e) == None && Asks(s, e, d) == 0
  {
    OnlySettings(s, e);
    hide Refuses, Agrees;
  }

  /** The window with what was granted. */
  function GrantState(s: Conn, e: Event): Conn
    requires Grants(s, e)
  {
    var w := s.out.win;
    Met(s, e).(out := s.out.(win := if e.id == 0 then w.(conn := w.conn + e.n) else w.(streams := w.streams[e.id := w.streams[e.id] + e.n])),
               outer := [Schedule])
  }

  lemma GrantOn(s: Conn, e: Event)
    requires Grants(s, e) && Settled(s)
    ensures !NeverSeen(s, e) && OnFrame(Met(s, e), e) == GrantState(s, e)
  {
  }

  lemma GrantAfter(s: Conn, e: Event)
    requires Grants(s, e) && !Opens(s, e) && !Trailers(s, e) && !NewRequest(s, e) && !Agrees(s, e) && Fatal(s, e) == None
    ensures StateAfter(s, e, GrantState(s, e))
  {
    hide Opens, Trailers, NewRequest, Agrees, Fatal, Heard, AllApplied;
  }

  lemma GrantAnswered(s: Conn, e: Event, d: Due)
    requires Grants(s, e) && Settled(s)
    ensures Answered(s, e, OnFrame(Met(s, e), e), d)
  {
    GrantAsks(s, e, d);
    GrantOn(s, e);
    GrantAfter(s, e);
    DueOne(Schedule, d);
    hide Asks, StateAfter, OnFrame, Fatal, Grants, Settled;
  }

  lemma WindowAnswered(s: Conn, e: Event, d: Due)
    requires e.ReadWindowUpdate? && Heard(s, e) && Settled(s)
    ensures Answered(s, e, OnFrame(Met(s, e), e), d)
  {
    if Grants(s, e) {
      GrantAnswered(s, e, d);
    } else if NeverSeen(s, e) {
      IdleFatal(s, e, d);
      hide *;
      FatalAnswered(s, e, 1, d);
    } else if e.id == 0 {
      ConnOverflow(s, e, d);
      hide *;
      FatalAnswered(s, e, 3, d);
    } else {
      StreamOverflow(s, e, d);
      DueOne(Reset(e.id, 3), d);
      hide *;
      TasksAnswered(s, e, OverflowTasks(s, e), d);
    }
  }

  // ----- Settings

  lemma FirstUnique(initial: int, streams: map<nat, int>, settings: seq<Frames.Setting>)
    ensures !(FirstWrong(initial, streams, settings, 1) && FirstWrong(initial, streams, settings, 3))
  {
  }

  /** Settings that are refused, or found wrong on the way. */
  lemma SettingsRefused(s: Conn, e: Event, code: nat, d: Due)
    requires e.ReadSettings? && Refuses(s, e, code) && (code == 1 || code == 3)
    ensures Fatal(s, e) == Some(code) && Asks(s, e, d) == One(Leaving(code), d) && !Agrees(s, e)
    ensures !Opens(s, e) && !Trailers(s, e) && !Grants(s, e) && !NewRequest(s, e)
  {
    FirstUnique(s.peer.initialWindow, s.out.win.streams, e.settings);
    hide FirstWrong, Repeats;
  }

  lemma SettingsAgreed(s: Conn, e: Event, d: Due)
    requires Agrees(s, e)
    ensures Fatal(s, e) == None && Asks(s, e, d) == 0
    ensures !Opens(s, e) && !Trailers(s, e) && !Grants(s, e) && !NewRequest(s, e)
  {
    hide Refuses;
  }

  lemma RefusedAfter(s: Conn, e: Event, s': Conn)
    requires e.ReadSettings? && Heard(s, e) && !Agrees(s, e) && !Opens(s, e) && !Trailers(s, e) && !Grants(s, e) && !NewRequest(s, e)
    requires s'.out == s.out.(win := s'.out.win) && s'.out.win.conn == s.out.win.conn && s'.out.win.streams.Keys == s.out.win.streams.Keys
    requires s'.table == s.table && s'.going == s.going && s'.needToSendSettingsAck == s.needToSendSettingsAck
    requires s'.peer.sawFirstSettings
    ensures StateAfter(s, e, s')
  {
    hide Opens, Trailers, Grants, NewRequest, Agrees, Fatal, AllApplied;
  }

  lemma AgreedAfter(s: Conn, e: Event, s': Conn)
    requires Agrees(s, e) && !Opens(s, e) && !Trailers(s, e) && !Grants(s, e) && !NewRequest(s, e) && Fatal(s, e) == None
    requires s'.out == s.out.(win := s'.out.win) && s'.table == s.table && s'.going == s.going && s'.needToSendSettingsAck
    requires s'.peer.sawFirstSettings && AllApplied(s.peer.(sawFirstSettings := true), s.out.win, e.settings, Applied(s'.peer, s'.out.win, None))
    requires WindowsIn(s'.peer.initialWindow, s'.out.win)
    ensures StateAfter(s, e, s')
  {
    hide Opens, Trailers, Grants, NewRequest, Refuses, Fatal;
  }

  /** How the settings are applied, if they are looked at. */
  function SettingsResult(s: Conn, e: Event): Applied
    requires e.ReadSettings?
  {
    ApplySettings(s.peer.(sawFirstSettings := true), s.out.win, e.settings, e.reached)
  }

  lemma SettingsOn(s: Conn, e: Event)
    requires e.ReadSettings? && AllSeen(s)
    ensures var s', r := OnFrame(Met(s, e), e), SettingsResult(s, e);
            if |e.settings| > 100 || Repeats(e.settings) then s' == Met(s, e).(outer := [GoAwayNow(1)])
            else if r.error.Some? then
              s' == s.(peer := r.peer, out := s.out.(win := r.win), outer := [GoAwayNow(r.error.value)])
            else s' == s.(peer := r.peer, out := s.out.(win := r.win), outer := [Schedule], needToSendSettingsAck := true)
    ensures Repeats(e.settings) <==> Duplicates(e.settings)
  {
    hide ApplySettings;
  }

  lemma SettingsAnswered(s: Conn, e: Event, d: Due)
    requires e.ReadSettings? && Heard(s, e) && Settled(s)
    ensures Answered(s, e, OnFrame(Met(s, e), e), d)
  {
    SettingsOn(s, e);
    hide OnFrame;
    var r := SettingsResult(s, e);
    if |e.settings| > 100 || Repeats(e.settings) {
      RefusalAnswered(s, e, OnFrame(Met(s, e), e), 1, d);
    } else {
      SettingsApplied(s.peer.(sawFirstSettings := true), s.out.win, e.settings, e.reached);
      hide Settled;
      if r.error.Some? {
        RefusalAnswered(s, e, OnFrame(Met(s, e), e), r.error.value, d);
      } else {
        AgreementAnswered(s, e, OnFrame(Met(s, e), e), d);
      }
    }
  }

  lemma RefusalAnswered(s: Conn, e: Event, s': Conn, code: nat, d: Due)
    requires e.ReadSettings? && Refuses(s, e, code) && (code == 1 || code == 3)
    requires s'.out == s.out.(win := s'.out.win) && s'.out.win.conn == s.out.win.conn && s'.out.win.streams.Keys == s.out.win.streams.Keys
    requires s'.table == s.table && s'.going == s.going && s'.needToSendSettingsAck == s.needToSendSettingsAck
    requires s'.peer.sawFirstSettings && s'.outer == [GoAwayNow(code)]
    ensures Answered(s, e, s', d)
  {
    SettingsRefused(s, e, code, d);
    DueOne(GoAwayNow(code), d);
    RefusedAfter(s, e, s');
    hide StateAfter, Asks, DueTasks, Refuses;
  }

  lemma AgreementAnswered(s: Conn, e: Event, s': Conn, d: Due)
    requires Agrees(s, e) && s'.outer == [Schedule]
    requires s'.out == s.out.(win := s'.out.win) && s'.table == s.table && s'.going == s.going && s'.needToSendSettingsAck
    requires s'.peer.sawFirstSettings && AllApplied(s.peer.(sawFirstSettings := true), s.out.win, e.settings, Applied(s'.peer, s'.out.win, None))
    requires WindowsIn(s'.peer.initialWindow, s'.out.win)
    ensures Answered(s, e, s', d)
  {
    SettingsAgreed(s, e, d);
    DueOne(Schedule, d);
    AgreedAfter(s, e, s');
    hide StateAfter, Asks, DueTasks, Agrees;
  }

  // ----- Other frames and messages

  function OtherTasks(s: Conn, e: Event): seq<Task> {
    match e
    case ReadReset(id) => if Known(s, e) then [CloseNow(id)] else []
    case ReadPing => [Write(Control(PingAck))]
    case ReadGoAway => [GoAwayNow(0), DisablePush]
    case ReadPriority(id, self) => if self then [Reset(id, 1)] else []
    case _ => []
  }

  predicate Other(e: Event) {
    e.ReadReset? || e.ReadSettingsAck? || e.ReadPing? || e.ReadGoAway? || e.ReadPriority? || e.ReadPushPromise?
  }

  lemma OtherFatal(s: Conn, e: Event, d: Due)
    requires Other(e) && Heard(s, e) && Misused(s, e) && Settled(s)
    ensures Changeless(s, e) && Fatal(s, e) == Some(1) && Asks(s, e, d) == One(Leaving(1), d)
    ensures OnFrame(Met(s, e), e) == ConnError(Met(s, e), IdOf(e), 1)
  {
    OnlySettings(s, e);
    hide Refuses, Agrees, WindowsIn;
  }

  function OtherAsked(s: Conn, e: Event, d: Due): nat {
    match e
    case ReadReset(id) => If(Known(s, e), Closing(id), d)
    case ReadPing => One(PingAnswer, d)
    case ReadGoAway => (One(Leaving(0), d) + One(NoPush, d))
    case ReadPriority(id, self) => If(self, StreamReset(id, 1), d)
    case _ => 0
  }

  lemma OtherAsks(s: Conn, e: Event, d: Due)
    requires Other(e) && Heard(s, e) && !Misused(s, e)
    ensures Changeless(s, e) && Fatal(s, e) == None && Asks(s, e, d) == OtherAsked(s, e, d)
  {
    OnlySettings(s, e);
    hide Refuses, Agrees;
  }

  lemma OtherDue(s: Conn, e: Event, d: Due)
    ensures DueTasks(OtherTasks(s, e), d) == OtherAsked(s, e, d)
  {
    hide DueTasks;
    match e
    case ReadReset(id) => DueOne(CloseNow(id), d);
    case ReadPing => DueOne(Write(Control(PingAck)), d);
    case ReadGoAway => DueFew(GoAwayNow(0), DisablePush, Schedule, d);
    case ReadPriority(id, _) => DueOne(Reset(id, 1), d);
    case _ => DueOne(Schedule, d);
  }

  lemma OtherOn(s: Conn, e: Event)
    requires Other(e) && Heard(s, e) && !Misused(s, e) && Settled(s)
    ensures OnFrame(Met(s, e), e) == Met(s, e).(outer := OtherTasks(s, e))
  {
    hide Refuses, Agrees, WindowsIn;
  }

  lemma OtherAnswered(s: Conn, e: Event, d: Due)
    requires Other(e) && Heard(s, e) && Settled(s)
    ensures Answered(s, e, OnFrame(Met(s, e), e), d)
  {
    if Misused(s, e) {
      OtherFatal(s, e, d);
      hide *;
      FatalAnswered(s, e, 1, d);
    } else {
      OtherAsks(s, e, d);
      OtherDue(s, e, d);
      OtherOn(s, e);
      hide *;
      TasksAnswered(s, e, OtherTasks(s, e), d);
    }
  }

  function MessageTasks(s: Conn, e: Event): seq<Task> {
    match e
    case ReadTooLarge => [GoAwayNow(6)]
    case ReadBadStream(id, code) => [Reset(id, code)]
    case HandlerWrites(wr) => [if wr.write.StreamError? then Reset(wr.write.streamID, wr.write.code) else Write(wr)]
    case HandlerPushes(parent) =>
      if s.peer.pushEnabled && parent in s.table.streams && s.table.streams[parent].state in {Open, HalfClosedRemote}
      then [Write(Request(PushPromise, Some(parent), None))] else []
    case HandlerRead(id) => [ConnUpdate, AfterBodyRead(id)]
    case Shutdown => [GoAwayNow(0)]
    case _ => []
  }

  lemma MessageAsks(s: Conn, e: Event, d: Due)
    requires !FromClient(e)
    ensures Changeless(s, e) && (e.ReadTooLarge? ==> Asks(s, e, d) == One(Leaving(6), d))
  {
    OnlySettings(s, e);
    Unheard(s, e);
    hide Refuses, Agrees;
  }

  lemma MessageDue(s: Conn, e: Event, d: Due)
    requires !FromClient(e) && (e.HandlerWrites? ==> !e.wr.write.PingAck?)
    requires e.ReadTooLarge? ==> Asks(s, e, d) == One(Leaving(6), d)
    ensures DueTasks(MessageTasks(s, e), d) == Asks(s, e, d)
  {
    hide DueTasks;
    if e.HandlerWrites? {
      var wr := e.wr;
      DueOne(if wr.write.StreamError? then Reset(wr.write.streamID, wr.write.code) else Write(wr), d);
    } else if e.HandlerPushes? {
      DueOne(Write(Request(PushPromise, Some(e.parent), None)), d);
    } else if e.HandlerRead? {
      DueFew(ConnUpdate, AfterBodyRead(e.id), Schedule, d);
    } else if e.ReadBadStream? {
      DueOne(Reset(e.id, e.code), d);
    } else {
      DueOne(GoAwayNow(if e.ReadTooLarge? then 6 else 0), d);
    }
  }

  lemma MessageOn(s: Conn, e: Event)
    requires !FromClient(e) && Settled(s)
    ensures On(s, e) == if e.WriteDone? && s.flags.inFlight.Some?
                        then s.(free := e.free, flags := s.flags.(inFlight := None), outer := [Wrote(s.flags.inFlight.value)])
                        else s.(outer := MessageTasks(s, e))
  {
  }

  lemma DoneAnswered(s: Conn, e: Event, s': Conn, d: Due)
    requires e.WriteDone? && Changeless(s, e) && s.flags.inFlight.Some?
    requires s' == s.(free := e.free, flags := s.flags.(inFlight := None), outer := [Wrote(s.flags.inFlight.value)])
    ensures Answered(s, e, s', d)
  {
    DueOne(Wrote(s.flags.inFlight.value), d);
    hide StateAfter, Changeless, Fatal, DueTasks;
    ChangelessAfter(s, e, s');
  }

  lemma MessageAnswered(s: Conn, e: Event, d: Due)
    requires !FromClient(e) && Settled(s) && Possible(s, e)
    ensures Answered(s, e, On(s, e), d)
  {
    MessageAsks(s, e, d);
    MessageOn(s, e);
    if e.WriteDone? && s.flags.inFlight.Some? {
      hide *;
      DoneAnswered(s, e, On(s, e), d);
    } else {
      MessageDue(s, e, d);
      assert Met(s, e) == s;
      hide *;
      TasksAnswered(s, e, MessageTasks(s, e), d);
    }
  }

  /** Every message is answered as it should be. */
  lemma OnAnswered(s: Conn, e: Event, d: Due)
    requires Settled(s) && Possible(s, e)
    ensures Answered(s, e, On(s, e), d)
  {
    if !FromClient(e) {
      MessageAnswered(s, e, d);
    } else if Early(s, e) {
      EarlyAnswered(s, e, d);
    } else if Late(s, e) {
      LateAnswered(s, e, d);
    } else {
      HeardOn(s, e);
      hide On, OnFrame, Answered, Settled;
      HeardAnswered(s, e, d);
    }
  }

  lemma HeardAnswered(s: Conn, e: Event, d: Due)
    requires Settled(s) && Heard(s, e)
    ensures Answered(s, e, OnFrame(Met(s, e), e), d)
  {
    hide OnFrame, Answered;
    if e.ReadHeaders? {
      HeadersAnswered(s, e, d);
    } else if e.ReadData? {
      DataAnswered(s, e, d);
    } else if e.ReadWindowUpdate? {
      WindowAnswered(s, e, d);
    } else if e.ReadSettings? {
      SettingsAnswered(s, e, d);
    } else {
      OtherAnswered(s, e, d);
    }
  }
}
