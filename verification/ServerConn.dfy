/** The server side of a connection as a step machine (h2_bundle.go, serverConn): streams, the
    loop that writes frames, and the calls these make to each other. The calls still to be carried
    out are part of the state: `inner` are those inside the loop of scheduleFrameWrite, `outer`
    those outside it. */
module ServerConns {
  import opened Foundations
  import opened WriteQueues
  import opened RoundRobins

  datatype StreamState = Idle | Open | HalfClosedLocal | HalfClosedRemote | Closed

  /** A stream that the connection keeps track of. */
  datatype Stream = Stream(state: StreamState, resetQueued: bool, gotTrailer: bool, wroteHeaders: bool)

  /** Calls. */
  datatype Task =
    | Write(wr: Request)
    | Schedule
    | Start(wr: Request)
    | ClearFlush
    | Wrote(wr: Request)
    | CloseNow(id: nat)
    | SchedClose(id: nat)
    | ConnUpdate
    | StreamUpdate(id: nat)
    | EndStream(id: nat)
    | Reset(id: nat, code: nat)
    | MarkReset(id: nat)
    | GoAwayNow(code: nat)
    | DisablePush
    | AfterBodyRead(id: nat)

  /** The panics of the code that is modelled. */
  datatype Panic = TwoFrames | OnClosed | OnHalfClosedLocal | NotWriting | NilStream | CloseAgain | LateEnd | DataNotOpen

  /** The streams, how many there are of each kind, the highest IDs, and which client streams there
      ever were. */
  datatype Table = Table(streams: map<nat, Stream>, clients: int, pushed: int,
                         maxClient: nat, maxPush: nat, advMaxStreams: nat, created: set<nat>)

  /** What the client has asked for. */
  datatype Peer = Peer(maxStreams: nat, pushEnabled: bool, sawFirstSettings: bool, initialWindow: int)

  /** The scheduler, the send windows, the count of control frames, and the streams that have left
      the table but not yet the scheduler. */
  datatype Output = Output(sched: Sched, win: Windows, queuedControlFrames: int, closing: set<nat>)

  /** The frame being written, if any. */
  datatype Flags = Flags(writingFrame: bool, writingFrameAsync: bool, needsFrameFlush: bool, inFlight: Option<Request>)

  datatype Going = Going(inGoAway: bool, needToSend: bool, code: nat, sent: Option<nat>)

  /** The connection; `free` is the number of free bytes of the write buffer. */
  datatype Conn = Conn(table: Table, peer: Peer, out: Output, flags: Flags, going: Going, needToSendSettingsAck: bool,
                       free: nat, inLoop: bool, inner: seq<Task>, outer: seq<Task>, panic: Option<Panic>)

  /** What is decided elsewhere: the window update to announce (0 for none), whether the server
      shuts down when it is idle, and how many bytes HPACK makes of a status. */
  datatype Choice = Choice(announce: nat, shutdown: bool, status: nat)

  // ----- The table

  predicate Seen(t: Table, id: nat) {
    if id % 2 == 1 then id <= t.maxClient else id <= t.maxPush
  }

  /** state. */
  function StateOf(t: Table, id: nat): StreamState {
    if id in t.streams then t.streams[id].state else if Seen(t, id) then Closed else Idle
  }

  function SetStream(t: Table, id: nat, st: Stream): Table {
    t.(streams := t.streams[id := st])
  }

  /** newStream, on the table. */
  function AddStream(t: Table, id: nat, state: StreamState): Table {
    t.(streams := t.streams[id := Stream(state, false, false, false)],
       pushed := t.pushed + (if id % 2 == 0 then 1 else 0), clients := t.clients + (if id % 2 == 0 then 0 else 1),
       created := if id % 2 == 1 then t.created + {id} else t.created)
  }

  /** closeStream, on the table. */
  function RemoveStream(t: Table, id: nat): Table {
    t.(streams := t.streams - {id},
       pushed := t.pushed - (if id % 2 == 0 then 1 else 0), clients := t.clients - (if id % 2 == 0 then 0 else 1))
  }

  // ----- Requests

  function Control(w: Writer): Request {
    Request(w, None, None)
  }

  predicate EndsStream(w: Writer) {
    (w.Data? && w.endStream) || (w.ResHeaders? && w.endStream)
  }

  /** Requests are for a stream when they should be. */
  predicate RequestOk(wr: Request) {
    match wr.write
    case Data(_, _) => wr.stream.Some?
    case ResHeaders(_) => wr.stream.Some?
    case Continue100 => wr.stream.Some?
    case PushPromise => wr.stream.Some?
    case HandlerPanicRST => wr.stream.Some?
    case WindowUpdate(_) => true
    case _ => wr.stream.None?
  }

  /** A GOAWAY is not queued; the loop writes it when it is due. */
  predicate Queued(wr: Request) {
    !wr.write.GoAway?
  }

  /** The stream of a request is not idle. */
  predicate WriterOk(t: Table, wr: Request) {
    RequestOk(wr) && (wr.stream.Some? ==> Seen(t, wr.stream.value) && wr.stream.value != 0)
  }

  predicate TaskOk(t: Table, k: Task) {
    match k
    case Write(wr) => WriterOk(t, wr) && Queued(wr)
    case Start(wr) => WriterOk(t, wr)
    case Wrote(wr) => WriterOk(t, wr)
    case CloseNow(id) => Seen(t, id) && id != 0
    case StreamUpdate(id) => Seen(t, id) && id != 0
    case AfterBodyRead(id) => Seen(t, id) && id != 0
    case SchedClose(id) => Seen(t, id) && id !in t.streams
    case _ => true
  }

  // ----- The scheduler

  /** newStream, on the scheduler. */
  function OpenQueue(o: Output, id: nat, window: int): Output
    requires id !in o.sched.queues
  {
    o.(sched := RoundRobins.Open(o.sched, id), win := o.win.(streams := o.win.streams[id := window]))
  }

  function CloseQueue(o: Output, id: nat): Output {
    o.(sched := RoundRobins.Close(o.sched, id), closing := o.closing - {id}, win := o.win.(streams := o.win.streams - {id}))
  }

  function Enqueue(o: Output, wr: Request): Output
    requires wr.DataSize() > 0 ==> wr.stream.Some? && wr.stream.value in o.sched.queues
  {
    o.(queuedControlFrames := o.queuedControlFrames + (if wr.IsControl() then 1 else 0), sched := Push(o.sched, wr))
  }

  predicate OutputOk(o: Output) {
    SchedOk(o.sched) && WindowsFor(o.sched, o.win)
  }

  // ----- Carrying out calls

  function Then(s: Conn, ts: seq<Task>): Conn {
    if s.inLoop then s.(inner := ts + s.inner) else s.(outer := ts + s.outer)
  }

  predicate Ignored(t: Table, wr: Request)
    requires RequestOk(wr)
  {
    || (wr.StreamID() != 0 && StateOf(t, wr.StreamID()) == Closed && !wr.write.StreamError?)
    || (wr.write.Continue100? && wr.stream.value in t.streams && t.streams[wr.stream.value].wroteHeaders)
  }

  function NoteHeaders(t: Table, wr: Request): Table
    requires RequestOk(wr)
  {
    if wr.write.ResHeaders? && wr.stream.value in t.streams
    then SetStream(t, wr.stream.value, t.streams[wr.stream.value].(wroteHeaders := true)) else t
  }

  /** writeFrame. */
  function DoWrite(s: Conn, wr: Request): Conn
    requires RequestOk(wr)
  {
    var s1 := s.(table := NoteHeaders(s.table, wr));
    if Ignored(s.table, wr) then Then(s1, [Schedule])
    else if wr.DataSize() > 0 && wr.stream.value !in s.out.sched.queues then s1.(panic := Some(DataNotOpen))
    else Then(s1.(out := Enqueue(s.out, wr)), [Schedule])
  }

  /** scheduleFrameWrite, up to the start of its loop. */
  function DoSchedule(s: Conn): Conn {
    if s.flags.writingFrame || s.inLoop then s else s.(inLoop := true, inner := [])
  }

  /** One round of the loop. */
  function Iterate(s: Conn): Conn
    requires OutputOk(s.out)
  {
    if s.flags.writingFrameAsync then s.(inLoop := false)
    else if s.going.needToSend then
      s.(going := s.going.(needToSend := false), inner := [Start(Control(GoAway(s.table.maxClient, s.going.code)))])
    else if s.needToSendSettingsAck then s.(needToSendSettingsAck := false, inner := [Start(Control(SettingsAck))])
    else
      var popped := Popping(s);
      if popped.Served? then s.(out := Dequeued(s.out, popped), inner := [Start(popped.frame)])
      else if s.flags.needsFrameFlush then s.(inner := [Start(Control(Flush)), ClearFlush])
      else s.(inLoop := false)
  }

  /** Nothing is taken from the scheduler once the connection ends with an error. */
  function Popping(s: Conn): PopResult
    requires OutputOk(s.out)
  {
    if !s.going.inGoAway || s.going.code == 0 then Pop(s.out.sched, s.out.win) else Empty
  }

  function Dequeued(o: Output, r: PopResult): Output
    requires r.Served?
  {
    o.(sched := r.sched, win := r.win, queuedControlFrames := o.queuedControlFrames - (if r.frame.IsControl() then 1 else 0))
  }

  /** The panics of startFrameWrite. */
  function StartPanic(s: Conn, wr: Request): Option<Panic> {
    if s.flags.writingFrame then Some(TwoFrames)
    else if wr.stream == None then None
    else
      var state := StateOf(s.table, wr.stream.value);
      if state == Closed then Some(OnClosed)
      else if state == HalfClosedLocal && !wr.write.StreamError? && !wr.write.HandlerPanicRST? && !wr.write.WindowUpdate?
      then Some(OnHalfClosedLocal)
      else None
  }

  /** Whether a push is within the limits of the client, and whether an ID is left for it. */
  predicate MayPush(s: Conn) {
    s.peer.pushEnabled && s.table.pushed + 1 <= s.peer.maxStreams
  }

  predicate HasPushID(s: Conn) {
    s.table.maxPush + 2 < 0x8000_0000
  }

  /** The stream that a PUSH_PROMISE frame announces. */
  function Promise(s: Conn): Conn
    requires s.table.maxPush + 2 !in s.out.sched.queues
  {
    var id := s.table.maxPush + 2;
    s.(table := AddStream(s.table.(maxPush := id), id, HalfClosedRemote), out := OpenQueue(s.out, id, s.peer.initialWindow))
  }

  /** startFrameWrite. */
  function DoStart(s: Conn, wr: Request, c: Choice): Conn
    requires s.table.maxPush + 2 !in s.out.sched.queues
  {
    var p := StartPanic(s, wr);
    if p.Some? then s.(panic := p)
    else if wr.write.PushPromise? && !(MayPush(s) && HasPushID(s)) then
      var s1 := s.(flags := s.flags.(writingFrameAsync := false));
      if MayPush(s) then Then(s1, [GoAwayNow(0)]) else s1
    else if wr.write.PushPromise? then Emit(Promise(s), wr, c)
    else Emit(s, wr, c)
  }

  /** staysWithinBuffer: header blocks of responses and pushes are never written in place, nor is
      what flushes the buffer. */
  predicate InPlace(w: Writer, free: nat) {
    !w.ResHeaders? && !w.PushPromise? && !w.GoAway? && !w.Flush? && Size(w) <= free
  }

  const BUFFER := 4096
  const FRAME_HEADER := 9

  /** The bytes of a frame, or the bound that staysWithinBuffer takes for a status. */
  function Size(w: Writer): nat {
    FRAME_HEADER + match w
                   case Data(p, _) => |p|
                   case Continue100 => 20
                   case Settings => 6 * 5
                   case PingAck => 8
                   case WindowUpdate(_) => 4
                   case HandlerPanicRST => 4
                   case StreamError(_, _) => 4
                   case _ => 0
  }

  /** The bytes a frame takes from the buffer. */
  function Used(w: Writer, c: Choice): (n: nat)
    ensures 0 < n <= Size(w)
  {
    if w.Continue100? && 0 < c.status < 20 then FRAME_HEADER + c.status else Size(w)
  }

  /** The frame is written in place if it fits the buffer, and else by another goroutine. */
  function Emit(s: Conn, wr: Request, c: Choice): Conn {
    var s1 := if wr.write.GoAway? then s.(going := s.going.(sent := Some(wr.write.maxStreamID))) else s;
    if InPlace(wr.write, s.free)
    then Then(s1.(free := s.free - Used(wr.write, c), flags := Flags(true, false, true, s.flags.inFlight)), [Wrote(wr)])
    else s1.(flags := Flags(true, true, true, Some(wr)))
  }

  /** What the end of the write of a frame means for its stream. */
  function Finished(t: Table, wr: Request): seq<Task> {
    if EndsStream(wr.write) && wr.stream.Some? then
      var id := wr.stream.value;
      if StateOf(t, id) == Open then [Reset(id, 0)] else if StateOf(t, id) == HalfClosedRemote then [CloseNow(id)] else []
    else if wr.write.StreamError? && wr.write.streamID in t.streams then [CloseNow(wr.write.streamID)]
    else if wr.write.HandlerPanicRST? && wr.stream.Some? then [CloseNow(wr.stream.value)]
    else []
  }

  function HalfClosed(t: Table, wr: Request): Table {
    if EndsStream(wr.write) && wr.stream.Some? && wr.stream.value in t.streams && t.streams[wr.stream.value].state == Open
    then SetStream(t, wr.stream.value, t.streams[wr.stream.value].(state := HalfClosedLocal)) else t
  }

  /** wroteFrame. */
  function DoWrote(s: Conn, wr: Request): Conn {
    if !s.flags.writingFrame then s.(panic := Some(NotWriting))
    else if (EndsStream(wr.write) || wr.write.HandlerPanicRST?) && wr.stream == None then s.(panic := Some(NilStream))
    else
      Then(s.(flags := s.flags.(writingFrame := false, writingFrameAsync := false), table := HalfClosed(s.table, wr)),
           Finished(s.table, wr) + [Schedule])
  }

  /** The calls of closeStream after the stream has left the table and before the scheduler hears
      of it. */
  function Farewell(t: Table, c: Choice): seq<Task> {
    (if t.streams == map[] && c.shutdown then [GoAwayNow(0)] else [])
    + (if c.announce > 0 then [Write(Control(WindowUpdate(c.announce)))] else [])
  }

  /** closeStream. */
  function DoClose(s: Conn, id: nat, c: Choice): Conn {
    if id !in s.table.streams then s.(panic := Some(CloseAgain))
    else
      var t := RemoveStream(s.table, id);
      Then(s.(table := t, out := s.out.(closing := s.out.closing + {id})), Farewell(t, c) + [SchedClose(id)])
  }

  /** goAway. */
  function DoGoAway(s: Conn, code: nat): Conn {
    if s.going.inGoAway then (if s.going.code == 0 then s.(going := s.going.(code := code)) else s)
    else Then(s.(going := s.going.(inGoAway := true, needToSend := true, code := code)), [Schedule])
  }

  function DoMarkReset(s: Conn, id: nat): Conn {
    if id in s.table.streams then s.(table := SetStream(s.table, id, s.table.streams[id].(resetQueued := true))) else s
  }

  /** endStream, on a stream that is still open. */
  function DoEndStream(s: Conn, id: nat): Conn {
    if id !in s.table.streams || s.table.streams[id].state != Open then s.(panic := Some(LateEnd))
    else s.(table := SetStream(s.table, id, s.table.streams[id].(state := HalfClosedRemote)))
  }

  /** Carrying out one call; `s` is the state without it. */
  function Do(s: Conn, k: Task, c: Choice): Conn
    requires TaskOk(s.table, k) && s.table.maxPush + 2 !in s.out.sched.queues
  {
    match k
    case Write(wr) => DoWrite(s, wr)
    case Schedule => DoSchedule(s)
    case Start(wr) => DoStart(s, wr, c)
    case ClearFlush => s.(flags := s.flags.(needsFrameFlush := false))
    case Wrote(wr) => DoWrote(s, wr)
    case CloseNow(id) => DoClose(s, id, c)
    case SchedClose(id) => s.(out := CloseQueue(s.out, id))
    case ConnUpdate => if c.announce > 0 then Then(s, [Write(Control(WindowUpdate(c.announce)))]) else s
    case StreamUpdate(id) =>
      if c.announce > 0 then Then(s, [Write(Request(WindowUpdate(c.announce), Some(id), None))]) else s
    case EndStream(id) => DoEndStream(s, id)
    case Reset(id, code) => Then(s, [Write(Control(StreamError(id, code))), MarkReset(id)])
    case MarkReset(id) => DoMarkReset(s, id)
    case GoAwayNow(code) => DoGoAway(s, code)
    case DisablePush => s.(peer := s.peer.(pushEnabled := false))
    case AfterBodyRead(id) =>
      if StateOf(s.table, id) == HalfClosedRemote || StateOf(s.table, id) == Closed then s else Then(s, [StreamUpdate(id)])
  }

  /** The call that is next, if it is not the loop's turn. */
  function Next(s: Conn): Option<Task> {
    if s.inLoop then (if s.inner == [] then None else Some(s.inner[0]))
    else if s.outer == [] then None else Some(s.outer[0])
  }

  /** The state without the call that is next. */
  function Rest(s: Conn): Conn
    requires Next(s).Some?
  {
    if s.inLoop then s.(inner := s.inner[1..]) else s.(outer := s.outer[1..])
  }

  predicate Busy(s: Conn) {
    s.panic == None && (s.inLoop || s.outer != [])
  }

  /** The next call, or the next round of the loop. */
  function Step(s: Conn, c: Choice): Conn
    requires Busy(s) && OutputOk(s.out) && s.table.maxPush + 2 !in s.out.sched.queues
    requires Next(s).Some? ==> TaskOk(s.table, Next(s).value)
  {
    if Next(s).Some? then Do(Rest(s), Next(s).value, c) else Iterate(s)
  }
}
