/** Frames from the client and messages from handlers (h2_bundle.go, processFrame and the cases
    of serve). */
module ServerEvents {
  import opened Foundations
  import opened WriteQueues
  import opened ServerConns
  import Frames

  /** Flags stand for what the code finds in the frame or in its flow control windows. */
  datatype Event =
    | ReadHeaders(id: nat, ended: bool, bad: bool, refused: bool, busy: bool)
    | ReadData(id: nat, fits: bool, tooMuch: bool, refused: bool, ended: bool)
    | ReadReset(id: nat)
    | ReadWindowUpdate(id: nat, n: nat)
    | ReadSettings(settings: seq<Frames.Setting>, reached: set<nat>)
    | ReadSettingsAck(expected: bool)
    | ReadPing
    | ReadGoAway
    | ReadPriority(id: nat, self: bool)
    | ReadPushPromise(id: nat)
    | ReadTooLarge
    | ReadBadStream(id: nat, code: nat)
    | HandlerWrites(wr: Request)
    | HandlerPushes(parent: nat)
    | HandlerRead(id: nat)
    | WriteDone(free: nat)
    | Shutdown

  const PROTOCOL_ERROR := 1
  const FLOW_CONTROL_ERROR := 3
  const STREAM_CLOSED := 5
  const FRAME_SIZE_ERROR := 6
  const REFUSED_STREAM := 7
  const ENHANCE_YOUR_CALM := 11

  /** A connection error for a frame on this stream. */
  function ConnError(s: Conn, id: nat, code: nat): Conn {
    s.(table := if id > s.table.maxClient then s.table.(maxClient := id) else s.table, outer := [GoAwayNow(code)])
  }

  /** After a GOAWAY, frames are ignored: all of them after an error, else those for new streams. */
  predicate Discards(s: Conn, id: nat) {
    s.going.inGoAway && (s.going.code != 0 || id > s.table.maxClient)
  }

  /** processHeaders on a stream there is: trailers. */
  function OnTrailers(s: Conn, id: nat, ended: bool, bad: bool): Conn
    requires id in s.table.streams
  {
    var st := s.table.streams[id];
    if st.resetQueued then s
    else if st.state == HalfClosedRemote then s.(outer := [Reset(id, STREAM_CLOSED)])
    else if st.gotTrailer then ConnError(s, id, PROTOCOL_ERROR)
    else s.(table := SetStream(s.table, id, st.(gotTrailer := true)),
            outer := [if !ended || bad then Reset(id, PROTOCOL_ERROR) else EndStream(id)])
  }

  /** processHeaders on a new stream; `busy` when too many requests wait for a handler. */
  function OnRequest(s: Conn, id: nat, ended: bool, bad: bool, refused: bool, busy: bool): Conn
    requires id !in s.out.sched.queues
  {
    var t := s.table.(maxClient := id);
    if s.table.clients + 1 > s.table.advMaxStreams then
      s.(table := t, outer := [Reset(id, if refused then REFUSED_STREAM else PROTOCOL_ERROR)])
    else
      s.(table := AddStream(t, id, if ended then HalfClosedRemote else Open), out := OpenQueue(s.out, id, s.peer.initialWindow),
         outer := if bad then [Reset(id, PROTOCOL_ERROR)] else if busy then [GoAwayNow(ENHANCE_YOUR_CALM)] else [])
  }

  /** processHeaders. */
  function OnHeaders(s: Conn, id: nat, ended: bool, bad: bool, refused: bool, busy: bool): Conn
    requires forall x :: x in s.out.sched.queues ==> Seen(s.table, x)
  {
    if id % 2 != 1 then ConnError(s, id, PROTOCOL_ERROR)
    else if id in s.table.streams then OnTrailers(s, id, ended, bad)
    else if id <= s.table.maxClient then ConnError(s, id, PROTOCOL_ERROR)
    else assert !Seen(s.table, id); OnRequest(s, id, ended, bad, refused, busy)
  }

  lemma HeadersCases(s: Conn, e: Event)
    requires e.ReadHeaders? && forall x :: x in s.out.sched.queues ==> Seen(s.table, x)
    ensures var s' := OnHeaders(s, e.id, e.ended, e.bad, e.refused, e.busy);
            || s' == ConnError(s, e.id, PROTOCOL_ERROR)
            || (e.id in s.table.streams && s' == OnTrailers(s, e.id, e.ended, e.bad))
            || (e.id !in s.table.streams && e.id !in s.out.sched.queues && e.id > s.table.maxClient && e.id % 2 == 1
                && s' == OnRequest(s, e.id, e.ended, e.bad, e.refused, e.busy))
  {
    hide ConnError, OnTrailers, OnRequest;
  }

  /** The calls of processData. */
  function DataTasks(t: Table, id: nat, fits: bool, tooMuch: bool, refused: bool, ended: bool): seq<Task> {
    if !fits then [Reset(id, FLOW_CONTROL_ERROR)]
    else if id in t.streams && t.streams[id].resetQueued then [ConnUpdate]
    else if id !in t.streams || t.streams[id].state != Open || t.streams[id].gotTrailer then [ConnUpdate, Reset(id, STREAM_CLOSED)]
    else if tooMuch then [ConnUpdate, Reset(id, PROTOCOL_ERROR)]
    else if refused then [ConnUpdate]
    else if ended then [ConnUpdate, StreamUpdate(id), EndStream(id)]
    else [ConnUpdate, StreamUpdate(id)]
  }

  /** processWindowUpdate. */
  function OnWindowUpdate(s: Conn, id: nat, n: nat): Conn {
    var w := s.out.win;
    if id == 0 then
      if Int32(w.conn + n) then s.(out := s.out.(win := w.(conn := w.conn + n)), outer := [Schedule])
      else s.(outer := [GoAwayNow(FLOW_CONTROL_ERROR)])
    else if StateOf(s.table, id) == Idle then ConnError(s, id, PROTOCOL_ERROR)
    else if id !in s.table.streams || id !in w.streams then s
    else if Int32(w.streams[id] + n) then
      s.(out := s.out.(win := w.(streams := w.streams[id := w.streams[id] + n])), outer := [Schedule])
    else s.(outer := [Reset(id, FLOW_CONTROL_ERROR)])
  }

  /** What settings leave of the peer and the windows, and the error they end with, if any. */
  datatype Applied = Applied(peer: Peer, win: Windows, error: Option<nat>)

  const ENABLE_PUSH := 2
  const MAX_CONCURRENT_STREAMS := 3
  const INITIAL_WINDOW_SIZE := 4
  const MAX_FRAME_SIZE := 5

  /** Setting.Valid. */
  function SettingError(x: Frames.Setting): Option<nat> {
    if x.id == ENABLE_PUSH && x.val != 1 && x.val != 0 then Some(PROTOCOL_ERROR)
    else if x.id == INITIAL_WINDOW_SIZE && x.val > 0x7fff_ffff then Some(FLOW_CONTROL_ERROR)
    else if x.id == MAX_FRAME_SIZE && (x.val < 16384 || x.val > 0xff_ffff) then Some(PROTOCOL_ERROR)
    else None
  }

  /** processSettingInitialWindowSize; the loop over the streams ends at one whose window would
      overflow, when it has reached some of the others. */
  function ApplyWindow(peer: Peer, win: Windows, val: nat, reached: set<nat>): (r: Applied)
    ensures r.win.conn == win.conn && r.win.streams.Keys == win.streams.Keys && r.error != Some(0)
    ensures r.peer.sawFirstSettings == peer.sawFirstSettings
  {
    var growth := val - peer.initialWindow;
    var fits := forall id :: id in win.streams ==> Int32(win.streams[id] + growth);
    var streams := map id | id in win.streams ::
      if fits || (id in reached && Int32(win.streams[id] + growth)) then win.streams[id] + growth else win.streams[id];
    Applied(peer.(initialWindow := val), win.(streams := streams), if fits then None else Some(FLOW_CONTROL_ERROR))
  }

  /** processSetting. */
  function ApplySetting(peer: Peer, win: Windows, x: Frames.Setting, reached: set<nat>): (r: Applied)
    ensures r.win.conn == win.conn && r.win.streams.Keys == win.streams.Keys && r.error != Some(0)
    ensures r.peer.sawFirstSettings == peer.sawFirstSettings
  {
    if SettingError(x).Some? then Applied(peer, win, SettingError(x))
    else if x.id == ENABLE_PUSH then Applied(peer.(pushEnabled := x.val != 0), win, None)
    else if x.id == MAX_CONCURRENT_STREAMS then Applied(peer.(maxStreams := x.val), win, None)
    else if x.id == INITIAL_WINDOW_SIZE then ApplyWindow(peer, win, x.val, reached)
    else if x.id == MAX_FRAME_SIZE then Applied(peer, win.(maxFrameSize := x.val), None)
    else Applied(peer, win, None)
  }

  /** processSetting for each setting, up to the first error. */
  function ApplySettings(peer: Peer, win: Windows, settings: seq<Frames.Setting>, reached: set<nat>): (r: Applied)
    ensures r.win.conn == win.conn && r.win.streams.Keys == win.streams.Keys && r.error != Some(0)
    ensures r.peer.sawFirstSettings == peer.sawFirstSettings
    decreases |settings|
  {
    if settings == [] then Applied(peer, win, None)
    else
      var r := ApplySetting(peer, win, settings[0], reached);
      if r.error.Some? then r else ApplySettings(r.peer, r.win, settings[1..], reached)
  }

  predicate Duplicates(settings: seq<Frames.Setting>) {
    exists i, j :: 0 <= i < j < |settings| && settings[i].id == settings[j].id
  }

  /** processSettings. */
  function OnSettings(s: Conn, settings: seq<Frames.Setting>, reached: set<nat>): Conn {
    if |settings| > 100 || Duplicates(settings) then ConnError(s, 0, PROTOCOL_ERROR)
    else
      var r := ApplySettings(s.peer, s.out.win, settings, reached);
      var s1 := s.(peer := r.peer, out := s.out.(win := r.win));
      if r.error.None? then s1.(needToSendSettingsAck := true, outer := [Schedule]) else ConnError(s1, 0, r.error.value)
  }

  /** The frames of processFrame that it does not discard. */
  function OnFrame(s: Conn, e: Event): Conn
    requires forall x :: x in s.out.sched.queues ==> Seen(s.table, x)
  {
    match e
    case ReadHeaders(id, ended, bad, refused, busy) => OnHeaders(s, id, ended, bad, refused, busy)
    case ReadData(id, fits, tooMuch, refused, ended) =>
      if id == 0 || StateOf(s.table, id) == Idle then ConnError(s, id, PROTOCOL_ERROR)
      else s.(outer := DataTasks(s.table, id, fits, tooMuch, refused, ended))
    case ReadReset(id) =>
      if StateOf(s.table, id) == Idle then ConnError(s, id, PROTOCOL_ERROR)
      else if id in s.table.streams then s.(outer := [CloseNow(id)]) else s
    case ReadWindowUpdate(id, n) => OnWindowUpdate(s, id, n)
    case ReadSettings(settings, reached) => OnSettings(s, settings, reached)
    case ReadSettingsAck(expected) => if expected then s else ConnError(s, 0, PROTOCOL_ERROR)
    case ReadPing => s.(outer := [Write(Control(PingAck))])
    case ReadGoAway => s.(outer := [GoAwayNow(0), DisablePush])
    case ReadPriority(id, self) => if self then s.(outer := [Reset(id, PROTOCOL_ERROR)]) else s
    case ReadPushPromise(id) => ConnError(s, id, PROTOCOL_ERROR)
    case _ => s
  }

  predicate IsFrame(e: Event) {
    || e.ReadHeaders? || e.ReadData? || e.ReadReset? || e.ReadWindowUpdate? || e.ReadSettings? || e.ReadSettingsAck?
    || e.ReadPing? || e.ReadGoAway? || e.ReadPriority? || e.ReadPushPromise?
  }

  function FrameStream(e: Event): nat {
    match e
    case ReadHeaders(id, _, _, _, _) => id
    case ReadData(id, _, _, _, _) => id
    case ReadReset(id) => id
    case ReadWindowUpdate(id, _) => id
    case ReadPriority(id, _) => id
    case ReadPushPromise(id) => id
    case _ => 0
  }

  /** processFrame. */
  function ProcessFrame(s: Conn, e: Event): Conn
    requires forall x :: x in s.out.sched.queues ==> Seen(s.table, x)
  {
    if !s.peer.sawFirstSettings && !e.ReadSettings? && !e.ReadSettingsAck? then ConnError(s, FrameStream(e), PROTOCOL_ERROR)
    else
      var s1 := s.(peer := s.peer.(sawFirstSettings := true));
      if !Discards(s, FrameStream(e)) then OnFrame(s1, e)
      else if e.ReadData? then s1.(outer := [if e.fits then ConnUpdate else Reset(e.id, FLOW_CONTROL_ERROR)])
      else s1
  }

  /** Messages other than frames. */
  function OnMessage(s: Conn, e: Event): Conn {
    match e
    case ReadTooLarge => s.(outer := [GoAwayNow(FRAME_SIZE_ERROR)])
    case ReadBadStream(id, code) => s.(outer := [Reset(id, code)])
    case HandlerWrites(wr) =>
      s.(outer := [if wr.write.StreamError? then Reset(wr.write.streamID, wr.write.code) else Write(wr)])
    case HandlerPushes(parent) =>
      if (StateOf(s.table, parent) == Open || StateOf(s.table, parent) == HalfClosedRemote) && s.peer.pushEnabled
      then s.(outer := [Write(Request(PushPromise, Some(parent), None))]) else s
    case HandlerRead(id) => s.(outer := [ConnUpdate, AfterBodyRead(id)])
    case WriteDone(free) =>
      if s.flags.inFlight.Some? then s.(free := free, flags := s.flags.(inFlight := None), outer := [Wrote(s.flags.inFlight.value)]) else s
    case Shutdown => s.(outer := [GoAwayNow(0)])
    case _ => s
  }

  /** What happens next when no call is left to carry out. */
  function On(s: Conn, e: Event): Conn
    requires forall x :: x in s.out.sched.queues ==> Seen(s.table, x)
  {
    if IsFrame(e) then ProcessFrame(s, e) else OnMessage(s, e)
  }

  predicate Flushes(w: Writer) {
    w.Flush? || w.GoAway?
  }

  /** What handlers ask to be written. */
  predicate FromHandler(w: Writer) {
    w.Data? || w.ResHeaders? || w.Continue100? || w.HandlerPanicRST? || w.StreamError?
  }

  /** What the outside can do: handlers belong to streams there are or were, and a flush leaves the
      write buffer empty. */
  predicate Possible(s: Conn, e: Event) {
    match e
    case HandlerWrites(wr) => WriterOk(s.table, wr) && FromHandler(wr.write)
    case HandlerPushes(parent) => Seen(s.table, parent) && parent != 0
    case HandlerRead(id) => Seen(s.table, id) && id != 0
    case WriteDone(free) =>
      free <= BUFFER && (s.flags.inFlight.Some? && Flushes(s.flags.inFlight.value.write) ==> free == BUFFER)
    case _ => true
  }

  predicate Ready(s: Conn) {
    s.panic == None && !s.inLoop && s.inner == [] && s.outer == []
  }
}
