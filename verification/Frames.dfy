/** HTTP/2 frames: how they are laid out in bytes and read back (h2_bundle.go; sections 4.1 and 6
    of RFC 7540). */
module Frames {
  import opened Foundations
  import opened DataBuffers

  // ----- Integers in network byte order

  type Uint32 = n: int | 0 <= n < 0x1_0000_0000

  function Be16(n: nat): (s: seq<Byte>)
    requires n < 0x1_0000
  {
    [n / 256, n % 256]
  }

  function Be24(n: nat): (s: seq<Byte>)
    requires n < 0x100_0000
  {
    [n / 256 / 256] + Be16(n % 0x1_0000)
  }

  function Be32(n: Uint32): (s: seq<Byte>) {
    Be16(n / 0x1_0000) + Be16(n % 0x1_0000)
  }

  function Read16(s: seq<Byte>): (n: nat)
    requires |s| >= 2
    ensures n < 0x1_0000
  {
    s[0] as int * 256 + s[1] as int
  }

  function Read24(s: seq<Byte>): nat
    requires |s| >= 3
  {
    s[0] as int * 0x1_0000 + Read16(s[1..])
  }

  function Read32(s: seq<Byte>): Uint32
    requires |s| >= 4
  {
    Read16(s) * 0x1_0000 + Read16(s[2..])
  }

  lemma Int16Back(n: nat, rest: seq<Byte>)
    requires n < 0x1_0000
    ensures Read16(Be16(n) + rest) == n && (Be16(n) + rest)[2..] == rest
  {
  }

  lemma Int24Back(n: nat, rest: seq<Byte>)
    requires n < 0x100_0000
    ensures |Be24(n)| == 3 && Read24(Be24(n) + rest) == n && (Be24(n) + rest)[3..] == rest
  {
    var b := [n / 256 / 256] + Be16(n % 0x1_0000) + rest;
    assert b[1..] == Be16(n % 0x1_0000) + rest;
    Int16Back(n % 0x1_0000, rest);
  }

  lemma Int32Back(n: Uint32, rest: seq<Byte>)
    ensures |Be32(n)| == 4 && Read32(Be32(n) + rest) == n && (Be32(n) + rest)[4..] == rest
  {
    var lo := Be16(n % 0x1_0000) + rest;
    assert Be32(n) + rest == Be16(n / 0x1_0000) + lo;
    Int16Back(n / 0x1_0000, lo);
    Int16Back(n % 0x1_0000, rest);
  }

  /** The value without its high bit. */
  function Low31(n: Uint32): nat {
    if n < 0x8000_0000 then n else n - 0x8000_0000
  }

  // ----- Flags

  const END_STREAM: Byte := 0x1
  const ACK: Byte := 0x1
  const END_HEADERS: Byte := 0x4
  const PADDED: Byte := 0x8
  const PRIORITY: Byte := 0x20

  /** Whether a flag, which is a power of two, is set. */
  predicate Has(flags: Byte, flag: Byte)
    requires flag > 0
  {
    flags / flag % 2 == 1
  }

  function Flag(b: bool, flag: Byte): Byte {
    if b then flag else 0
  }

  // ----- Frames

  const DATA: Byte := 0
  const HEADERS: Byte := 1
  const PRIORITY_UPDATE: Byte := 2
  const RST_STREAM: Byte := 3
  const SETTINGS: Byte := 4
  const PUSH_PROMISE: Byte := 5
  const PING: Byte := 6
  const GOAWAY: Byte := 7
  const WINDOW_UPDATE: Byte := 8
  const CONTINUATION: Byte := 9

  datatype Header = Header(length: nat, kind: Byte, flags: Byte, stream: nat)

  datatype Param = Param(dep: nat, exclusive: bool, weight: Byte)

  const NO_PRIORITY := Param(0, false, 0)

  datatype Body =
    | Data(data: seq<Byte>)
    | Headers(priority: Param, frag: seq<Byte>)
    | Priority(param: Param)
    | RstStream(code: Uint32)
    | Settings(settings: seq<Setting>)
    | PushPromise(promised: nat, frag: seq<Byte>)
    | Ping(opaqueData: seq<Byte>)
    | GoAway(last: nat, code: Uint32, debug: seq<Byte>)
    | WindowUpdate(increment: nat)
    | Continuation(frag: seq<Byte>)
    | Unknown(payload: seq<Byte>)

  datatype Setting = Setting(id: nat, val: Uint32)

  datatype Frame = Frame(h: Header, body: Body)

  datatype Error = Eof | FrameTooLarge | Connection(code: nat) | Stream(id: nat, code: nat)

  const PROTOCOL_ERROR := 1
  const FLOW_CONTROL_ERROR := 3
  const FRAME_SIZE_ERROR := 6

  datatype Parse = Parsed(body: Body) | Bad(error: Error)

  // ----- Parsing

  function ParseData(h: Header, p: seq<Byte>): Parse {
    if h.stream == 0 then Bad(Connection(PROTOCOL_ERROR))
    else if !Has(h.flags, PADDED) then Parsed(Data(p))
    else if |p| == 0 then Bad(Eof)
    else if p[0] > |p| - 1 then Bad(Connection(PROTOCOL_ERROR))
    else Parsed(Data(p[1..|p| - p[0]]))
  }

  function ParseParam(p: seq<Byte>): Param
    requires |p| >= 5
  {
    var v := Read32(p);
    Param(Low31(v), v != Low31(v), p[4])
  }

  function ParseHeaders(h: Header, p: seq<Byte>): Parse {
    if h.stream == 0 then Bad(Connection(PROTOCOL_ERROR))
    else if Has(h.flags, PADDED) && |p| == 0 then Bad(Eof)
    else
      var pad := if Has(h.flags, PADDED) then p[0] else 0;
      var q := if Has(h.flags, PADDED) then p[1..] else p;
      if Has(h.flags, PRIORITY) && |q| < 5 then Bad(Eof)
      else
        var priority := if Has(h.flags, PRIORITY) then ParseParam(q) else NO_PRIORITY;
        var frag := if Has(h.flags, PRIORITY) then q[5..] else q;
        if pad > |frag| then Bad(Stream(h.stream, PROTOCOL_ERROR))
        else Parsed(Headers(priority, frag[..|frag| - pad]))
  }

  function ParsePriority(h: Header, p: seq<Byte>): Parse {
    if h.stream == 0 then Bad(Connection(PROTOCOL_ERROR))
    else if |p| != 5 then Bad(Connection(FRAME_SIZE_ERROR))
    else Parsed(Priority(ParseParam(p)))
  }

  function ParseRstStream(h: Header, p: seq<Byte>): Parse {
    if |p| != 4 then Bad(Connection(FRAME_SIZE_ERROR))
    else if h.stream == 0 then Bad(Connection(PROTOCOL_ERROR))
    else Parsed(RstStream(Read32(p)))
  }

  const INITIAL_WINDOW_SIZE := 4

  function ParseSettingList(p: seq<Byte>): seq<Setting> {
    if |p| < 6 then [] else [Setting(Read16(p), Read32(p[2..]))] + ParseSettingList(p[6..])
  }

  /** The value of the first setting with this ID. */
  function ValueOf(settings: seq<Setting>, id: nat): Option<Uint32> {
    if settings == [] then None else if settings[0].id == id then Some(settings[0].val) else ValueOf(settings[1..], id)
  }

  predicate WindowTooBig(settings: seq<Setting>) {
    var v := ValueOf(settings, INITIAL_WINDOW_SIZE);
    v.Some? && v.value > 0x7fff_ffff
  }

  function ParseSettings(h: Header, p: seq<Byte>): Parse {
    if Has(h.flags, ACK) && |p| > 0 then Bad(Connection(FRAME_SIZE_ERROR))
    else if h.stream != 0 then Bad(Connection(PROTOCOL_ERROR))
    else if |p| % 6 != 0 then Bad(Connection(FRAME_SIZE_ERROR))
    else if WindowTooBig(ParseSettingList(p)) then Bad(Connection(FLOW_CONTROL_ERROR))
    else Parsed(Settings(ParseSettingList(p)))
  }

  function ParsePushPromise(h: Header, p: seq<Byte>): Parse {
    if h.stream == 0 then Bad(Connection(PROTOCOL_ERROR))
    else if Has(h.flags, PADDED) && |p| == 0 then Bad(Eof)
    else
      var pad := if Has(h.flags, PADDED) then p[0] else 0;
      var q := if Has(h.flags, PADDED) then p[1..] else p;
      if |q| < 4 then Bad(Eof)
      else if pad > |q| - 4 then Bad(Connection(PROTOCOL_ERROR))
      else Parsed(PushPromise(Low31(Read32(q)), q[4..|q| - pad]))
  }

  function ParsePing(h: Header, p: seq<Byte>): Parse {
    if |p| != 8 then Bad(Connection(FRAME_SIZE_ERROR))
    else if h.stream != 0 then Bad(Connection(PROTOCOL_ERROR))
    else Parsed(Ping(p))
  }

  function ParseGoAway(h: Header, p: seq<Byte>): Parse {
    if h.stream != 0 then Bad(Connection(PROTOCOL_ERROR))
    else if |p| < 8 then Bad(Connection(FRAME_SIZE_ERROR))
    else Parsed(GoAway(Low31(Read32(p)), Read32(p[4..]), p[8..]))
  }

  function ParseWindowUpdate(h: Header, p: seq<Byte>): Parse {
    if |p| != 4 then Bad(Connection(FRAME_SIZE_ERROR))
    else if Low31(Read32(p)) == 0 then
      Bad(if h.stream == 0 then Connection(PROTOCOL_ERROR) else Stream(h.stream, PROTOCOL_ERROR))
    else Parsed(WindowUpdate(Low31(Read32(p))))
  }

  function ParseContinuation(h: Header, p: seq<Byte>): Parse {
    if h.stream == 0 then Bad(Connection(PROTOCOL_ERROR)) else Parsed(Continuation(p))
  }

  /** The parser for a type of frame. */
  function ParseBody(h: Header, p: seq<Byte>): Parse {
    match h.kind
    case 0 => ParseData(h, p)
    case 1 => ParseHeaders(h, p)
    case 2 => ParsePriority(h, p)
    case 3 => ParseRstStream(h, p)
    case 4 => ParseSettings(h, p)
    case 5 => ParsePushPromise(h, p)
    case 6 => ParsePing(h, p)
    case 7 => ParseGoAway(h, p)
    case 8 => ParseWindowUpdate(h, p)
    case 9 => ParseContinuation(h, p)
    case _ => Parsed(Unknown(p))
  }

  const HEADER_LENGTH := 9

  function ParseHeader(b: seq<Byte>): Header
    requires |b| >= HEADER_LENGTH
  {
    Header(Read24(b), b[3], b[4], Low31(Read32(b[5..])))
  }

  datatype Read = Ok(frame: Frame, rest: seq<Byte>) | Failed(error: Error)

  /** Reading one frame from the bytes that arrive, without the check of the order. */
  function ReadOne(b: seq<Byte>, maxReadSize: nat): Read {
    if |b| < HEADER_LENGTH then Failed(Eof)
    else
      var h := ParseHeader(b);
      if h.length > maxReadSize then Failed(FrameTooLarge)
      else if |b| < HEADER_LENGTH + h.length then Failed(Eof)
      else
        match ParseBody(h, b[HEADER_LENGTH..HEADER_LENGTH + h.length])
        case Bad(error) => Failed(error)
        case Parsed(body) => Ok(Frame(h, body), b[HEADER_LENGTH + h.length..])
  }

  // ----- Writing

  /** What the Write methods of Framer are asked to write. */
  datatype Order =
    | WriteData(stream: Uint32, endStream: bool, data: seq<Byte>, padding: Option<seq<Byte>>)
    | WriteHeaders(stream: Uint32, frag: seq<Byte>, endStream: bool, endHeaders: bool, padLength: Byte, priority: Param)
    | WritePriority(stream: Uint32, priority: Param)
    | WriteRstStream(stream: Uint32, code: Uint32)
    | WriteSettings(settings: seq<Setting>)
    | WriteSettingsAck
    | WritePushPromise(stream: Uint32, promised: Uint32, frag: seq<Byte>, endHeaders: bool, padLength: Byte)
    | WritePing(ack: bool, opaqueData: seq<Byte>)
    | WriteGoAway(last: Uint32, code: Uint32, debug: seq<Byte>)
    | WriteWindowUpdate(stream: Uint32, increment: Uint32)
    | WriteContinuation(stream: Uint32, endHeaders: bool, frag: seq<Byte>)
    | WriteRaw(kind: Byte, flags: Byte, stream: Uint32, payload: seq<Byte>)

  /** The ranges of the types of the arguments. */
  predicate Typed(w: Order) {
    match w
    case WriteHeaders(_, _, _, _, _, priority) => priority.dep < 0x1_0000_0000
    case WritePriority(_, priority) => priority.dep < 0x1_0000_0000
    case WriteSettings(settings) => SettingsTyped(settings)
    case WritePing(_, opaqueData) => |opaqueData| == 8
    case _ => true
  }

  predicate SettingsTyped(settings: seq<Setting>) {
    forall i :: 0 <= i < |settings| ==> settings[i].id < 0x1_0000
  }

  predicate ValidStream(stream: Uint32) {
    0 < stream < 0x8000_0000
  }

  datatype Raw = Raw(kind: Byte, flags: Byte, stream: Uint32, payload: seq<Byte>)

  function Zeros(n: nat): (s: seq<Byte>)
    ensures |s| == n && forall i :: 0 <= i < n ==> s[i] == 0
  {
    seq(n, i => 0)
  }

  function ParamBytes(p: Param): seq<Byte>
    requires p.dep < 0x8000_0000
  {
    Be32(if p.exclusive then p.dep + 0x8000_0000 else p.dep) + [p.weight]
  }

  function SettingBytes(settings: seq<Setting>): seq<Byte>
    requires SettingsTyped(settings)
  {
    if settings == [] then [] else Be16(settings[0].id) + Be32(settings[0].val) + SettingBytes(settings[1..])
  }

  /** The frame that is written, or None for an order that is refused. */
  function Layout(w: Order): Option<Raw>
    requires Typed(w)
  {
    match w
    case WriteData(stream, endStream, data, padding) =>
      if !ValidStream(stream) || (padding.Some? && (|padding.value| > 255 || exists i :: 0 <= i < |padding.value| && padding.value[i] != 0)) then None
      else if padding.None? then Some(Raw(DATA, Flag(endStream, END_STREAM), stream, data))
      else Some(Raw(DATA, Flag(endStream, END_STREAM) + PADDED, stream, [|padding.value|] + data + padding.value))
    case WriteHeaders(stream, frag, endStream, endHeaders, padLength, priority) =>
      if !ValidStream(stream) || priority.dep >= 0x8000_0000 then None
      else Some(Raw(HEADERS, HeadersFlags(endStream, endHeaders, padLength, priority), stream, HeadersBytes(frag, padLength, priority)))
    case WritePriority(stream, priority) =>
      if !ValidStream(stream) || priority.dep >= 0x8000_0000 then None
      else Some(Raw(PRIORITY_UPDATE, 0, stream, ParamBytes(priority)))
    case WriteRstStream(stream, code) =>
      if !ValidStream(stream) then None else Some(Raw(RST_STREAM, 0, stream, Be32(code)))
    case WriteSettings(settings) => Some(Raw(SETTINGS, 0, 0, SettingBytes(settings)))
    case WriteSettingsAck => Some(Raw(SETTINGS, ACK, 0, []))
    case WritePushPromise(stream, promised, frag, endHeaders, padLength) =>
      if !ValidStream(stream) || !ValidStream(promised) then None
      else Some(Raw(PUSH_PROMISE, Flag(padLength != 0, PADDED) + Flag(endHeaders, END_HEADERS), stream,
                    (if padLength != 0 then [padLength] else []) + Be32(promised) + frag + Zeros(padLength)))
    case WritePing(ack, opaqueData) => Some(Raw(PING, Flag(ack, ACK), 0, opaqueData))
    case WriteGoAway(last, code, debug) => Some(Raw(GOAWAY, 0, 0, Be32(Low31(last)) + Be32(code) + debug))
    case WriteWindowUpdate(stream, increment) =>
      if increment < 1 || increment > 0x7fff_ffff then None else Some(Raw(WINDOW_UPDATE, 0, stream, Be32(increment)))
    case WriteContinuation(stream, endHeaders, frag) =>
      if !ValidStream(stream) then None else Some(Raw(CONTINUATION, Flag(endHeaders, END_HEADERS), stream, frag))
    case WriteRaw(kind, flags, stream, payload) => Some(Raw(kind, flags, stream, payload))
  }

  function HeadersFlags(endStream: bool, endHeaders: bool, padLength: Byte, priority: Param): Byte {
    Flag(padLength != 0, PADDED) + Flag(endStream, END_STREAM) + Flag(endHeaders, END_HEADERS) + Flag(priority != NO_PRIORITY, PRIORITY)
  }

  function HeadersBytes(frag: seq<Byte>, padLength: Byte, priority: Param): seq<Byte>
    requires priority.dep < 0x8000_0000
  {
    (if padLength != 0 then [padLength] else []) + (if priority != NO_PRIORITY then ParamBytes(priority) else []) + frag + Zeros(padLength)
  }

  /** The bytes of a frame. */
  function Wire(raw: Raw): (b: seq<Byte>)
    requires |raw.payload| < 0x100_0000
    ensures |b| == HEADER_LENGTH + |raw.payload|
  {
    Be24(|raw.payload|) + [raw.kind, raw.flags] + Be32(raw.stream) + raw.payload
  }

  // ----- Reading undoes writing

  /** What reading the frame gives. */
  function Expected(w: Order): Body {
    match w
    case WriteData(_, _, data, _) => Data(data)
    case WriteHeaders(_, frag, _, _, _, priority) => Headers(priority, frag)
    case WritePriority(_, priority) => Priority(priority)
    case WriteRstStream(_, code) => RstStream(code)
    case WriteSettings(settings) => Settings(settings)
    case WriteSettingsAck => Settings([])
    case WritePushPromise(_, promised, frag, _, _) => PushPromise(promised, frag)
    case WritePing(_, opaqueData) => Ping(opaqueData)
    case WriteGoAway(last, code, debug) => GoAway(Low31(last), code, debug)
    case WriteWindowUpdate(_, increment) => WindowUpdate(increment)
    case WriteContinuation(_, _, frag) => Continuation(frag)
    case WriteRaw(_, _, _, payload) => Unknown(payload)
  }

  /** Orders that are carried out and whose frames a reader of this size takes: stream IDs of 31
      bits, raw frames of types not defined by the standard, no window above the maximum. */
  predicate Legal(w: Order, maxReadSize: nat) {
    && Typed(w) && Layout(w).Some? && |Layout(w).value.payload| <= maxReadSize && Layout(w).value.stream < 0x8000_0000
    && (w.WriteRaw? ==> w.kind > 9)
    && (w.WriteSettings? ==> !WindowTooBig(w.settings))
  }

  function HeaderOf(w: Order): Header
    requires Typed(w) && Layout(w).Some?
  {
    var raw := Layout(w).value;
    Header(|raw.payload|, raw.kind, raw.flags, raw.stream)
  }

  /** Parsing the payload gives what was to be written. */
  predicate ReadsBack(w: Order)
    requires Typed(w) && Layout(w).Some?
  {
    ParseBody(HeaderOf(w), Layout(w).value.payload) == Parsed(Expected(w))
  }

  lemma HeaderBack(raw: Raw, rest: seq<Byte>)
    requires |raw.payload| < 0x100_0000 && raw.stream < 0x8000_0000
    ensures var b := Wire(raw) + rest;
            && ParseHeader(b) == Header(|raw.payload|, raw.kind, raw.flags, raw.stream)
            && b[HEADER_LENGTH..HEADER_LENGTH + |raw.payload|] == raw.payload
            && b[HEADER_LENGTH + |raw.payload|..] == rest
  {
    var b := Wire(raw) + rest;
    var tail := raw.payload + rest;
    Int24Back(|raw.payload|, [raw.kind, raw.flags] + Be32(raw.stream) + tail);
    assert b == Be24(|raw.payload|) + ([raw.kind, raw.flags] + Be32(raw.stream) + tail);
    Int32Back(raw.stream, tail);
    assert b[5..] == Be32(raw.stream) + tail;
  }

  lemma HeadersFlagsBack(endStream: bool, endHeaders: bool, padLength: Byte, priority: Param)
    ensures var flags := HeadersFlags(endStream, endHeaders, padLength, priority);
            && (Has(flags, END_STREAM) <==> endStream) && (Has(flags, END_HEADERS) <==> endHeaders)
            && (Has(flags, PADDED) <==> padLength != 0) && (Has(flags, PRIORITY) <==> priority != NO_PRIORITY)
  {
  }

  lemma PushFlagsBack(padded: bool, endHeaders: bool)
    ensures var flags := Flag(padded, PADDED) + Flag(endHeaders, END_HEADERS);
            (Has(flags, PADDED) <==> padded) && (Has(flags, END_HEADERS) <==> endHeaders)
  {
  }

  lemma ParamBack(p: Param, rest: seq<Byte>)
    requires p.dep < 0x8000_0000
    ensures |ParamBytes(p)| == 5 && ParseParam(ParamBytes(p) + rest) == p && (ParamBytes(p) + rest)[5..] == rest
  {
    var v := if p.exclusive then p.dep + 0x8000_0000 else p.dep;
    Int32Back(v, [p.weight] + rest);
    assert ParamBytes(p) + rest == Be32(v) + ([p.weight] + rest);
  }

  lemma DataBack(w: Order, max: nat)
    requires w.WriteData? && Legal(w, max)
    ensures ReadsBack(w)
  {
  }

  lemma HeadersBack(w: Order, max: nat)
    requires w.WriteHeaders? && Legal(w, max)
    ensures ReadsBack(w)
  {
    HeadersFlagsBack(w.endStream, w.endHeaders, w.padLength, w.priority);
    HeadersBytesBack(w.frag, w.padLength, w.priority);
  }

  /** The parts of the payload, as they are read. */
  lemma HeadersBytesBack(frag: seq<Byte>, padLength: Byte, priority: Param)
    requires priority.dep < 0x8000_0000
    ensures var p := HeadersBytes(frag, padLength, priority);
            && (padLength != 0 ==> |p| > 0 && p[0] == padLength)
            && var q := if padLength != 0 then p[1..] else p;
               && (priority != NO_PRIORITY ==> |q| >= 5 && ParseParam(q) == priority)
               && var tail := if priority != NO_PRIORITY then q[5..] else q;
                  |tail| >= padLength && tail[..|tail| - padLength] == frag
  {
    var p := HeadersBytes(frag, padLength, priority);
    var tail := frag + Zeros(padLength);
    var param := if priority != NO_PRIORITY then ParamBytes(priority) else [];
    var q := if padLength != 0 then p[1..] else p;
    assert q == param + tail;
    if priority != NO_PRIORITY {
      ParamBack(priority, tail);
    } else {
      assert q == tail;
    }
    assert tail[..|tail| - padLength] == frag;
  }

  lemma PushPromiseBack(w: Order, max: nat)
    requires w.WritePushPromise? && Legal(w, max)
    ensures ReadsBack(w)
  {
    PushFlagsBack(w.padLength != 0, w.endHeaders);
    var p := Layout(w).value.payload;
    var tail := w.frag + Zeros(w.padLength);
    var q := if w.padLength != 0 then p[1..] else p;
    assert q == Be32(w.promised) + tail;
    Int32Back(w.promised, tail);
    assert q[4..] == tail;
    assert q[4..|q| - w.padLength] == w.frag;
  }

  lemma {:induction false} SettingsBack(settings: seq<Setting>)
    requires SettingsTyped(settings)
    ensures ParseSettingList(SettingBytes(settings)) == settings && |SettingBytes(settings)| == 6 * |settings|
  {
    if settings != [] {
      var s, rest := settings[0], SettingBytes(settings[1..]);
      SettingsBack(settings[1..]);
      var p := SettingBytes(settings);
      assert p == Be16(s.id) + (Be32(s.val) + rest);
      Int16Back(s.id, Be32(s.val) + rest);
      Int32Back(s.val, rest);
      assert p[6..] == rest;
    }
  }

  lemma GoAwayBack(w: Order, max: nat)
    requires w.WriteGoAway? && Legal(w, max)
    ensures ReadsBack(w)
  {
    var p := Layout(w).value.payload;
    assert p == Be32(Low31(w.last)) + (Be32(w.code) + w.debug);
    Int32Back(Low31(w.last), Be32(w.code) + w.debug);
    Int32Back(w.code, w.debug);
    assert p[4..] == Be32(w.code) + w.debug && p[8..] == w.debug;
  }

  lemma Word(n: Uint32)
    ensures |Be32(n)| == 4 && Read32(Be32(n)) == n
  {
    Int32Back(n, []);
    assert Be32(n) + [] == Be32(n);
  }

  lemma BodyBack(w: Order, max: nat)
    requires Legal(w, max)
    ensures ReadsBack(w)
  {
    match w
    case WriteData(_, _, _, _) => DataBack(w, max);
    case WriteHeaders(_, _, _, _, _, _) => HeadersBack(w, max);
    case WritePriority(_, _) => PriorityBack(w, max);
    case WriteSettings(_) => SettingsFrameBack(w, max);
    case WritePushPromise(_, _, _, _, _) => PushPromiseBack(w, max);
    case WriteGoAway(_, _, _) => GoAwayBack(w, max);
    case _ => OthersBack(w, max);
  }

  lemma PriorityBack(w: Order, max: nat)
    requires w.WritePriority? && Legal(w, max)
    ensures ReadsBack(w)
  {
    ParamBack(w.priority, []);
    assert ParamBytes(w.priority) + [] == ParamBytes(w.priority);
  }

  lemma SettingsFrameBack(w: Order, max: nat)
    requires w.WriteSettings? && Legal(w, max)
    ensures ReadsBack(w)
  {
    SettingsBack(w.settings);
  }

  lemma OthersBack(w: Order, max: nat)
    requires w.WriteRstStream? || w.WriteWindowUpdate? || w.WriteSettingsAck? || w.WritePing? || w.WriteContinuation? || w.WriteRaw?
    requires Legal(w, max)
    ensures ReadsBack(w)
  {
    if w.WriteRstStream? {
      Word(w.code);
    } else if w.WriteWindowUpdate? {
      Word(w.increment);
    }
  }

  /** Reading a frame that was written gives back what was written, whatever follows it. */
  lemma FrameRoundTrip(w: Order, rest: seq<Byte>, max: nat)
    requires Legal(w, max) && max < 0x100_0000
    ensures ReadOne(Wire(Layout(w).value) + rest, max) == Ok(Frame(HeaderOf(w), Expected(w)), rest)
  {
    HeaderBack(Layout(w).value, rest);
    BodyBack(w, max);
  }
}
