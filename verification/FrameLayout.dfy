/** The bytes of frames on the wire, by index and in numbers (sections 4.1 and 6 of RFC 7540):
    what is written, and what is made of any bytes that arrive. */
module FrameLayouts {
  import opened DataBuffers
  import opened Frames
  import opened FrameOrders

  // ----- Numbers

  /** Types, flags and codes (sections 6, 7 and 11.2). */
  lemma Numbers()
    ensures DATA == 0 && HEADERS == 1 && PRIORITY_UPDATE == 2 && RST_STREAM == 3 && SETTINGS == 4
    ensures PUSH_PROMISE == 5 && PING == 6 && GOAWAY == 7 && WINDOW_UPDATE == 8 && CONTINUATION == 9
    ensures END_STREAM == 0x1 && ACK == 0x1 && END_HEADERS == 0x4 && PADDED == 0x8 && PRIORITY == 0x20
    ensures PROTOCOL_ERROR == 1 && FLOW_CONTROL_ERROR == 3 && FRAME_SIZE_ERROR == 6
    ensures HEADER_LENGTH == 9 && INITIAL_WINDOW_SIZE == 4 && MAX_FRAGMENT == 16384
  {
  }

  /** The bytes from i on hold this 16-bit or 32-bit number, the most significant byte first. */
  predicate Holds16(b: seq<Byte>, i: nat, n: int) {
    i + 2 <= |b| && b[i] as int * 0x100 + b[i + 1] as int == n
  }

  predicate Holds32(b: seq<Byte>, i: nat, n: int) {
    i + 4 <= |b| && b[i] as int * 0x100_0000 + b[i + 1] as int * 0x1_0000 + b[i + 2] as int * 0x100 + b[i + 3] as int == n
  }

  lemma Bytes16(n: nat)
    requires n < 0x1_0000
    ensures |Be16(n)| == 2 && Holds16(Be16(n), 0, n)
  {
  }

  lemma Bytes32(n: Uint32)
    ensures |Be32(n)| == 4 && Holds32(Be32(n), 0, n)
  {
    Bytes16(n / 0x1_0000);
    Bytes16(n % 0x1_0000);
  }

  lemma Bytes24(n: nat)
    requires n < 0x100_0000
    ensures |Be24(n)| == 3 && Be24(n)[0] as int * 0x1_0000 + Be24(n)[1] as int * 0x100 + Be24(n)[2] as int == n
  {
    Bytes16(n % 0x1_0000);
  }

  // ----- The header

  lemma WireBytes(raw: Raw)
    requires |raw.payload| < 0x100_0000
    ensures var b := Wire(raw);
            && |b| == 9 + |raw.payload|
            && b[0] as int * 0x1_0000 + b[1] as int * 0x100 + b[2] as int == |raw.payload|
            && b[3] == raw.kind && b[4] == raw.flags
            && b[5] as int * 0x100_0000 + b[6] as int * 0x1_0000 + b[7] as int * 0x100 + b[8] as int == raw.stream
            && b[9..] == raw.payload
  {
    Bytes24(|raw.payload|);
    Bytes32(raw.stream);
    hide Be24, Be32;
    var b := Wire(raw);
    assert b[..3] == Be24(|raw.payload|) && b[5..9] == Be32(raw.stream);
  }

  /** Any nine bytes are a header; the first bit of the stream ID is ignored. */
  lemma HeaderRead(b: seq<Byte>)
    requires |b| >= 9
    ensures var h := ParseHeader(b);
            && h.length == b[0] as int * 0x1_0000 + b[1] as int * 0x100 + b[2] as int
            && h.kind == b[3] && h.flags == b[4]
            && h.stream == b[5] as int % 0x80 * 0x100_0000 + b[6] as int * 0x1_0000 + b[7] as int * 0x100 + b[8] as int
  {
  }

  /** A frame is its header and as many bytes as that says, unless they are too many or have not arrived. */
  lemma FrameRead(b: seq<Byte>, max: nat)
    requires |b| >= 9
    ensures var n, h := b[0] as int * 0x1_0000 + b[1] as int * 0x100 + b[2] as int, ParseHeader(b);
            ReadOne(b, max) == if n > max then Failed(FrameTooLarge)
                               else if |b| < 9 + n then Failed(Eof)
                               else
                                 var r := ParseBody(h, b[9..9 + n]);
                                 if r.Bad? then Failed(r.error) else Ok(Frame(h, r.body), b[9 + n..])
  {
    HeaderRead(b);
    hide ParseHeader, ParseBody;
  }

  // ----- What is written

  function One(b: bool, value: Byte): Byte {
    if b then value else 0
  }

  /** From i on: a dependency, whose first bit says that it is exclusive, and a weight. */
  predicate HoldsParam(b: seq<Byte>, i: nat, p: Param) {
    i + 5 <= |b| && Holds32(b, i, p.dep + if p.exclusive then 0x8000_0000 else 0) && b[i + 4] == p.weight
  }

  /** From i on: the fragment, and that many zeros to the end. */
  predicate EndsWith(b: seq<Byte>, i: nat, frag: seq<Byte>, zeros: nat) {
    |b| == i + |frag| + zeros && b[i..i + |frag|] == frag && forall k :: i + |frag| <= k < |b| ==> b[k] == 0
  }

  /** The frame of an order, field by field. */
  ghost predicate LaidOut(w: Order, r: Raw) {
    match w
    case WriteData(stream, endStream, data, padding) =>
      && r.kind == 0x0 && r.stream == stream && r.flags == One(endStream, 0x1) + One(padding.Some?, 0x8)
      && (if padding.None? then r.payload == data
          else r.payload != [] && r.payload[0] == |padding.value| && EndsWith(r.payload, 1, data, |padding.value|))
    case WriteHeaders(stream, frag, endStream, endHeaders, padLength, priority) =>
      var padded, prior := padLength != 0, priority != Param(0, false, 0);
      var at, start := if padded then 1 else 0, (if padded then 1 else 0) + (if prior then 5 else 0);
      && r.kind == 0x1 && r.stream == stream
      && r.flags == One(endStream, 0x1) + One(endHeaders, 0x4) + One(padded, 0x8) + One(prior, 0x20)
      && (padded ==> r.payload != [] && r.payload[0] == padLength) && (prior ==> HoldsParam(r.payload, at, priority))
      && EndsWith(r.payload, start, frag, padLength)
    case WritePriority(stream, priority) =>
      r.kind == 0x2 && r.stream == stream && r.flags == 0 && |r.payload| == 5 && HoldsParam(r.payload, 0, priority)
    case WriteRstStream(stream, code) =>
      r.kind == 0x3 && r.stream == stream && r.flags == 0 && |r.payload| == 4 && Holds32(r.payload, 0, code)
    case WriteSettings(settings) =>
      && r.kind == 0x4 && r.stream == 0 && r.flags == 0 && |r.payload| == 6 * |settings|
      && forall i :: 0 <= i < |settings| ==> HoldsSetting(r.payload, i, settings[i])
    case WriteSettingsAck => r.kind == 0x4 && r.stream == 0 && r.flags == 0x1 && r.payload == []
    case WritePushPromise(stream, promised, frag, endHeaders, padLength) =>
      var at := if padLength != 0 then 1 else 0;
      && r.kind == 0x5 && r.stream == stream && r.flags == One(endHeaders, 0x4) + One(padLength != 0, 0x8)
      && (padLength != 0 ==> r.payload != [] && r.payload[0] == padLength)
      && Holds32(r.payload, at, promised) && EndsWith(r.payload, at + 4, frag, padLength)
    case WritePing(ack, data) => r.kind == 0x6 && r.stream == 0 && r.flags == One(ack, 0x1) && r.payload == data
    case WriteGoAway(last, code, debug) =>
      && r.kind == 0x7 && r.stream == 0 && r.flags == 0
      && Holds32(r.payload, 0, last % 0x8000_0000) && Holds32(r.payload, 4, code) && EndsWith(r.payload, 8, debug, 0)
    case WriteWindowUpdate(stream, increment) =>
      r.kind == 0x8 && r.stream == stream && r.flags == 0 && |r.payload| == 4 && Holds32(r.payload, 0, increment)
    case WriteContinuation(stream, endHeaders, frag) =>
      r.kind == 0x9 && r.stream == stream && r.flags == One(endHeaders, 0x4) && r.payload == frag
    case WriteRaw(kind, flags, stream, payload) => r == Raw(kind, flags, stream, payload)
  }

  predicate HoldsSetting(b: seq<Byte>, i: nat, s: Setting) {
    6 * i + 6 <= |b| && Holds16(b, 6 * i, s.id) && Holds32(b, 6 * i + 2, s.val)
  }

  /** The orders that are refused: streams that are not, dependencies that do not fit, padding that is
      too long or not zero, increments out of range. */
  predicate Refused(w: Order) {
    match w
    case WriteData(stream, _, _, padding) =>
      stream == 0 || stream >= 0x8000_0000 || (padding.Some? && (|padding.value| > 255 || exists x :: x in padding.value && x != 0))
    case WriteHeaders(stream, _, _, _, _, priority) => stream == 0 || stream >= 0x8000_0000 || priority.dep >= 0x8000_0000
    case WritePriority(stream, priority) => stream == 0 || stream >= 0x8000_0000 || priority.dep >= 0x8000_0000
    case WriteRstStream(stream, _) => stream == 0 || stream >= 0x8000_0000
    case WritePushPromise(stream, promised, _, _, _) =>
      stream == 0 || stream >= 0x8000_0000 || promised == 0 || promised >= 0x8000_0000
    case WriteWindowUpdate(_, increment) => increment == 0 || increment >= 0x8000_0000
    case WriteContinuation(stream, _, _) => stream == 0 || stream >= 0x8000_0000
    case _ => false
  }

  lemma RefusedExactly(w: Order)
    requires Typed(w)
    ensures Layout(w).None? <==> Refused(w)
  {
    if w.WriteData? && w.padding.Some? {
      var pad := w.padding.value;
      forall i | 0 <= i < |pad| && pad[i] != 0
        ensures exists x :: x in pad && x != 0
      {
        assert pad[i] in pad;
      }
    }
  }

  /** Every order that is not refused is laid out so. */
  lemma LayoutBytes(w: Order)
    requires Typed(w) && Layout(w).Some?
    ensures LaidOut(w, Layout(w).value)
  {
    match w
    case WriteHeaders(_, _, _, _, _, _) => HeadersLaidOut(w);
    case WritePriority(_, priority) => ParamLaidOut(priority, []);
    case WriteRstStream(_, code) => Bytes32(code);
    case WriteSettings(settings) => SettingsLaidOut(settings);
    case WritePushPromise(_, _, _, _, _) => PushLaidOut(w);
    case WriteGoAway(_, _, _) => GoAwayLaidOut(w);
    case WriteWindowUpdate(_, increment) => Bytes32(increment);
    case _ =>
  }

  /** A number keeps its place behind other bytes. */
  lemma Moved32(a: seq<Byte>, n: Uint32, rest: seq<Byte>)
    ensures Holds32(a + Be32(n) + rest, |a|, n) && |Be32(n)| == 4
  {
    Bytes32(n);
    hide Be32;
    var b := a + Be32(n) + rest;
    assert b[|a|] == Be32(n)[0] && b[|a| + 1] == Be32(n)[1] && b[|a| + 2] == Be32(n)[2] && b[|a| + 3] == Be32(n)[3];
  }

  lemma ParamLaidOut(p: Param, a: seq<Byte>)
    requires p.dep < 0x8000_0000
    ensures forall rest: seq<Byte> :: HoldsParam(a + ParamBytes(p) + rest, |a|, p)
    ensures HoldsParam(ParamBytes(p), 0, p) && |ParamBytes(p)| == 5
  {
    var v := if p.exclusive then p.dep + 0x8000_0000 else p.dep;
    forall rest: seq<Byte>
      ensures HoldsParam(a + ParamBytes(p) + rest, |a|, p)
    {
      Moved32(a, v, [p.weight] + rest);
      assert a + ParamBytes(p) + rest == a + Be32(v) + ([p.weight] + rest);
      hide Be32;
    }
    Moved32([], v, [p.weight]);
    assert ParamBytes(p) == [] + Be32(v) + [p.weight];
  }

  lemma HeadersLaidOut(w: Order)
    requires w.WriteHeaders? && Typed(w) && Layout(w).Some?
    ensures LaidOut(w, Layout(w).value)
  {
    var pad := if w.padLength != 0 then [w.padLength] else [];
    var tail := w.frag + Zeros(w.padLength);
    ParamLaidOut(w.priority, pad);
    var param := if w.priority != NO_PRIORITY then ParamBytes(w.priority) else [];
    hide ParamBytes, HoldsParam;
    assert HeadersBytes(w.frag, w.padLength, w.priority) == pad + param + tail;
  }

  lemma PushLaidOut(w: Order)
    requires w.WritePushPromise? && Typed(w) && Layout(w).Some?
    ensures LaidOut(w, Layout(w).value)
  {
    var pad := if w.padLength != 0 then [w.padLength] else [];
    Moved32(pad, w.promised, w.frag + Zeros(w.padLength));
    hide Be32;
    assert Layout(w).value.payload == pad + Be32(w.promised) + (w.frag + Zeros(w.padLength));
  }

  lemma GoAwayLaidOut(w: Order)
    requires w.WriteGoAway?
    ensures LaidOut(w, Layout(w).value)
  {
    var last := w.last % 0x8000_0000;
    assert last == Low31(w.last);
    Moved32([], last, Be32(w.code) + w.debug);
    Moved32(Be32(last), w.code, w.debug);
    hide Be32;
    var p := Layout(w).value.payload;
    assert p == [] + Be32(last) + (Be32(w.code) + w.debug);
  }

  lemma {:induction false} SettingsLaidOut(settings: seq<Setting>)
    requires SettingsTyped(settings)
    ensures |SettingBytes(settings)| == 6 * |settings|
    ensures forall i :: 0 <= i < |settings| ==> HoldsSetting(SettingBytes(settings), i, settings[i])
  {
    if settings != [] {
      var b, rest := SettingBytes(settings), SettingBytes(settings[1..]);
      SettingsLaidOut(settings[1..]);
      FirstLaidOut(settings);
      hide SettingBytes;
      forall i | 0 <= i < |settings|
        ensures HoldsSetting(b, i, settings[i])
      {
        if i > 0 {
          LaterLaidOut(b, rest, i - 1, settings[i]);
        }
      }
    }
  }

  lemma FirstLaidOut(settings: seq<Setting>)
    requires SettingsTyped(settings) && settings != []
    ensures var b := SettingBytes(settings);
            && |b| == 6 + |SettingBytes(settings[1..])| && b[6..] == SettingBytes(settings[1..]) && HoldsSetting(b, 0, settings[0])
  {
    var s, rest := settings[0], SettingBytes(settings[1..]);
    Bytes16(s.id);
    Moved32(Be16(s.id), s.val, rest);
    hide Be16, Be32;
    var b := SettingBytes(settings);
    assert b == Be16(s.id) + Be32(s.val) + rest;
    assert b[0] == Be16(s.id)[0] && b[1] == Be16(s.id)[1];
  }

  lemma LaterLaidOut(b: seq<Byte>, rest: seq<Byte>, i: nat, s: Setting)
    requires |b| == 6 + |rest| && b[6..] == rest && HoldsSetting(rest, i, s)
    ensures HoldsSetting(b, i + 1, s)
  {
    assert forall k :: 0 <= k < |rest| ==> b[6 + k] == rest[k];
    assert 6 * (i + 1) == 6 + 6 * i;
  }

  // ----- What is read

  /** The same without the first bit. */
  predicate Holds31(b: seq<Byte>, i: nat, n: int) {
    i + 4 <= |b| && b[i] as int % 0x80 * 0x100_0000 + b[i + 1] as int * 0x1_0000 + b[i + 2] as int * 0x100 + b[i + 3] as int == n
  }

  /** Bytes from i on to the padding, which is not looked at. */
  predicate Fragment(b: seq<Byte>, i: nat, frag: seq<Byte>, padding: nat) {
    |b| == i + |frag| + padding && b[i..i + |frag|] == frag
  }

  /** Whether bit 2^3 or 2^5 of the flags is set. */
  predicate Padded(h: Header) {
    h.flags as int / 8 % 2 == 1
  }

  predicate Prioritized(h: Header) {
    h.flags as int / 32 % 2 == 1
  }

  function PadOf(h: Header, p: seq<Byte>): nat {
    if Padded(h) && p != [] then p[0] else 0
  }

  predicate DataRead(h: Header, p: seq<Byte>, r: Parse) {
    if h.stream == 0 then r == Bad(Connection(1))
    else if Padded(h) && p == [] then r == Bad(Eof)
    else if Padded(h) && p[0] >= |p| then r == Bad(Connection(1))
    else r.Parsed? && r.body.Data? && Fragment(p, if Padded(h) then 1 else 0, r.body.data, PadOf(h, p))
  }

  predicate HeadersRead(h: Header, p: seq<Byte>, r: Parse) {
    var at := if Padded(h) then 1 else 0;
    var start := if Prioritized(h) then at + 5 else at;
    if h.stream == 0 then r == Bad(Connection(1))
    else if |p| < start then r == Bad(Eof)
    else if |p| < start + PadOf(h, p) then r == Bad(Stream(h.stream, 1))
    else
      && r.Parsed? && r.body.Headers? && Fragment(p, start, r.body.frag, PadOf(h, p))
      && if Prioritized(h) then HoldsParam(p, at, r.body.priority) && r.body.priority.dep < 0x8000_0000
         else r.body.priority == Param(0, false, 0)
  }

  predicate PriorityRead(h: Header, p: seq<Byte>, r: Parse) {
    if h.stream == 0 then r == Bad(Connection(1))
    else if |p| != 5 then r == Bad(Connection(6))
    else r.Parsed? && r.body.Priority? && HoldsParam(p, 0, r.body.param) && r.body.param.dep < 0x8000_0000
  }

  predicate RstStreamRead(h: Header, p: seq<Byte>, r: Parse) {
    if |p| != 4 then r == Bad(Connection(6))
    else if h.stream == 0 then r == Bad(Connection(1))
    else r.Parsed? && r.body.RstStream? && Holds32(p, 0, r.body.code)
  }

  /** At place i there is a setting of the initial window. */
  predicate WindowAt(p: seq<Byte>, i: nat) {
    6 * i + 6 <= |p| && p[6 * i] == 0 && p[6 * i + 1] == 4
  }

  /** The first of these is above the largest window. */
  ghost predicate FirstTooBig(p: seq<Byte>) {
    exists i: nat :: WindowAt(p, i) && p[6 * i + 2] >= 0x80 && forall j: nat :: j < i ==> !WindowAt(p, j)
  }

  ghost predicate SettingsRead(h: Header, p: seq<Byte>, r: Parse) {
    if h.flags as int % 2 == 1 && p != [] then r == Bad(Connection(6))
    else if h.stream != 0 then r == Bad(Connection(1))
    else if |p| % 6 != 0 then r == Bad(Connection(6))
    else if FirstTooBig(p) then r == Bad(Connection(3))
    else
      && r.Parsed? && r.body.Settings? && |p| == 6 * |r.body.settings|
      && forall i :: 0 <= i < |r.body.settings| ==> HoldsSetting(p, i, r.body.settings[i])
  }

  predicate PushPromiseRead(h: Header, p: seq<Byte>, r: Parse) {
    var at := if Padded(h) then 1 else 0;
    if h.stream == 0 then r == Bad(Connection(1))
    else if |p| < at + 4 then r == Bad(Eof)
    else if |p| < at + 4 + PadOf(h, p) then r == Bad(Connection(1))
    else
      && r.Parsed? && r.body.PushPromise? && Holds31(p, at, r.body.promised)
      && Fragment(p, at + 4, r.body.frag, PadOf(h, p))
  }

  predicate PingRead(h: Header, p: seq<Byte>, r: Parse) {
    if |p| != 8 then r == Bad(Connection(6))
    else if h.stream != 0 then r == Bad(Connection(1))
    else r == Parsed(Ping(p))
  }

  predicate GoAwayRead(h: Header, p: seq<Byte>, r: Parse) {
    if h.stream != 0 then r == Bad(Connection(1))
    else if |p| < 8 then r == Bad(Connection(6))
    else
      && r.Parsed? && r.body.GoAway?
      && Holds31(p, 0, r.body.last) && Holds32(p, 4, r.body.code) && Fragment(p, 8, r.body.debug, 0)
  }

  predicate WindowUpdateRead(h: Header, p: seq<Byte>, r: Parse) {
    if |p| != 4 then r == Bad(Connection(6))
    else if Holds31(p, 0, 0) then r == Bad(if h.stream == 0 then Connection(1) else Stream(h.stream, 1))
    else r.Parsed? && r.body.WindowUpdate? && Holds31(p, 0, r.body.increment)
  }

  predicate ContinuationRead(h: Header, p: seq<Byte>, r: Parse) {
    r == if h.stream == 0 then Bad(Connection(1)) else Parsed(Continuation(p))
  }

  /** What is made of a payload, for each type of frame. */
  ghost predicate BodyRead(h: Header, p: seq<Byte>, r: Parse) {
    match h.kind
    case 0 => DataRead(h, p, r)
    case 1 => HeadersRead(h, p, r)
    case 2 => PriorityRead(h, p, r)
    case 3 => RstStreamRead(h, p, r)
    case 4 => SettingsRead(h, p, r)
    case 5 => PushPromiseRead(h, p, r)
    case 6 => PingRead(h, p, r)
    case 7 => GoAwayRead(h, p, r)
    case 8 => WindowUpdateRead(h, p, r)
    case 9 => ContinuationRead(h, p, r)
    case _ => r == Parsed(Unknown(p))
  }

  /** Whatever bytes arrive, this is what is made of them. */
  lemma AnyBody(h: Header, p: seq<Byte>)
    ensures BodyRead(h, p, ParseBody(h, p))
  {
    if h.kind == 1 {
      AnyHeaders(h, p);
    } else if h.kind == 2 {
      AnyPriority(h, p);
    } else if h.kind == 4 {
      AnySettings(h, p);
    } else if h.kind == 5 {
      AnyPushPromise(h, p);
    } else {
      AnyOther(h, p);
    }
  }

  lemma AnyOther(h: Header, p: seq<Byte>)
    requires h.kind !in {1, 2, 4, 5}
    ensures BodyRead(h, p, ParseBody(h, p))
  {
    if |p| >= 4 {
      Read31(p, 0);
      assert p[0..] == p;
      if |p| >= 8 {
        Read31(p, 4);
      }
    }
    hide Read32, Low31;
  }

  lemma Read31(b: seq<Byte>, i: nat)
    requires i + 4 <= |b|
    ensures Holds32(b, i, Read32(b[i..])) && Holds31(b, i, Low31(Read32(b[i..])))
    ensures Read32(b[i..]) == Low31(Read32(b[i..])) + if Read32(b[i..]) >= 0x8000_0000 then 0x8000_0000 else 0
    ensures Low31(Read32(b[i..])) < 0x8000_0000
  {
    var c := b[i..];
    assert c[0] == b[i] && c[1] == b[i + 1] && c[2] == b[i + 2] && c[3] == b[i + 3];
    assert c[2..][0] == b[i + 2] && c[2..][1] == b[i + 3];
  }

  lemma AnyParam(b: seq<Byte>, i: nat)
    requires i + 5 <= |b|
    ensures HoldsParam(b, i, ParseParam(b[i..])) && ParseParam(b[i..]).dep < 0x8000_0000
  {
    Read31(b, i);
    hide Read32;
  }

  lemma AnyHeaders(h: Header, p: seq<Byte>)
    ensures HeadersRead(h, p, ParseHeaders(h, p))
  {
    var at := if Padded(h) then 1 else 0;
    if |p| >= at {
      assert (if Padded(h) then p[1..] else p) == p[at..];
      if Prioritized(h) && |p| >= at + 5 {
        AnyParam(p, at);
        assert p[at..][5..] == p[at + 5..];
      }
    }
    hide ParseParam, HoldsParam;
  }

  lemma AnyPriority(h: Header, p: seq<Byte>)
    ensures PriorityRead(h, p, ParsePriority(h, p))
  {
    if |p| == 5 {
      AnyParam(p, 0);
      assert p[0..] == p;
    }
  }

  lemma AnyPushPromise(h: Header, p: seq<Byte>)
    ensures PushPromiseRead(h, p, ParsePushPromise(h, p))
  {
    var at := if Padded(h) then 1 else 0;
    if |p| >= at + 4 {
      assert (if Padded(h) then p[1..] else p) == p[at..];
      Read31(p, at);
    }
    hide Read32, Low31, Holds31;
  }

  lemma AnySettings(h: Header, p: seq<Byte>)
    ensures SettingsRead(h, p, ParseSettings(h, p))
  {
    if |p| % 6 == 0 {
      AnyList(p);
      FirstWindow(p);
    }
    hide ParseSettingList, WindowTooBig, FirstTooBig, HoldsSetting;
  }

  lemma {:induction false} AnyList(p: seq<Byte>)
    requires |p| % 6 == 0
    ensures |p| == 6 * |ParseSettingList(p)|
    ensures forall i :: 0 <= i < |ParseSettingList(p)| ==> HoldsSetting(p, i, ParseSettingList(p)[i])
  {
    if |p| >= 6 {
      var list, rest := ParseSettingList(p), ParseSettingList(p[6..]);
      AnyList(p[6..]);
      FirstRead(p);
      hide ParseSettingList;
      forall i | 0 <= i < |list|
        ensures HoldsSetting(p, i, list[i])
      {
        if i > 0 {
          LaterLaidOut(p, p[6..], i - 1, list[i]);
        }
      }
    }
  }

  lemma FirstRead(p: seq<Byte>)
    requires |p| >= 6
    ensures var list := ParseSettingList(p); list == [list[0]] + ParseSettingList(p[6..]) && HoldsSetting(p, 0, list[0])
  {
    Read31(p, 2);
    hide Read32;
  }

  lemma {:induction false} FirstWindow(p: seq<Byte>)
    requires |p| % 6 == 0
    ensures WindowTooBig(ParseSettingList(p)) <==> FirstTooBig(p)
  {
    if |p| >= 6 {
      var first, rest := ParseSettingList(p)[0], p[6..];
      FirstRead(p);
      FirstWindow(rest);
      FirstIs(p, first);
      hide ParseSettingList, HoldsSetting;
      if WindowAt(p, 0) {
        if FirstTooBig(p) {
          var i: nat :| WindowAt(p, i) && p[6 * i + 2] >= 0x80 && forall j: nat :: j < i ==> !WindowAt(p, j);
          assert i == 0;
        }
      } else {
        LaterTooBig(p);
      }
    }
  }

  lemma FirstIs(p: seq<Byte>, s: Setting)
    requires HoldsSetting(p, 0, s)
    ensures s.id == 4 <==> WindowAt(p, 0)
    ensures s.val > 0x7fff_ffff <==> p[2] >= 0x80
  {
  }

  lemma LaterTooBig(p: seq<Byte>)
    requires |p| >= 6 && !WindowAt(p, 0)
    ensures FirstTooBig(p) <==> FirstTooBig(p[6..])
  {
    var rest := p[6..];
    assert forall i: nat :: WindowAt(rest, i) <==> WindowAt(p, i + 1);
    if FirstTooBig(p) {
      var i: nat :| WindowAt(p, i) && p[6 * i + 2] >= 0x80 && forall j: nat :: j < i ==> !WindowAt(p, j);
      assert WindowAt(rest, i - 1) && rest[6 * (i - 1) + 2] == p[6 * i + 2];
    }
    if FirstTooBig(rest) {
      var i: nat :| WindowAt(rest, i) && rest[6 * i + 2] >= 0x80 && forall j: nat :: j < i ==> !WindowAt(rest, j);
      assert p[6 * (i + 1) + 2] == rest[6 * i + 2];
      forall j: nat | 0 < j < i + 1
        ensures !WindowAt(p, j)
      {
        assert !WindowAt(rest, j - 1);
      }
    }
  }

  // ----- Some frames

  /** A SETTINGS frame that allows 100 streams, its acknowledgement, and the HEADERS of a request. */
  lemma SettingsFrame()
    ensures Wire(Layout(WriteSettings([Setting(3, 100)])).value) == [0, 0, 6, 4, 0, 0, 0, 0, 0, 0, 3, 0, 0, 0, 100]
  {
    assert SettingBytes([Setting(3, 100)]) == [0, 3, 0, 0, 0, 100];
  }

  lemma AckFrame()
    ensures Wire(Layout(WriteSettingsAck).value) == [0, 0, 0, 4, 1, 0, 0, 0, 0]
  {
  }

  lemma HeadersFrame()
    ensures Wire(Layout(WriteHeaders(1, [0x82], true, true, 0, NO_PRIORITY)).value) == [0, 0, 1, 1, 5, 0, 0, 0, 1, 0x82]
  {
  }
}
