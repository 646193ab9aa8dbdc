/** The framer: its write methods build a frame in a buffer and send it, ReadFrame takes the next
    frame from the bytes that arrive (h2_bundle.go, Framer). */
module Framers {
  import opened Foundations
  import opened DataBuffers
  import opened Frames
  import opened FrameOrders

  /** What a write method does: it sends the frame, or refuses and sends nothing. */
  predicate Wrote(before: seq<Byte>, after: seq<Byte>, w: Order, ok: bool)
    requires Typed(w)
  {
    var raw := Layout(w);
    if raw.None? || |raw.value.payload| >= 0x100_0000 then !ok && after == before
    else ok && after == before + Wire(raw.value)
  }

  class Framer {
    var wbuf: seq<Byte>
    var sent: seq<Byte>
    var arriving: seq<Byte>
    var lastHeaderStream: nat
    const maxReadSize: nat

    constructor (arriving: seq<Byte>, maxReadSize: nat)
      ensures wbuf == sent == [] && this.arriving == arriving && lastHeaderStream == 0 && this.maxReadSize == maxReadSize
    {
      wbuf, sent, this.arriving, lastHeaderStream, this.maxReadSize := [], [], arriving, 0, maxReadSize;
    }

    /** startWrite: the header, with the length left out. */
    method StartWrite(kind: Byte, flags: Byte, stream: Uint32)
      modifies this`wbuf
      ensures wbuf == [0, 0, 0, kind, flags] + Be32(stream)
    {
      wbuf := [0, 0, 0, kind, flags] + Be32(stream);
    }

    /** endWrite: the length is filled in and the frame sent. */
    method EndWrite(ghost raw: Raw) returns (ok: bool)
      requires wbuf == [0, 0, 0, raw.kind, raw.flags] + Be32(raw.stream) + raw.payload
      modifies this`wbuf, this`sent
      ensures ok <==> |raw.payload| < 0x100_0000
      ensures sent == if ok then old(sent) + Wire(raw) else old(sent)
    {
      var length := |wbuf| - HEADER_LENGTH;
      if length >= 0x100_0000 {
        return false;
      }
      wbuf := Be24(length) + wbuf[3..];
      sent := sent + wbuf;
      Filled(raw);
      return true;
    }

    method WriteDataPadded(stream: Uint32, endStream: bool, data: seq<Byte>, padding: Option<seq<Byte>>) returns (ok: bool)
      modifies this`wbuf, this`sent
      ensures Wrote(old(sent), sent, WriteData(stream, endStream, data, padding), ok)
    {
      if !ValidStream(stream) {
        return false;
      }
      if padding.Some? {
        if |padding.value| > 255 {
          return false;
        }
        for i := 0 to |padding.value|
          invariant sent == old(sent)
          invariant forall j :: 0 <= j < i ==> padding.value[j] == 0
        {
          if padding.value[i] != 0 {
            return false;
          }
        }
      }
      var flags: Byte := Flag(endStream, END_STREAM);
      if padding.Some? {
        flags := flags + PADDED;
      }
      StartWrite(DATA, flags, stream);
      if padding.Some? {
        wbuf := wbuf + [|padding.value|];
      }
      wbuf := wbuf + data;
      if padding.Some? {
        wbuf := wbuf + padding.value;
      }
      ok := EndWrite(Layout(WriteData(stream, endStream, data, padding)).value);
    }

    method WriteHeadersFrame(stream: Uint32, frag: seq<Byte>, endStream: bool, endHeaders: bool, padLength: Byte, priority: Param)
      returns (ok: bool)
      requires priority.dep < 0x1_0000_0000
      modifies this`wbuf, this`sent
      ensures Wrote(old(sent), sent, WriteHeaders(stream, frag, endStream, endHeaders, padLength, priority), ok)
    {
      if !ValidStream(stream) {
        return false;
      }
      StartWrite(HEADERS, HeadersFlags(endStream, endHeaders, padLength, priority), stream);
      if padLength != 0 {
        wbuf := wbuf + [padLength];
      }
      if priority != NO_PRIORITY {
        if priority.dep >= 0x8000_0000 {
          return false;
        }
        wbuf := wbuf + ParamBytes(priority);
      }
      wbuf := wbuf + frag;
      wbuf := wbuf + Zeros(padLength);
      Appended([0, 0, 0, HEADERS, HeadersFlags(endStream, endHeaders, padLength, priority)] + Be32(stream), frag, padLength, priority);
      ok := EndWrite(Layout(WriteHeaders(stream, frag, endStream, endHeaders, padLength, priority)).value);
    }

    method WriteContinuationFrame(stream: Uint32, endHeaders: bool, frag: seq<Byte>) returns (ok: bool)
      modifies this`wbuf, this`sent
      ensures Wrote(old(sent), sent, WriteContinuation(stream, endHeaders, frag), ok)
    {
      if !ValidStream(stream) {
        return false;
      }
      StartWrite(CONTINUATION, Flag(endHeaders, END_HEADERS), stream);
      wbuf := wbuf + frag;
      ok := EndWrite(Layout(WriteContinuation(stream, endHeaders, frag)).value);
    }

    method WriteSettingsFrame(settings: seq<Setting>) returns (ok: bool)
      requires SettingsTyped(settings)
      modifies this`wbuf, this`sent
      ensures Wrote(old(sent), sent, WriteSettings(settings), ok)
    {
      StartWrite(SETTINGS, 0, 0);
      ghost var head := wbuf;
      assert settings[..0] == [];
      for i := 0 to |settings|
        invariant sent == old(sent) && wbuf == head + SettingBytes(settings[..i])
      {
        SettingBytesNext(settings, i);
        wbuf := wbuf + Be16(settings[i].id);
        wbuf := wbuf + Be32(settings[i].val);
      }
      assert settings[..|settings|] == settings;
      ok := EndWrite(Layout(WriteSettings(settings)).value);
    }

    /** splitHeaderBlock with the function that writes the frames of a response. */
    method WriteHeaderBlock(stream: Uint32, endStream: bool, block: seq<Byte>) returns (ok: bool)
      requires ValidStream(stream)
      modifies this`wbuf, this`sent
      ensures block != [] ==>
                && AllLegal(BlockOrders(stream, endStream, block), MAX_FRAGMENT)
                && sent == old(sent) + WireAll(BlockOrders(stream, endStream, block), MAX_FRAGMENT)
      ensures block == [] ==> sent == old(sent)
      ensures ok
    {
      var rest := block;
      var first := true;
      ok := true;
      if block != [] {
        BlockRead(stream, endStream, block, MAX_FRAGMENT);
      }
      while |rest| > 0
        invariant ok && (first ==> rest == block)
        invariant block != [] ==> Remaining(stream, endStream, block, rest, first, old(sent), sent)
        invariant block == [] ==> rest == [] && sent == old(sent)
        decreases |rest|
      {
        var frag := rest;
        if |frag| > MAX_FRAGMENT {
          frag := frag[..MAX_FRAGMENT];
        }
        RemainingNext(stream, endStream, block, rest, first, old(sent), sent);
        rest := rest[|frag|..];
        if first {
          ok := WriteHeadersFrame(stream, frag, endStream, |rest| == 0, 0, NO_PRIORITY);
        } else {
          ok := WriteContinuationFrame(stream, |rest| == 0, frag);
        }
        first := false;
      }
      if block != [] {
        RemainingDone(stream, endStream, block, rest, first, old(sent), sent);
      }
    }

    /** ReadFrame. */
    method ReadFrame() returns (r: Read)
      modifies this`arriving, this`lastHeaderStream
      ensures match ReadOne(old(arriving), maxReadSize)
              case Failed(error) => r == Failed(error) && lastHeaderStream == old(lastHeaderStream)
              case Ok(f, rest) =>
                match CheckOrder(old(lastHeaderStream), f)
                case None => r == Failed(Connection(PROTOCOL_ERROR)) && lastHeaderStream == old(lastHeaderStream)
                case Some(next) => r == Ok(f, rest) && arriving == rest && lastHeaderStream == next
    {
      if |arriving| < HEADER_LENGTH {
        return Failed(Eof);
      }
      var h := ParseHeader(arriving);
      if h.length > maxReadSize {
        return Failed(FrameTooLarge);
      }
      if |arriving| < HEADER_LENGTH + h.length {
        return Failed(Eof);
      }
      var payload := arriving[HEADER_LENGTH..HEADER_LENGTH + h.length];
      arriving := arriving[HEADER_LENGTH + h.length..];
      var parsed := ParseBody(h, payload);
      if parsed.Bad? {
        return Failed(parsed.error);
      }
      var f := Frame(h, parsed.body);
      var ok := CheckFrameOrder(f);
      if !ok {
        return Failed(Connection(PROTOCOL_ERROR));
      }
      return Ok(f, arriving);
    }

    /** checkFrameOrder. */
    method CheckFrameOrder(f: Frame) returns (ok: bool)
      modifies this`lastHeaderStream
      ensures ok <==> CheckOrder(old(lastHeaderStream), f).Some?
      ensures lastHeaderStream == if ok then CheckOrder(old(lastHeaderStream), f).value else old(lastHeaderStream)
    {
      if lastHeaderStream != 0 {
        if f.h.kind != CONTINUATION {
          return false;
        }
        if f.h.stream != lastHeaderStream {
          return false;
        }
      } else if f.h.kind == CONTINUATION {
        return false;
      }
      if f.h.kind == HEADERS || f.h.kind == CONTINUATION {
        if Has(f.h.flags, END_HEADERS) {
          lastHeaderStream := 0;
        } else {
          lastHeaderStream := f.h.stream;
        }
      }
      return true;
    }
  }

  lemma Filled(raw: Raw)
    requires |raw.payload| < 0x100_0000
    ensures Be24(|raw.payload|) + ([0, 0, 0, raw.kind, raw.flags] + Be32(raw.stream) + raw.payload)[3..] == Wire(raw)
  {
  }

  lemma Appended(head: seq<Byte>, frag: seq<Byte>, padLength: Byte, priority: Param)
    requires priority.dep < 0x8000_0000
    ensures head + HeadersBytes(frag, padLength, priority)
            == (var a := if padLength != 0 then head + [padLength] else head;
                (if priority != NO_PRIORITY then a + ParamBytes(priority) else a) + frag + Zeros(padLength))
  {
  }

  lemma {:induction false} SettingBytesNext(settings: seq<Setting>, i: nat)
    requires SettingsTyped(settings) && i < |settings|
    ensures SettingBytes(settings[..i + 1]) == SettingBytes(settings[..i]) + Be16(settings[i].id) + Be32(settings[i].val)
  {
    if i == 0 {
      assert settings[..1] == [settings[0]];
    } else {
      SettingBytesNext(settings[1..], i - 1);
      assert settings[..i + 1][1..] == settings[1..][..i];
      assert settings[..i][1..] == settings[1..][..i - 1];
    }
  }

  // ----- The loop that writes a header block

  /** What is still to be written, in front of what has been. */
  ghost predicate Remaining(stream: Uint32, endStream: bool, block: seq<Byte>, rest: seq<Byte>, first: bool,
                            before: seq<Byte>, sent: seq<Byte>)
  {
    var left := if first then BlockOrders(stream, endStream, rest) else Continuations(stream, rest);
    && AllLegal(BlockOrders(stream, endStream, block), MAX_FRAGMENT) && AllLegal(left, MAX_FRAGMENT)
    && sent + WireAll(left, MAX_FRAGMENT) == before + WireAll(BlockOrders(stream, endStream, block), MAX_FRAGMENT)
  }

  lemma RemainingNext(stream: Uint32, endStream: bool, block: seq<Byte>, rest: seq<Byte>, first: bool,
                      before: seq<Byte>, sent: seq<Byte>)
    requires Remaining(stream, endStream, block, rest, first, before, sent) && rest != [] && ValidStream(stream)
    ensures var frag := Fragment(rest);
            var w := if first then WriteHeaders(stream, frag, endStream, |frag| == |rest|, 0, NO_PRIORITY)
                     else WriteContinuation(stream, |frag| == |rest|, frag);
            && Legal(w, MAX_FRAGMENT)
            && Remaining(stream, endStream, block, rest[|frag|..], false, before, sent + Wire(Layout(w).value))
  {
    var left := if first then BlockOrders(stream, endStream, rest) else Continuations(stream, rest);
    assert left[1..] == Continuations(stream, rest[|Fragment(rest)|..]);
    FirstWritten(left, sent);
    hide Legal, Layout, Wire, AllLegal, WireAll;
  }

  lemma FirstWritten(left: seq<Order>, sent: seq<Byte>)
    requires left != [] && AllLegal(left, MAX_FRAGMENT)
    ensures Legal(left[0], MAX_FRAGMENT) && AllLegal(left[1..], MAX_FRAGMENT)
    ensures sent + WireAll(left, MAX_FRAGMENT) == (sent + Wire(Layout(left[0]).value)) + WireAll(left[1..], MAX_FRAGMENT)
  {
    assert Legal(left[0], MAX_FRAGMENT);
    hide Legal, Layout, Wire;
  }

  lemma RemainingDone(stream: Uint32, endStream: bool, block: seq<Byte>, rest: seq<Byte>, first: bool,
                      before: seq<Byte>, sent: seq<Byte>)
    requires Remaining(stream, endStream, block, rest, first, before, sent) && rest == []
    ensures sent == before + WireAll(BlockOrders(stream, endStream, block), MAX_FRAGMENT)
  {
  }
}
