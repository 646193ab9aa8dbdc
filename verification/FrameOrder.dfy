/** Sequences of frames: the order of HEADERS and CONTINUATION, and the splitting of header
    blocks (h2_bundle.go, checkFrameOrder and splitHeaderBlock; section 6.10 of RFC 7540). */
module FrameOrders {
  import opened Foundations
  import opened DataBuffers
  import opened Frames

  // ----- The order of frames

  predicate IsContinuation(f: Frame) {
    f.h.kind == CONTINUATION
  }

  /** A HEADERS or CONTINUATION frame that more CONTINUATION frames must follow. */
  predicate Unfinished(f: Frame) {
    (f.h.kind == HEADERS || f.h.kind == CONTINUATION) && !Has(f.h.flags, END_HEADERS)
  }

  /** checkFrameOrder: the stream whose header block is unfinished, or 0, before and after. */
  function CheckOrder(last: nat, f: Frame): Option<nat> {
    if last != 0 && (!IsContinuation(f) || f.h.stream != last) then None
    else if last == 0 && IsContinuation(f) then None
    else if f.h.kind == HEADERS || f.h.kind == CONTINUATION then
      Some(if Has(f.h.flags, END_HEADERS) then 0 else f.h.stream)
    else Some(last)
  }

  predicate Accepts(last: nat, fs: seq<Frame>)
    decreases |fs|
  {
    fs == [] || (CheckOrder(last, fs[0]).Some? && Accepts(CheckOrder(last, fs[0]).value, fs[1..]))
  }

  /** Frames of header blocks are for a stream; the parsers see to that. */
  predicate OnStreams(fs: seq<Frame>) {
    forall i :: 0 <= i < |fs| && (fs[i].h.kind == HEADERS || IsContinuation(fs[i])) ==> fs[i].h.stream != 0
  }

  /** The frame at i continues the one before it, on the same stream, exactly if that one is
      unfinished; before the first there may be an unfinished block on stream `last`. */
  predicate FollowsAt(last: nat, fs: seq<Frame>, i: nat)
    requires i < |fs|
  {
    if i == 0 then (if last == 0 then !IsContinuation(fs[0]) else IsContinuation(fs[0]) && fs[0].h.stream == last)
    else if Unfinished(fs[i - 1]) then IsContinuation(fs[i]) && fs[i].h.stream == fs[i - 1].h.stream
    else !IsContinuation(fs[i])
  }

  predicate Contiguous(last: nat, fs: seq<Frame>) {
    forall i :: 0 <= i < |fs| ==> FollowsAt(last, fs, i)
  }

  /** The check accepts exactly the sequences in which header blocks are contiguous. */
  lemma {:induction false} AcceptsContiguous(last: nat, fs: seq<Frame>)
    requires OnStreams(fs)
    ensures Accepts(last, fs) <==> Contiguous(last, fs)
    decreases |fs|
  {
    if fs != [] {
      var next := CheckOrder(last, fs[0]);
      if next.None? {
        assert !FollowsAt(last, fs, 0);
      } else {
        AcceptsContiguous(next.value, fs[1..]);
        ContiguousStep(last, fs);
      }
    }
  }

  lemma ContiguousStep(last: nat, fs: seq<Frame>)
    requires OnStreams(fs) && fs != [] && CheckOrder(last, fs[0]).Some?
    ensures Contiguous(last, fs) <==> Contiguous(CheckOrder(last, fs[0]).value, fs[1..])
  {
    var next, rest := CheckOrder(last, fs[0]).value, fs[1..];
    assert FollowsAt(last, fs, 0);
    forall i | 0 <= i < |rest|
      ensures FollowsAt(next, rest, i) <==> FollowsAt(last, fs, i + 1)
    {
    }
    if Contiguous(next, rest) {
      forall i | 0 <= i < |fs|
        ensures FollowsAt(last, fs, i)
      {
        if i > 0 {
          assert FollowsAt(next, rest, i - 1);
        }
      }
    }
  }

  // ----- Sequences of frames

  function FramesOf(ws: seq<Order>, max: nat): (fs: seq<Frame>)
    requires AllLegal(ws, max)
    ensures |fs| == |ws| && forall i :: 0 <= i < |ws| ==> fs[i] == Frame(HeaderOf(ws[i]), Expected(ws[i]))
  {
    seq(|ws|, i requires 0 <= i < |ws| => Frame(HeaderOf(ws[i]), Expected(ws[i])))
  }

  predicate AllLegal(ws: seq<Order>, max: nat) {
    forall i :: 0 <= i < |ws| ==> Legal(ws[i], max)
  }

  function WireAll(ws: seq<Order>, max: nat): seq<Byte>
    requires AllLegal(ws, max) && max < 0x100_0000
  {
    if ws == [] then [] else Wire(Layout(ws[0]).value) + WireAll(ws[1..], max)
  }

  datatype ReadAllResult = ReadAllResult(frames: seq<Frame>, error: Option<Error>)

  /** Reading until the bytes are used up, or until an error. */
  function ReadAll(b: seq<Byte>, last: nat, max: nat): ReadAllResult
    decreases |b|
  {
    if b == [] then ReadAllResult([], None)
    else
      match ReadOne(b, max)
      case Failed(error) => ReadAllResult([], Some(error))
      case Ok(f, rest) =>
        var next := CheckOrder(last, f);
        if next.None? then ReadAllResult([], Some(Connection(PROTOCOL_ERROR)))
        else
          var r := ReadAll(rest, next.value, max);
          r.(frames := [f] + r.frames)
  }

  /** Reading what any legal sequence of orders wrote gives exactly those frames, if header blocks
      are contiguous, and an error otherwise. */
  lemma {:induction false} StreamRoundTrip(ws: seq<Order>, last: nat, max: nat)
    requires AllLegal(ws, max) && max < 0x100_0000
    ensures Accepts(last, FramesOf(ws, max)) ==> ReadAll(WireAll(ws, max), last, max) == ReadAllResult(FramesOf(ws, max), None)
    ensures !Accepts(last, FramesOf(ws, max)) ==> ReadAll(WireAll(ws, max), last, max).error == Some(Connection(PROTOCOL_ERROR))
    decreases |ws|
  {
    hide Legal, Layout, ReadOne, CheckOrder, HeaderOf, Expected, Wire;
    if ws != [] {
      var rest := WireAll(ws[1..], max);
      FrameRoundTrip(ws[0], rest, max);
      var fs := FramesOf(ws, max);
      assert fs[1..] == FramesOf(ws[1..], max);
      var next := CheckOrder(last, fs[0]);
      if next.Some? {
        StreamRoundTrip(ws[1..], next.value, max);
        assert fs == [fs[0]] + fs[1..];
      }
    }
  }

  // ----- Header blocks

  const MAX_FRAGMENT := 16384

  function Fragment(block: seq<Byte>): seq<Byte> {
    if |block| > MAX_FRAGMENT then block[..MAX_FRAGMENT] else block
  }

  /** The CONTINUATION frames for what is left of a block. */
  function Continuations(stream: Uint32, block: seq<Byte>): seq<Order>
    decreases |block|
  {
    if block == [] then []
    else
      var frag := Fragment(block);
      [WriteContinuation(stream, |frag| == |block|, frag)] + Continuations(stream, block[|frag|..])
  }

  /** The frames that splitHeaderBlock writes for a response. */
  function BlockOrders(stream: Uint32, endStream: bool, block: seq<Byte>): seq<Order> {
    if block == [] then []
    else
      var frag := Fragment(block);
      [WriteHeaders(stream, frag, endStream, |frag| == |block|, 0, NO_PRIORITY)] + Continuations(stream, block[|frag|..])
  }

  /** The frames that splitHeaderBlock writes for a push. */
  function PushOrders(stream: Uint32, promised: Uint32, block: seq<Byte>): seq<Order> {
    if block == [] then []
    else
      var frag := Fragment(block);
      [WritePushPromise(stream, promised, frag, |frag| == |block|, 0)] + Continuations(stream, block[|frag|..])
  }

  function Fragments(ws: seq<Order>): seq<Byte>
    requires forall i :: 0 <= i < |ws| ==> CarriesFragment(ws[i])
  {
    if ws == [] then [] else assert CarriesFragment(ws[0]); ws[0].frag + Fragments(ws[1..])
  }

  /** The stream whose block is unfinished after the frames. */
  function After(last: nat, fs: seq<Frame>): nat
    requires Accepts(last, fs)
    decreases |fs|
  {
    if fs == [] then last else After(CheckOrder(last, fs[0]).value, fs[1..])
  }

  predicate CarriesFragment(w: Order) {
    w.WriteHeaders? || w.WriteContinuation? || w.WritePushPromise?
  }

  /** The frames of a block: each carries between 1 and 16384 bytes, only the last one ends the
      headers, and the bytes are those of the block. */
  predicate Carries(ws: seq<Order>, block: seq<Byte>) {
    && (forall i :: 0 <= i < |ws| ==>
          && CarriesFragment(ws[i]) && 0 < |ws[i].frag| <= MAX_FRAGMENT
          && (ws[i].endHeaders <==> i == |ws| - 1))
    && Fragments(ws) == block
  }

  lemma ContinuationFrame(stream: Uint32, endHeaders: bool, frag: seq<Byte>, max: nat)
    requires ValidStream(stream) && MAX_FRAGMENT <= max && |frag| <= MAX_FRAGMENT
    ensures var w := WriteContinuation(stream, endHeaders, frag);
            Legal(w, max) && CheckOrder(stream, Frame(HeaderOf(w), Expected(w))) == Some(if endHeaders then 0 else stream as int)
  {
  }

  lemma HeadersFrame(stream: Uint32, endStream: bool, endHeaders: bool, frag: seq<Byte>, max: nat)
    requires ValidStream(stream) && MAX_FRAGMENT <= max && |frag| <= MAX_FRAGMENT
    ensures var w := WriteHeaders(stream, frag, endStream, endHeaders, 0, NO_PRIORITY);
            Legal(w, max) && CheckOrder(0, Frame(HeaderOf(w), Expected(w))) == Some(if endHeaders then 0 else stream as int)
  {
    HeadersFlagsBack(endStream, endHeaders, 0, NO_PRIORITY);
  }

  lemma {:induction false} ContinuationsRead(stream: Uint32, block: seq<Byte>, max: nat)
    requires ValidStream(stream) && MAX_FRAGMENT <= max
    ensures var ws := Continuations(stream, block);
            && Carries(ws, block) && AllLegal(ws, max)
            && (block != [] ==> ws != [] && Accepts(stream, FramesOf(ws, max)) && After(stream, FramesOf(ws, max)) == 0)
    decreases |block|
  {
    if block != [] {
      var frag := Fragment(block);
      var ws := Continuations(stream, block);
      ContinuationFrame(stream, |frag| == |block|, frag, max);
      ContinuationsRead(stream, block[|frag|..], max);
      CarriesOne(ws, frag, block);
      FramesTail(ws, max);
    }
  }

  lemma FramesTail(ws: seq<Order>, max: nat)
    requires ws != [] && Legal(ws[0], max) && AllLegal(ws[1..], max)
    ensures AllLegal(ws, max) && FramesOf(ws, max)[1..] == FramesOf(ws[1..], max)
  {
    assert ws == [ws[0]] + ws[1..];
  }

  lemma CarriesOne(ws: seq<Order>, frag: seq<Byte>, block: seq<Byte>)
    requires ws != [] && block != [] && frag == Fragment(block) && CarriesFragment(ws[0]) && ws[0].frag == frag
    requires (ws[0].endHeaders <==> |frag| == |block|) && Carries(ws[1..], block[|frag|..])
    requires |frag| == |block| ==> ws[1..] == []
    requires |frag| < |block| ==> ws[1..] != []
    ensures Carries(ws, block)
  {
    assert block == frag + block[|frag|..];
    forall i | 0 <= i < |ws|
      ensures CarriesFragment(ws[i]) && 0 < |ws[i].frag| <= MAX_FRAGMENT && (ws[i].endHeaders <==> i == |ws| - 1)
    {
      if i > 0 {
        assert ws[i] == ws[1..][i - 1];
      }
    }
  }

  /** A header block of any length, split into HEADERS and CONTINUATION frames, is accepted,
      leaves no block unfinished, and its fragments are the block. */
  lemma BlockRead(stream: Uint32, endStream: bool, block: seq<Byte>, max: nat)
    requires ValidStream(stream) && MAX_FRAGMENT <= max && block != []
    ensures var ws := BlockOrders(stream, endStream, block);
            && Carries(ws, block) && AllLegal(ws, max)
            && Accepts(0, FramesOf(ws, max)) && After(0, FramesOf(ws, max)) == 0
  {
    var frag := Fragment(block);
    var ws := BlockOrders(stream, endStream, block);
    HeadersFrame(stream, endStream, |frag| == |block|, frag, max);
    ContinuationsRead(stream, block[|frag|..], max);
    CarriesOne(ws, frag, block);
    FramesTail(ws, max);
  }

  lemma PushFrame(stream: Uint32, promised: Uint32, endHeaders: bool, frag: seq<Byte>, max: nat)
    requires ValidStream(stream) && ValidStream(promised) && MAX_FRAGMENT + 4 <= max && |frag| <= MAX_FRAGMENT
    ensures var w := WritePushPromise(stream, promised, frag, endHeaders, 0);
            Legal(w, max) && CheckOrder(0, Frame(HeaderOf(w), Expected(w))) == Some(0)
  {
  }

  /** A block split into PUSH_PROMISE and CONTINUATION frames is written whole too, but the check
      does not expect CONTINUATION after PUSH_PROMISE: it accepts exactly the blocks that fit one
      frame. */
  lemma PushRead(stream: Uint32, promised: Uint32, block: seq<Byte>, max: nat)
    requires ValidStream(stream) && ValidStream(promised) && MAX_FRAGMENT + 4 <= max && block != []
    ensures var ws := PushOrders(stream, promised, block);
            && Carries(ws, block) && AllLegal(ws, max)
            && (Accepts(0, FramesOf(ws, max)) <==> |block| <= MAX_FRAGMENT)
  {
    var frag := Fragment(block);
    var ws := PushOrders(stream, promised, block);
    PushFrame(stream, promised, |frag| == |block|, frag, max);
    ContinuationsRead(stream, block[|frag|..], max);
    CarriesOne(ws, frag, block);
    FramesTail(ws, max);
    var fs := FramesOf(ws, max);
    if |block| > MAX_FRAGMENT {
      assert IsContinuation(fs[1]) && fs[1..][0] == fs[1];
    }
  }

  /** The promised stream ID comes on top of the fragment: a push fits the smallest frame size
      that every peer supports exactly if the block leaves four bytes free. */
  lemma PushFits(stream: Uint32, promised: Uint32, block: seq<Byte>)
    requires ValidStream(stream) && ValidStream(promised) && block != []
    ensures AllLegal(PushOrders(stream, promised, block), MAX_FRAGMENT) <==> |block| <= MAX_FRAGMENT - 4
  {
    var frag := Fragment(block);
    var ws := PushOrders(stream, promised, block);
    var w := WritePushPromise(stream, promised, frag, |frag| == |block|, 0);
    assert ws[0] == w && |Layout(w).value.payload| == 4 + |frag|;
    ContinuationsRead(stream, block[|frag|..], MAX_FRAGMENT);
    if |block| <= MAX_FRAGMENT - 4 {
      assert ws == [w];
    }
  }
}
