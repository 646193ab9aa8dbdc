/** Requests to write frames, and how flow control splits them (h2_bundle.go, FrameWriteRequest
    and writeQueue). */
module WriteQueues {
  import opened Foundations
  import opened DataBuffers

  /** What a request writes. */
  datatype Writer =
    | Data(p: seq<Byte>, endStream: bool)
    | ResHeaders(endStream: bool)
    | Continue100
    | PushPromise
    | WindowUpdate(increment: nat)
    | HandlerPanicRST
    | StreamError(streamID: nat, code: nat)
    | Settings
    | SettingsAck
    | PingAck
    | GoAway(maxStreamID: nat, code: nat)
    | Flush

  /** A request: what to write, the stream it is for, and the channel to reply to. */
  datatype Request = Request(write: Writer, stream: Option<nat>, done: Option<nat>)
  {
    function StreamID(): nat {
      if stream.Some? then stream.value else if write.StreamError? then write.streamID else 0
    }

    predicate IsControl() {
      stream.None?
    }

    function DataSize(): nat {
      if write.Data? then |write.p| else 0
    }

    /** DATA with a payload is for a stream. */
    predicate Ok() {
      DataSize() > 0 ==> stream.Some?
    }
  }

  // ----- Send windows

  /** The send windows of the connection and of its streams, and the peer's frame size limit. */
  datatype Windows = Windows(conn: int, streams: map<nat, int>, maxFrameSize: int)

  /** outflow.available of a stream. */
  function Available(win: Windows, id: nat): int
    requires id in win.streams
  {
    if win.conn < win.streams[id] then win.conn else win.streams[id]
  }

  /** outflow.take of a stream. */
  function Take(win: Windows, id: nat, n: int): Windows
    requires id in win.streams && n <= Available(win, id)
  {
    win.(conn := win.conn - n, streams := win.streams[id := win.streams[id] - n])
  }

  /** The most bytes of a DATA frame that may be sent now. */
  function Allowed(wr: Request, n: int, win: Windows): int
    requires wr.stream.Some? && wr.stream.value in win.streams
  {
    var available := Available(win, wr.stream.value);
    var allowed := if n < available then n else available;
    if win.maxFrameSize < allowed then win.maxFrameSize else allowed
  }

  // ----- Consume

  datatype Consumption =
    | Nothing
    | Whole(frame: Request, win: Windows)
    | Part(frame: Request, rest: Request, win: Windows)

  /** Streams of queued DATA have a window. */
  predicate HasWindow(wr: Request, win: Windows) {
    wr.Ok() && (wr.DataSize() > 0 ==> wr.stream.value in win.streams)
  }

  /** FrameWriteRequest.Consume. */
  function Consume(wr: Request, n: int, win: Windows): Consumption
    requires HasWindow(wr, win)
  {
    if wr.DataSize() == 0 then Whole(wr, win)
    else
      var id, allowed := wr.stream.value, Allowed(wr, n, win);
      if allowed <= 0 then Nothing
      else if |wr.write.p| > allowed then
        Part(Request(Data(wr.write.p[..allowed], false), wr.stream, None),
             Request(Data(wr.write.p[allowed..], wr.write.endStream), wr.stream, wr.done),
             Take(win, id, allowed))
      else Whole(wr, Take(win, id, |wr.write.p|))
  }

  /** What a request puts on its stream, byte by byte: the payload, then the end of the frame if
      anything depends on it; frames other than DATA count as one item. */
  datatype Item = Octet(b: Byte) | Fin(endStream: bool, done: Option<nat>) | Frame(wr: Request)

  function Octets(p: seq<Byte>): (items: seq<Item>)
    ensures |items| == |p| && forall i :: 0 <= i < |p| ==> items[i] == Octet(p[i])
  {
    seq(|p|, i requires 0 <= i < |p| => Octet(p[i]))
  }

  function Items(wr: Request): seq<Item> {
    if wr.write.Data? then
      Octets(wr.write.p) + if wr.write.endStream || wr.done.Some? then [Fin(wr.write.endStream, wr.done)] else []
    else [Frame(wr)]
  }

  function QueueItems(q: seq<Request>): seq<Item> {
    if q == [] then [] else Items(q[0]) + QueueItems(q[1..])
  }

  /** How much of a request with data is taken: something exactly if the limit, both windows and the
      frame size are positive, and then the least of these and its own size. */
  predicate AsMuchAsFits(wr: Request, n: int, win: Windows, c: Consumption)
    requires HasWindow(wr, win) && wr.DataSize() > 0
  {
    var p, stream := wr.write.p, win.streams[wr.stream.value];
    && (c.Nothing? <==> n <= 0 || win.conn <= 0 || stream <= 0 || win.maxFrameSize <= 0)
    && (!c.Nothing? ==>
          var size := c.frame.DataSize();
          && size <= n && size <= win.conn && size <= stream && size <= win.maxFrameSize && size <= |p|
          && (size == n || size == win.conn || size == stream || size == win.maxFrameSize || size == |p|))
    && (c.Whole? <==> 0 < |p| <= n && |p| <= win.conn && |p| <= stream && |p| <= win.maxFrameSize)
  }

  /** Nothing is lost, added or reordered by a split; END_STREAM and the reply go with the last
      piece; as much is taken as fits; and exactly its bytes are taken from both windows. */
  lemma ConsumeExact(wr: Request, n: int, win: Windows)
    requires HasWindow(wr, win)
    ensures var c := Consume(wr, n, win);
            match c
            case Nothing => wr.DataSize() > 0
            case Whole(frame, win') => frame == wr && Spent(win, win', frame)
            case Part(frame, rest, win') =>
              && Items(frame) + Items(rest) == Items(wr) && Spent(win, win', frame)
              && 0 < frame.DataSize() < wr.DataSize() && rest.DataSize() == wr.DataSize() - frame.DataSize()
              && !frame.write.endStream && frame.done == None
              && rest.write.endStream == wr.write.endStream && rest.done == wr.done
              && rest.stream == frame.stream == wr.stream
    ensures wr.DataSize() > 0 ==> AsMuchAsFits(wr, n, win, Consume(wr, n, win))
  {
    var c := Consume(wr, n, win);
    if c.Part? {
      SplitItems(wr, |c.frame.write.p|);
    }
  }

  lemma SplitItems(wr: Request, k: nat)
    requires wr.write.Data? && k <= |wr.write.p|
    ensures Items(Request(Data(wr.write.p[..k], false), wr.stream, None))
            + Items(Request(Data(wr.write.p[k..], wr.write.endStream), wr.stream, wr.done)) == Items(wr)
  {
    var p := wr.write.p;
    assert Octets(p[..k]) + Octets(p[k..]) == Octets(p);
    var fin := if wr.write.endStream || wr.done.Some? then [Fin(wr.write.endStream, wr.done)] else [];
    assert Octets(p[..k]) + [] + (Octets(p[k..]) + fin) == Octets(p) + fin;
  }

  /** The windows after sending a frame: its payload, which fits both windows and the frame size, is
      deducted from both. */
  predicate Spent(win: Windows, win': Windows, frame: Request) {
    if frame.DataSize() == 0 then win' == win
    else
      && frame.stream.Some? && frame.stream.value in win.streams
      && var id, size := frame.stream.value, frame.DataSize();
         && size <= win.conn && size <= win.streams[id] && size <= win.maxFrameSize
         && win' == Windows(win.conn - size, win.streams[id := win.streams[id] - size], win.maxFrameSize)
  }

  // ----- writeQueue.consume on the list of requests

  datatype Popped = Popped(frame: Request, rest: seq<Request>, win: Windows)

  predicate QueueOk(q: seq<Request>, win: Windows) {
    forall i :: 0 <= i < |q| ==> HasWindow(q[i], win)
  }

  /** Whether the head of the queue can be sent now, in whole or in part. */
  predicate Sendable(q: seq<Request>, n: int, win: Windows)
    requires QueueOk(q, win)
  {
    q != [] && !Consume(q[0], n, win).Nothing?
  }

  function ConsumeHead(q: seq<Request>, n: int, win: Windows): Popped
    requires QueueOk(q, win) && Sendable(q, n, win)
  {
    match Consume(q[0], n, win)
    case Whole(frame, win') => Popped(frame, q[1..], win')
    case Part(frame, rest, win') => Popped(frame, [rest] + q[1..], win')
  }

  /** What is popped and what stays are together what was there. */
  lemma ConsumeHeadExact(q: seq<Request>, n: int, win: Windows)
    requires QueueOk(q, win) && Sendable(q, n, win)
    ensures var r := ConsumeHead(q, n, win);
            && Items(r.frame) + QueueItems(r.rest) == QueueItems(q)
            && Spent(win, r.win, r.frame) && r.frame.stream == q[0].stream
            && QueueOk(r.rest, r.win)
    ensures ConsumeHead(q, n, win).frame == Consume(q[0], n, win).frame
    ensures q[0].DataSize() > 0 ==> AsMuchAsFits(q[0], n, win, Consume(q[0], n, win))
  {
    ConsumeExact(q[0], n, win);
    var r := ConsumeHead(q, n, win);
    if Consume(q[0], n, win).Part? {
      assert ([r.rest[0]] + q[1..])[1..] == q[1..];
      ItemsAssociative(Items(r.frame), Items(r.rest[0]), QueueItems(q[1..]));
    }
  }

  lemma ItemsAssociative(a: seq<Item>, b: seq<Item>, c: seq<Item>)
    ensures (a + b) + c == a + (b + c)
  {
  }

  lemma {:induction false} QueueItemsAppend(q: seq<Request>, r: seq<Request>)
    ensures QueueItems(q + r) == QueueItems(q) + QueueItems(r)
  {
    if q == [] {
      assert q + r == r;
    } else {
      assert (q + r)[1..] == q[1..] + r;
      QueueItemsAppend(q[1..], r);
      ItemsAssociative(Items(q[0]), QueueItems(q[1..]), QueueItems(r));
    }
  }
}
