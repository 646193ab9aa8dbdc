/** The chunked buffer behind a request body (h2_bundle.go, http2dataBuffer). */
module DataBuffers {

  type Byte = b: int | 0 <= b < 256

  const MAX_CHUNK := 16384

  predicate ChunkSize(n: int) {
    n == 1024 || n == 2048 || n == 4096 || n == 8192 || n == MAX_CHUNK
  }

  /** The size class of getDataBufferChunk. */
  function SizeFor(want: int): (n: nat)
    ensures ChunkSize(n)
    ensures want <= n || n == MAX_CHUNK
  {
    if want <= 1024 then 1024
    else if want <= 2048 then 2048
    else if want <= 4096 then 4096
    else if want <= 8192 then 8192
    else MAX_CHUNK
  }

  /** The unread bytes of a list of chunks, from offset r of the first to offset w of the last. */
  function Unread(cs: seq<seq<Byte>>, r: nat, w: nat): seq<Byte>
    requires Bounds(cs, r, w)
  {
    if cs == [] then []
    else if |cs| == 1 then cs[0][r..w]
    else cs[0][r..] + Unread(cs[1..], 0, w)
  }

  predicate Bounds(cs: seq<seq<Byte>>, r: nat, w: nat) {
    cs == [] || (r <= |cs[0]| && w <= |cs[|cs| - 1]| && (|cs| == 1 ==> r <= w))
  }

  /** A new chunk after a full one adds no bytes. */
  lemma {:induction false} UnreadGrow(cs: seq<seq<Byte>>, r: nat, w: nat, chunk: seq<Byte>)
    requires Bounds(cs, r, w) && (cs != [] ==> w == |cs[|cs| - 1]|) && (cs == [] ==> r == 0)
    ensures Bounds(cs + [chunk], r, 0) && Unread(cs + [chunk], r, 0) == Unread(cs, r, w)
  {
    if cs == [] {
      assert cs + [chunk] == [chunk];
    } else if |cs| == 1 {
      assert (cs + [chunk])[1..] == [chunk];
      assert Unread([chunk], 0, 0) == [];
    } else {
      assert (cs + [chunk])[1..] == cs[1..] + [chunk];
      UnreadGrow(cs[1..], 0, w, chunk);
    }
  }

  /** Bytes copied into the last chunk at its write offset are appended. */
  lemma {:induction false} UnreadAppend(cs: seq<seq<Byte>>, r: nat, w: nat, last: seq<Byte>, p: seq<Byte>)
    requires cs != [] && Bounds(cs, r, w)
    requires |last| == |cs[|cs| - 1]| && w + |p| <= |last|
    requires last[..w] == cs[|cs| - 1][..w] && last[w..w + |p|] == p
    ensures Bounds(cs[|cs| - 1 := last], r, w + |p|)
    ensures Unread(cs[|cs| - 1 := last], r, w + |p|) == Unread(cs, r, w) + p
  {
    var ds := cs[|cs| - 1 := last];
    if |cs| == 1 {
      assert last[r..w + |p|] == last[..w][r..] + last[w..w + |p|];
      assert cs[0][..w][r..] == cs[0][r..w];
    } else {
      assert ds[1..] == cs[1..][|cs| - 2 := last];
      UnreadAppend(cs[1..], 0, w, last, p);
    }
  }

  /** The unread bytes of the first chunk. */
  function First(cs: seq<seq<Byte>>, r: nat, w: nat): seq<Byte>
    requires cs != [] && Bounds(cs, r, w)
  {
    if |cs| == 1 then cs[0][r..w] else cs[0][r..]
  }

  /** Reading n bytes of the first chunk removes them from the front. */
  lemma UnreadAdvance(cs: seq<seq<Byte>>, r: nat, w: nat, n: nat)
    requires cs != [] && Bounds(cs, r, w) && n <= |First(cs, r, w)|
    ensures Bounds(cs, r + n, w) && Unread(cs, r, w) == First(cs, r, w)[..n] + Unread(cs, r + n, w)
  {
    if |cs| == 1 {
      SplitSlice(cs[0], r, n, w);
    } else {
      var tail := Unread(cs[1..], 0, w);
      SplitDrop(cs[0], r, n, tail);
      assert Unread(cs, r, w) == cs[0][r..] + tail && Unread(cs, r + n, w) == cs[0][r + n..] + tail;
    }
  }

  lemma SplitSlice(s: seq<Byte>, r: nat, n: nat, w: nat)
    requires r + n <= w <= |s|
    ensures s[r..w] == s[r..w][..n] + s[r + n..w]
  {
  }

  lemma SplitDrop(s: seq<Byte>, r: nat, n: nat, tail: seq<Byte>)
    requires r + n <= |s|
    ensures s[r..] + tail == s[r..][..n] + (s[r + n..] + tail)
  {
  }

  /** A first chunk that has been read can be dropped. */
  lemma UnreadDrop(cs: seq<seq<Byte>>, w: nat)
    requires cs != [] && Bounds(cs, |cs[0]|, w)
    ensures Bounds(cs[1..], 0, w) && Unread(cs, |cs[0]|, w) == Unread(cs[1..], 0, w)
  {
  }

  /** copy(dst[off:], src). */
  method Copy(dst: array<Byte>, off: nat, src: seq<Byte>) returns (n: nat)
    requires off < dst.Length && src != []
    modifies dst
    ensures 0 < n <= |src| && off + n <= dst.Length && (n == |src| || off + n == dst.Length)
    ensures dst[..off] == old(dst[..off]) && dst[off..off + n] == src[..n] && dst[off + n..] == old(dst[off + n..])
  {
    n := if |src| < dst.Length - off then |src| else dst.Length - off;
    forall i | 0 <= i < n {
      dst[off + i] := src[i];
    }
  }

  class DataBuffer {
    var chunks: seq<array<Byte>>
    var r: nat
    var w: nat
    var size: nat
    var expected: int

    ghost var data: seq<seq<Byte>>  // what the chunks hold

    /** Valid, except that a chunk just allocated may still be empty, and one just read may
        still be there. */
    ghost predicate Shape()
      reads this, chunks
    {
      && (forall i, j :: 0 <= i < j < |chunks| ==> chunks[i] != chunks[j])
      && (forall i :: 0 <= i < |chunks| ==> ChunkSize(chunks[i].Length))
      && |data| == |chunks| && (forall i :: 0 <= i < |data| ==> data[i] == chunks[i][..])
      && (chunks == [] ==> r == 0)
      && (chunks != [] ==> r <= chunks[0].Length && w <= chunks[|chunks| - 1].Length)
      && (|chunks| == 1 ==> r <= w)
      && size == |Unread(data, r, w)|
    }

    ghost predicate Valid()
      reads this, chunks
    {
      Shape() && (chunks != [] ==> r < chunks[0].Length && w >= 1)
    }

    /** The bytes written and not yet read. */
    ghost function Contents(): seq<Byte>
      requires Shape()
      reads this, chunks
    {
      Unread(data, r, w)
    }

    constructor (expected: int)
      ensures Valid() && Contents() == [] && this.expected == expected && chunks == []
    {
      chunks, data, r, w, size := [], [], 0, 0, 0;
      this.expected := expected;
    }

    method Len() returns (n: nat)
      requires Valid()
      ensures n == |Contents()|
    {
      return size;
    }

    /** The bytes in the chunks that are not buffered data are less than twice the largest chunk. */
    ghost function Allocated(): nat
      reads this, chunks
    {
      Total(data)
    }

    // ----- Write

    /** lastChunkOrAlloc. */
    method LastChunkOrAlloc(want: int) returns (chunk: array<Byte>)
      requires Valid()
      modifies this`chunks, this`data, this`w
      ensures Shape() && Contents() == old(Contents())
      ensures chunks != [] && chunk == chunks[|chunks| - 1] && w < chunk.Length && r < chunks[0].Length
      ensures chunks == old(chunks) || (chunks == old(chunks) + [chunk] && fresh(chunk))
    {
      if |chunks| != 0 {
        var last := chunks[|chunks| - 1];
        if w < last.Length {
          return last;
        }
      }
      chunk := new Byte[SizeFor(want)];
      UnreadGrow(data, r, w, chunk[..]);
      chunks, data, w := chunks + [chunk], data + [chunk[..]], 0;
    }

    /** One round of the loop of Write: as much of p as the last chunk has room for. */
    method WriteChunk(p: seq<Byte>) returns (n: nat)
      requires Valid() && p != []
      modifies this`chunks, this`data, this`w, this`size, this`expected, chunks
      ensures Valid() && 0 < n <= |p|
      ensures Contents() == old(Contents()) + p[..n] && expected == old(expected) - n
      ensures chunks == old(chunks) || (chunks[..|chunks| - 1] == old(chunks) && fresh(chunks[|chunks| - 1]))
    {
      var want := |p|;
      if expected > want {
        want := expected;
      }
      var chunk := LastChunkOrAlloc(want);
      n := FillChunk(chunk, p);
    }

    /** The copy into the last chunk. */
    method FillChunk(chunk: array<Byte>, p: seq<Byte>) returns (n: nat)
      requires Shape() && p != [] && chunks != [] && chunk == chunks[|chunks| - 1] && w < chunk.Length
      requires r < chunks[0].Length
      modifies this`data, this`w, this`size, this`expected, chunk
      ensures Valid() && 0 < n <= |p|
      ensures Contents() == old(Contents()) + p[..n] && expected == old(expected) - n
    {
      n := Copy(chunk, w, p);
      UnreadAppend(data, r, w, chunk[..], p[..n]);
      data := data[|data| - 1 := chunk[..]];
      w, size, expected := w + n, size + n, expected - n;
    }

    method Write(p: seq<Byte>) returns (ntotal: nat)
      requires Valid()
      modifies this`chunks, this`data, this`w, this`size, this`expected, chunks
      ensures Valid() && ntotal == |p|
      ensures Contents() == old(Contents()) + p && expected == old(expected) - |p|
      ensures forall i :: 0 <= i < |chunks| ==> chunks[i] in old(chunks) || fresh(chunks[i])
    {
      var k := 0;
      assert p[..0] == [];
      while k < |p|
        invariant 0 <= k <= |p| && Valid()
        invariant Contents() == old(Contents()) + p[..k] && expected == old(expected) - k
        invariant forall i :: 0 <= i < |chunks| ==> chunks[i] in old(chunks) || fresh(chunks[i])
      {
        var n := WriteChunk(p[k..]);
        Joined(old(Contents()), p, k, n);
        k := k + n;
      }
      assert p[..k] == p;
      return |p|;
    }

    // ----- Read

    /** bytesFromFirstChunk. */
    function BytesFromFirstChunk(): seq<Byte>
      requires Shape() && chunks != []
      reads this, chunks
    {
      if |chunks| == 1 then chunks[0][r..w] else chunks[0][r..]
    }

    lemma FirstBytes()
      requires Shape() && chunks != []
      ensures BytesFromFirstChunk() == First(data, r, w)
    {
    }

    /** n bytes of the first chunk have been read. */
    method Advance(n: nat)
      requires Valid() && chunks != [] && n <= |BytesFromFirstChunk()|
      modifies this`chunks, this`data, this`r, this`size
      ensures Valid() && old(Contents()) == old(BytesFromFirstChunk())[..n] + Contents()
      ensures forall i :: 0 <= i < |chunks| ==> chunks[i] in old(chunks)
    {
      FirstBytes();
      UnreadAdvance(data, r, w, n);
      r, size := r + n, size - n;
      DropIfRead();
    }

    method DropIfRead()
      requires Shape() && chunks != [] && w >= 1
      modifies this`chunks, this`data, this`r
      ensures Valid() && Contents() == old(Contents())
      ensures forall i :: 0 <= i < |chunks| ==> chunks[i] in old(chunks)
    {
      if r == chunks[0].Length {
        UnreadDrop(data, w);
        chunks, data, r := chunks[1..], data[1..], 0;
      }
    }

    /** One round of the loop of Read: as much of the first chunk as p has room for. */
    method ReadChunk(p: array<Byte>, off: nat) returns (n: nat)
      requires Valid() && size > 0 && off < p.Length && p !in chunks
      modifies this`chunks, this`data, this`r, this`size, p
      ensures Valid() && 0 < n <= p.Length - off && n <= |old(Contents())|
      ensures Contents() == old(Contents())[n..]
      ensures p[..off] == old(p[..off]) && p[off..off + n] == old(Contents())[..n] && p[off + n..] == old(p[off + n..])
      ensures forall i :: 0 <= i < |chunks| ==> chunks[i] in old(chunks)
    {
      var readFrom := BytesFromFirstChunk();
      n := Copy(p, off, readFrom);
      Advance(n);
    }

    /** Read: an error on an empty buffer, and otherwise the oldest bytes, as many as fit. */
    method Read(p: array<Byte>) returns (ntotal: nat, ok: bool)
      requires Valid() && p !in chunks
      modifies this`chunks, this`data, this`r, this`size, p
      ensures Valid() && (ok <==> old(Contents()) != [])
      ensures ntotal == if p.Length < |old(Contents())| then p.Length else |old(Contents())|
      ensures p[..ntotal] == old(Contents())[..ntotal] && p[ntotal..] == old(p[ntotal..])
      ensures Contents() == old(Contents())[ntotal..]
      ensures forall i :: 0 <= i < |chunks| ==> chunks[i] in old(chunks)
    {
      if size == 0 {
        return 0, false;
      }
      ntotal := 0;
      while ntotal < p.Length && size > 0
        invariant Valid() && ntotal <= p.Length && ntotal <= |old(Contents())|
        invariant Contents() == old(Contents())[ntotal..]
        invariant p[..ntotal] == old(Contents())[..ntotal] && p[ntotal..] == old(p[ntotal..])
        invariant forall i :: 0 <= i < |chunks| ==> chunks[i] in old(chunks)
        decreases p.Length - ntotal
      {
        ghost var was := p[..];
        var n := ReadChunk(p, ntotal);
        ReadJoined(old(Contents()), was, p[..], ntotal, n);
        ntotal := ntotal + n;
      }
      ok := true;
    }
  }

  lemma Joined(a: seq<Byte>, p: seq<Byte>, k: nat, n: nat)
    requires k + n <= |p|
    ensures (a + p[..k]) + p[k..][..n] == a + p[..k + n]
  {
  }

  lemma ReadJoined(c: seq<Byte>, was: seq<Byte>, now: seq<Byte>, k: nat, n: nat)
    requires |was| == |now| && k + n <= |was| && k + n <= |c|
    requires was[..k] == c[..k] && now[..k] == was[..k]
    requires now[k..k + n] == c[k..][..n] && now[k + n..] == was[k + n..]
    ensures now[..k + n] == c[..k + n] && c[k..][n..] == c[k + n..]
  {
    assert now[..k + n] == now[..k] + now[k..k + n];
    assert c[..k + n] == c[..k] + c[k..][..n];
  }

  // ----- Memory

  function Total(cs: seq<seq<Byte>>): nat {
    if cs == [] then 0 else |cs[0]| + Total(cs[1..])
  }

  /** What is allocated is what is buffered, plus the read part of the first chunk and the free
      part of the last. */
  lemma {:induction false} TotalUnread(cs: seq<seq<Byte>>, r: nat, w: nat)
    requires cs != [] && Bounds(cs, r, w)
    ensures Total(cs) == |Unread(cs, r, w)| + r + (|cs[|cs| - 1]| - w)
  {
    if |cs| > 1 {
      TotalUnread(cs[1..], 0, w);
    }
  }

  /** Allocated bytes exceed buffered bytes by less than two of the largest chunks. */
  lemma WasteBounded(b: DataBuffer)
    requires b.Valid()
    ensures |b.Contents()| <= b.Allocated() < |b.Contents()| + 2 * MAX_CHUNK
  {
    if b.chunks != [] {
      TotalUnread(b.data, b.r, b.w);
    }
  }
}
