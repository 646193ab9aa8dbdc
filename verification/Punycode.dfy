/** The Punycode encoder (cookiejar/punycode.go), proved against the decoder of section 6.2 of
    RFC 3492. */
module Punycode {
  import opened Foundations
  import opened Rfc3492

  // Section 5 of RFC 3492.
  const BASE := 36
  const DAMP := 700
  const INITIAL_BIAS := 72
  const INITIAL_N := 128
  const SKEW := 38
  const TMAX := 26
  const TMIN := 1

  const MAX_RUNE := 0x10FFFF

  type Label = seq<int>

  predicate IsLabel(s: Label) {
    forall i :: 0 <= i < |s| ==> 0 <= s[i] <= MAX_RUNE
  }

  function MaxRune(s: Label): int {
    if s == [] then 0
    else
      var rest := MaxRune(s[..|s| - 1]);
      if s[|s| - 1] > rest then s[|s| - 1] else rest
  }

  lemma Times(a: nat, b: nat, n: nat)
    requires a <= b
    ensures a * n <= b * n
  {
  }

  lemma {:induction false} MaxRuneIsMax(s: Label, m: int)
    requires m in s
    ensures m <= MaxRune(s)
  {
    if s[|s| - 1] != m {
      MaxRuneIsMax(s[..|s| - 1], m);
    }
  }

  // ----- Bias adaptation (section 6.1)

  method Adapt(delta: nat, numPoints: nat, firstTime: bool) returns (bias: nat)
    requires numPoints > 0
    ensures bias == Adaptation(delta, numPoints, firstTime)
  {
    var d := if firstTime then delta / DAMP else delta / 2;
    QuotientShrinks(d, numPoints);
    d := d + d / numPoints;
    var k: nat := 0;
    while d > ((BASE - TMIN) * TMAX) / 2
      invariant d >= 0
      invariant Scaled(d, k) == Adaptation(delta, numPoints, firstTime)
    {
      d := d / (BASE - TMIN);
      k := k + BASE;
    }
    return k + (BASE - TMIN + 1) * d / (d + SKEW);
  }

  // ----- Digits

  predicate IsDigit(c: char) {
    'a' <= c <= 'z' || '0' <= c <= '9'
  }

  /** encodeDigit, where it does not panic. */
  function EncodeDigit(digit: int): (c: char)
    requires 0 <= digit < BASE
    ensures IsDigit(c) && DecodeDigit(c) == Some(digit)
  {
    if digit < 26 then 'a' + digit as char else '0' + (digit - 26) as char
  }

  /** The digit written for q, and what is left of q, at a position with threshold t. */
  function LowDigit(q: nat, t: int): (d: nat)
    requires TMIN <= t <= TMAX && t <= q
    ensures t <= d < BASE
  {
    t + (q - t) % (BASE - t)
  }

  function HighPart(q: nat, t: int): (h: nat)
    requires TMIN <= t <= TMAX && t <= q
    ensures h < q && q == LowDigit(q, t) + (BASE - t) * h
  {
    QuotientShrinks(q - t, BASE - t);
    (q - t) / (BASE - t)
  }

  // Arithmetic.

  lemma DivideBack(q: nat, len: nat, pos: nat)
    requires pos < len
    ensures (q * len + pos) / len == q && (q * len + pos) % len == pos
  {
    var n := q * len + pos;
    var k, r := n / len, n % len;
    assert n == k * len + r && 0 <= r < len;
    if k < q {
      MulStep(k, q, len);
    } else if k > q {
      MulStep(q, k, len);
    }
  }

  lemma MulNonneg(a: nat, b: nat)
    ensures a * b >= 0
  {
  }

  lemma Distribute(a: int, b: int, len: int)
    ensures (a + b) * len == a * len + b * len
  {
  }

  /** The digits of one generalized variable-length integer, from weight position k on. */
  function Digits(q: nat, bias: nat, k: nat): (ds: string)
    ensures ds != [] && forall i :: 0 <= i < |ds| ==> IsDigit(ds[i])
    decreases q
  {
    var t := Threshold(k, bias);
    if q < t then [EncodeDigit(q)]
    else [EncodeDigit(LowDigit(q, t))] + Digits(HighPart(q, t), bias, k + BASE)
  }

  lemma {:induction false} ReadDigits(q: nat, bias: nat, k: nat, rest: string)
    ensures ReadDelta(Digits(q, bias, k) + rest, bias, k) == Some((q, rest))
    decreases q
  {
    var t := Threshold(k, bias);
    var ds := Digits(q, bias, k);
    assert (ds + rest)[0] == ds[0];
    assert (ds + rest)[1..] == ds[1..] + rest;
    if q < t {
      assert ds[1..] + rest == rest;
    } else {
      var next := HighPart(q, t);
      ReadDigits(next, bias, k + BASE, rest);
      assert ds[1..] == Digits(next, bias, k + BASE);
      assert Weighted(LowDigit(q, t), t, next) == q;
    }
  }

  /** The inner loop of encode: the digits of delta are appended to the output. */
  method AppendDigits(output: string, delta: nat, bias: nat) returns (out: string)
    ensures out == output + Digits(delta, bias, BASE)
  {
    out := output;
    var q: nat, k: nat := delta, BASE;
    while true
      invariant out + Digits(q, bias, k) == output + Digits(delta, bias, BASE)
      decreases q
    {
      var t := k - bias;
      if t < TMIN {
        t := TMIN;
      } else if t > TMAX {
        t := TMAX;
      }
      if q < t {
        break;
      }
      Appended(out, [EncodeDigit(LowDigit(q, t))], Digits(HighPart(q, t), bias, k + BASE));
      out := out + [EncodeDigit(LowDigit(q, t))];
      q := HighPart(q, t);
      k := k + BASE;
    }
    out := out + [EncodeDigit(q)];
  }

  lemma Appended(a: string, b: string, c: string)
    ensures (a + b) + c == a + (b + c)
  {
  }

  // ----- The decoder on concatenated input

  lemma {:induction false} ReadDeltaAppend(ds: string, more: string, bias: nat, k: nat)
    requires ReadDelta(ds, bias, k).Some?
    ensures ReadDelta(ds + more, bias, k).Some?
    ensures ReadDelta(ds + more, bias, k).value == (ReadDelta(ds, bias, k).value.0, ReadDelta(ds, bias, k).value.1 + more)
  {
    assert (ds + more)[1..] == ds[1..] + more;
    if DecodeDigit(ds[0]).value >= Threshold(k, bias) {
      ReadDeltaAppend(ds[1..], more, bias, k + BASE);
    }
  }

  lemma {:induction false} RunAppend(ds: string, more: string, st: State)
    requires Run(ds, st).Some?
    ensures Run(ds + more, st) == Run(more, Run(ds, st).value)
    decreases |ds|
  {
    if ds == [] {
      assert ds + more == more;
    } else {
      var r := ReadDelta(ds, st.bias, BASE).value;
      ReadDeltaAppend(ds, more, st.bias, BASE);
      RunAppend(r.1, more, Advance(st, r.0));
    }
  }

  /** Appending the digits of one more delta advances the decoder by one. */
  lemma RunOneMore(ds: string, st: State, delta: nat)
    requires Run(ds, st).Some?
    ensures Run(ds + Digits(delta, Run(ds, st).value.bias, BASE), st) == Some(Advance(Run(ds, st).value, delta))
  {
    var mid := Run(ds, st).value;
    var more := Digits(delta, mid.bias, BASE);
    RunAppend(ds, more, st);
    ReadDigits(delta, mid.bias, BASE, "");
    assert more + "" == more;
  }

  // ----- The encoder's view of the label

  /** The code points of s below n, in order. */
  function Keep(s: Label, n: int): (r: Label)
    ensures |r| <= |s|
  {
    if s == [] then [] else Keep(s[..|s| - 1], n) + if s[|s| - 1] < n then [s[|s| - 1]] else []
  }

  lemma {:induction false} KeepAppend(s: Label, t: Label, n: int)
    ensures Keep(s + t, n) == Keep(s, n) + Keep(t, n)
  {
    if t == [] {
      assert s + t == s;
    } else {
      assert (s + t)[..|s + t| - 1] == s + t[..|t| - 1];
      KeepAppend(s, t[..|t| - 1], n);
    }
  }

  /** The code points below m, and those equal to m among the first j. */
  function Done(s: Label, m: int, j: nat): Label
    requires j <= |s|
  {
    Keep(s[..j], m + 1) + Keep(s[j..], m)
  }

  lemma DoneStep(s: Label, m: int, j: nat)
    requires j < |s|
    ensures Keep(s[..j + 1], m + 1) == Keep(s[..j], m + 1) + if s[j] <= m then [s[j]] else []
    ensures Done(s, m, j + 1) == if s[j] == m then Insert(Done(s, m, j), |Keep(s[..j], m + 1)|, m) else Done(s, m, j)
  {
    assert s[..j + 1][..j] == s[..j];
    assert s[j..] == [s[j]] + s[j + 1..];
    KeepAppend([s[j]], s[j + 1..], m);
    assert Keep([s[j]], m) == if s[j] < m then [s[j]] else [] by {
      assert [s[j]][..0] == [];
    }
    var a, b := Keep(s[..j], m + 1), Keep(s[j + 1..], m);
    assert Done(s, m, j) == a + (Keep([s[j]], m) + b);
    assert Done(s, m, j + 1) == Keep(s[..j + 1], m + 1) + b;
    Between(a, b, s[j], m);
    hide *;
  }

  lemma Between(a: Label, b: Label, x: int, m: int)
    ensures a + ([x] + b) == (a + [x]) + b && a + ([] + b) == (a + []) + b
    ensures a + [] == a && [] + b == b && Insert(a + b, |a|, m) == a + [m] + b
  {
  }

  lemma {:induction false} KeepGap(s: Label, n: int, m: int)
    requires n <= m && forall i :: 0 <= i < |s| ==> s[i] < n || s[i] >= m
    ensures Keep(s, n) == Keep(s, m)
  {
    if s != [] {
      KeepGap(s[..|s| - 1], n, m);
    }
  }

  lemma {:induction false} KeepAll(s: Label, n: int)
    ensures |Keep(s, n)| == |s| ==> Keep(s, n) == s
    ensures (forall i :: 0 <= i < |s| ==> s[i] < n) <==> |Keep(s, n)| == |s|
  {
    if s != [] {
      KeepAll(s[..|s| - 1], n);
    }
  }

  lemma {:induction false} KeepRange(s: Label, n: int)
    requires IsLabel(s)
    ensures forall i :: 0 <= i < |Keep(s, n)| ==> 0 <= Keep(s, n)[i] < n
  {
    if s != [] {
      KeepRange(s[..|s| - 1], n);
    }
  }

  function Chars(l: Label): string
    requires forall i :: 0 <= i < |l| ==> 0 <= l[i] < INITIAL_N
  {
    seq(|l|, i requires 0 <= i < |l| => l[i] as char)
  }

  /** The basic code points of a label, as characters. */
  function Basics(s: Label): string
    requires IsLabel(s)
  {
    KeepRange(s, INITIAL_N);
    Chars(Keep(s, INITIAL_N))
  }

  /** What encode writes before the first delta. */
  function Head(s: Label): string
    requires IsLabel(s)
  {
    Basics(s) + if |Basics(s)| > 0 then "-" else ""
  }

  function Start(s: Label): State {
    State(INITIAL_N, 0, INITIAL_BIAS, Keep(s, INITIAL_N))
  }

  lemma {:induction false} LastDelimiterSkips(a: string, ds: string)
    requires forall i :: 0 <= i < |ds| ==> IsDigit(ds[i])
    ensures LastDelimiter(a + ds) == LastDelimiter(a)
  {
    if ds == [] {
      assert a + ds == a;
    } else {
      assert (a + ds)[..|a + ds| - 1] == a + ds[..|ds| - 1];
      LastDelimiterSkips(a, ds[..|ds| - 1]);
    }
  }

  /** The decoder splits its input at the last delimiter. */
  lemma DecodeJoined(basics: string, ds: string)
    requires forall i :: 0 <= i < |ds| ==> IsDigit(ds[i])
    requires basics != ""
    ensures var st := Run(ds, State(INITIAL_N, 0, INITIAL_BIAS, Runes(basics)));
            Decode(basics + "-" + ds) == if st.None? then None else Some(st.value.out)
  {
    LastDelimiterSkips(basics + "-", ds);
    SplitAtDelimiter(basics, ds);
  }

  lemma DecodeDigitsOnly(ds: string)
    requires forall i :: 0 <= i < |ds| ==> IsDigit(ds[i])
    ensures var st := Run(ds, State(INITIAL_N, 0, INITIAL_BIAS, []));
            Decode(ds) == if st.None? then None else Some(st.value.out)
  {
    LastDelimiterSkips("", ds);
    assert "" + ds == ds;
    assert Runes(ds[..0]) == [];
  }

  /** The decoder splits the encoder's output where the encoder joined it. */
  lemma DecodeSplits(s: Label, ds: string)
    requires IsLabel(s)
    requires forall i :: 0 <= i < |ds| ==> IsDigit(ds[i])
    requires Run(ds, Start(s)).Some?
    ensures Decode(Head(s) + ds) == Some(Run(ds, Start(s)).value.out)
  {
    KeepRange(s, INITIAL_N);
    assert Runes(Basics(s)) == Keep(s, INITIAL_N);
    if |Basics(s)| == 0 {
      assert Head(s) + ds == ds;
      DecodeDigitsOnly(ds);
    } else {
      DecodeJoined(Basics(s), ds);
    }
  }

  lemma SplitAtDelimiter(basics: string, ds: string)
    ensures LastDelimiter(basics + "-") == |basics|
    ensures (basics + "-" + ds)[..|basics|] == basics && (basics + "-" + ds)[|basics| + 1..] == ds
  {
  }

  // ----- The deltas of a label

  /** The position of the last x, or 0. */
  function LastIndex(out: Label, x: int): (i: nat)
    ensures out != [] ==> i < |out|
  {
    if out == [] || out[|out| - 1] == x then |out| - (if out == [] then 0 else 1) else LastIndex(out[..|out| - 1], x)
  }

  /** The code point inserted last when out has been rebuilt, and the place after it. */
  function LastRune(s: Label, out: Label): int {
    if |out| == |Keep(s, INITIAL_N)| then INITIAL_N else MaxRune(out)
  }

  function AfterLast(s: Label, out: Label): nat {
    if |out| == |Keep(s, INITIAL_N)| then 0 else LastIndex(out, MaxRune(out)) + 1
  }

  /** The states of the decoder from one code point to another, when h code points are in place. */
  function Jump(n: int, m: int, h: nat): int {
    (m - n) * (h + 1)
  }

  lemma JumpAdds(k: int, n: int, m: int, h: nat)
    ensures Jump(k, m, h) == Jump(k, n, h) + Jump(n, m, h)
    ensures n <= m ==> Jump(n, m, h) >= 0
  {
    Distribute(n - k, m - n, h + 1);
    if n <= m {
      MulNonneg(m - n, h + 1);
    }
  }

  /** How many states of the decoder (section 6.3) lie between the last insertion and that of the
      j-th code point, as an integer without bounds. */
  function Delta(s: Label, j: nat): int
    requires j < |s|
  {
    var out := Done(s, s[j], j);
    Jump(LastRune(s, out), s[j], |out|) + |Keep(s[..j], s[j] + 1)| - AfterLast(s, out)
  }

  predicate Small(s: Label, j: nat)
    requires j < |s|
  {
    Delta(s, j) < 0x8000_0000
  }

  /** No delta of the label leaves the int32 range. */
  predicate InRange(s: Label) {
    forall j :: 0 <= j < |s| && s[j] >= INITIAL_N ==> Small(s, j)
  }

  // ----- States of the decoder

  /** The decoder has inserted the code point n just before position i, and everything so far is
      below that, or n itself and before i. */
  ghost predicate Placed(s: Label, st: State) {
    && INITIAL_N <= st.n && st.i <= |st.out|
    && (st.i == 0 <==> |st.out| == |Keep(s, INITIAL_N)|)
    && (if st.i == 0 then st.n == INITIAL_N else st.out[st.i - 1] == st.n)
    && (forall k :: 0 <= k < |st.out| ==> st.out[k] <= st.n)
    && (forall k :: st.i <= k < |st.out| ==> st.out[k] != st.n)
  }

  /** So the output alone tells the state. */
  lemma PlacedByOutput(s: Label, x: State, y: State)
    requires Placed(s, x) && Placed(s, y) && x.out == y.out
    ensures x.n == y.n && x.i == y.i
  {
    if x.i != 0 {
      assert y.out[x.i - 1] <= y.n && x.out[y.i - 1] <= x.n;
      assert x.out[x.i - 1] == y.out[y.i - 1];
    }
  }

  lemma PlacedAt(s: Label, st: State)
    requires Placed(s, st)
    ensures st.n == LastRune(s, st.out) && st.i == AfterLast(s, st.out)
  {
    if st.i != 0 {
      MaxRuneAt(st.out, st.i - 1);
      LastIndexAt(st.out, st.i - 1);
    }
  }

  lemma {:induction false} MaxRuneAt(s: Label, k: nat)
    requires k < |s| && 0 <= s[k] && forall i :: 0 <= i < |s| ==> s[i] <= s[k]
    ensures MaxRune(s) == s[k]
  {
    MaxRuneIsMax(s, s[k]);
    if MaxRune(s) != 0 {
      MaxRuneIn(s);
    }
  }

  lemma {:induction false} MaxRuneIn(s: Label)
    requires MaxRune(s) != 0
    ensures MaxRune(s) in s
  {
    if s[|s| - 1] != MaxRune(s) {
      MaxRuneIn(s[..|s| - 1]);
    }
  }

  lemma {:induction false} LastIndexAt(out: Label, k: nat)
    requires k < |out| && forall i :: k < i < |out| ==> out[i] != out[k]
    ensures LastIndex(out, out[k]) == k
  {
    if k < |out| - 1 {
      LastIndexAt(out[..|out| - 1], k);
    }
  }

  /** Any delta leads from such a state to one. */
  lemma AdvancePlaced(s: Label, st: State, delta: nat)
    requires Placed(s, st) && |st.out| >= |Keep(s, INITIAL_N)|
    ensures Placed(s, Advance(st, delta)) && |Advance(st, delta).out| == |st.out| + 1
  {
    var len := |st.out| + 1;
    var st' := Advance(st, delta);
    var pos := st'.i - 1;
    SplitDelta(st, delta);
    forall k | 0 <= k < len
      ensures st'.out[k] <= st'.n && (k > pos ==> st'.out[k] != st'.n)
    {
      assert st'.out[k] == if k < pos then st.out[k] else if k == pos then st'.n else st.out[k - 1];
    }
  }

  /** Where a delta leads. */
  lemma SplitDelta(st: State, delta: nat)
    ensures var len, st' := |st.out| + 1, Advance(st, delta);
            && st.i + delta == (st'.n - st.n) * len + st'.i - 1 && st'.n >= st.n && 0 < st'.i <= len
            && (st'.n == st.n ==> st'.i == st.i + delta + 1)
  {
    var len := |st.out| + 1;
    var i := st.i + delta;
    assert i == (i / len) * len + i % len;
    assert i / len >= 0;
  }

  /** Different states or different deltas lead to different outputs. */
  lemma AdvanceInjective(s: Label, x: State, y: State, dx: nat, dy: nat)
    requires Placed(s, x) && Placed(s, y) && |x.out| == |y.out| >= |Keep(s, INITIAL_N)|
    requires Advance(x, dx).out == Advance(y, dy).out
    ensures x.out == y.out && dx == dy
  {
    var x', y' := Advance(x, dx), Advance(y, dy);
    AdvancePlaced(s, x, dx);
    AdvancePlaced(s, y, dy);
    PlacedByOutput(s, x', y');
    SplitDelta(x, dx);
    SplitDelta(y, dy);
    InsertBack(x.out, x'.i - 1, x'.n);
    InsertBack(y.out, y'.i - 1, y'.n);
    PlacedByOutput(s, x, y);
  }

  lemma InsertBack(out: Label, i: nat, x: int)
    requires i <= |out|
    ensures var r := Insert(out, i, x); r[..i] + r[i + 1..] == out
  {
  }

  // ----- The encoder

  /** The decoder's state when the part of the label done so far has been rebuilt, and the number of
      its steps from there to the current position. */
  ghost predicate InStep(s: Label, m: int, j: nat, st: State, d: int) {
    At(s, m, j, st) && d == Gap(s, m, j, st) >= 0
  }

  ghost predicate At(s: Label, m: int, j: nat, st: State) {
    j <= |s| && st.out == Done(s, m, j) && INITIAL_N <= st.n <= m && Placed(s, st)
  }

  function Gap(s: Label, m: int, j: nat, st: State): int
    requires j <= |s|
  {
    Jump(st.n, m, |st.out|) + |Keep(s[..j], m + 1)| - st.i
  }

  lemma GapIsDelta(s: Label, j: nat, st: State, d: int)
    requires j < |s| && InStep(s, s[j], j, st, d)
    ensures d == Delta(s, j)
  {
    PlacedAt(s, st);
  }

  /** One delta: the decoder inserts the right code point. */
  lemma InsertOne(s: Label, m: int, j: nat, st: State, d: nat)
    requires InStep(s, m, j, st, d) && j < |s| && s[j] == m
    ensures InStep(s, m, j + 1, Advance(st, d), 0)
  {
    DoneStep(s, m, j);
    NeverShrinks(s, m, j);
    LandsOn(st, m, |Keep(s[..j], m + 1)|, d);
    AdvancePlaced(s, st, d);
  }

  /** The decoder's next insertion is the code point m at position pos. */
  lemma LandsOn(st: State, m: int, pos: nat, delta: nat)
    requires st.n <= m && pos <= |st.out| && delta == Jump(st.n, m, |st.out|) + pos - st.i
    ensures Advance(st, delta) == State(m, pos + 1, Adaptation(delta, |st.out| + 1, st.i == 0), Insert(st.out, pos, m))
  {
    DivideBack(m - st.n, |st.out| + 1, pos);
  }

  /** Basic code points are done from the start. */
  lemma NeverShrinks(s: Label, m: int, j: nat)
    requires j <= |s| && m >= INITIAL_N
    ensures |Done(s, m, j)| >= |Keep(s, INITIAL_N)|
  {
    KeepMonotone(s[..j], INITIAL_N, m + 1);
    KeepMonotone(s[j..], INITIAL_N, m);
    assert s == s[..j] + s[j..];
    KeepAppend(s[..j], s[j..], INITIAL_N);
  }

  lemma {:induction false} KeepMonotone(s: Label, n: int, m: int)
    requires n <= m
    ensures |Keep(s, n)| <= |Keep(s, m)|
  {
    if s != [] {
      KeepMonotone(s[..|s| - 1], n, m);
    }
  }

  lemma SkipOne(s: Label, m: int, j: nat, st: State, d: int)
    requires InStep(s, m, j, st, d) && j < |s| && s[j] != m
    ensures InStep(s, m, j + 1, st, if s[j] < m then d + 1 else d)
  {
    DoneStep(s, m, j);
  }

  /** The end of one scan of the label is the start of the next. */
  lemma NextScan(s: Label, m: int, st: State, d: int)
    requires InStep(s, m, |s|, st, d)
    ensures InStep(s, m + 1, 0, st, d + 1)
  {
    DoneEnds(s, m);
    DoneEnds(s, m + 1);
    assert s[..|s|] == s && s[..0] == [];
    assert Keep(s, m + 1) == st.out;
    JumpAdds(st.n, m, m + 1, |st.out|);
  }

  /** Moving on to the next code point m, none of the label's being between n and m. */
  lemma Reach(s: Label, n: int, m: int, st: State, d: int)
    requires InStep(s, n, 0, st, d)
    requires n <= m && Keep(s, n) == Keep(s, m)
    ensures InStep(s, m, 0, st, d + Jump(n, m, |Keep(s, n)|))
  {
    AtMoves(s, n, m, st);
    GapAtStart(s, n, st);
    GapAtStart(s, m, st);
    JumpAdds(st.n, n, m, |st.out|);
    hide At, Gap, Keep, Jump;
  }

  lemma AtMoves(s: Label, n: int, m: int, st: State)
    requires At(s, n, 0, st) && n <= m && Keep(s, n) == Keep(s, m)
    ensures At(s, m, 0, st) && st.out == Keep(s, n) && st.n <= n
  {
    DoneEnds(s, n);
    DoneEnds(s, m);
    hide Placed, Keep;
  }

  lemma GapAtStart(s: Label, m: int, st: State)
    ensures Gap(s, m, 0, st) == Jump(st.n, m, |st.out|) - st.i
  {
    assert s[..0] == [];
    hide Jump;
  }

  /** When the steps to the current position are too many, some delta is too large. */
  lemma {:induction false} TooFar(s: Label, m: int, j: nat, st: State, d: int)
    requires j <= |s| && InStep(s, m, j, st, d) && d >= 0x8000_0000 > |s| && m in s
    ensures !InRange(s)
    decreases |s| - j
  {
    hide At, Gap, Small, Delta;
    if m !in s[j..] {
      TailGap(s, m, j, st, d);
    } else if s[j] == m {
      LargeAt(s, j, st, d);
    } else {
      assert s[j..] == [s[j]] + s[j + 1..];
      SkipOne(s, m, j, st, d);
      TooFar(s, m, j + 1, st, if s[j] < m then d + 1 else d);
    }
  }

  lemma LargeAt(s: Label, j: nat, st: State, d: int)
    requires j < |s| && InStep(s, s[j], j, st, d) && d >= 0x8000_0000
    ensures !InRange(s)
  {
    GapIsDelta(s, j, st, d);
    assert !Small(s, j);
  }

  /** After the last m only the code points that follow it count. */
  lemma TailGap(s: Label, m: int, j: nat, st: State, d: int)
    requires j <= |s| && InStep(s, m, j, st, d) && m in s && m !in s[j..]
    ensures d <= |s|
  {
    InEither(s, j, m);
    LastIsM(s, m, j, st);
    assert Jump(m, m, |st.out|) == 0;
    hide At, Keep, Jump;
  }

  lemma InEither(s: Label, j: nat, m: int)
    requires j <= |s| && m in s
    ensures m in s[..j] || m in s[j..]
  {
    var k :| 0 <= k < |s| && s[k] == m;
    assert if k < j then s[..j][k] == m else s[j..][k - j] == m;
  }

  lemma LastIsM(s: Label, m: int, j: nat, st: State)
    requires At(s, m, j, st) && m in s[..j]
    ensures st.n == m
  {
    KeepIn(s[..j], m + 1, m);
    hide Keep;
    assert m in st.out;
  }

  lemma {:induction false} KeepIn(s: Label, n: int, x: int)
    requires x in s && x < n
    ensures x in Keep(s, n)
  {
    if s[|s| - 1] != x {
      KeepIn(s[..|s| - 1], n, x);
    }
  }

  /** The first loop of encode. */
  method WriteBasics(prefix: string, s: Label) returns (output: string, b: nat, remaining: nat)
    requires IsLabel(s)
    ensures output == prefix + Basics(s)
    ensures b == |Keep(s, INITIAL_N)| && remaining == |s| - b
  {
    output, b, remaining := prefix, 0, 0;
    for i := 0 to |s|
      invariant b == |Keep(s[..i], INITIAL_N)| && remaining == i - b
      invariant output == prefix + Basics(s[..i])
    {
      assert s[..i + 1][..i] == s[..i];
      KeepRange(s[..i + 1], INITIAL_N);
      if s[i] < INITIAL_N {
        assert Basics(s[..i + 1]) == Basics(s[..i]) + [s[i] as char];
        b := b + 1;
        output := output + [s[i] as char];
      } else {
        remaining := remaining + 1;
      }
    }
    assert s[..|s|] == s;
  }

  /** The search for the next code point to handle. */
  method NextRune(s: Label, n: int) returns (m: int)
    requires IsLabel(s) && exists i :: 0 <= i < |s| && s[i] >= n
    ensures m in s && m >= n
    ensures forall i :: 0 <= i < |s| ==> s[i] < n || s[i] >= m
  {
    m := 0x7fffffff;
    for i := 0 to |s|
      invariant m == 0x7fffffff || (m in s && m >= n)
      invariant forall j :: 0 <= j < i ==> s[j] < n || s[j] >= m
    {
      if m > s[i] && s[i] >= n {
        m := s[i];
      }
    }
  }

  lemma {:induction false} KeepStrict(s: Label, m: int)
    requires m in s
    ensures |Keep(s, m + 1)| > |Keep(s, m)|
  {
    KeepMonotone(s[..|s| - 1], m, m + 1);
    if s[|s| - 1] != m {
      KeepStrict(s[..|s| - 1], m);
    }
  }

  lemma DoneEnds(s: Label, m: int)
    ensures Done(s, m, 0) == Keep(s, m) && Done(s, m, |s|) == Keep(s, m + 1)
  {
    assert s[..0] == [] && s[0..] == s && s[..|s|] == s && s[|s|..] == [];
  }

  /** The deltas written so far are in range. */
  ghost predicate SoFarInRange(s: Label, m: int, j: nat) {
    forall k :: 0 <= k < |s| && s[k] >= INITIAL_N && (s[k] < m || (s[k] == m && k < j)) ==> Small(s, k)
  }

  /** What the encoder's work is compared with: the digits written and the state in which they leave
      the decoder, the state that has rebuilt the label so far, and delta without bounds. */
  datatype Trace = Trace(ds: string, read: State, right: State, d: int)

  /** The loop invariant of encode: delta is wrapped around, and the decoder has rebuilt the label so
      far exactly if every delta so far was in range. */
  ghost predicate Tracks(s: Label, m: int, j: nat, head: string, output: string, delta: int, bias: nat, tr: Trace) {
    && InStep(s, m, j, tr.right, tr.d) && delta == Wrap32(tr.d)
    && output == head + tr.ds && Reads(s, tr.ds, tr.read, bias)
    && |tr.read.out| == |tr.right.out|
    && if SoFarInRange(s, m, j) then tr.read == tr.right else tr.read.out != tr.right.out
  }

  ghost predicate Reads(s: Label, ds: string, read: State, bias: nat) {
    && (forall i :: 0 <= i < |ds| ==> IsDigit(ds[i]))
    && Run(ds, Start(s)) == Some(read) && read.bias == bias && Placed(s, read)
  }

  lemma TracksSkip(s: Label, m: int, j: nat, head: string, output: string, delta: int, bias: nat, tr: Trace)
    requires Tracks(s, m, j, head, output, delta, bias, tr) && j < |s| && s[j] != m
    ensures var up := if s[j] < m then 1 else 0;
            Tracks(s, m, j + 1, head, output, Wrap32(delta + up), bias, tr.(d := tr.d + up))
  {
    SkipOne(s, m, j, tr.right, tr.d);
    WrapAdd(tr.d, if s[j] < m then 1 else 0);
    assert SoFarInRange(s, m, j + 1) <==> SoFarInRange(s, m, j);
    hide InStep, Reads, SoFarInRange;
  }

  lemma TracksWrite(s: Label, m: int, j: nat, head: string, output: string, delta: nat, bias: nat, tr: Trace)
    requires Tracks(s, m, j, head, output, delta, bias, tr) && j < |s| && s[j] == m
    ensures var more, h := Digits(delta, bias, BASE), |Done(s, m, j)|;
            Tracks(s, m, j + 1, head, output + more, 0, Adaptation(delta, h + 1, h == |Keep(s, INITIAL_N)|),
                   Trace(tr.ds + more, Advance(tr.read, delta), Advance(tr.right, tr.d), 0))
  {
    hide SoFarInRange, Small, Delta, Advance, Digits, Adaptation, Keep, Wrap32;
    NeverShrinks(s, m, j);
    InsertOne(s, m, j, tr.right, tr.d);
    GapIsDelta(s, j, tr.right, tr.d);
    ReadsWrite(s, tr.ds, tr.read, delta, bias);
    Appended(head, tr.ds, Digits(delta, bias, BASE));
    OneMoreInRange(s, m, j);
    AdvancePlaced(s, tr.right, tr.d);
    SameOrNot(s, m, j, delta, tr);
  }

  /** A delta that was wrapped around leads elsewhere, and so does any delta from elsewhere. */
  lemma SameOrNot(s: Label, m: int, j: nat, delta: nat, tr: Trace)
    requires j < |s| && tr.d >= 0 && delta == Wrap32(tr.d) && tr.d == Delta(s, j)
    requires Placed(s, tr.read) && Placed(s, tr.right) && |tr.read.out| == |tr.right.out| >= |Keep(s, INITIAL_N)|
    requires if SoFarInRange(s, m, j) then tr.read == tr.right else tr.read.out != tr.right.out
    ensures var read, right := Advance(tr.read, delta), Advance(tr.right, tr.d);
            if SoFarInRange(s, m, j) && Small(s, j) then read == right else read.out != right.out
  {
    if Advance(tr.read, delta).out == Advance(tr.right, tr.d).out {
      AdvanceInjective(s, tr.read, tr.right, delta, tr.d);
    }
    hide Placed, Delta, Advance, Keep, SoFarInRange;
  }

  lemma OneMoreInRange(s: Label, m: int, j: nat)
    requires j < |s| && s[j] == m >= INITIAL_N
    ensures SoFarInRange(s, m, j + 1) <==> SoFarInRange(s, m, j) && Small(s, j)
  {
    hide Small;
  }

  lemma ReadsWrite(s: Label, ds: string, read: State, delta: nat, bias: nat)
    requires Reads(s, ds, read, bias) && |read.out| >= |Keep(s, INITIAL_N)|
    ensures Reads(s, ds + Digits(delta, bias, BASE), Advance(read, delta),
                  Adaptation(delta, |read.out| + 1, |read.out| == |Keep(s, INITIAL_N)|))
    ensures |Advance(read, delta).out| == |read.out| + 1
  {
    hide Run, Digits, Adaptation, Keep;
    RunOneMore(ds, Start(s), delta);
    AdvancePlaced(s, read, delta);
  }

  /** Moving on to the next code point m. */
  lemma TracksReach(s: Label, n: int, m: int, head: string, output: string, delta: int, bias: nat, tr: Trace)
    requires Tracks(s, n, 0, head, output, delta, bias, tr)
    requires n <= m && Keep(s, n) == Keep(s, m) && forall i :: 0 <= i < |s| ==> s[i] < n || s[i] >= m
    ensures var up := Jump(n, m, |Keep(s, n)|);
            Tracks(s, m, 0, head, output, Wrap32(delta + up), bias, tr.(d := tr.d + up))
  {
    hide Keep, Wrap32, Jump, Small;
    Reach(s, n, m, tr.right, tr.d);
    WrapAdd(tr.d, Jump(n, m, |Keep(s, n)|));
    assert SoFarInRange(s, m, 0) <==> SoFarInRange(s, n, 0);
    hide InStep, Reads, SoFarInRange;
  }

  lemma TracksNext(s: Label, m: int, head: string, output: string, delta: int, bias: nat, tr: Trace)
    requires Tracks(s, m, |s|, head, output, delta, bias, tr)
    ensures Tracks(s, m + 1, 0, head, output, Wrap32(delta + 1), bias, tr.(d := tr.d + 1))
  {
    NextScan(s, m, tr.right, tr.d);
    WrapAdd(tr.d, 1);
    assert SoFarInRange(s, m + 1, 0) <==> SoFarInRange(s, m, |s|);
    hide InStep, Reads, SoFarInRange;
  }

  lemma TracksAtStart(s: Label, head: string)
    ensures Tracks(s, INITIAL_N, 0, head, head, 0, INITIAL_BIAS, Trace("", Start(s), Start(s), 0))
  {
    assert s[..0] == [] && head + "" == head;
    DoneEnds(s, INITIAL_N);
    KeepBelow(s, INITIAL_N);
  }

  lemma {:induction false} KeepBelow(s: Label, n: int)
    ensures forall k :: 0 <= k < |Keep(s, n)| ==> Keep(s, n)[k] < n
  {
    if s != [] {
      KeepBelow(s[..|s| - 1], n);
    }
  }

  /** A negative delta means that some delta is too large. */
  lemma TracksOverflow(s: Label, m: int, j: nat, head: string, output: string, delta: int, bias: nat, tr: Trace)
    requires Tracks(s, m, j, head, output, delta, bias, tr) && delta < 0 && m in s && |s| < 0x8000_0000
    ensures !InRange(s)
  {
    TooFar(s, m, j, tr.right, tr.d);
  }

  lemma TracksAtEnd(s: Label, n: int, prefix: string, output: string, delta: int, bias: nat, tr: Trace)
    requires IsLabel(s) && Tracks(s, n, 0, prefix + Head(s), output, delta, bias, tr) && |Keep(s, n)| == |s|
    ensures prefix <= output && (Decode(output[|prefix|..]) == Some(s) <==> InRange(s))
  {
    hide Keep, Wrap32, Small, Gap, Run, LastDelimiter, Placed;
    DoneEnds(s, n);
    KeepAll(s, n);
    DecodeSplits(s, tr.ds);
    AfterPrefix(prefix, Head(s), tr.ds);
    assert SoFarInRange(s, n, 0) <==> InRange(s);
  }

  lemma AfterPrefix(prefix: string, head: string, ds: string)
    ensures prefix <= prefix + head + ds && (prefix + head + ds)[|prefix|..] == head + ds
  {
  }

  /** The state of encode that one scan of the label changes. */
  datatype Work = Work(output: string, delta: nat, bias: nat, h: nat, remaining: nat)

  ghost predicate Scanning(s: Label, m: int, j: nat, head: string, w: Work, tr: Trace) {
    && j <= |s| && w.h == |Done(s, m, j)| && w.remaining == |s| - w.h
    && Tracks(s, m, j, head, w.output, w.delta, w.bias, tr)
  }

  /** A code point equal to m: its delta is written. */
  method Write(s: Label, m: int, j: nat, b: nat, w: Work, ghost head: string, ghost tr: Trace)
    returns (w': Work, ghost tr': Trace)
    requires b == |Keep(s, INITIAL_N)|
    requires Scanning(s, m, j, head, w, tr) && j < |s| && s[j] == m
    ensures Scanning(s, m, j + 1, head, w', tr')
  {
    DoneStep(s, m, j);
    DoneBounded(s, m, j + 1);
    TracksWrite(s, m, j, head, w.output, w.delta, w.bias, tr);
    hide Tracks;
    tr' := Trace(tr.ds + Digits(w.delta, w.bias, BASE), Advance(tr.read, w.delta), Advance(tr.right, tr.d), 0);
    var output := AppendDigits(w.output, w.delta, w.bias);
    var bias := Adapt(w.delta, w.h + 1, w.h == b);
    w' := Work(output, 0, bias, w.h + 1, w.remaining - 1);
  }

  /** Any other code point: those below m move the decoder's position by one. */
  method Skip(s: Label, m: int, j: nat, w: Work, ghost head: string, ghost tr: Trace)
    returns (ok: bool, w': Work, ghost tr': Trace)
    requires Scanning(s, m, j, head, w, tr) && m in s && j < |s| && s[j] != m
    ensures !ok && |s| < 0x8000_0000 ==> !InRange(s)
    ensures ok ==> Scanning(s, m, j + 1, head, w', tr')
  {
    hide Keep, Wrap32, InRange, Done;
    DoneStep(s, m, j);
    TracksSkip(s, m, j, head, w.output, w.delta, w.bias, tr);
    hide Tracks;
    if s[j] > m {
      return true, w, tr;
    }
    var d := Wrap32(w.delta + 1);
    tr' := tr.(d := tr.d + 1);
    if d < 0 {
      if |s| < 0x8000_0000 {
        TracksOverflow(s, m, j + 1, head, w.output, d, w.bias, tr');
      }
      return false, w, tr';
    }
    return true, w.(delta := d), tr';
  }

  /** One scan of the label: every code point m is written as a delta. */
  method Scan(s: Label, m: int, b: nat, w: Work, ghost head: string, ghost tr: Trace)
    returns (ok: bool, w': Work, ghost tr': Trace)
    requires m in s && b == |Keep(s, INITIAL_N)|
    requires Scanning(s, m, 0, head, w, tr)
    ensures !ok && |s| < 0x8000_0000 ==> !InRange(s)
    ensures ok ==> Scanning(s, m, |s|, head, w', tr')
  {
    w', tr' := w, tr;
    for j := 0 to |s|
      invariant Scanning(s, m, j, head, w', tr')
    {
      if s[j] == m {
        w', tr' := Write(s, m, j, b, w', head, tr');
      } else {
        ok, w', tr' := Skip(s, m, j, w', head, tr');
        if !ok {
          return;
        }
      }
    }
    ok := true;
  }

  lemma DoneBounded(s: Label, m: int, j: nat)
    requires j <= |s|
    ensures |Done(s, m, j)| <= |s|
  {
    assert |s[..j]| + |s[j..]| == |s|;
  }

  /** What encode returns: the decoder of section 6.2 of RFC 3492, applied to what follows the prefix,
      gives back the label exactly if no delta of the label leaves the int32 range. */
  ghost predicate Encodes(prefix: string, s: Label, r: Option<string>) {
    && (r.Some? ==> prefix <= r.value && (Decode(r.value[|prefix|..]) == Some(s) <==> InRange(s)))
    && (r.None? && |s| < 0x8000_0000 ==> !InRange(s))
  }

  /** encode. */
  method Encode(prefix: string, s: Label) returns (r: Option<string>)
    requires IsLabel(s)
    ensures Encodes(prefix, s, r)
  {
    var output, b, remaining := WriteBasics(prefix, s);
    if b > 0 {
      Appended(prefix, Basics(s), "-");
      output := output + "-";
    }
    r := WriteDeltas(prefix, s, b, Work(output, 0, INITIAL_BIAS, b, remaining));
  }

  /** The main loop of encode. */
  method WriteDeltas(ghost prefix: string, s: Label, b: nat, start: Work) returns (r: Option<string>)
    requires IsLabel(s) && b == |Keep(s, INITIAL_N)|
    requires start == Work(prefix + Head(s), 0, INITIAL_BIAS, b, |s| - b)
    ensures Encodes(prefix, s, r)
  {
    var w, delta, n := start, 0, INITIAL_N;
    ghost var head, tr := prefix + Head(s), Trace("", Start(s), Start(s), 0);
    TracksAtStart(s, head);
    hide Tracks, InRange;
    while w.remaining != 0
      invariant w.h == |Keep(s, n)| && w.remaining == |s| - w.h
      invariant Tracks(s, n, 0, head, w.output, delta, w.bias, tr)
      decreases w.remaining
    {
      var m;
      m, delta, tr := NextStep(s, n, head, w, delta, tr);
      if delta < 0 {
        return None;
      }
      var ok;
      ok, w, tr := Scan(s, m, b, w.(delta := delta), head, tr);
      if !ok {
        return None;
      }
      ScanEnds(s, m, head, w, tr);
      delta, n, tr := Wrap32(w.delta + 1), m + 1, tr.(d := tr.d + 1);
    }
    TracksAtEnd(s, n, prefix, w.output, delta, w.bias, tr);
    return Some(w.output);
  }

  lemma ScanEnds(s: Label, m: int, head: string, w: Work, tr: Trace)
    requires Scanning(s, m, |s|, head, w, tr)
    ensures w.h == |Keep(s, m + 1)| && Tracks(s, m + 1, 0, head, w.output, Wrap32(w.delta + 1), w.bias, tr.(d := tr.d + 1))
  {
    DoneEnds(s, m);
    TracksNext(s, m, head, w.output, w.delta, w.bias, tr);
  }

  /** The code point of the next scan, and delta moved on to its first position. */
  method NextStep(s: Label, n: int, ghost head: string, w: Work, delta: int, ghost tr: Trace)
    returns (m: int, delta': int, ghost tr': Trace)
    requires IsLabel(s) && w.h == |Keep(s, n)| && w.remaining == |s| - w.h && w.remaining != 0
    requires Tracks(s, n, 0, head, w.output, delta, w.bias, tr)
    ensures m >= n && m in s && |Keep(s, m + 1)| > w.h
    ensures delta' < 0 && |s| < 0x8000_0000 ==> !InRange(s)
    ensures delta' >= 0 ==> Scanning(s, m, 0, head, w.(delta := delta'), tr')
  {
    hide Tracks, InRange;
    KeepAll(s, n);
    m := NextRune(s, n);
    KeepGap(s, n, m);
    KeepStrict(s, m);
    DoneEnds(s, m);
    TracksReach(s, n, m, head, w.output, delta, w.bias, tr);
    delta' := Wrap32(delta + (m - n) * (w.h + 1));
    tr' := tr.(d := tr.d + Jump(n, m, w.h));
    if delta' < 0 && |s| < 0x8000_0000 {
      TracksOverflow(s, m, 0, head, w.output, delta', w.bias, tr');
    }
  }

  // ----- Labels in range

  /** All labels of code points up to a length of 1926 are in range. */
  lemma ShortLabelsInRange(s: Label)
    requires IsLabel(s) && MAX_RUNE * (|s| + 1) < 0x8000_0000
    ensures InRange(s)
  {
    forall j | 0 <= j < |s| && s[j] >= INITIAL_N
      ensures Small(s, j)
    {
      DeltaBound(s, j);
      Times(s[j], MAX_RUNE, |s| + 1);
    }
  }

  /** A label whose only other code point is the last one: its one delta is in range exactly if it is. */
  lemma OneRune(basics: Label, x: int)
    requires (forall i :: 0 <= i < |basics| ==> basics[i] < INITIAL_N) && x >= INITIAL_N
    ensures InRange(basics + [x]) <==> Jump(INITIAL_N, x, |basics|) + |basics| < 0x8000_0000
  {
    hide Keep, Jump;
    var s, k := basics + [x], |basics|;
    assert s[..k] == basics && s[k..] == [x];
    LastKept(basics, x);
    assert Done(s, x, k) == basics && Delta(s, k) == Jump(INITIAL_N, x, k) + k;
    assert Small(s, k) <==> Delta(s, k) < 0x8000_0000;
    hide Delta, Small;
    assert forall j :: 0 <= j < |s| && s[j] >= INITIAL_N ==> j == k;
  }

  lemma LastKept(basics: Label, x: int)
    requires (forall i :: 0 <= i < |basics| ==> basics[i] < INITIAL_N) && x >= INITIAL_N
    ensures Keep(basics + [x], INITIAL_N) == Keep(basics, x + 1) == basics && Keep([x], x) == []
  {
    KeepAll(basics, INITIAL_N);
    KeepAll(basics, x + 1);
    assert (basics + [x])[..|basics|] == basics;
  }

  /** The label of 1927 letters and the largest code point is not in range. */
  lemma LongLabelOutOfRange()
    ensures !InRange(seq(1927, i => 'a' as int) + [MAX_RUNE])
  {
    OneRune(seq(1927, i => 'a' as int), MAX_RUNE);
  }

  lemma DeltaBound(s: Label, j: nat)
    requires j < |s| && s[j] >= INITIAL_N
    ensures Delta(s, j) < s[j] * (|s| + 1)
  {
    var m, out := s[j], Done(s, s[j], j);
    assert |s[..j]| + |s[j..]| == |s|;
    LastRuneRange(s, m, j);
    ProductBound(m, LastRune(s, out), |out|, |s|);
  }

  lemma {:induction false} KeepKeep(s: Label, n: int, m: int)
    requires n <= m
    ensures Keep(Keep(s, m), n) == Keep(s, n)
  {
    if s != [] {
      var front, last := s[..|s| - 1], s[|s| - 1];
      KeepKeep(front, n, m);
      if last < m {
        assert Keep(s, m) == Keep(front, m) + [last] && Keep(s, m)[..|Keep(s, m)| - 1] == Keep(front, m);
      } else {
        assert Keep(s, m) == Keep(front, m);
      }
    }
  }

  lemma DoneBasics(s: Label, m: int, j: nat)
    requires j <= |s| && m >= INITIAL_N
    ensures Keep(Done(s, m, j), INITIAL_N) == Keep(s, INITIAL_N)
  {
    hide Keep;
    BasicsOfBoth(s[..j], s[j..], m);
    assert s == s[..j] + s[j..];
  }

  lemma BasicsOfBoth(a: Label, b: Label, m: int)
    requires m >= INITIAL_N
    ensures Keep(Keep(a, m + 1) + Keep(b, m), INITIAL_N) == Keep(a + b, INITIAL_N)
  {
    hide Keep;
    KeepKeep(a, INITIAL_N, m + 1);
    KeepKeep(b, INITIAL_N, m);
    KeepAppend(Keep(a, m + 1), Keep(b, m), INITIAL_N);
    KeepAppend(a, b, INITIAL_N);
  }

  lemma LastRuneRange(s: Label, m: int, j: nat)
    requires j <= |s| && m >= INITIAL_N
    ensures INITIAL_N <= LastRune(s, Done(s, m, j)) <= m
  {
    var out := Done(s, m, j);
    KeepBelow(s[..j], m + 1);
    KeepBelow(s[j..], m);
    if MaxRune(out) != 0 {
      MaxRuneIn(out);
    }
    DoneBasics(s, m, j);
    KeepAll(out, INITIAL_N);
    if k :| 0 <= k < |out| && out[k] >= INITIAL_N {
      MaxRuneIsMax(out, out[k]);
    }
  }

  lemma ProductBound(m: nat, n: nat, h: nat, len: nat)
    requires INITIAL_N <= n <= m && h <= len
    ensures (m - n) * (h + 1) + h + 1 <= m * (len + 1)
  {
    Distribute(m - n, 1, h + 1);
    Distribute(m - n + 1, n - 1, h + 1);
    assert (n - 1) * (h + 1) >= 0;
    assert m * (len + 1) == m * (h + 1) + m * (len - h);
  }
}
