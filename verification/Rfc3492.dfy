/** The Punycode decoder of section 6.2 of RFC 3492, with the parameters of section 5 written out. */
module Rfc3492 {
  import opened Foundations

  /** The value of a digit (section 5). */
  function DecodeDigit(c: char): (d: Option<nat>)
    ensures d.Some? ==> d.value < 36
  {
    if 'a' <= c <= 'z' then Some((c - 'a') as nat)
    else if '0' <= c <= '9' then Some((c - '0') as nat + 26)
    else None
  }

  /** Between tmin and tmax. */
  function Threshold(k: int, bias: int): (t: int)
    ensures 1 <= t <= 26
  {
    if k <= bias + 1 then 1 else if k >= bias + 26 then 26 else k - bias
  }

  // ----- Bias adaptation (section 6.1)

  /** The quotient by a positive number, which is not negative. */
  function Quotient(x: nat, d: nat): (q: nat)
    requires d > 0
    ensures q <= x
  {
    QuotientShrinks(x, d);
    x / d
  }

  lemma MulStep(a: int, b: int, len: nat)
    requires a < b
    ensures a * len + len <= b * len
  {
    assert (b - a - 1) * len >= 0;
    assert b * len == a * len + len + (b - a - 1) * len;
  }

  lemma QuotientShrinks(x: nat, d: nat)
    requires d > 0
    ensures 0 <= x / d <= x
  {
    var q := x / d;
    assert x == q * d + x % d;
    MulStep(0, d, q);
  }

  function Scaled(delta: nat, k: nat): nat {
    if delta > 455 then Scaled(delta / 35, k + 36) else k + 36 * delta / (delta + 38)
  }

  function Adaptation(delta: nat, numPoints: nat, firstTime: bool): nat
    requires numPoints > 0
  {
    var d := if firstTime then delta / 700 else delta / 2;
    Scaled(d + Quotient(d, numPoints), 0)
  }

  // ----- The decoder (section 6.2)

  /** The next code point to insert, the position, the bias, and the output. */
  datatype State = State(n: nat, i: nat, bias: nat, out: seq<int>)

  function Insert(out: seq<int>, i: nat, x: int): seq<int>
    requires i <= |out|
  {
    out[..i] + [x] + out[i..]
  }

  /** A digit and those after it, which weigh 36 - t times as much each. */
  function Weighted(d: nat, t: int, high: nat): nat
    requires 1 <= t <= 26
  {
    d + (36 - t) * high
  }

  /** Reading one generalized variable-length integer, and what follows it. */
  function ReadDelta(ds: string, bias: nat, k: nat): (r: Option<(nat, string)>)
    ensures r.Some? ==> |r.value.1| < |ds|
  {
    if ds == [] then None
    else
      var d := DecodeDigit(ds[0]);
      var t := Threshold(k, bias);
      if d.None? then None
      else if d.value < t then Some((d.value, ds[1..]))
      else
        var rest := ReadDelta(ds[1..], bias, k + 36);
        if rest.None? then None
        else Some((Weighted(d.value, t, rest.value.0), rest.value.1))
  }

  /** The state after one delta. */
  function Advance(st: State, delta: nat): State {
    var len := |st.out| + 1;
    var i := st.i + delta;
    State(st.n + i / len, i % len + 1, Adaptation(delta, len, st.i == 0), Insert(st.out, i % len, st.n + i / len))
  }

  function Run(ds: string, st: State): Option<State>
    decreases |ds|
  {
    if ds == [] then Some(st)
    else
      var r := ReadDelta(ds, st.bias, 36);
      if r.None? then None else Run(r.value.1, Advance(st, r.value.0))
  }

  /** The position of the last delimiter, or 0. */
  function LastDelimiter(s: string): nat {
    if s == [] then 0
    else if s[|s| - 1] == '-' then |s| - 1
    else LastDelimiter(s[..|s| - 1])
  }

  function Runes(s: string): seq<int> {
    seq(|s|, i requires 0 <= i < |s| => s[i] as int)
  }

  /** The whole decoder. */
  function Decode(s: string): Option<seq<int>>
  {
    var b := LastDelimiter(s);
    var st := Run(if 0 < b < |s| then s[b + 1..] else s, State(128, 0, 72, if b < |s| then Runes(s[..b]) else []));
    if st.None? then None else Some(st.value.out)
  }

  // ----- Vectors

  lemma {:induction false} Undelimited(s: string)
    requires '-' !in s
    ensures LastDelimiter(s) == 0
  {
    if s != [] {
      assert s[|s| - 1] in s;
      Undelimited(s[..|s| - 1]);
    }
  }

  lemma {:induction false} Delimited(a: string, b: string)
    requires '-' !in b
    ensures LastDelimiter(a + "-" + b) == |a|
  {
    var s := a + "-" + b;
    if b == [] {
      assert s[|a|] == '-' && |s| == |a| + 1;
    } else {
      assert s[|s| - 1] == b[|b| - 1] && b[|b| - 1] in b;
      assert s[..|s| - 1] == a + "-" + b[..|b| - 1];
      Delimited(a, b[..|b| - 1]);
    }
  }

  lemma TwoIdeographsRead()
    ensures ReadDelta("wgv71a", 72, 36) == Some((25957, "71a"))
    ensures ReadDelta("71a", 23, 36) == Some((654, ""))
  {
    assert "v71a"[1..] == "71a" && ReadDelta("v71a", 72, 108) == Some((21, "71a"));
    assert "gv71a"[1..] == "v71a" && ReadDelta("gv71a", 72, 72) == Some((741, "71a"));
    assert "wgv71a"[1..] == "gv71a" && ReadDelta("wgv71a", 72, 36) == Some((25957, "71a"));
    assert "a"[1..] == "" && ReadDelta("a", 23, 108) == Some((0, ""));
    assert "1a"[1..] == "a" && ReadDelta("1a", 23, 72) == Some((27, ""));
    assert "71a"[1..] == "1a" && ReadDelta("71a", 23, 36) == Some((654, ""));
  }

  lemma TwoIdeographsSteps()
    ensures Advance(State(128, 0, 72, []), 25957) == State(26085, 1, 23, [26085])
    ensures Advance(State(26085, 1, 23, [26085]), 654) == State(26412, 2, 45, [26085, 26412])
  {
    assert Quotient(37, 1) == 37;
    assert 25957 / 1 == 25957 && 25957 % 1 == 0;
    assert Quotient(327, 2) == 163;
    assert Scaled(490, 0) == Scaled(14, 36);
    assert 655 / 2 == 327 && 655 % 2 == 1;
  }

  /** Two ideographs: "Japan". */
  lemma TwoIdeographs()
    ensures Decode("wgv71a") == Some([0x65E5, 0x672C])
  {
    TwoIdeographsRead();
    TwoIdeographsSteps();
    Undelimited("wgv71a");
    assert Runes("wgv71a"[..0]) == [];
    hide ReadDelta, Advance;
    assert Run("71a", State(26085, 1, 23, [26085])) == Some(State(26412, 2, 45, [26085, 26412]));
    assert Run("wgv71a", State(128, 0, 72, [])) == Some(State(26412, 2, 45, [26085, 26412]));
  }

  lemma ThreeIdeographsRead()
    ensures ReadDelta("wgv71a119e", 72, 36) == Some((25957, "71a119e"))
    ensures ReadDelta("71a119e", 23, 36) == Some((654, "119e"))
  {
    assert "v71a119e"[1..] == "71a119e" && ReadDelta("v71a119e", 72, 108) == Some((21, "71a119e"));
    assert "gv71a119e"[1..] == "v71a119e" && ReadDelta("gv71a119e", 72, 72) == Some((741, "71a119e"));
    assert "wgv71a119e"[1..] == "gv71a119e" && ReadDelta("wgv71a119e", 72, 36) == Some((25957, "71a119e"));
    assert "a119e"[1..] == "119e" && ReadDelta("a119e", 23, 108) == Some((0, "119e"));
    assert "1a119e"[1..] == "a119e" && ReadDelta("1a119e", 23, 72) == Some((27, "119e"));
    assert "71a119e"[1..] == "1a119e" && ReadDelta("71a119e", 23, 36) == Some((654, "119e"));
  }

  lemma ThirdRead()
    ensures ReadDelta("119e", 45, 36) == Some((27222, ""))
  {
    assert "e"[1..] == "" && ReadDelta("e", 45, 144) == Some((4, ""));
    assert "9e"[1..] == "e" && ReadDelta("9e", 45, 108) == Some((75, ""));
    assert "19e"[1..] == "9e" && ReadDelta("19e", 45, 72) == Some((777, ""));
    assert "119e"[1..] == "19e" && ReadDelta("119e", 45, 36) == Some((27222, ""));
  }

  lemma ThreeIdeographsSteps()
    ensures Advance(State(128, 0, 72, []), 25957) == State(26085, 1, 23, [26085])
    ensures Advance(State(26085, 1, 23, [26085]), 654) == State(26412, 2, 45, [26085, 26412])
    ensures Advance(State(26412, 2, 45, [26085, 26412]), 27222) == State(35486, 3, 81, [26085, 26412, 35486])
  {
    assert Quotient(37, 1) == 37;
    assert 25957 / 1 == 25957 && 25957 % 1 == 0;
    assert Quotient(327, 2) == 163;
    assert Scaled(490, 0) == Scaled(14, 36);
    assert 655 / 2 == 327 && 655 % 2 == 1;
    assert Quotient(13611, 3) == 4537;
    assert Scaled(18148, 0) == Scaled(518, 36) == Scaled(14, 72);
    assert 27224 / 3 == 9074 && 27224 % 3 == 2;
  }

  /** Three ideographs: "Japanese". */
  lemma ThreeIdeographs()
    ensures Decode("wgv71a119e") == Some([0x65E5, 0x672C, 0x8A9E])
  {
    hide ReadDelta, Advance, LastDelimiter;
    ThreeIdeographsRead();
    ThirdRead();
    ThreeIdeographsSteps();
    Undelimited("wgv71a119e");
    assert Runes("wgv71a119e"[..0]) == [];
    assert Run("119e", State(26412, 2, 45, [26085, 26412])) == Some(State(35486, 3, 81, [26085, 26412, 35486]));
    assert Run("71a119e", State(26085, 1, 23, [26085])) == Some(State(35486, 3, 81, [26085, 26412, 35486]));
    assert Run("wgv71a119e", State(128, 0, 72, [])) == Some(State(35486, 3, 81, [26085, 26412, 35486]));
  }

  lemma CyrillicRead()
    ensures ReadDelta("e1afmkfd", 72, 36) == Some((949, "fmkfd"))
    ensures ReadDelta("fmkfd", 1, 36) == Some((5, "mkfd"))
    ensures ReadDelta("mkfd", 2, 36) == Some((12, "kfd"))
    ensures ReadDelta("kfd", 6, 36) == Some((10, "fd"))
    ensures ReadDelta("fd", 4, 36) == Some((5, "d"))
    ensures ReadDelta("d", 1, 36) == Some((3, ""))
  {
    assert "afmkfd"[1..] == "fmkfd" && ReadDelta("afmkfd", 72, 108) == Some((0, "fmkfd"));
    assert "1afmkfd"[1..] == "afmkfd" && ReadDelta("1afmkfd", 72, 72) == Some((27, "fmkfd"));
    assert "e1afmkfd"[1..] == "1afmkfd" && ReadDelta("e1afmkfd", 72, 36) == Some((949, "fmkfd"));
    assert "fmkfd"[1..] == "mkfd" && ReadDelta("fmkfd", 1, 36) == Some((5, "mkfd"));
    assert "mkfd"[1..] == "kfd" && ReadDelta("mkfd", 2, 36) == Some((12, "kfd"));
    assert "kfd"[1..] == "fd" && ReadDelta("kfd", 6, 36) == Some((10, "fd"));
    assert "fd"[1..] == "d" && ReadDelta("fd", 4, 36) == Some((5, "d"));
    assert "d"[1..] == "" && ReadDelta("d", 1, 36) == Some((3, ""));
  }

  lemma CyrillicSteps()
    ensures Advance(State(128, 0, 72, []), 949) == State(1077, 1, 1, [1077])
    ensures Advance(State(1077, 1, 1, [1077]), 5) == State(1080, 1, 2, [1080, 1077])
    ensures Advance(State(1080, 1, 2, [1080, 1077]), 12) == State(1084, 2, 6, [1080, 1084, 1077])
  {
    assert Quotient(1, 1) == 1;
    assert 949 / 1 == 949 && 949 % 1 == 0;
    assert Quotient(2, 2) == 1;
    assert 6 / 2 == 3 && 6 % 2 == 0;
    assert Quotient(6, 3) == 2;
    assert 13 / 3 == 4 && 13 % 3 == 1;
  }

  lemma CyrillicLaterSteps()
    ensures Advance(State(1084, 2, 6, [1080, 1084, 1077]), 10) == State(1087, 1, 4, [1087, 1080, 1084, 1077])
    ensures Advance(State(1087, 1, 4, [1087, 1080, 1084, 1077]), 5) == State(1088, 2, 1, [1087, 1088, 1080, 1084, 1077])
    ensures Advance(State(1088, 2, 1, [1087, 1088, 1080, 1084, 1077]), 3) == State(1088, 6, 0, [1087, 1088, 1080, 1084, 1077, 1088])
  {
    assert Quotient(5, 4) == 1;
    assert 12 / 4 == 3 && 12 % 4 == 0;
    assert Quotient(2, 5) == 0;
    assert 6 / 5 == 1 && 6 % 5 == 1;
    assert Quotient(1, 6) == 0;
    assert 5 / 6 == 0 && 5 % 6 == 5;
  }

  /** Six Cyrillic letters: "example". */
  lemma Cyrillic()
    ensures Decode("e1afmkfd") == Some([0x43F, 0x440, 0x438, 0x43C, 0x435, 0x440])
  {
    CyrillicRead();
    CyrillicSteps();
    CyrillicLaterSteps();
    Undelimited("e1afmkfd");
    assert Runes("e1afmkfd"[..0]) == [];
    hide ReadDelta, Advance;
    assert Run("d", State(1088, 2, 1, [1087, 1088, 1080, 1084, 1077])) == Some(State(1088, 6, 0, [1087, 1088, 1080, 1084, 1077, 1088]));
    assert Run("fd", State(1087, 1, 4, [1087, 1080, 1084, 1077])) == Some(State(1088, 6, 0, [1087, 1088, 1080, 1084, 1077, 1088]));
    assert Run("kfd", State(1084, 2, 6, [1080, 1084, 1077])) == Some(State(1088, 6, 0, [1087, 1088, 1080, 1084, 1077, 1088]));
    assert Run("mkfd", State(1080, 1, 2, [1080, 1077])) == Some(State(1088, 6, 0, [1087, 1088, 1080, 1084, 1077, 1088]));
    assert Run("fmkfd", State(1077, 1, 1, [1077])) == Some(State(1088, 6, 0, [1087, 1088, 1080, 1084, 1077, 1088]));
    assert Run("e1afmkfd", State(128, 0, 72, [])) == Some(State(1088, 6, 0, [1087, 1088, 1080, 1084, 1077, 1088]));
  }

  lemma UmlautRead()
    ensures ReadDelta("kva", 72, 36) == Some((745, ""))
  {
    assert "a"[1..] == "" && ReadDelta("a", 72, 108) == Some((0, ""));
    assert "va"[1..] == "a" && ReadDelta("va", 72, 72) == Some((21, ""));
    assert "kva"[1..] == "va" && ReadDelta("kva", 72, 36) == Some((745, ""));
  }

  lemma UmlautSteps()
    ensures Advance(State(128, 0, 72, [98, 99, 104, 101, 114]), 745) == State(252, 2, 0, [98, 252, 99, 104, 101, 114])
  {
    assert Quotient(1, 6) == 0;
    assert 745 / 6 == 124 && 745 % 6 == 1;
  }

  /** Basic code points and one other: "books". */
  lemma Umlaut()
    ensures Decode("bcher-kva") == Some([0x62, 0xFC, 0x63, 0x68, 0x65, 0x72])
  {
    UmlautRead();
    UmlautSteps();
    Delimited("bcher", "kva");
    assert "bcher" + "-" + "kva" == "bcher-kva" && "bcher-kva"[..5] == "bcher" && "bcher-kva"[6..] == "kva";
    assert Runes("bcher") == [98, 99, 104, 101, 114];
    hide ReadDelta, Advance;
    assert Run("kva", State(128, 0, 72, [98, 99, 104, 101, 114])) == Some(State(252, 2, 0, [98, 252, 99, 104, 101, 114]));
  }
}
