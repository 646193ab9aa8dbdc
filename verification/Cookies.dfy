/** The Cookie request header: AddCookie writes it (request.go), readCookies parses it (cookie.go). */
module Cookies {
  import opened Foundations

  datatype Cookie = Cookie(name: string, value: string)

  // ----- Characters

  predicate IsAsciiSpace(c: char) {
    c == ' ' || c == '\t' || c == '\n' || c == '\r'
  }

  /** Token characters (section 3.2.6 of RFC 7230). */
  predicate IsTokenChar(c: char) {
    || '^' <= c <= 'z' || 'A' <= c <= 'Z' || '0' <= c <= '9'
    || c == '!' || '#' <= c <= '\'' || c == '*' || c == '+' || c == '-' || c == '.' || c == '|' || c == '~'
  }

  predicate ValidCookieValueByte(b: char) {
    ' ' <= b < '\U{7f}' && b != '"' && b != ';' && b != '\\'
  }

  predicate IsCookieNameValid(name: string) {
    name != "" && forall i :: 0 <= i < |name| ==> IsTokenChar(name[i])
  }

  // ----- Strings

  /** textproto.TrimString. */
  function TrimLeft(s: string): string {
    if s != "" && IsAsciiSpace(s[0]) then TrimLeft(s[1..]) else s
  }

  function TrimRight(s: string): string {
    if s != "" && IsAsciiSpace(s[|s| - 1]) then TrimRight(s[..|s| - 1]) else s
  }

  function Trim(s: string): string {
    TrimRight(TrimLeft(s))
  }

  /** strings.Cut: what is before the separator, and what is after it. */
  function Cut(s: string, c: char): (r: (string, string))
    ensures s != "" ==> |r.1| < |s|
  {
    var i := IndexOf(s, c);
    if i < |s| then (s[..i], s[i + 1..]) else (s, "")
  }

  // ----- Writing

  /** The valid bytes of a cookie value. */
  function Valid(v: string): (r: string)
    ensures forall i :: 0 <= i < |r| ==> ValidCookieValueByte(r[i])
  {
    if v == "" then ""
    else Valid(v[..|v| - 1]) + if ValidCookieValueByte(v[|v| - 1]) then [v[|v| - 1]] else ""
  }

  lemma {:induction false} ValidUnchanged(v: string)
    requires forall i :: 0 <= i < |v| ==> ValidCookieValueByte(v[i])
    ensures Valid(v) == v
  {
    if v != "" {
      ValidUnchanged(v[..|v| - 1]);
    }
  }

  /** sanitizeOrWarn, for cookie values. */
  method SanitizeOrWarn(v: string) returns (r: string)
    ensures r == Valid(v)
  {
    var ok := true;
    for i := 0 to |v|
      invariant ok && forall j :: 0 <= j < i ==> ValidCookieValueByte(v[j])
    {
      if !ValidCookieValueByte(v[i]) {
        ok := false;
        break;
      }
    }
    if ok {
      ValidUnchanged(v);
      return v;
    }
    r := "";
    for i := 0 to |v|
      invariant r == Valid(v[..i])
    {
      assert v[..i + 1][..i] == v[..i];
      if ValidCookieValueByte(v[i]) {
        r := r + [v[i]];
      }
    }
    assert v[..|v|] == v;
  }

  function Quoted(v: string): string {
    if v != "" && (' ' in v || ',' in v) then "\"" + v + "\"" else v
  }

  /** sanitizeCookieValue. */
  method SanitizeCookieValue(v: string) returns (r: string)
    ensures r == Quoted(Valid(v))
  {
    var u := SanitizeOrWarn(v);
    if |u| == 0 {
      return u;
    }
    if ' ' in u || ',' in u {
      return "\"" + u + "\"";
    }
    return u;
  }

  function SanitizeCookieName(n: string): (r: string)
    ensures |r| == |n|
  {
    seq(|n|, i requires 0 <= i < |n| => if n[i] == '\n' || n[i] == '\r' then '-' else n[i])
  }

  /** What AddCookie writes for one cookie. */
  function Printed(c: Cookie): string {
    SanitizeCookieName(c.name) + "=" + Quoted(Valid(c.value))
  }

  function Appended(line: string, c: Cookie): string {
    if line != "" then line + "; " + Printed(c) else Printed(c)
  }

  class Request {
    var header: map<string, seq<string>>

    constructor ()
      ensures header == map[]
    {
      header := map[];
    }

    /** Header.Get, on the first value. */
    function Get(key: string): string
      reads this
    {
      if key in header && header[key] != [] then header[key][0] else ""
    }

    method AddCookie(c: Cookie)
      modifies this
      ensures header == old(header)["Cookie" := [Appended(old(Get("Cookie")), c)]]
    {
      var value := SanitizeCookieValue(c.value);
      var s := SanitizeCookieName(c.name) + "=" + value;
      var line := Get("Cookie");
      if line != "" {
        header := header["Cookie" := [line + "; " + s]];
      } else {
        header := header["Cookie" := [s]];
      }
    }
  }

  // ----- Reading

  /** parseCookieValue with double quotes allowed. */
  function Unquoted(raw: string): string {
    if |raw| > 1 && raw[0] == '"' && raw[|raw| - 1] == '"' then raw[1..|raw| - 1] else raw
  }

  method ParseCookieValue(raw: string) returns (value: string, ok: bool)
    ensures ok <==> forall i :: 0 <= i < |Unquoted(raw)| ==> ValidCookieValueByte(Unquoted(raw)[i])
    ensures ok ==> value == Unquoted(raw)
  {
    value := raw;
    if |value| > 1 && value[0] == '"' && value[|value| - 1] == '"' {
      value := value[1..|value| - 1];
    }
    for i := 0 to |value|
      invariant forall j :: 0 <= j < i ==> ValidCookieValueByte(value[j])
    {
      if !ValidCookieValueByte(value[i]) {
        assert !ValidCookieValueByte(Unquoted(raw)[i]);
        return "", false;
      }
    }
    ok := true;
  }

  /** The cookie that one part of the header line stands for, if any. */
  function ParsePart(part: string, filter: string): seq<Cookie> {
    var p := Trim(part);
    if p == "" then []
    else
      var (name, val) := Cut(p, '=');
      var n := Trim(name);
      if !IsCookieNameValid(n) || (filter != "" && filter != n) then []
      else if forall i :: 0 <= i < |Unquoted(val)| ==> ValidCookieValueByte(Unquoted(val)[i]) then [Cookie(n, Unquoted(val))]
      else []
  }

  /** The cookies of a line, part by part. */
  function ReadParts(line: string, filter: string): seq<Cookie>
    decreases |line|
  {
    if line == "" then []
    else
      var (part, rest) := Cut(line, ';');
      ParsePart(part, filter) + ReadParts(rest, filter)
  }

  function ReadLines(lines: seq<string>, filter: string): seq<Cookie> {
    if lines == [] then []
    else ReadLines(lines[..|lines| - 1], filter) + ReadParts(lines[|lines| - 1], filter)
  }

  /** readCookies. */
  method ReadCookies(header: map<string, seq<string>>, filter: string) returns (cookies: seq<Cookie>)
    ensures cookies == ReadLines(if "Cookie" in header then header["Cookie"] else [], filter)
  {
    var lines := if "Cookie" in header then header["Cookie"] else [];
    cookies := [];
    for i := 0 to |lines|
      invariant cookies == ReadLines(lines[..i], filter)
    {
      assert lines[..i + 1][..i] == lines[..i];
      TrimIrrelevant(lines[i], filter);
      cookies := ReadLine(Trim(lines[i]), filter, cookies);
    }
    assert lines[..|lines|] == lines;
  }

  /** The loop over the parts of one line. */
  method ReadLine(line0: string, filter: string, cookies0: seq<Cookie>) returns (cookies: seq<Cookie>)
    ensures cookies == cookies0 + ReadParts(line0, filter)
  {
    cookies := cookies0;
    var line := line0;
    while |line| > 0
      invariant cookies + ReadParts(line, filter) == cookies0 + ReadParts(line0, filter)
      decreases |line|
    {
      var (part, rest) := Cut(line, ';');
      var parsed := ReadPart(part, filter);
      Joined(cookies, parsed, ReadParts(rest, filter));
      cookies := cookies + parsed;
      line := rest;
    }
  }

  method ReadPart(part0: string, filter: string) returns (cookies: seq<Cookie>)
    ensures cookies == ParsePart(part0, filter)
  {
    var part := Trim(part0);
    if part == "" {
      return [];
    }
    var (name0, val0) := Cut(part, '=');
    var name := Trim(name0);
    if !IsCookieNameValid(name) {
      return [];
    }
    if filter != "" && filter != name {
      return [];
    }
    var val, ok := ParseCookieValue(val0);
    if !ok {
      return [];
    }
    return [Cookie(name, val)];
  }

  lemma Joined(a: seq<Cookie>, b: seq<Cookie>, c: seq<Cookie>)
    ensures (a + b) + c == a + (b + c)
  {
  }

  // ----- Laws of reading

  lemma CutBefore(s: string, t: string, c: char)
    requires c !in s
    ensures Cut(s + [c] + t, c) == (s, t)
  {
    var whole := s + [c] + t;
    var i := IndexOf(whole, c);
    assert whole[|s|] == c;
    assert forall j :: 0 <= j < |s| ==> whole[j] == s[j];
    assert whole[..|s|] == s && whole[|s| + 1..] == t;
  }

  lemma CutNone(s: string, c: char)
    requires c !in s
    ensures Cut(s, c) == (s, "")
  {
  }

  lemma SplitAt(a: string, b: string, i: nat)
    requires i < |a| && a[i] == ';'
    ensures a == a[..i] + ";" + a[i + 1..]
    ensures a + ";" + b == a[..i] + ";" + (a[i + 1..] + ";" + b)
  {
    assert a == a[..i] + ";" + a[i + 1..];
  }

  /** Lines joined by a semicolon are read one after the other. */
  lemma {:induction false} ReadJoined(a: string, b: string, filter: string)
    ensures ReadParts(a + ";" + b, filter) == ReadParts(a, filter) + ReadParts(b, filter)
    decreases |a|
  {
    var i := IndexOf(a, ';');
    if i < |a| {
      var head, tail := a[..i], a[i + 1..];
      SplitAt(a, b, i);
      CutBefore(head, tail, ';');
      CutBefore(head, tail + ";" + b, ';');
      ReadJoined(tail, b, filter);
      Joined(ParsePart(head, filter), ReadParts(tail, filter), ReadParts(b, filter));
    } else {
      CutBefore(a, b, ';');
      CutNone(a, ';');
      assert ParsePart("", filter) == [];
    }
  }

  lemma {:induction false} TrimSpaceBefore(s: string, c: char)
    requires IsAsciiSpace(c)
    ensures Trim([c] + s) == Trim(s)
  {
    assert ([c] + s)[1..] == s;
  }

  lemma {:induction false} TrimLeftSpaceAfter(s: string, c: char)
    requires IsAsciiSpace(c)
    ensures TrimLeft(s + [c]) == if TrimLeft(s) == "" then "" else TrimLeft(s) + [c]
  {
    if s == "" {
      assert s + [c] == [c];
      assert TrimLeft([c]) == TrimLeft([c][1..]);
    } else {
      assert (s + [c])[0] == s[0];
      assert (s + [c])[1..] == s[1..] + [c];
      if IsAsciiSpace(s[0]) {
        TrimLeftSpaceAfter(s[1..], c);
      }
    }
  }

  lemma TrimSpaceAfter(s: string, c: char)
    requires IsAsciiSpace(c)
    ensures Trim(s + [c]) == Trim(s)
  {
    TrimLeftSpaceAfter(s, c);
    var t := TrimLeft(s);
    assert (t + [c])[..|t|] == t;
  }

  /** Parts are trimmed, so the space around a line does not matter. */
  lemma {:induction false} SpaceBefore(c: char, s: string, filter: string)
    requires IsAsciiSpace(c)
    ensures ReadParts([c] + s, filter) == ReadParts(s, filter)
  {
    var i := IndexOf(s, ';');
    if i < |s| {
      var head, tail := s[..i], s[i + 1..];
      assert s == head + ";" + tail;
      assert [c] + s == ([c] + head) + ";" + tail;
      CutBefore(head, tail, ';');
      CutBefore([c] + head, tail, ';');
      TrimSpaceBefore(head, c);
    } else {
      CutNone(s, ';');
      CutNone([c] + s, ';');
      TrimSpaceBefore(s, c);
    }
  }

  lemma {:induction false} SpaceAfter(s: string, c: char, filter: string)
    requires IsAsciiSpace(c)
    ensures ReadParts(s + [c], filter) == ReadParts(s, filter)
    decreases |s|
  {
    var i := IndexOf(s, ';');
    if i < |s| {
      var head, tail := s[..i], s[i + 1..];
      assert s == head + ";" + tail;
      assert s + [c] == head + ";" + (tail + [c]);
      CutBefore(head, tail, ';');
      CutBefore(head, tail + [c], ';');
      SpaceAfter(tail, c, filter);
    } else {
      CutNone(s, ';');
      CutNone(s + [c], ';');
      TrimSpaceAfter(s, c);
    }
  }

  lemma {:induction false} TrimLeftIrrelevant(s: string, filter: string)
    ensures ReadParts(TrimLeft(s), filter) == ReadParts(s, filter)
  {
    if s != "" && IsAsciiSpace(s[0]) {
      TrimLeftIrrelevant(s[1..], filter);
      SpaceBefore(s[0], s[1..], filter);
      assert [s[0]] + s[1..] == s;
    }
  }

  lemma {:induction false} TrimRightIrrelevant(s: string, filter: string)
    ensures ReadParts(TrimRight(s), filter) == ReadParts(s, filter)
  {
    if s != "" && IsAsciiSpace(s[|s| - 1]) {
      var t, c := s[..|s| - 1], s[|s| - 1];
      LastApart(s);
      TrimRightIrrelevant(t, filter);
      SpaceAfter(t, c, filter);
    }
  }

  lemma LastApart(s: string)
    requires s != ""
    ensures s[..|s| - 1] + [s[|s| - 1]] == s
  {
  }

  lemma TrimIrrelevant(s: string, filter: string)
    ensures ReadParts(Trim(s), filter) == ReadParts(s, filter)
  {
    TrimLeftIrrelevant(s, filter);
    TrimRightIrrelevant(TrimLeft(s), filter);
  }

  // ----- Reading undoes writing

  lemma {:induction false} TrimNone(s: string)
    requires s != "" && !IsAsciiSpace(s[0]) && !IsAsciiSpace(s[|s| - 1])
    ensures Trim(s) == s
  {
  }

  /** What reading gives for one cookie that was written. */
  function Selected(c: Cookie, filter: string): seq<Cookie> {
    if filter == "" || filter == c.name then [Cookie(c.name, Valid(c.value))] else []
  }

  lemma UnquotedQuoted(v: string)
    requires forall i :: 0 <= i < |v| ==> ValidCookieValueByte(v[i])
    ensures Unquoted(Quoted(v)) == v
    ensures Quoted(v) != "" ==> !IsAsciiSpace(Quoted(v)[|Quoted(v)| - 1])
    ensures ';' !in Quoted(v)
  {
    var q := "\"" + v + "\"";
    assert q[1..|q| - 1] == v && q[0] == '"' && q[|q| - 1] == '"';
    assert forall i :: 0 <= i < |v| ==> q[i + 1] == v[i];
  }

  lemma NameFacts(name: string)
    requires IsCookieNameValid(name)
    ensures SanitizeCookieName(name) == name && Trim(name) == name
    ensures '=' !in name && ';' !in name && !IsAsciiSpace(name[0])
  {
    TrimNone(name);
  }

  lemma PrintedShape(c: Cookie, q: string)
    requires IsCookieNameValid(c.name) && q == Quoted(Valid(c.value))
    ensures Printed(c) == c.name + ['='] + q && ';' !in Printed(c)
    ensures Trim(Printed(c)) == Printed(c) && Printed(c) != ""
    ensures Cut(Printed(c), '=') == (c.name, q)
  {
    NameFacts(c.name);
    UnquotedQuoted(Valid(c.value));
    var p := Printed(c);
    assert p[0] == c.name[0] && p[|p| - 1] == if q == "" then '=' else q[|q| - 1];
    TrimNone(p);
    CutBefore(c.name, q, '=');
  }

  lemma PrintedReads(c: Cookie, filter: string)
    requires IsCookieNameValid(c.name)
    ensures ParsePart(Printed(c), filter) == Selected(c, filter)
  {
    NameFacts(c.name);
    UnquotedQuoted(Valid(c.value));
    PrintedShape(c, Quoted(Valid(c.value)));
  }

  /** AddCookie appends one cookie to what reading gives, whatever the header held before. */
  lemma AddThenRead(line: string, c: Cookie, filter: string)
    requires IsCookieNameValid(c.name)
    ensures ReadParts(Appended(line, c), filter) == ReadParts(line, filter) + Selected(c, filter)
  {
    var p := Printed(c);
    PrintedAlone(c, filter);
    if line != "" {
      AfterSemicolon(line, p);
      ReadJoined(line, " " + p, filter);
      SpaceBefore(' ', p, filter);
    }
  }

  lemma AfterSemicolon(line: string, p: string)
    ensures line + "; " + p == line + ";" + (" " + p) && " " + p == [' '] + p
  {
  }

  lemma PrintedAlone(c: Cookie, filter: string)
    requires IsCookieNameValid(c.name)
    ensures ReadParts(Printed(c), filter) == Selected(c, filter)
  {
    PrintedReads(c, filter);
    PrintedShape(c, Quoted(Valid(c.value)));
    CutNone(Printed(c), ';');
    assert ReadParts("", filter) == [];
  }

  lemma OneLine(line: string, filter: string)
    ensures ReadLines([line], filter) == ReadParts(line, filter)
  {
    assert [line][..0] == [];
    assert ReadLines([], filter) == [];
  }

  /** The header line after adding cookies one by one to a request without any. */
  function HeaderAfter(cs: seq<Cookie>): string {
    if cs == [] then "" else Appended(HeaderAfter(cs[..|cs| - 1]), cs[|cs| - 1])
  }

  function AllSelected(cs: seq<Cookie>, filter: string): seq<Cookie> {
    if cs == [] then [] else AllSelected(cs[..|cs| - 1], filter) + Selected(cs[|cs| - 1], filter)
  }

  /** Parsing the header gives back the cookies in order, of all names or of the one asked for. */
  lemma {:induction false} CookiesRoundTrip(cs: seq<Cookie>, filter: string)
    requires forall i :: 0 <= i < |cs| ==> IsCookieNameValid(cs[i].name)
    ensures ReadLines([HeaderAfter(cs)], filter) == AllSelected(cs, filter)
  {
    OneLine(HeaderAfter(cs), filter);
    if cs != [] {
      var init := cs[..|cs| - 1];
      CookiesRoundTrip(init, filter);
      OneLine(HeaderAfter(init), filter);
      AddThenRead(HeaderAfter(init), cs[|cs| - 1], filter);
    }
  }

  /** With no name asked for, every cookie is there, its value without the invalid bytes. */
  lemma {:induction false} AllSelectedAt(cs: seq<Cookie>, i: nat)
    requires i < |cs|
    ensures |AllSelected(cs, "")| == |cs| && AllSelected(cs, "")[i] == Cookie(cs[i].name, Valid(cs[i].value))
  {
    var init := cs[..|cs| - 1];
    if init == [] {
      assert AllSelected(init, "") == [];
    } else {
      AllSelectedAt(init, if i < |init| then i else 0);
    }
  }
}
