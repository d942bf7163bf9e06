/**
 * The node's status endpoint: its request parser over a growing buffer (the request line of section 3 and the
 * Content-Length of section 6.2 of RFC 9112), its bind address, its token comparison. Bytes are characters.
 */
module StatusHttp {
  import opened Text
  import opened Wrappers

  const MAX_BODY_BYTES := 1024
  const CRLF := "\r\n"
  const HEADER_END := "\r\n\r\n"

  // ----- Searching -----

  predicate MatchesAt(s: string, pattern: string, i: int) {
    0 <= i && i + |pattern| <= |s| && s[i..i + |pattern|] == pattern
  }

  /** The first place at or after `from` where the pattern stands. */
  function Find(s: string, pattern: string, from: nat): (r: Option<nat>)
    ensures r.Some? ==> from <= r.value <= |s| - |pattern|
    decreases |s| - from
  {
    if from + |pattern| > |s| then None
    else if s[from..from + |pattern|] == pattern then Some(from)
    else Find(s, pattern, from + 1)
  }

  /** The last place of a character. */
  function FindLast(s: string, c: char): (r: Option<nat>)
    ensures r.Some? ==> r.value < |s|
  {
    if s == "" then None
    else if s[|s| - 1] == c then Some(|s| - 1)
    else FindLast(s[..|s| - 1], c)
  }

  /** Find gives a place where the pattern stands, and no earlier one exists. */
  lemma {:induction false} FindIs(s: string, pattern: string, from: nat, i: int)
    ensures var r := Find(s, pattern, from);
      && (r.Some? ==> MatchesAt(s, pattern, r.value))
      && (from <= i && (r.Some? ==> i < r.value) ==> !MatchesAt(s, pattern, i))
    decreases |s| - from
  {
    if from + |pattern| <= |s| && s[from..from + |pattern|] != pattern { FindIs(s, pattern, from + 1, i); }
  }

  /** The result of Find is the only place it can be. */
  lemma FindIsUnique(s: string, pattern: string, from: nat, i: nat)
    requires from <= i && MatchesAt(s, pattern, i)
    requires forall k :: from <= k < i ==> !MatchesAt(s, pattern, k)
    ensures Find(s, pattern, from) == Some(i)
  {
    FindIs(s, pattern, from, i);
  }

  // ----- Characters and blanks -----

  function Lower(c: char): char { if 'A' <= c <= 'Z' then 'a' + (c - 'A') else c }

  predicate SameIgnoringCase(a: string, b: string) {
    |a| == |b| && forall i :: 0 <= i < |a| ==> Lower(a[i]) == Lower(b[i])
  }

  method EqualsIgnoreCase(a: string, b: string) returns (same: bool)
    ensures same == SameIgnoringCase(a, b)
  {
    if |a| != |b| { return false; }
    for i := 0 to |a|
      invariant forall k :: 0 <= k < i ==> Lower(a[k]) == Lower(b[k])
    {
      if Lower(a[i]) != Lower(b[i]) { return false; }
    }
    return true;
  }

  predicate Leads(c: char) { c == ' ' || c == '\t' }

  predicate Trails(c: char) { c == ' ' || c == '\t' || c == '\r' }

  /** Without blanks at both ends. */
  function Trimmed(s: string): string {
    if s != "" && Leads(s[0]) then Trimmed(s[1..]) else TrimmedEnd(s)
  }

  function TrimmedEnd(s: string): string {
    if s != "" && Trails(s[|s| - 1]) then TrimmedEnd(s[..|s| - 1]) else s
  }

  method Trim(s: string) returns (t: string)
    ensures t == Trimmed(s)
  {
    t := s;
    while t != "" && Leads(t[0])
      invariant Trimmed(t) == Trimmed(s)
      decreases |t|
    {
      t := t[1..];
    }
    while t != "" && Trails(t[|t| - 1])
      invariant TrimmedEnd(t) == Trimmed(s)
      decreases |t|
    {
      t := t[..|t| - 1];
    }
  }

  /** Trimming takes blanks off both ends and nothing else. */
  lemma {:induction false} TrimmedTakesBlanks(s: string) returns (left: string, right: string)
    ensures s == left + Trimmed(s) + right
    ensures (forall c :: c in left ==> Leads(c)) && (forall c :: c in right ==> Trails(c))
    ensures var t := Trimmed(s); t != "" ==> !Leads(t[0]) && !Trails(t[|t| - 1])
  {
    if s != "" && Leads(s[0]) {
      left, right := TrimmedTakesBlanks(s[1..]);
      left := [s[0]] + left;
      assert s == [s[0]] + s[1..];
    } else {
      left := "";
      right := TrimmedEndTakesBlanks(s);
    }
  }

  lemma {:induction false} TrimmedEndTakesBlanks(s: string) returns (right: string)
    ensures s == TrimmedEnd(s) + right && forall c :: c in right ==> Trails(c)
    ensures var t := TrimmedEnd(s); t != "" ==> t[0] == s[0] && !Trails(t[|t| - 1])
  {
    if s != "" && Trails(s[|s| - 1]) {
      right := TrimmedEndTakesBlanks(s[..|s| - 1]);
      right := right + [s[|s| - 1]];
      assert s == s[..|s| - 1] + [s[|s| - 1]];
    } else {
      right := "";
    }
  }

  // ----- Numbers -----

  predicate IsDigit(c: char) { '0' <= c <= '9' }

  /** How many digits `s` begins with. */
  function DigitRun(s: string): (n: nat)
    ensures n <= |s| && (forall i :: 0 <= i < n ==> IsDigit(s[i])) && (n < |s| ==> !IsDigit(s[n]))
  {
    if s == "" || !IsDigit(s[0]) then 0 else 1 + DigitRun(s[1..])
  }

  function Number(s: string): nat
    requires forall i :: 0 <= i < |s| ==> IsDigit(s[i])
  {
    if s == "" then 0
    else
      assert IsDigit(s[|s| - 1]);
      Number(s[..|s| - 1]) * 10 + (s[|s| - 1] as int - '0' as int)
  }

  /** `std::from_chars` into an unsigned number: the digits `s` begins with; what follows them is not looked at. */
  function FromChars(s: string, max: nat): Option<nat> {
    var n := DigitRun(s);
    if n == 0 || Number(s[..n]) > max then None else Some(Number(s[..n]))
  }

  lemma {:induction false} NumberOfDigits(n: nat)
    ensures forall i :: 0 <= i < |Digits(n)| ==> IsDigit(Digits(n)[i])
    ensures Number(Digits(n)) == n
  {
    if n >= 10 {
      NumberOfDigits(n / 10);
      assert Digits(n)[..|Digits(n)| - 1] == Digits(n / 10);
    }
  }

  lemma FromCharsOfDigits(n: nat, max: nat)
    requires n <= max
    ensures FromChars(Digits(n), max) == Some(n)
  {
    NumberOfDigits(n);
    assert DigitRun(Digits(n)) == |Digits(n)|;
    assert Digits(n)[..|Digits(n)|] == Digits(n);
  }

  // ----- The request -----

  datatype Request = Request(
    method_: string, path: string, query: string, authorization: string, contentType: string, host: string,
    hasOrigin: bool, body: string)

  /** What the header lines say. */
  datatype Head = Head(authorization: string, contentType: string, host: string, hasOrigin: bool, length: nat)

  const NO_HEAD := Head("", "", "", false, 0)

  predicate HasName(line: string, name: string) {
    var colon := Find(line, ":", 0);
    colon.Some? && SameIgnoringCase(Trimmed(line[..colon.value]), name)
  }

  function ValueOf(line: string): string
    requires Find(line, ":", 0).Some?
  {
    Trimmed(line[Find(line, ":", 0).value + 1..])
  }

  function LengthOf(line: string): Option<nat>
    requires Find(line, ":", 0).Some?
  {
    FromChars(ValueOf(line), MAX_BODY_BYTES)
  }

  /** One more header line; none when it is a Content-Length that does not begin with a number up to 1024. */
  function Read(h: Head, line: string): Option<Head> {
    if HasName(line, "Authorization") then Some(h.(authorization := ValueOf(line)))
    else if HasName(line, "Content-Type") then Some(h.(contentType := ValueOf(line)))
    else if HasName(line, "Host") then Some(h.(host := ValueOf(line)))
    else if HasName(line, "Origin") then Some(h.(hasOrigin := true))
    else if HasName(line, "Content-Length") then
      if LengthOf(line).None? then None else Some(h.(length := LengthOf(line).value))
    else Some(h)
  }

  function ReadAll(lines: seq<string>): Option<Head> {
    if lines == [] then Some(NO_HEAD)
    else
      var h := ReadAll(lines[..|lines| - 1]);
      if h.None? then None else Read(h.value, lines[|lines| - 1])
  }

  /** The lines of a header block. */
  function Lines(rest: string): seq<string>
    decreases |rest|
  {
    if rest == "" then []
    else
      var nl := Find(rest, CRLF, 0);
      if nl.None? then [rest] else [rest[..nl.value]] + Lines(rest[nl.value + 2..])
  }

  /** The method, the path and the query of a request line: cut at its first two spaces, and at the first '?'. */
  function ParseLine(line: string): Option<(string, string, string)> {
    var sp1 := Find(line, " ", 0);
    if sp1.None? then None
    else
      var sp2 := Find(line, " ", sp1.value + 1);
      if sp2.None? then None
      else
        var target := line[sp1.value + 1..sp2.value];
        var q := Find(target, "?", 0);
        if q.None? then Some((line[..sp1.value], target, ""))
        else Some((line[..sp1.value], target[..q.value], target[q.value + 1..]))
  }

  /** The first line, and the lines after it. */
  function FirstLine(headers: string): string {
    var lineEnd := Find(headers, CRLF, 0);
    if lineEnd.None? then headers else headers[..lineEnd.value]
  }

  function HeaderLines(headers: string): seq<string> {
    var lineEnd := Find(headers, CRLF, 0);
    if lineEnd.None? then [] else Lines(headers[lineEnd.value + 2..])
  }

  /** The request without its body, and the length of the body, from the text before the empty line. */
  function ParseHead(headers: string): Option<(Request, nat)> {
    var line, h := ParseLine(FirstLine(headers)), ReadAll(HeaderLines(headers));
    if line.None? || h.None? then None
    else
      var (method_, path, query) := line.value;
      Some((Request(method_, path, query, h.value.authorization, h.value.contentType, h.value.host,
                    h.value.hasOrigin, ""),
            h.value.length))
  }

  /** The request with its body, when all of it is there. */
  function WithBody(head: Option<(Request, nat)>, after: string): Option<Request> {
    if head.None? || |after| < head.value.1 then None else Some(head.value.0.(body := after[..head.value.1]))
  }

  function Parse(raw: string): Option<Request> {
    var end := Find(raw, HEADER_END, 0);
    if end.None? then None else WithBody(ParseHead(raw[..end.value]), raw[end.value + 4..])
  }

  lemma {:induction false} NoneStays(lines: seq<string>, more: seq<string>)
    requires ReadAll(lines).None?
    ensures ReadAll(lines + more).None?
  {
    if more == [] {
      assert lines + more == lines;
    } else {
      NoneStays(lines, more[..|more| - 1]);
      assert (lines + more)[..|lines + more| - 1] == lines + more[..|more| - 1];
    }
  }

  lemma NoLines()
    ensures ReadAll([]) == Some(NO_HEAD) && Lines("") == []
  {
  }

  lemma ReadOneMore(lines: seq<string>, line: string)
    ensures ReadAll(lines + [line]) ==
      if ReadAll(lines).None? then None else Read(ReadAll(lines).value, line)
  {
    assert (lines + [line])[..|lines|] == lines;
  }

  /** The parser: finds the empty line, reads what is before it, and takes the body when all of it is there. */
  method TryParse(raw: string) returns (r: Option<Request>)
    ensures r == Parse(raw)
  {
    var headerEnd := Find(raw, HEADER_END, 0);
    if headerEnd.None? { return None; }
    var headers, afterHeaders := raw[..headerEnd.value], raw[headerEnd.value + 4..];
    var head := TryParseHead(headers);
    hide ParseHead;
    if head.None? { return None; }
    var (req, contentLength) := head.value;
    if |afterHeaders| < contentLength { return None; }
    return Some(req.(body := afterHeaders[..contentLength]));
  }

  method TryParseHead(headers: string) returns (r: Option<(Request, nat)>)
    ensures r == ParseHead(headers)
  {
    hide Find, Lines, ParseLine, ReadAll;
    var lineEnd := Find(headers, CRLF, 0);
    var requestLine := if lineEnd.None? then headers else headers[..lineEnd.value];
    var line := CutRequestLine(requestLine);
    if line.None? { return None; }
    var head: Option<Head> := Some(NO_HEAD);
    if lineEnd.Some? { head := ReadHeaders(headers[lineEnd.value + 2..]); } else { NoLines(); }
    if head.None? { return None; }
    var h := head.value;
    var (method_, path, query) := line.value;
    return Some((Request(method_, path, query, h.authorization, h.contentType, h.host, h.hasOrigin, ""), h.length));
  }

  method CutRequestLine(line: string) returns (r: Option<(string, string, string)>)
    ensures r == ParseLine(line)
  {
    var sp1 := Find(line, " ", 0);
    if sp1.None? { return None; }
    var sp2 := Find(line, " ", sp1.value + 1);
    if sp2.None? { return None; }
    var path, query := line[sp1.value + 1..sp2.value], "";
    var q := Find(path, "?", 0);
    if q.Some? { path, query := path[..q.value], path[q.value + 1..]; }
    return Some((line[..sp1.value], path, query));
  }

  lemma FirstOfLines(rest: string)
    requires rest != ""
    ensures var nl := Find(rest, CRLF, 0);
      Lines(rest) == if nl.None? then [rest] else [rest[..nl.value]] + Lines(rest[nl.value + 2..])
  {
    hide Find;
  }

  lemma FailsFrom(done: seq<string>, line: string, rest: seq<string>)
    requires ReadAll(done).Some? && Read(ReadAll(done).value, line).None?
    ensures ReadAll(done + ([line] + rest)).None?
  {
    ReadOneMore(done, line);
    NoneStays(done + [line], rest);
    assert done + ([line] + rest) == (done + [line]) + rest;
  }

  method ReadHeaders(all: string) returns (r: Option<Head>)
    ensures r == ReadAll(Lines(all))
  {
    hide Find, Lines, ReadAll, Read;
    var rest, h := all, NO_HEAD;
    ghost var done: seq<string> := [];
    NoLines();
    while rest != ""
      invariant Lines(all) == done + Lines(rest) && ReadAll(done) == Some(h)
      decreases |rest|
    {
      FirstOfLines(rest);
      var nl := Find(rest, CRLF, 0);
      var line := if nl.None? then rest else rest[..nl.value];
      ghost var after := if nl.None? then [] else Lines(rest[nl.value + 2..]);
      assert Lines(rest) == [line] + after;
      var next := ReadLine(h, line);
      ReadOneMore(done, line);
      if next.None? {
        FailsFrom(done, line, after);
        return None;
      }
      assert Lines(all) == (done + [line]) + after;
      h, done := next.value, done + [line];
      if nl.None? { return Some(h); }
      rest := rest[nl.value + 2..];
    }
    assert done + [] == done;
    return Some(h);
  }

  method ReadLine(h: Head, line: string) returns (r: Option<Head>)
    ensures r == Read(h, line)
  {
    var colon := Find(line, ":", 0);
    if colon.None? { return Some(h); }
    var name := Trim(line[..colon.value]);
    var value := Trim(line[colon.value + 1..]);
    var same := EqualsIgnoreCase(name, "Authorization");
    if same { return Some(h.(authorization := value)); }
    same := EqualsIgnoreCase(name, "Content-Type");
    if same { return Some(h.(contentType := value)); }
    same := EqualsIgnoreCase(name, "Host");
    if same { return Some(h.(host := value)); }
    same := EqualsIgnoreCase(name, "Origin");
    if same { return Some(h.(hasOrigin := true)); }
    same := EqualsIgnoreCase(name, "Content-Length");
    if same {
      var length := FromChars(value, MAX_BODY_BYTES);
      return if length.None? then None else Some(h.(length := length.value));
    }
    return Some(h);
  }

  // ----- A growing buffer -----

  /** Where the request ends that begins `raw`. */
  function RequestEnd(raw: string): nat
    requires Parse(raw).Some?
  {
    Find(raw, HEADER_END, 0).value + 4 + |Parse(raw).value.body|
  }

  lemma MatchOfPrefix(raw: string, k: nat, i: int)
    requires k <= |raw|
    ensures MatchesAt(raw[..k], HEADER_END, i) <==> i + 4 <= k && MatchesAt(raw, HEADER_END, i)
  {
    if 0 <= i && i + 4 <= k { assert raw[..k][i..i + 4] == raw[i..i + 4]; }
  }

  lemma FindKept(raw: string, k: nat, i: nat)
    requires k <= |raw| && Find(raw, HEADER_END, 0) == Some(i) && i + 4 <= k
    ensures Find(raw[..k], HEADER_END, 0) == Some(i)
  {
    hide MatchesAt, Find;
    FindIs(raw, HEADER_END, 0, i);
    MatchOfPrefix(raw, k, i);
    FindIs(raw[..k], HEADER_END, 0, i);
    var cut := Find(raw[..k], HEADER_END, 0).value;
    FindIs(raw[..k], HEADER_END, 0, cut);
    MatchOfPrefix(raw, k, cut);
    FindIs(raw, HEADER_END, 0, cut);
  }

  lemma FindCut(raw: string, k: nat)
    requires k <= |raw| && Find(raw[..k], HEADER_END, 0).Some?
    ensures Find(raw, HEADER_END, 0) == Find(raw[..k], HEADER_END, 0) && Find(raw, HEADER_END, 0).value + 4 <= k
  {
    var i := Find(raw[..k], HEADER_END, 0).value;
    FindIs(raw[..k], HEADER_END, 0, i);
    MatchOfPrefix(raw, k, i);
    FindIs(raw, HEADER_END, 0, i);
    FindKept(raw, k, Find(raw, HEADER_END, 0).value);
  }

  lemma FindOfPrefix(raw: string, k: nat)
    requires k <= |raw|
    ensures
      var end := Find(raw, HEADER_END, 0);
      Find(raw[..k], HEADER_END, 0) == if end.Some? && end.value + 4 <= k then end else None
  {
    hide Find;
    var end := Find(raw, HEADER_END, 0);
    if Find(raw[..k], HEADER_END, 0).Some? {
      FindCut(raw, k);
    } else if end.Some? && end.value + 4 <= k {
      FindKept(raw, k, end.value);
    }
  }

  lemma ParseBy(raw: string, end: nat)
    requires Find(raw, HEADER_END, 0) == Some(end)
    ensures end + 4 <= |raw| && Parse(raw) == WithBody(ParseHead(raw[..end]), raw[end + 4..])
  {
    hide Find, ParseHead, WithBody;
  }

  lemma BodyOfPrefix(head: Option<(Request, nat)>, after: string, k: nat)
    requires WithBody(head, after).Some? && k <= |after|
    ensures |WithBody(head, after).value.body| == head.value.1 <= |after|
    ensures WithBody(head, after[..k]) == if k >= head.value.1 then WithBody(head, after) else None
  {
    if k >= head.value.1 { assert after[..k][..head.value.1] == after[..head.value.1]; }
  }

  lemma CutOfPrefix(raw: string, k: nat, end: nat)
    requires end + 4 <= k <= |raw|
    ensures raw[..k][..end] == raw[..end] && raw[..k][end + 4..] == raw[end + 4..][..k - end - 4]
  {
  }

  /**
   * The parser is stable and minimal: of the beginnings of an accepted buffer exactly those that hold the whole
   * request are accepted, all with the same request.
   */
  lemma AcceptedFromTheEndOn(raw: string, k: nat)
    requires Parse(raw).Some? && k <= |raw|
    ensures RequestEnd(raw) <= |raw|
    ensures Parse(raw[..k]) == if k >= RequestEnd(raw) then Parse(raw) else None
  {
    FindOfPrefix(raw, k);
    var end := Find(raw, HEADER_END, 0).value;
    ParseBy(raw, end);
    hide ParseHead, Find, WithBody;
    BodyOfPrefix(ParseHead(raw[..end]), raw[end + 4..], if end + 4 <= k then k - end - 4 else 0);
    if end + 4 <= k {
      ParseBy(raw[..k], end);
      CutOfPrefix(raw, k, end);
    }
  }

  /** Every extension of an accepted buffer gives the same request. */
  lemma ExtensionsParseAlike(raw: string, more: string)
    requires Parse(raw).Some?
    ensures Parse(raw + more) == Parse(raw)
  {
    var all, end := raw + more, Find(raw, HEADER_END, 0).value;
    assert all[..|raw|] == raw;
    FindOfPrefix(all, |raw|);
    ParseBy(raw, end);
    ParseBy(all, end);
    hide ParseHead, Find, Parse;
    var head := ParseHead(raw[..end]);
    CutOfPrefix(all, |raw|, end);
    assert |all[end + 4..]| >= head.value.1;
    assert all[end + 4..][..head.value.1] == raw[end + 4..][..head.value.1];
  }

  /** A body holds at most 1024 bytes. */
  lemma BodyIsBounded(raw: string)
    requires Parse(raw).Some?
    ensures |Parse(raw).value.body| <= MAX_BODY_BYTES
  {
    LengthIsBounded(HeaderLines(raw[..Find(raw, HEADER_END, 0).value]));
    hide ReadAll, HeaderLines, ParseLine, FirstLine, Find;
  }

  lemma {:induction false} LengthIsBounded(lines: seq<string>)
    requires ReadAll(lines).Some?
    ensures ReadAll(lines).value.length <= MAX_BODY_BYTES
  {
    if lines != [] { LengthIsBounded(lines[..|lines| - 1]); }
  }

  // ----- What the headers mean -----

  /** The value of the last line of that name. */
  function LastValue(lines: seq<string>, name: string): Option<string> {
    if lines == [] then None
    else
      var line := lines[|lines| - 1];
      if HasName(line, name) then Some(ValueOf(line)) else LastValue(lines[..|lines| - 1], name)
  }

  function OrEmpty(v: Option<string>): string { if v.None? then "" else v.value }

  predicate BadLength(line: string) { HasName(line, "Content-Length") && LengthOf(line).None? }

  /**
   * The headers are refused exactly when some Content-Length does not begin with a number up to 1024; otherwise each
   * field is that of the last line of its name, whatever the case of the name.
   */
  lemma {:induction false} HeadersMeanTheirLastLines(lines: seq<string>)
    ensures ReadAll(lines).None? <==> exists i :: 0 <= i < |lines| && BadLength(lines[i])
    ensures ReadAll(lines).Some? ==>
      var h, length := ReadAll(lines).value, LastValue(lines, "Content-Length");
      && h.authorization == OrEmpty(LastValue(lines, "Authorization"))
      && h.contentType == OrEmpty(LastValue(lines, "Content-Type")) && h.host == OrEmpty(LastValue(lines, "Host"))
      && (h.hasOrigin <==> LastValue(lines, "Origin").Some?)
      && Some(h.length) == (if length.None? then Some(0) else FromChars(length.value, MAX_BODY_BYTES))
  {
    if lines != [] {
      var front, line := lines[..|lines| - 1], lines[|lines| - 1];
      HeadersMeanTheirLastLines(front);
      OneNameOnly(line);
      hide HasName, ValueOf, FromChars;
      if ReadAll(front).None? {
        var i :| 0 <= i < |front| && BadLength(front[i]);
        assert BadLength(lines[i]);
      }
      assert forall i :: 0 <= i < |front| ==> front[i] == lines[i];
    }
  }

  lemma OneNameOnly(line: string)
    ensures HasName(line, "Authorization") ==>
      && !HasName(line, "Content-Type") && !HasName(line, "Host") && !HasName(line, "Origin")
      && !HasName(line, "Content-Length")
    ensures HasName(line, "Content-Type") ==>
      !HasName(line, "Host") && !HasName(line, "Origin") && !HasName(line, "Content-Length")
    ensures HasName(line, "Host") ==> !HasName(line, "Origin") && !HasName(line, "Content-Length")
    ensures HasName(line, "Origin") ==> !HasName(line, "Content-Length")
  {
  }

  // ----- The bind address -----

  const DEFAULT_HOST := "127.0.0.1"

  datatype Bind = Bind(host: string, port: nat)

  /** A port: digits from the front, 1 to 65535. */
  function Port(s: string): Option<nat> {
    var port := FromChars(s, 65535);
    if port == Some(0) then None else port
  }

  function ParseBind(spec: string): Option<Bind> {
    var s := Trimmed(spec);
    if s == "" then None
    else if s[0] == '[' then
      var close := Find(s, "]", 0);
      if close.None? then None
      else
        var rest := s[close.value + 1..];
        if rest == "" || rest[0] != ':' then None else HostAndPort(s[1..close.value], rest[1..])
    else
      var colon := FindLast(s, ':');
      if colon.None? then (var port := Port(s); if port.None? then None else Some(Bind(DEFAULT_HOST, port.value)))
      else HostAndPort(s[..colon.value], s[colon.value + 1..])
  }

  function HostAndPort(host: string, port: string): Option<Bind> {
    if host == "" || port == "" || Port(port).None? then None else Some(Bind(host, Port(port).value))
  }

  method TryParseBind(spec: string) returns (r: Option<Bind>)
    ensures r == ParseBind(spec)
  {
    var hostPort := Trim(spec);
    if hostPort == "" { return None; }
    var host;
    if hostPort[0] == '[' {
      var close := Find(hostPort, "]", 0);
      if close.None? { return None; }
      host, hostPort := hostPort[1..close.value], hostPort[close.value + 1..];
      if hostPort == "" || hostPort[0] != ':' { return None; }
      hostPort := hostPort[1..];
    } else {
      var colon := FindLast(hostPort, ':');
      if colon.None? {
        var port := FromChars(hostPort, 65535);
        if port.None? || port.value == 0 { return None; }
        return Some(Bind(DEFAULT_HOST, port.value));
      }
      host, hostPort := hostPort[..colon.value], hostPort[colon.value + 1..];
    }
    if host == "" || hostPort == "" { return None; }
    var port := FromChars(hostPort, 65535);
    if port.None? || port.value == 0 { return None; }
    return Some(Bind(host, port.value));
  }

  lemma TrimmedOfSolid(s: string)
    requires s != "" && !Leads(s[0]) && !Trails(s[|s| - 1])
    ensures Trimmed(s) == s
  {
  }

  lemma NoColon(s: string)
    requires ':' !in s
    ensures FindLast(s, ':') == None
  {
  }

  lemma PortOfDigits(port: nat)
    requires 1 <= port <= 65535
    ensures Port(Digits(port)) == Some(port) && !Leads(Digits(port)[0]) && !Trails(Digits(port)[|Digits(port)| - 1])
    ensures FindLast(Digits(port), ':') == None
  {
    FromCharsOfDigits(port, 65535);
    NumberOfDigits(port);
    NoColon(Digits(port));
  }

  lemma {:induction false} LastOfAppended(a: string, c: char, b: string)
    requires c !in b
    ensures FindLast(a + [c] + b, c) == Some(|a|)
  {
    var s := a + [c] + b;
    if b == "" {
      assert s[|s| - 1] == c;
    } else {
      assert s[|s| - 1] == b[|b| - 1] != c;
      assert s[..|s| - 1] == a + [c] + b[..|b| - 1];
      LastOfAppended(a, c, b[..|b| - 1]);
    }
  }

  lemma FirstOfAppended(a: string, c: char, b: string)
    requires c !in a
    ensures Find(a + [c] + b, [c], 0) == Some(|a|)
  {
    var s := a + [c] + b;
    assert s[|a|..|a| + 1] == [c];
    forall k | 0 <= k < |a| ensures !MatchesAt(s, [c], k) {
      assert s[k..k + 1][0] == a[k];
    }
    FindIsUnique(s, [c], 0, |a|);
  }

  /** `host:port` gives them back; the host may hold colons, for the last one divides. */
  lemma HostPortRoundTrip(host: string, port: nat)
    requires host != "" && !Leads(host[0]) && host[0] != '[' && 1 <= port <= 65535
    ensures ParseBind(host + ":" + Digits(port)) == Some(Bind(host, port))
  {
    PortOfDigits(port);
    var p := Digits(port);
    var s := host + ":" + p;
    LastOfAppended(host, ':', p);
    hide FindLast, Port, Digits;
    assert s[0] == host[0] && s[|s| - 1] == p[|p| - 1];
    TrimmedOfSolid(s);
    hide Trimmed;
    assert s[..|host|] == host && s[|host| + 1..] == p;
  }

  lemma Brackets(host: string, p: string)
    requires ']' !in host && p != ""
    ensures
      var s := "[" + host + "]:" + p;
      && s[0] == '[' && s[|s| - 1] == p[|p| - 1] && Find(s, "]", 0) == Some(|host| + 1)
      && s[1..|host| + 1] == host && s[|host| + 2..] == ":" + p && (":" + p)[1..] == p
  {
    var s := "[" + host + "]:" + p;
    FirstOfAppended("[" + host, ']', ":" + p);
    assert s == ("[" + host) + "]" + (":" + p);
  }

  /** `[host]:port` gives them back. */
  lemma BracketRoundTrip(host: string, port: nat)
    requires host != "" && ']' !in host && 1 <= port <= 65535
    ensures ParseBind("[" + host + "]:" + Digits(port)) == Some(Bind(host, port))
  {
    PortOfDigits(port);
    var p := Digits(port);
    var s := "[" + host + "]:" + p;
    hide Port, Digits, Trimmed;
    Brackets(host, p);
    TrimmedOfSolid(s);
    hide Find;
  }

  /** A bare port binds the loopback host. */
  lemma BarePortRoundTrip(port: nat)
    requires 1 <= port <= 65535
    ensures ParseBind(Digits(port)) == Some(Bind(DEFAULT_HOST, port))
  {
    PortOfDigits(port);
    NumberOfDigits(port);
    TrimmedOfSolid(Digits(port));
  }

  // ----- What follows a number -----

  /** Only the digits a text begins with are read. */
  lemma DigitsThenText(n: nat, t: string, max: nat)
    requires n <= max && (t != "" ==> !IsDigit(t[0]))
    ensures FromChars(Digits(n) + t, max) == Some(n)
  {
    var p, s := Digits(n), Digits(n) + t;
    NumberOfDigits(n);
    assert forall i :: 0 <= i < |p| ==> s[i] == p[i];
    assert t != "" ==> s[|p|] == t[0];
    assert DigitRun(s) == |p|;
    assert s[..|p|] == p;
  }

  lemma {:induction false} EndOfJoined(a: string, t: string)
    requires a != "" && !Trails(a[|a| - 1])
    ensures TrimmedEnd(a + t) == a + TrimmedEnd(t)
    ensures TrimmedEnd(t) <= t
  {
    if t == "" {
      assert a + t == a;
    } else if Trails(t[|t| - 1]) {
      assert (a + t)[..|a + t| - 1] == a + t[..|t| - 1];
      EndOfJoined(a, t[..|t| - 1]);
    }
  }

  /** A text that begins with a digit or a host is trimmed at its end only, and not into its number. */
  lemma TrimmedAfterNumber(front: string, n: nat, t: string)
    requires (front + Digits(n) != "" && !Leads((front + Digits(n))[0])) && (t != "" ==> !IsDigit(t[0]))
    ensures var u := TrimmedEnd(t);
      Trimmed(front + Digits(n) + t) == front + Digits(n) + u && u <= t && (u != "" ==> !IsDigit(u[0]))
  {
    var a := front + Digits(n);
    NumberOfDigits(n);
    assert a[|a| - 1] == Digits(n)[|Digits(n)| - 1] && IsDigit(a[|a| - 1]);
    assert (a + t)[0] == a[0];
    EndOfJoined(a, t);
    hide TrimmedEnd, Digits;
  }

  lemma BindAtColon(text: string, host: string, p: string)
    requires host != "" && host[0] != '[' && ':' !in p && Trimmed(text) == host + [':'] + p
    ensures ParseBind(text) == HostAndPort(host, p)
  {
    var s := host + [':'] + p;
    LastOfAppended(host, ':', p);
    hide FindLast, Trimmed, HostAndPort;
    assert s[..|host|] == host && s[|host| + 1..] == p && s[0] == host[0];
  }

  /** `host:port` binds as it says whatever text follows the port. */
  lemma TextAfterThePortIsIgnored(host: string, port: nat, t: string)
    requires host != "" && !Leads(host[0]) && host[0] != '[' && 1 <= port <= 65535
    requires (t != "" ==> !IsDigit(t[0])) && ':' !in t
    ensures ParseBind(host + ":" + Digits(port) + t) == Some(Bind(host, port))
  {
    hide ParseBind, FindLast, FromChars, Digits, Trimmed, TrimmedEnd;
    var u := TrimmedEnd(t);
    var p := Digits(port) + u;
    TrimmedAfterNumber(host + ":", port, t);
    DigitsThenText(port, u, 65535);
    NumberOfDigits(port);
    assert host + ":" + Digits(port) + u == host + [':'] + p;
    BindAtColon(host + ":" + Digits(port) + t, host, p);
    assert Port(p) == Some(port) && p != "";
  }

  lemma ReadLength(h: Head, v: string, n: nat)
    requires FromChars(Trimmed(v), MAX_BODY_BYTES) == Some(n)
    ensures Read(h, "Content-Length" + [':'] + v) == Some(h.(length := n))
  {
    var name := "Content-Length";
    var line := name + [':'] + v;
    FirstOfAppended(name, ':', v);
    TrimmedOfSolid(name);
    hide Find, Trimmed, FromChars;
    assert line[..|name|] == name && line[|name| + 1..] == v;
    assert HasName(line, name) by { assert SameIgnoringCase(name, name); }
    forall other: string | |other| != |name| ensures !HasName(line, other) {
    }
    hide HasName;
  }

  /** A Content-Length is read the same way: "10abc" is 10. */
  lemma TextAfterTheLengthIsIgnored(h: Head, n: nat, t: string)
    requires n <= MAX_BODY_BYTES && (t != "" ==> !IsDigit(t[0]))
    ensures Read(h, "Content-Length" + [':'] + (Digits(n) + t)) == Some(h.(length := n))
  {
    hide Read, FromChars, Digits, Trimmed, TrimmedEnd;
    NumberOfDigits(n);
    assert "" + Digits(n) == Digits(n);
    TrimmedAfterNumber("", n, t);
    DigitsThenText(n, TrimmedEnd(t), MAX_BODY_BYTES);
    ReadLength(h, Digits(n) + t, n);
  }

  // ----- Comparing a token -----

  /** Compares without stopping at the first difference. */
  method ConstantTimeEquals(a: seq<bv8>, b: seq<bv8>) returns (same: bool)
    ensures same == (a == b)
  {
    if |a| != |b| { return false; }
    var diff: bv8 := 0;
    for i := 0 to |a|
      invariant diff == 0 <==> a[..i] == b[..i]
    {
      ghost var was := diff;
      diff := diff | (a[i] ^ b[i]);
      OrOfXor(was, a[i], b[i]);
      assert a[..i + 1] == a[..i] + [a[i]] && b[..i + 1] == b[..i] + [b[i]];
    }
    assert a[..|a|] == a && b[..|b|] == b;
    return diff == 0;
  }

  lemma OrOfXor(d: bv8, x: bv8, y: bv8)
    ensures d | (x ^ y) == 0 <==> d == 0 && x == y
  {
  }
}
