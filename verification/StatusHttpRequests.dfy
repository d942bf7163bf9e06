/**
 * A request written as section 3 of RFC 9112 says is read back: the parser accepts every well-formed request and
 * recovers its fields, whatever follows it in the buffer.
 */
module StatusHttpRequests {
  import opened StatusHttp
  import opened Text
  import opened Wrappers

  datatype Field = Field(name: string, value: string)

  function LineOf(f: Field): string { f.name + ":" + (" " + f.value) }

  function LinesOf(fields: seq<Field>): (lines: seq<string>)
    ensures |lines| == |fields|
  {
    if fields == [] then [] else LinesOf(fields[..|fields| - 1]) + [LineOf(fields[|fields| - 1])]
  }

  /** The lines with a line end between them. */
  function Block(lines: seq<string>): string
    requires lines != []
  {
    if |lines| == 1 then lines[0] else lines[0] + CRLF + Block(lines[1..])
  }

  /** A request as it is sent. */
  function Rendered(requestLine: string, fields: seq<Field>, body: string): string {
    Block([requestLine] + LinesOf(fields)) + HEADER_END + body
  }

  predicate Solid(s: string) { '\r' !in s && Trimmed(s) == s }

  ghost predicate WellFormed(f: Field) {
    f.name != "" && ':' !in f.name && Solid(f.name) && Solid(f.value)
  }

  // ----- Lines -----

  predicate NoCr(line: string) { line != "" && '\r' !in line }

  /** Without its first character the pattern stands nowhere. */
  lemma {:induction false} FindNone(s: string, pattern: string, from: nat)
    requires pattern != "" && pattern[0] !in s
    ensures Find(s, pattern, from) == None
    decreases |s| - from
  {
    if from + |pattern| <= |s| {
      assert s[from..from + |pattern|][0] == s[from];
      FindNone(s, pattern, from + 1);
    }
  }

  lemma FindCrlf(line: string, rest: string)
    requires '\r' !in line
    ensures Find(line, CRLF, 0) == None && Find(line + CRLF + rest, CRLF, 0) == Some(|line|)
  {
    var s := line + CRLF + rest;
    assert s[|line|..|line| + 2] == CRLF;
    forall k | 0 <= k < |line| ensures !MatchesAt(s, CRLF, k) {
      assert s[k..k + 2][0] == line[k];
    }
    FindIsUnique(s, CRLF, 0, |line|);
    FindNone(line, CRLF, 0);
  }

  /** Cutting undoes joining. */
  lemma {:induction false} LinesOfBlock(lines: seq<string>)
    requires lines != [] && forall i :: 0 <= i < |lines| ==> NoCr(lines[i])
    ensures Lines(Block(lines)) == lines
  {
    FindCrlf(lines[0], if |lines| == 1 then "" else Block(lines[1..]));
    if |lines| == 1 {
      assert lines == [lines[0]];
    } else {
      var rest := Block(lines[1..]);
      LinesOfBlock(lines[1..]);
      assert Block(lines)[|lines[0]| + 2..] == rest && Block(lines)[..|lines[0]|] == lines[0];
      assert lines == [lines[0]] + lines[1..];
      hide Find;
    }
  }

  /** Every carriage return of the block stands before a line that does not begin with one. */
  ghost predicate Clean(s: string) { forall i :: 0 <= i < |s| && s[i] == '\r' ==> i + 2 < |s| && s[i + 2] != '\r' }

  lemma {:induction false} BlockIsClean(lines: seq<string>)
    requires lines != [] && forall i :: 0 <= i < |lines| ==> NoCr(lines[i])
    ensures Clean(Block(lines)) && Block(lines) != "" && Block(lines)[0] != '\r'
  {
    if |lines| > 1 {
      BlockIsClean(lines[1..]);
      var first, rest := lines[0], Block(lines[1..]);
      var s := first + CRLF + rest;
      forall i | 0 <= i < |s| && s[i] == '\r' ensures i + 2 < |s| && s[i + 2] != '\r' {
        if i == |first| {
          assert s[i + 2] == rest[0];
        } else if i > |first| {
          assert s[i] == (CRLF + rest)[i - |first|];
          assert i >= |first| + 2;
          assert rest[i - |first| - 2] == '\r';
        }
      }
    }
  }

  lemma CharsOfEnd(s: string, k: nat)
    ensures MatchesAt(s, HEADER_END, k) ==> k + 4 <= |s| && s[k] == '\r' && s[k + 2] == '\r'
  {
    if k + 4 <= |s| { assert s[k..k + 4][0] == s[k] && s[k..k + 4][2] == s[k + 2]; }
  }

  /** The empty line is the first one. */
  lemma EndOfClean(head: string, body: string)
    requires Clean(head)
    ensures Find(head + HEADER_END + body, HEADER_END, 0) == Some(|head|)
  {
    var s := head + HEADER_END + body;
    assert s[|head|..|head| + 4] == HEADER_END;
    forall k | 0 <= k < |head| ensures !MatchesAt(s, HEADER_END, k) {
      assert s[k] == head[k] && (k + 2 < |head| ==> s[k + 2] == head[k + 2]);
      CharsOfEnd(s, k);
    }
    FindIsUnique(s, HEADER_END, 0, |head|);
  }

  // ----- The request line -----

  /** Searching behind a beginning is searching the rest. */
  lemma {:induction false} FindBehind(before: string, s: string, pattern: string, from: nat)
    ensures var r := Find(s, pattern, from);
      Find(before + s, pattern, |before| + from) == if r.None? then None else Some(|before| + r.value)
    decreases |s| - from
  {
    if from + |pattern| <= |s| {
      assert (before + s)[|before| + from..|before| + from + |pattern|] == s[from..from + |pattern|];
      FindBehind(before, s, pattern, from + 1);
    }
  }

  lemma FindSpaces(a: string, b: string, c: string)
    requires ' ' !in a && ' ' !in b
    ensures Find(a + " " + b + " " + c, " ", 0) == Some(|a|)
    ensures Find(a + " " + b + " " + c, " ", |a| + 1) == Some(|a| + 1 + |b|)
  {
    Regroup(a, b, c);
    FindTwo(a, b + " " + c, |b|) by { FirstOfAppended(b, ' ', c); }
  }

  lemma FindTwo(a: string, rest: string, n: nat)
    requires ' ' !in a && Find(rest, " ", 0) == Some(n)
    ensures Find(a + " " + rest, " ", 0) == Some(|a|)
    ensures Find(a + " " + rest, " ", |a| + 1) == Some(|a| + 1 + n)
  {
    FirstOfAppended(a, ' ', rest);
    FindBehind(a + " ", rest, " ", 0);
  }

  lemma Regroup(a: string, b: string, c: string)
    ensures a + " " + b + " " + c == a + " " + (b + " " + c)
  {
  }

  /** The target: a path, or a path and a query behind a '?'. */
  function Target(path: string, query: Option<string>): string {
    if query.None? then path else path + "?" + query.value
  }

  lemma RequestLineRoundTrip(method_: string, path: string, query: Option<string>, version: string)
    requires ' ' !in method_ && ' ' !in Target(path, query) && '?' !in path
    ensures ParseLine(method_ + " " + Target(path, query) + " " + version)
         == Some((method_, path, if query.None? then "" else query.value))
  {
    var target := Target(path, query);
    var line := method_ + " " + target + " " + version;
    FindSpaces(method_, target, version);
    assert line[..|method_|] == method_ && line[|method_| + 1..|method_| + 1 + |target|] == target;
    if query.None? {
      FindNone(path, "?", 0);
    } else {
      FirstOfAppended(path, '?', query.value);
      assert target[..|path|] == path && target[|path| + 1..] == query.value;
    }
    hide Find;
  }

  // ----- Header fields -----

  lemma FieldRoundTrip(f: Field)
    requires WellFormed(f)
    ensures Find(LineOf(f), ":", 0) == Some(|f.name|) && NoCr(LineOf(f))
    ensures Trimmed(LineOf(f)[..|f.name|]) == f.name && ValueOf(LineOf(f)) == f.value
  {
    FirstOfAppended(f.name, ':', " " + f.value);
    var line := LineOf(f);
    hide Find;
    assert line[..|f.name|] == f.name && line[|f.name| + 1..] == " " + f.value;
    BlankBefore(f.value);
  }

  lemma BlankBefore(value: string)
    requires Trimmed(value) == value
    ensures Trimmed(" " + value) == value
  {
    assert (" " + value)[1..] == value;
  }

  /** The value of the last field of that name, whatever the case of its letters. */
  function LastField(fields: seq<Field>, name: string): Option<string> {
    if fields == [] then None
    else
      var f := fields[|fields| - 1];
      if SameIgnoringCase(f.name, name) then Some(f.value) else LastField(fields[..|fields| - 1], name)
  }

  ghost predicate AllWellFormed(fields: seq<Field>) { forall i :: 0 <= i < |fields| ==> WellFormed(fields[i]) }

  lemma {:induction false} LastValueIsLastField(fields: seq<Field>, name: string)
    requires AllWellFormed(fields)
    ensures LastValue(LinesOf(fields), name) == LastField(fields, name)
  {
    if fields != [] {
      var n := |fields| - 1;
      LastValueIsLastField(fields[..n], name);
      FieldRoundTrip(fields[n]);
      var lines := LinesOf(fields);
      assert lines[..n] == LinesOf(fields[..n]) && lines[n] == LineOf(fields[n]);
      hide Find, LinesOf, WellFormed, Trimmed, SameIgnoringCase;
    }
  }

  lemma {:induction false} LineAt(fields: seq<Field>, i: nat)
    requires i < |fields|
    ensures LinesOf(fields)[i] == LineOf(fields[i])
  {
    if i < |fields| - 1 { LineAt(fields[..|fields| - 1], i); }
  }

  /** Every Content-Length begins with a number up to 1024, and the last one with the length of the body. */
  ghost predicate LengthFits(fields: seq<Field>, body: string) {
    && (forall i :: 0 <= i < |fields| && SameIgnoringCase(fields[i].name, "Content-Length") ==>
         FromChars(fields[i].value, MAX_BODY_BYTES).Some?)
    && var last := LastField(fields, "Content-Length");
       Some(|body|) == if last.None? then Some(0) else FromChars(last.value, MAX_BODY_BYTES)
  }

  lemma FieldsRoundTrip(fields: seq<Field>, body: string)
    requires AllWellFormed(fields) && LengthFits(fields, body)
    ensures ReadAll(LinesOf(fields)) == Some(Head(
      OrEmpty(LastField(fields, "Authorization")), OrEmpty(LastField(fields, "Content-Type")),
      OrEmpty(LastField(fields, "Host")), LastField(fields, "Origin").Some?, |body|))
  {
    var lines := LinesOf(fields);
    HeadersMeanTheirLastLines(lines);
    forall i | 0 <= i < |lines| ensures !BadLength(lines[i]) {
      LineAt(fields, i);
      FieldRoundTrip(fields[i]);
      hide Find, Trimmed, SameIgnoringCase, FromChars;
    }
    LastValueIsLastField(fields, "Authorization");
    LastValueIsLastField(fields, "Content-Type");
    LastValueIsLastField(fields, "Host");
    LastValueIsLastField(fields, "Origin");
    LastValueIsLastField(fields, "Content-Length");
    hide LinesOf, LastField, LastValue, ReadAll, FromChars, BadLength;
  }

  lemma HeadRoundTrip(requestLine: string, fields: seq<Field>)
    requires NoCr(requestLine) && AllWellFormed(fields)
    ensures var head := Block([requestLine] + LinesOf(fields));
      FirstLine(head) == requestLine && HeaderLines(head) == LinesOf(fields) && Clean(head)
  {
    var lines := [requestLine] + LinesOf(fields);
    forall i | 0 <= i < |lines| ensures NoCr(lines[i]) {
      if i > 0 {
        LineAt(fields, i - 1);
        FieldRoundTrip(fields[i - 1]);
      }
    }
    hide NoCr, AllWellFormed, LinesOf;
    BlockIsClean(lines);
    CutFirst(lines);
    assert lines[1..] == LinesOf(fields);
  }

  lemma CutFirst(lines: seq<string>)
    requires lines != [] && forall i :: 0 <= i < |lines| ==> NoCr(lines[i])
    ensures FirstLine(Block(lines)) == lines[0] && HeaderLines(Block(lines)) == lines[1..]
  {
    if |lines| == 1 {
      FindCrlf(lines[0], "");
    } else {
      var rest := Block(lines[1..]);
      FindCrlf(lines[0], rest);
      LinesOfBlock(lines[1..]);
      hide Find, Lines;
      assert Block(lines)[..|lines[0]|] == lines[0] && Block(lines)[|lines[0]| + 2..] == rest;
    }
  }

  /**
   * Every well-formed request is accepted, whatever follows it, with its method, path, query and body, and with the
   * last field of each name the parser knows.
   */
  lemma RequestRoundTrip(method_: string, path: string, query: Option<string>, version: string, fields: seq<Field>,
                         body: string, more: string)
    requires ' ' !in method_ && ' ' !in Target(path, query) && '?' !in path
    requires '\r' !in method_ && '\r' !in Target(path, query) && '\r' !in version
    requires AllWellFormed(fields) && LengthFits(fields, body)
    ensures Parse(Rendered(method_ + " " + Target(path, query) + " " + version, fields, body) + more)
         == Some(Request(method_, path, if query.None? then "" else query.value,
                         OrEmpty(LastField(fields, "Authorization")), OrEmpty(LastField(fields, "Content-Type")),
                         OrEmpty(LastField(fields, "Host")), LastField(fields, "Origin").Some?, body))
  {
    var line := method_ + " " + Target(path, query) + " " + version;
    assert NoCr(line);
    RequestLineRoundTrip(method_, path, query, version);
    FieldsRoundTrip(fields, body);
    HeadRoundTrip(line, fields);
    var head := Block([line] + LinesOf(fields));
    hide LengthFits, AllWellFormed, LastField, ReadAll, LinesOf, Block, ParseLine, Target, FirstLine, HeaderLines;
    WholeRequest(head, body, more);
  }

  lemma WholeRequest(head: string, body: string, more: string)
    requires Clean(head) && ParseHead(head).Some? && ParseHead(head).value.1 == |body|
    ensures Parse(head + HEADER_END + body + more) == Some(ParseHead(head).value.0.(body := body))
  {
    EndOfClean(head, body + more);
    var raw := head + HEADER_END + (body + more);
    assert raw == head + HEADER_END + body + more;
    ParseBy(raw, |head|);
    hide Clean, ParseHead, Find, Parse;
    assert raw[..|head|] == head && raw[|head| + 4..] == body + more;
    assert (body + more)[..|body|] == body;
  }
}
