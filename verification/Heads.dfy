/**
 Message heads: what the library accepts for sending, and how it prints it
 (crates/h11r/src/wire.rs validators and serializers, crates/h11r/src/lib.rs).
 */
module Heads {
  import opened Prelude
  import opened Bytes
  import opened Fields
  import opened Scan

  type Status = n: nat | 100 <= n <= 599 witness 200

  datatype Request = Request(method_: bytes, target: bytes, headers: seq<Header>, version: Version)

  datatype Response = Response(status: Status, reason: bytes, headers: seq<Header>, version: Version)

  predicate IsInformational(status: Status) {
    status < 200
  }

  predicate IsSuccess(status: Status) {
    200 <= status < 300
  }

  // ------------------------------------------------------------------
  // Validation
  // ------------------------------------------------------------------

  predicate ValidMethod(name: bytes) {
    ValidName(name)
  }

  predicate ValidTarget(target: bytes) {
    target != [] && forall b <- target :: IsGraphic(b)
  }

  /** At most one Host field, required by HTTP/1.1; `authority` judges its value. */
  predicate ValidHost(version: Version, headers: seq<Header>, authority: bytes -> bool) {
    var hosts := HeaderValues(headers, HOST);
    match |hosts|
    case 0 => version == Http10
    case 1 => authority(hosts[0])
    case _ => false
  }

  predicate ValidValue(value: bytes) {
    value == [] ||
    (IsFieldVchar(value[0]) && IsFieldVchar(value[|value| - 1]) && forall b <- value :: IsLineValueByte(b))
  }

  predicate ValidHeader(header: Header) {
    ValidName(header.name) && ValidValue(header.value)
  }

  predicate ValidHeaders(headers: seq<Header>) {
    forall header <- headers :: ValidHeader(header)
  }

  predicate ValidReason(reason: bytes) {
    forall b <- reason :: IsLineValueByte(b)
  }

  const HEADER_ONLY: seq<bytes> :=
    [CONTENT_LENGTH, TRANSFER_ENCODING, HOST, CONNECTION, "trailer", UPGRADE, EXPECT, "te"]

  predicate ValidTrailers(trailers: seq<Header>) {
    && ValidHeaders(trailers)
    && forall header <- trailers, name <- HEADER_ONLY :: !EqIgnoreCase(header.name, name)
  }

  // ------------------------------------------------------------------
  // Printing
  // ------------------------------------------------------------------

  function VersionBytes(version: Version): bytes {
    if version == Http10 then "1.0" else "1.1"
  }

  function HeaderLine(header: Header): bytes {
    header.name + ": " + header.value
  }

  function RequestLine(r: Request): bytes {
    r.method_ + " " + r.target + " HTTP/" + VersionBytes(r.version)
  }

  function StatusDigits(status: Status): bytes {
    ['0' + (status / 100) as char, '0' + (status / 10 % 10) as char, '0' + (status % 10) as char]
  }

  function StatusLine(r: Response): bytes {
    "HTTP/" + VersionBytes(r.version) + " " + StatusDigits(r.status) + " " + r.reason
  }

  /** Lines, each followed by CRLF. */
  function LinesBytes(lines: seq<bytes>): bytes {
    if lines == [] then [] else lines[0] + CRLF + LinesBytes(lines[1..])
  }

  function HeaderLines(headers: seq<Header>): (lines: seq<bytes>)
    ensures |lines| == |headers|
    ensures forall i :: 0 <= i < |lines| ==> lines[i] == HeaderLine(headers[i])
  {
    if headers == [] then [] else [HeaderLine(headers[0])] + HeaderLines(headers[1..])
  }

  /** A field section: its lines and the empty line that ends it. */
  function SectionBytes(lines: seq<bytes>): bytes {
    LinesBytes(lines) + CRLF
  }

  function RequestBytes(r: Request): bytes {
    SectionBytes([RequestLine(r)] + HeaderLines(r.headers))
  }

  function ResponseBytes(r: Response): bytes {
    SectionBytes([StatusLine(r)] + HeaderLines(r.headers))
  }

  function TrailerBytes(trailers: seq<Header>): bytes {
    SectionBytes(HeaderLines(trailers))
  }

  lemma {:induction false} LinesBytesConcat(u: seq<bytes>, v: seq<bytes>)
    ensures LinesBytes(u + v) == LinesBytes(u) + LinesBytes(v)
    decreases |u|
  {
    if u == [] {
      assert u + v == v;
    } else {
      assert (u + v)[1..] == u[1..] + v;
      LinesBytesConcat(u[1..], v);
    }
  }

  // The printers of the implementation build their output piece by piece.

  method WriteHeaders(start: bytes, headers: seq<Header>) returns (out: bytes)
    ensures out == start + LinesBytes(HeaderLines(headers))
  {
    hide LinesBytes;
    ghost var lines := HeaderLines(headers);
    out := start;
    FirstLines(lines, 0);
    for i := 0 to |headers|
      invariant out == start + LinesBytes(lines[..i])
    {
      FirstLines(lines, i);
      ghost var before := LinesBytes(lines[..i]);
      out := out + headers[i].name;
      out := out + ": ";
      out := out + headers[i].value;
      out := out + CRLF;
      Appended(start, before, headers[i].name, headers[i].value);
    }
    assert lines[..|headers|] == lines;
  }

  lemma FirstLines(lines: seq<bytes>, i: nat)
    requires i <= |lines|
    ensures LinesBytes(lines[..0]) == []
    ensures i < |lines| ==> LinesBytes(lines[..i + 1]) == LinesBytes(lines[..i]) + (lines[i] + CRLF)
  {
    hide LinesBytes;
    NoLines();
    if i < |lines| {
      assert lines[..i + 1] == lines[..i] + [lines[i]];
      LinesBytesConcat(lines[..i], [lines[i]]);
      OneLine(lines[i]);
    }
  }

  lemma NoLines()
    ensures LinesBytes([]) == []
  {
  }

  lemma OneLine(line: bytes)
    ensures LinesBytes([line]) == line + CRLF
  {
  }

  lemma Appended(start: bytes, before: bytes, name: bytes, value: bytes)
    ensures start + before + name + ": " + value + CRLF == start + (before + (name + ": " + value + CRLF))
  {
  }

  method SerializeRequest(r: Request) returns (out: bytes)
    ensures out == RequestBytes(r)
  {
    out := r.method_;
    out := out + [' '];
    out := out + r.target;
    out := out + " HTTP/";
    out := out + VersionBytes(r.version);
    out := out + CRLF;
    out := WriteHeaders(out, r.headers);
    out := out + CRLF;
    assert LinesBytes([RequestLine(r)]) == RequestLine(r) + CRLF;
    LinesBytesConcat([RequestLine(r)], HeaderLines(r.headers));
  }

  method SerializeResponse(r: Response) returns (out: bytes)
    ensures out == ResponseBytes(r)
  {
    out := "HTTP/";
    out := out + VersionBytes(r.version);
    out := out + [' '];
    out := out + ['0' + (r.status / 100) as char, '0' + (r.status / 10 % 10) as char, '0' + (r.status % 10) as char];
    out := out + [' '];
    out := out + r.reason;
    out := out + CRLF;
    out := WriteHeaders(out, r.headers);
    out := out + CRLF;
    assert LinesBytes([StatusLine(r)]) == StatusLine(r) + CRLF;
    LinesBytesConcat([StatusLine(r)], HeaderLines(r.headers));
  }

  // ------------------------------------------------------------------
  // Output length
  // ------------------------------------------------------------------

  function HeadersLength(headers: seq<Header>): nat {
    if headers == [] then 0
    else |headers[0].name| + |headers[0].value| + 4 + HeadersLength(headers[1..])
  }

  function HeadLength(startLine: nat, headers: seq<Header>): nat {
    startLine + HeadersLength(headers) + 2
  }

  lemma {:induction false} HeadersLengthExact(headers: seq<Header>)
    ensures |LinesBytes(HeaderLines(headers))| == HeadersLength(headers)
    decreases |headers|
  {
    if headers != [] {
      HeadersLengthExact(headers[1..]);
      assert HeaderLines(headers)[1..] == HeaderLines(headers[1..]);
    }
  }

  /** The capacity reserved for a head is exactly its length. */
  lemma HeadLengthExact(q: Request, r: Response)
    ensures |RequestBytes(q)| == HeadLength(|q.method_| + |q.target| + 12, q.headers)
    ensures |ResponseBytes(r)| == HeadLength(15 + |r.reason|, r.headers)
  {
    HeadersLengthExact(q.headers);
    HeadersLengthExact(r.headers);
    LinesBytesConcat([RequestLine(q)], HeaderLines(q.headers));
    LinesBytesConcat([StatusLine(r)], HeaderLines(r.headers));
    assert LinesBytes([RequestLine(q)]) == RequestLine(q) + CRLF;
    assert LinesBytes([StatusLine(r)]) == StatusLine(r) + CRLF;
  }

  // ------------------------------------------------------------------
  // Printed sections are scanned as sections
  // ------------------------------------------------------------------

  /** A line that neither ends early nor reads as the end of the section. */
  predicate FieldLine(line: bytes) {
    line != [] && '\n' !in line
  }

  lemma {:induction false} PollSkips(p: Progress, data: bytes, skip: bool, end: nat)
    requires p.lineStart <= p.at <= end <= |data|
    requires forall i :: p.at <= i < end ==> data[i] != '\n'
    ensures PollFrom(p, data, skip) == PollFrom(p.(at := end), data, skip)
    decreases end - p.at
  {
    if p.at < end {
      PollSkips(p.(at := p.at + 1), data, skip, end);
    }
  }

  /** One terminated line, from its start. */
  lemma PollLine(at: nat, started: bool, before: bytes, line: bytes, rest: bytes, skip: bool)
    requires at == |before| && '\n' !in line
    ensures var data := before + (line + CRLF + rest);
      var next := at + |line| + 2;
      PollFrom(Progress(at, at, started), data, skip)
        == if line != [] then PollFrom(Progress(next, next, true), data, skip)
           else if started || !skip then Polled(Progress(next, next, started), Some(next))
           else PollFrom(Progress(next, next, started), data, skip)
  {
    var data := before + (line + CRLF + rest);
    var end := at + |line| + 1;
    assert forall i :: at <= i < end ==> data[i] == (line + "\r")[i - at];
    assert data[end] == '\n';
    PollSkips(Progress(at, at, started), data, skip, end);
    assert data[at..end] == line + "\r";
    assert BlankLine(line + "\r") <==> line == [] by {
      assert |line + "\r"| == |line| + 1;
      assert line == [] ==> line + "\r" == "\r";
    }
  }

  lemma {:induction false} PollPrinted(at: nat, started: bool, before: bytes, lines: seq<bytes>, rest: bytes, skip: bool)
    requires at == |before| && forall line <- lines :: FieldLine(line)
    requires skip ==> started || lines != []
    ensures PollFrom(Progress(at, at, started), before + (SectionBytes(lines) + rest), skip).end
         == Some(at + |SectionBytes(lines)|)
    decreases |lines|
  {
    hide PollFrom;
    if lines == [] {
      PollLine(at, started, before, [], rest, skip);
      assert SectionBytes(lines) + rest == [] + CRLF + rest;
    } else {
      assert lines[0] in lines;
      var head := lines[0] + CRLF;
      var tail := SectionBytes(lines[1..]) + rest;
      assert SectionBytes(lines) + rest == head + tail;
      PollLine(at, started, before, lines[0], tail, skip);
      assert (before + head) + tail == before + (SectionBytes(lines) + rest);
      PollPrinted(at + |head|, true, before + head, lines[1..], rest, skip);
    }
  }

  /** Whatever follows, the scanner stops exactly at the end of a printed section. */
  lemma SectionScanned(lines: seq<bytes>, rest: bytes, skip: bool)
    requires forall line <- lines :: FieldLine(line)
    requires skip ==> lines != []
    ensures SectionEnd(SectionBytes(lines) + rest, skip) == Some(|SectionBytes(lines)|)
  {
    PollPrinted(0, false, [], lines, rest, skip);
    assert [] + (SectionBytes(lines) + rest) == SectionBytes(lines) + rest;
  }

  lemma HeaderLinesAreFieldLines(headers: seq<Header>)
    requires ValidHeaders(headers)
    ensures forall line <- HeaderLines(headers) :: FieldLine(line)
  {
    forall line <- HeaderLines(headers)
      ensures FieldLine(line)
    {
      var i :| 0 <= i < |headers| && line == HeaderLines(headers)[i];
      assert headers[i] in headers;
      assert line == HeaderLine(headers[i]);
    }
  }

  lemma RequestScanned(r: Request, rest: bytes)
    requires ValidMethod(r.method_) && ValidTarget(r.target) && ValidHeaders(r.headers)
    ensures SectionEnd(RequestBytes(r) + rest, true) == Some(|RequestBytes(r)|)
  {
    HeaderLinesAreFieldLines(r.headers);
    assert FieldLine(RequestLine(r));
    SectionScanned([RequestLine(r)] + HeaderLines(r.headers), rest, true);
  }

  lemma ResponseScanned(r: Response, rest: bytes)
    requires ValidReason(r.reason) && ValidHeaders(r.headers)
    ensures SectionEnd(ResponseBytes(r) + rest, true) == Some(|ResponseBytes(r)|)
  {
    HeaderLinesAreFieldLines(r.headers);
    assert FieldLine(StatusLine(r));
    SectionScanned([StatusLine(r)] + HeaderLines(r.headers), rest, true);
  }

  lemma TrailersScanned(trailers: seq<Header>, rest: bytes)
    requires ValidHeaders(trailers)
    ensures SectionEnd(TrailerBytes(trailers) + rest, false) == Some(|TrailerBytes(trailers)|)
  {
    HeaderLinesAreFieldLines(trailers);
    SectionScanned(HeaderLines(trailers), rest, false);
  }

  // ------------------------------------------------------------------
  // The reason phrase
  // ------------------------------------------------------------------

  /** The position of the first LF at or after `start`. */
  function FindLf(data: bytes, start: nat): (end: Option<nat>)
    ensures end.Some? ==> start <= end.value < |data| && data[end.value] == '\n'
    decreases |data| - start
  {
    if start >= |data| then None
    else if data[start] == '\n' then Some(start)
    else FindLf(data, start + 1)
  }

  /** The first line that is not empty, without its terminator. */
  function FirstNonEmptyLine(data: bytes, start: nat): bytes
    decreases |data| - start
  {
    match FindLf(data, start)
    case None => []
    case Some(end) =>
      var contentEnd := if end > start && data[end - 1] == '\r' then end - 1 else end;
      if contentEnd > start then data[start..contentEnd] else FirstNonEmptyLine(data, end + 1)
  }

  method FindNonEmptyLine(data: bytes) returns (line: bytes)
    ensures line == FirstNonEmptyLine(data, 0)
  {
    var start := 0;
    while FindLf(data, start).Some?
      invariant start <= |data|
      invariant FirstNonEmptyLine(data, start) == FirstNonEmptyLine(data, 0)
      decreases |data| - start
    {
      var end := FindLf(data, start).value;
      var contentEnd := if end > start && data[end - 1] == '\r' then end - 1 else end;
      line := data[start..contentEnd];
      if line != [] {
        return;
      }
      start := end + 1;
    }
    line := [];
  }

  lemma {:induction false} FindLfIs(data: bytes, start: nat, end: nat)
    requires start <= end < |data| && data[end] == '\n'
    requires forall i :: start <= i < end ==> data[i] != '\n'
    ensures FindLf(data, start) == Some(end)
    decreases end - start
  {
    if start < end {
      FindLfIs(data, start + 1, end);
    }
  }

  /** The status line is recovered from the printed head, and past its
      thirteenth byte stands the reason phrase. */
  lemma ReasonRecovered(r: Response)
    requires ValidReason(r.reason)
    ensures FirstNonEmptyLine(ResponseBytes(r), 0) == StatusLine(r)
    ensures StatusLine(r)[13..] == r.reason
  {
    StatusLineIs(r);
    hide StatusLine, LinesBytes, FirstNonEmptyLine, ValidReason;
    var line := StatusLine(r);
    var lines := LinesBytes(HeaderLines(r.headers));
    LinesBytesConcat([line], HeaderLines(r.headers));
    OneLine(line);
    assert (line + CRLF + lines) + CRLF == line + CRLF + (lines + CRLF);
    FirstLineRead(line, lines + CRLF);
  }

  lemma StatusLineIs(r: Response)
    requires ValidReason(r.reason)
    ensures StatusLine(r) != [] && '\n' !in StatusLine(r) && StatusLine(r)[13..] == r.reason
  {
  }

  /** A line is read back up to its CRLF. */
  lemma FirstLineRead(line: bytes, rest: bytes)
    requires line != [] && '\n' !in line
    ensures FirstNonEmptyLine(line + CRLF + rest, 0) == line
  {
    var data := line + CRLF + rest;
    var end := |line| + 1;
    assert data[end] == '\n' && data[|line|] == '\r';
    assert forall i :: 0 <= i < |line| ==> data[i] == line[i];
    FindLfIs(data, 0, end);
    assert data[0..|line|] == line;
  }

  // ------------------------------------------------------------------
  // Rewriting keeps heads valid
  // ------------------------------------------------------------------

  /** A connection option that can stand in a valid field value. */
  predicate PrintableOption(option: bytes) {
    option != [] && Trimmed(option) && forall b <- option :: IsLineValueByte(b)
  }

  lemma {:induction false} JoinedOptionsAreValid(options: seq<bytes>)
    requires options != [] && forall option <- options :: PrintableOption(option)
    ensures JoinList(options) != [] && ValidValue(JoinList(options))
    decreases |options|
  {
    assert options[0] in options;
    assert options[0][0] in options[0] && options[0][|options[0]| - 1] in options[0];
    if |options| > 1 {
      JoinedOptionsAreValid(options[1..]);
      var rest := JoinList(options[1..]);
      assert JoinList(options) == options[0] + ", " + rest;
      assert JoinList(options)[|JoinList(options)| - 1] == rest[|rest| - 1];
    }
  }

  lemma {:induction false} HeaderValuesValid(headers: seq<Header>, name: bytes)
    requires ValidHeaders(headers)
    ensures forall value <- HeaderValues(headers, name), b <- value :: IsLineValueByte(b)
    decreases |headers|
  {
    if headers != [] {
      assert headers[0] in headers;
      HeaderValuesValid(headers[1..], name);
    }
  }

  lemma {:induction false} MembersPrintable(values: seq<bytes>)
    requires forall value <- values, b <- value :: IsLineValueByte(b)
    ensures forall m <- AllMembers(values) :: Trimmed(m) && forall b <- m :: IsLineValueByte(b)
    decreases |values|
  {
    if values != [] {
      assert values[0] in values;
      MembersAreMembers(values[0]);
      MembersPrintable(values[1..]);
    }
  }

  lemma {:induction false} WithoutKeepsValid(headers: seq<Header>, name: bytes)
    requires ValidHeaders(headers)
    ensures ValidHeaders(Without(headers, name))
    decreases |headers|
  {
    hide ValidHeader;
    if headers != [] {
      assert headers[0] in headers;
      WithoutKeepsValid(headers[1..], name);
    }
  }

  lemma CloseKeepsValid(headers: seq<Header>)
    requires ValidHeaders(headers)
    ensures ValidHeaders(SetConnectionClose(headers))
  {
    hide Members, KeptOptions, JoinList, IsLineValueByte, Trimmed, IsMember;
    var members := Elements(headers, CONNECTION);
    var options := KeptOptions(members) + [CLOSE];
    HeaderValuesValid(headers, CONNECTION);
    MembersPrintable(HeaderValues(headers, CONNECTION));
    ElementsAreMembers(HeaderValues(headers, CONNECTION));
    KeptOptionsAreKept(members);
    CloseIsPrintable();
    JoinedOptionsAreValid(options);
    WithoutKeepsValid(headers, CONNECTION);
    ConnectionIsName();
  }

  lemma CloseIsPrintable()
    ensures PrintableOption(CLOSE)
  {
  }

  lemma ConnectionIsName()
    ensures ValidName("Connection")
  {
  }
}
