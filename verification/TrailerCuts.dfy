/**
 Where fragments show in trailers.  The trailer section is searched like a head,
 but its first look is not at a fragment: it is at whatever follows the last chunk
 line when that line completes.
 */
module TrailerCuts {
  import opened Prelude
  import opened Bytes
  import opened Scan
  import opened ChunkLine
  import opened ConnectionModel
  import opened Coupling
  import opened Polling
  import opened Fragmentation
  import opened FragmentedRuns
  import opened BodyFragments
  import opened Cuts
  import L = Lifecycle

  // ------------------------------------------------------------------
  // One poll, with and without its saved search
  // ------------------------------------------------------------------

  /** The trailers are complete, or not judged, or too long in any case. */
  predicate TrailersUndisturbing(x: Externals, c: Conn) {
    || SectionEnd(c.input, false).Some?
    || ParseTrailers(x, c.input, c.limits, c.role == L.Client).Partial?
    || |c.input| > c.limits.maxHeadBytes
  }

  /**
   When a saved search shows, for any parser: a poll for trailers reports the same
   with it as without it if and only if they are complete, or the parser does not
   judge them yet, or they are too long.
   */
  lemma TrailersHintExactly(x: Externals, c: Conn)
    requires Coupled(c) && c.Peer() == L.SendBody && c.reader == ReadChunked(Trailers) && !c.eof
    requires c.progress.Some? && HintOk(c)
    ensures PlainNext(x, c) == PlainNext(x, Forget(c)) <==> TrailersUndisturbing(x, c)
  {
    hide NextInner, Coupled, HintOk, SectionEnd, ReadTrailers, L.Poison, ParseTrailers;
    var d := Forget(c);
    PlainNextIs(x, c);
    PlainNextIs(x, d);
    TrailersPoll(x, c);
    TrailersPoll(x, d);
    if SectionEnd(c.input, false).Some? {
      SearchedTrailers(x, c);
      return;
    }
    OverlongTrailers(x, c.input, c.limits, c.role == L.Client);
    UnendedTrailers(x, c);
    UnsearchedTrailers(x, d);
    WaitPlainly(d, false);
  }

  lemma SearchedTrailers(x: Externals, c: Conn)
    requires c.reader == ReadChunked(Trailers) && c.progress.Some? && HintOk(c) && !c.eof && SectionEnd(c.input, false).Some?
    ensures Plainly(ReadTrailers(x, c)) == Plainly(ReadTrailers(x, Forget(c)))
  {
    hide InStep, PollFrom, SectionEnd, ParseTrailers, FinishPeer, SectionReady, WaitForSection;
    ReadyWhen(c, false);
    ReadyWhen(Forget(c), false);
    ScannedFields(c, false);
    ScannedFields(Forget(c), false);
    ReadTrailersIs(x, c);
    ReadTrailersIs(x, Forget(c));
    PlainWait(SectionReady(c, false).0, SectionReady(Forget(c), false).0, false);
  }

  lemma UnendedTrailers(x: Externals, c: Conn)
    requires c.reader == ReadChunked(Trailers) && c.progress.Some? && HintOk(c) && !c.eof && SectionEnd(c.input, false).None?
    ensures Plainly(ReadTrailers(x, c)) == Plainly(WaitForSection(Forget(c), false))
  {
    hide InStep, PollFrom, SectionEnd, ParseTrailers, FinishPeer, SectionReady, WaitForSection;
    ReadyWhen(c, false);
    ScannedFields(c, false);
    ReadTrailersIs(x, c);
    PlainWait(SectionReady(c, false).0, Forget(c), false);
  }

  lemma UnsearchedTrailers(x: Externals, c: Conn)
    requires c.reader == ReadChunked(Trailers) && Forget(c) == c
    ensures var verdict := ParseTrailers(x, c.input, c.limits, c.role == L.Client);
      && (verdict.Partial? ==> ReadTrailers(x, c) == WaitForSection(c, false))
      && (verdict.Invalid? ==> ReadTrailers(x, c) == Step(c, Failed(verdict.status)))
      && (verdict.Complete? ==> |ReadTrailers(x, c).conn.input| < |c.input|)
  {
    hide WaitForSection, ParseTrailers, FinishPeer;
    ReadTrailersIs(x, c);
  }

  lemma OverlongTrailers(x: Externals, data: bytes, limits: Limits, fold: bool)
    requires SectionEnd(data, false).None?
    ensures |data| > limits.maxHeadBytes ==> ParseTrailers(x, data, limits, fold) == Invalid(Some(400))
  {
    hide SectionEnd;
  }

  // ------------------------------------------------------------------
  // The last chunk line
  // ------------------------------------------------------------------

  /** A complete chunk line, acceptable and of size zero. */
  predicate LastLine(line: bytes, limit: nat) {
    FindCrlf(line, 0) == Some(|line|) && |line| - 2 <= limit && ParseChunkHeader(line[..|line| - 2]) == Some(0)
  }

  /** A chunk line is awaited, and what there is of it begins the last one. */
  predicate BeforeLast(c: Conn, line: bytes) {
    && Coupled(c) && !c.eof && c.Peer() == L.SendBody && c.reader.ReadChunked? && c.reader.chunk.Size?
    && LastLine(line, c.limits.maxHeadBytes) && c.input < line
  }

  /** The connection at its trailers, with these bytes of them. */
  function OnTrailers(c: Conn, data: bytes): Conn {
    c.(reader := ReadChunked(Trailers), input := data, progress := None)
  }

  lemma PrefixOfLine(line: bytes, p: bytes)
    requires FindCrlf(line, 0) == Some(|line|) && p < line
    ensures FindCrlf(p, 0).None? && IncompleteLineLen(p) <= |line| - 2
  {
    FindCrlfIsFirst(line, 0);
    FindCrlfIsFirst(p, 0);
    if FindCrlf(p, 0).Some? {
      assert CrlfAt(line, FindCrlf(p, 0).value - 2);
    }
    if |p| == |line| - 1 {
      assert CrlfAt(line, |line| - 2) && p[|p| - 1] == line[|p| - 1];
    }
  }

  /** Less than the line is waited for. */
  lemma LineAwaited(x: Externals, c: Conn, line: bytes)
    requires BeforeLast(c, line)
    ensures var a := Drain(x, c);
      && a.events == [] && a.outcome == NeedData && a.conn == c.(reader := a.conn.reader)
      && Coupled(a.conn) && a.conn.reader.ReadChunked? && a.conn.reader.chunk.Size?
  {
    assert HintSound(c.input, c.reader.chunk.scanned);
    hide NextInner, ReadMessage, Coupled, FindCrlf, HintSound, ParseChunkHeader, IncompleteLineLen, Potential;
    PrefixOfLine(line, c.input);
    ResumedSearch(c.input, c.reader.chunk.scanned);
    PollReads(x, c);
    ReadsChunk(x, c);
    DrainStep(x, c);
  }

  /** The line itself is passed over in the same poll. */
  lemma LinePassed(x: Externals, c: Conn, line: bytes, data: bytes)
    requires Coupled(c) && !c.eof && c.Peer() == L.SendBody && c.reader.ReadChunked? && c.reader.chunk.Size?
    requires LastLine(line, c.limits.maxHeadBytes) && c.input == line + data
    ensures AtSection(OnTrailers(c, data)) && Drain(x, c) == Drain(x, OnTrailers(c, data))
  {
    LineRead(c, line, data);
    hide NextInner, Coupled, Silent, LastLine, Potential, Drain, L.Poison;
    var there := OnTrailers(c, data);
    SilentCoupled(c);
    SilentPoll(x, c);
    NextOf(x, c);
    NextOf(x, there);
    DrainStep(x, c);
    DrainStep(x, there);
  }

  lemma LineRead(c: Conn, line: bytes, data: bytes)
    requires c.Peer() == L.SendBody && c.reader.ReadChunked? && c.reader.chunk.Size?
    requires LastLine(line, c.limits.maxHeadBytes) && c.input == line + data
    ensures Silent(c) == Some(OnTrailers(c, data))
  {
    hide ParseChunkHeader;
    FindCrlfIsFirst(line, 0);
    var n := |line|;
    forall i | 0 <= i < n - 2
      ensures !CrlfAt(c.input, i)
    {
      assert c.input[i] == line[i] && c.input[i + 1] == line[i + 1];
      assert !CrlfAt(line, i);
    }
    assert CrlfAt(line, n - 2);
    assert c.input[n - 2] == line[n - 2] && c.input[n - 1] == line[n - 1];
    FindCrlfUnique(c.input, 0, n);
    assert c.input[..n - 2] == line[..n - 2];
    assert c.input[n..] == data;
  }

  // ------------------------------------------------------------------
  // What a cut reports
  // ------------------------------------------------------------------

  /** What there is of the trailers when the last chunk line completes, and the
      fragments still to come; `short` bytes of that line are missing. */
  function Look(short: nat, fragments: seq<bytes>): (bytes, seq<bytes>)
    decreases |fragments|
  {
    if fragments == [] then ([], [])
    else if |fragments[0]| >= short then (fragments[0][short..], fragments[1..])
    else Look(short - |fragments[0]|, fragments[1..])
  }

  /** What this cut of the last chunk line and the trailers reports. */
  function TrailerReport(x: Externals, c: Conn, short: nat, fragments: seq<bytes>): Outcome {
    var (look, rest) := Look(short, fragments);
    Told(c.role, Report(x, OnTrailers(c, look), rest))
  }

  /** When the line completes, the trailers begin. */
  lemma LineReached(x: Externals, c: Conn, line: bytes, data: bytes, first: bytes, rest: seq<bytes>)
    requires BeforeLast(c, line) && |first| >= |line| - |c.input| && (rest != [] ==> Fragments(rest))
    requires c.input + (first + Concat(rest)) == line + data && Unaccepted(x, OnTrailers(c, []), data)
    ensures Coupled(Feed(c, first)) && !Feed(c, first).eof
    ensures var o := Told(c.role, Report(x, OnTrailers(c, first[|line| - |c.input|..]), rest));
      var a := Onward(x, Drain(x, Feed(c, first)), rest);
      a.events == [] && a.outcome == o && Forget(a.conn) == Reported(OnTrailers(c, data), o)
  {
    assert Coupled(c) && !c.eof && LastLine(line, c.limits.maxHeadBytes) && c.input < line;
    assert c.Peer() == L.SendBody && c.reader.ReadChunked? && c.reader.chunk.Size?;
    hide *;
    var d, look := Feed(c, first), first[|line| - |c.input|..];
    FeedCoupled(c, first);
    FeedIs(c, first);
    Aligned(line, data, c.input, first, Concat(rest));
    LinePassed(x, d, line, look);
    NothingOnward(x, d);
    OnTrailersIs(c, d, look, data, Concat(rest));
    UnacceptedLater(x, OnTrailers(c, []), look, Concat(rest), OnTrailers(c, look));
    SectionReported(x, OnTrailers(c, look), rest);
    ToldReported(OnTrailers(c, data), c.role, Report(x, OnTrailers(c, look), rest));
  }

  lemma {:induction false} TrailersReported(x: Externals, c: Conn, line: bytes, data: bytes, fragments: seq<bytes>)
    requires BeforeLast(c, line) && Fragments(fragments) && c.input + Concat(fragments) == line + data
    requires Unaccepted(x, OnTrailers(c, []), data)
    ensures var o := TrailerReport(x, c, |line| - |c.input|, fragments);
      var a := FeedAll(x, c, fragments);
      a.events == [] && a.outcome == o && Forget(a.conn) == Reported(OnTrailers(c, data), o)
    decreases |fragments|
  {
    assert Coupled(c) && !c.eof && LastLine(line, c.limits.maxHeadBytes) && c.input < line;
    assert c.Peer() == L.SendBody && c.reader.ReadChunked? && c.reader.chunk.Size?;
    hide *;
    FragmentsAre(fragments);
    ConcatTail(fragments);
    FeedingOn(x, c, fragments);
    var first, rest := fragments[0], fragments[1..];
    var d, short := Feed(c, first), |line| - |c.input|;
    FeedIs(c, first);
    ReportIs(x, c, short, fragments);
    if |first| >= short {
      LineReached(x, c, line, data, first, rest);
      return;
    }
    Unaligned(line, data, c.input, first, Concat(rest), rest);
    BeforeLastFed(c, d, line);
    LineAwaited(x, d, line);
    var a := Drain(x, d);
    OnwardIs(x, a, rest);
    BeforeLastFed(c, a.conn, line);
    OnTrailersOf(c, a.conn, data);
    ReportOf(x, c, a.conn, short - |first|, rest);
    TrailersReported(x, a.conn, line, data, rest);
  }

  lemma ReportIs(x: Externals, c: Conn, short: nat, fragments: seq<bytes>)
    requires fragments != []
    ensures |fragments[0]| >= short ==>
      TrailerReport(x, c, short, fragments) == Told(c.role, Report(x, OnTrailers(c, fragments[0][short..]), fragments[1..]))
    ensures |fragments[0]| < short ==>
      TrailerReport(x, c, short, fragments) == TrailerReport(x, c, short - |fragments[0]|, fragments[1..])
  {
    hide Report, OnTrailers;
  }

  lemma ReportOf(x: Externals, c: Conn, d: Conn, short: nat, fragments: seq<bytes>)
    requires d == c.(input := d.input, reader := d.reader)
    ensures TrailerReport(x, d, short, fragments) == TrailerReport(x, c, short, fragments)
  {
    hide Report, Look;
  }

  lemma OnTrailersOf(c: Conn, d: Conn, data: bytes)
    requires d == c.(input := d.input, reader := d.reader)
    ensures OnTrailers(d, data) == OnTrailers(c, data) && OnTrailers(d, []) == OnTrailers(c, [])
  {
  }

  lemma OnTrailersIs(c: Conn, d: Conn, look: bytes, data: bytes, rest: bytes)
    requires d == c.(input := d.input) && look + rest == data
    ensures OnTrailers(d, look) == OnTrailers(c, look) && OnTrailers(c, look) == OnTrailers(c, []).(input := look)
    ensures HintOk(OnTrailers(c, look)) && OnTrailers(c, []).input + look == look
    ensures Forget(Feed(OnTrailers(c, look), rest)) == OnTrailers(c, data)
  {
  }

  lemma BeforeLastFed(c: Conn, d: Conn, line: bytes)
    requires Coupled(d) && d == c.(input := d.input, reader := d.reader) && d.reader.ReadChunked? && d.reader.chunk.Size?
    requires BeforeLast(c, line) && d.input < line
    ensures BeforeLast(d, line)
  {
    hide Coupled, LastLine;
  }

  lemma Aligned(line: bytes, data: bytes, had: bytes, first: bytes, rest: bytes)
    requires had + (first + rest) == line + data && had < line && |first| >= |line| - |had|
    ensures var look := first[|line| - |had|..]; had + first == line + look && look + rest == data
  {
    var look := first[|line| - |had|..];
    assert (had + (first + rest))[..|line|] == line;
    assert (had + (first + rest))[|line|..] == data;
    assert had + first == (had + (first + rest))[..|had| + |first|];
    assert (had + first)[..|line|] == line;
    assert (had + (first + rest))[|line|..] == look + rest;
  }

  lemma Unaligned(line: bytes, data: bytes, had: bytes, first: bytes, rest: bytes, fragments: seq<bytes>)
    requires had + (first + rest) == line + data && had < line && |first| < |line| - |had| && rest == Concat(fragments)
    ensures had + first < line && (had + first) + rest == line + data && fragments != []
  {
    assert had + (first + rest) == (had + first) + rest;
    assert (line + data)[..|had + first|] == line[..|had + first|];
  }

  /**
   Trailers and their fragments, exactly.  Whatever the parser, two cuts of the last
   chunk line and of a trailer section that is incomplete or rejected come to the
   same if and only if they report the same, and what a cut reports is told by the
   verdict on what follows the last chunk line when it completes, by whether a
   later fragment leaves the section incomplete and too long, and by the verdict
   on the complete section.
   */
  lemma TrailerCutsExactly(x: Externals, c: Conn, line: bytes, data: bytes, fragments: seq<bytes>, others: seq<bytes>)
    requires BeforeLast(c, line) && Fragments(fragments) && Fragments(others)
    requires c.input + Concat(fragments) == line + data && c.input + Concat(others) == line + data
    requires Unaccepted(x, OnTrailers(c, []), data)
    ensures var short := |line| - |c.input|;
      && FeedAll(x, c, fragments).outcome == TrailerReport(x, c, short, fragments)
      && (Alike(FeedAll(x, c, fragments), FeedAll(x, c, others)) <==>
          TrailerReport(x, c, short, fragments) == TrailerReport(x, c, short, others))
  {
    assert Coupled(c) && !c.eof && c.input < line;
    hide BeforeLast, Coupled, FeedAll, Fragments, Concat, Unaccepted, TrailerReport, Reported, Trace, Forget;
    TrailersReported(x, c, line, data, fragments);
    TrailersReported(x, c, line, data, others);
  }

  /** In particular: trailers awaited after their first piece, which may be empty,
      against the same bytes at once. */
  lemma TrailersCutInTwo(x: Externals, c: Conn, line: bytes, u: bytes, v: bytes)
    requires BeforeLast(c, line) && c.input == [] && v != [] && SectionEnd(u + v, false).None?
    requires ParseTrailers(x, u, c.limits, c.role == L.Client).Partial?
    ensures Fragments([line + u, v]) && Fragments([line + (u + v)])
    ensures Alike(FeedAll(x, c, [line + u, v]), FeedAll(x, c, [line + (u + v)])) <==>
      TrailersUndisturbing(x, OnTrailers(c, u + v))
    ensures |u + v| <= c.limits.maxHeadBytes ==> FeedAll(x, c, [line + u, v]).outcome == NeedData
    ensures var verdict := ParseTrailers(x, u + v, c.limits, c.role == L.Client);
      verdict.Invalid? ==> FeedAll(x, c, [line + (u + v)]).outcome == Told(c.role, Failed(verdict.status))
  {
    assert Coupled(c) && !c.eof && LastLine(line, c.limits.maxHeadBytes) && c.input < line;
    assert c.Peer() == L.SendBody && c.reader.ReadChunked? && c.reader.chunk.Size?;
    hide *;
    var first, whole := line + u, line + (u + v);
    InTwo(first, v);
    InTwo(whole, v);
    FeedIs(c, first);
    FeedIs(c, whole);
    assert c.input + first == first && c.input + whole == whole;
    FeedingOn(x, c, [first, v]);
    FeedingOn(x, c, [whole]);
    LinePassed(x, Feed(c, first), line, u);
    LinePassed(x, Feed(c, whole), line, u + v);
    TrailersFed(c, Feed(c, first), Feed(c, whole), u, v);
    UndisturbedTrailers(x, c, u);
    UndisturbedTrailers(x, c, u + v);
    SectionCutInTwo(x, OnTrailers(c, u), v);
    NothingOnward(x, Feed(c, whole));
  }

  lemma TrailersFed(c: Conn, d: Conn, e: Conn, u: bytes, v: bytes)
    requires d == c.(input := d.input) && e == c.(input := e.input)
    ensures OnTrailers(d, u) == OnTrailers(c, u) && OnTrailers(e, u + v) == OnTrailers(c, u + v) == Feed(OnTrailers(c, u), v)
  {
  }

  lemma UndisturbedTrailers(x: Externals, c: Conn, data: bytes)
    ensures var d := OnTrailers(c, data);
      var parsed := ParseTrailers(x, data, c.limits, c.role == L.Client);
      && d.input == data && d.progress.None? && d.reader == ReadChunked(Trailers) && d.role == c.role && d.limits == c.limits
      && (Verdict(x, d).Partial? <==> parsed.Partial?) && (parsed.Invalid? ==> Verdict(x, d) == Invalid(parsed.status))
      && (SectionUndisturbing(x, d) <==> TrailersUndisturbing(x, d))
  {
    hide ParseTrailers, SectionEnd;
    if SectionEnd(data, false).None? {
      OverlongTrailers(x, data, c.limits, c.role == L.Client);
    }
  }
}
