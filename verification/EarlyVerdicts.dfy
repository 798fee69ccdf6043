/**
 Inputs on which fragments show: a head and a trailer section that a parser
 rejects before their end.  They are stated for every parser that does, and
 `Strict`, which rejects a NUL wherever it finds one, is such a parser.
 */
module EarlyVerdicts {
  import opened Prelude
  import opened Bytes
  import opened Fields
  import opened Heads
  import opened Scan
  import opened ChunkLine
  import opened ConnectionModel
  import opened LifecycleRuns
  import opened Coupling
  import opened Polling
  import opened Fragmentation
  import opened FragmentedRuns
  import opened BodyFragments
  import opened ChunkedBodies
  import opened Agreement
  import opened RoundTrip
  import opened Exchanges
  import opened Cuts
  import opened TrailerCuts
  import opened Inputs
  import L = Lifecycle

  // ------------------------------------------------------------------
  // Heads
  // ------------------------------------------------------------------

  lemma NoLineNoEnd(data: bytes, skip: bool)
    requires '\n' !in data
    ensures SectionEnd(data, skip) == None
  {
    hide SectionEnd;
    SectionEndIsFirst(data, skip);
  }

  /**
   Heads can show their fragments, under every parser that judges a head before its
   end.  What it rejects at once, it awaits in two pieces.
   */
  lemma HeadPiecesShow(x: Externals, limits: Limits, u: bytes, v: bytes)
    requires u != [] && v != [] && '\n' !in u + v && |u + v| <= limits.maxHeadBytes
    requires x.request(u, limits.maxHeaderCount).Partial? && x.request(u + v, limits.maxHeaderCount).Invalid?
    ensures Coupled(New(L.Server, limits)) && Fragments([u, v]) && Fragments([u + v]) && Concat([u, v]) == Concat([u + v])
    ensures FeedAll(x, New(L.Server, limits), [u, v]).outcome == NeedData
    ensures FeedAll(x, New(L.Server, limits), [u + v]).outcome == Failed(x.request(u + v, limits.maxHeaderCount).status)
  {
    var d := New(L.Server, limits);
    NewIsCoupled(L.Server, limits);
    assert AtSection(d) && BeforeHead(d);
    hide Coupled, FeedAll, SectionEnd, BeforeHead, Alike, Undisturbing;
    NoLineNoEnd(u + v, true);
    assert Feed(d, u).input == u && Feed(d, u + v).input == u + v;
    HeadCutInTwo(x, d, u, v);
    InTwo(u, v);
    OneFragment(u + v);
  }

  /** Such a head is the letter `a` and a NUL. */
  lemma NulShows(x: Externals, limits: Limits)
    requires limits.maxHeadBytes >= 2
    requires x.request("a", limits.maxHeaderCount).Partial? && x.request("a\0", limits.maxHeaderCount) == Invalid(Some(400))
    ensures Coupled(New(L.Server, limits)) && Fragments(["a", "\0"]) && Fragments(["a\0"])
    ensures Concat(["a", "\0"]) == Concat(["a\0"])
    ensures FeedAll(x, New(L.Server, limits), ["a", "\0"]).outcome == NeedData
    ensures FeedAll(x, New(L.Server, limits), ["a\0"]).outcome == Failed(Some(400))
  {
    hide Coupled, FeedAll, Fragments, Concat;
    var u: bytes, v: bytes := "a", "\0";
    assert u + v == "a\0";
    HeadPiecesShow(x, limits, u, v);
  }

  // ------------------------------------------------------------------
  // Trailers
  // ------------------------------------------------------------------

  lemma LastChunkIsLast(limit: nat)
    requires limit >= 1
    ensures LastLine(LAST_CHUNK, limit)
  {
    ZeroIsZero();
    ChunkSizeRoundTrip(0);
    assert LAST_CHUNK[..1] == "0";
  }

  /** The server that has polled a chunked request and nothing of its body. */
  lemma ExpectingTaken(x: Externals, limits: Limits)
    requires x.authority("a") && 1 <= |RequestBytes(EXPECTING)| <= limits.maxHeadBytes
    requires ReadsRequest(x, New(L.Server, limits), EXPECTING, [])
    ensures var a := Drain(x, Feed(New(L.Server, limits), RequestBytes(EXPECTING)));
      && Coupled(Feed(New(L.Server, limits), RequestBytes(EXPECTING))) && !a.outcome.Failed?
      && BeforeLast(a.conn, LAST_CHUNK) && a.conn.input == [] && a.conn.role == L.Server && a.conn.limits == limits
  {
    var c, d := New(L.Client, limits), New(L.Server, limits);
    NewIsCoupled(L.Client, limits);
    NewIsReady(L.Server, limits);
    hide Coupled, NextInner, Next, Drain, SendRequest, AcceptRequest, WritePlan, RequestMove, Act, RequestBytes, ReadsRequest,
         ValidMethod, ValidTarget, ValidHeaders, Potential, LastLine, OrderlyPoll;
    var whole := Feed(d, RequestBytes(EXPECTING));
    assert whole.input == RequestBytes(EXPECTING) + [];
    ExpectingSent(x, limits);
    ExpectingIsValid();
    ReadyAwaits(d);
    WholeAwaits(d, RequestBytes(EXPECTING));
    SameReadsRequest(x, d, whole, EXPECTING, []);
    RequestWritten(x, c, EXPECTING);
    RequestMoves(x, c, d, EXPECTING);
    RequestOpensBody(x, c, EXPECTING);
    RequestStarts(x, c, whole, EXPECTING, Chunked, []);
    RequestTaken(x, whole, EXPECTING, []);
    NextOf(x, whole);
    DrainStep(x, whole);
    var g := Next(x, whole).conn;
    LastChunkIsLast(limits.maxHeadBytes);
    LineAwaited(x, g, LAST_CHUNK);
  }

  /**
   Trailers can show their fragments, under every parser that judges them before
   their end: rejected with the last chunk line, they are awaited after it.
   */
  lemma TrailerPiecesShow(x: Externals, limits: Limits, data: bytes)
    requires x.authority("a") && 1 <= |RequestBytes(EXPECTING)| <= limits.maxHeadBytes
    requires ReadsRequest(x, New(L.Server, limits), EXPECTING, [])
    requires data != [] && '\n' !in data && |data| <= limits.maxHeadBytes
    requires x.trailers([], limits.maxHeaderCount, false).Partial? && x.trailers(data, limits.maxHeaderCount, false).Invalid?
    ensures var d, head := New(L.Server, limits), RequestBytes(EXPECTING);
      && Coupled(d) && Fragments([head, LAST_CHUNK, data]) && Fragments([head, LAST_CHUNK + data])
      && Concat([head, LAST_CHUNK, data]) == Concat([head, LAST_CHUNK + data])
      && FeedAll(x, d, [head, LAST_CHUNK, data]).outcome == NeedData
      && FeedAll(x, d, [head, LAST_CHUNK + data]).outcome == Failed(x.trailers(data, limits.maxHeaderCount, false).status)
  {
    NewIsCoupled(L.Server, limits);
    var d, head := New(L.Server, limits), RequestBytes(EXPECTING);
    hide Coupled, FeedAll, Drain, SectionEnd, RequestBytes, ReadsRequest, Onward, Alike, TrailersUndisturbing, LastLine;
    var late, early := [LAST_CHUNK, data], [LAST_CHUNK + data];
    var pieces, whole := [head, LAST_CHUNK, data], [head, LAST_CHUNK + data];
    assert pieces[1..] == late && whole[1..] == early;
    InTwo(LAST_CHUNK, data);
    OneFragment(LAST_CHUNK + data);
    FeedingOn(x, d, pieces);
    FeedingOn(x, d, whole);
    ExpectingTaken(x, limits);
    var a := Drain(x, Feed(d, head));
    assert LAST_CHUNK + [] == LAST_CHUNK && [] + data == data;
    NoLineNoEnd(data, false);
    NoLineNoEnd([], false);
    TrailersCutInTwo(x, a.conn, LAST_CHUNK, [], data);
    LaterFragments(x, a, late);
    LaterFragments(x, a, early);
  }

  lemma LaterFragments(x: Externals, a: Drained, rest: seq<bytes>)
    requires Coupled(a.conn) && !a.conn.eof && Fragments(rest) && !a.outcome.Failed?
    ensures Onward(x, a, rest).outcome == FeedAll(x, a.conn, rest).outcome
  {
    hide FeedAll, Coupled;
  }

  // ------------------------------------------------------------------
  // Such a parser
  // ------------------------------------------------------------------

  /** Rejects a section with a NUL in it, and otherwise reads every complete head
      for this request and every complete trailer section for no trailers. */
  function Strict(r: Request): Externals {
    var x := Externals((data, _) => if '\0' in data then Invalid(Some(400)) else SectionAs(data, true, r), (_, _) => Partial,
                       (data, _, _) => if '\0' in data then Invalid(Some(400)) else NoTrailers(data), _ => true);
    assert Consuming(x);
    x
  }

  lemma StrictIs(r: Request, data: bytes, n: nat, fold: bool)
    ensures Strict(r).request(data, n) == if '\0' in data then Invalid(Some(400)) else SectionAs(data, true, r)
    ensures Strict(r).trailers(data, n, fold) == if '\0' in data then Invalid(Some(400)) else SectionAs(data, false, [])
    ensures Strict(r).authority(data)
  {
  }

  lemma {:induction false} LinesHaveNoNul(lines: seq<bytes>)
    requires forall line <- lines :: '\0' !in line
    ensures '\0' !in LinesBytes(lines)
    decreases |lines|
  {
    if lines != [] {
      LinesHaveNoNul(lines[1..]);
    }
  }

  lemma LineHasNoNul(r: Request)
    requires ValidMethod(r.method_) && ValidTarget(r.target)
    ensures '\0' !in RequestLine(r)
  {
    assert '\0' !in r.method_ && '\0' !in r.target && '\0' !in VersionBytes(r.version);
  }

  lemma FieldHasNoNul(h: Header)
    requires ValidHeader(h)
    ensures '\0' !in HeaderLine(h)
  {
    assert '\0' !in h.name && '\0' !in h.value;
  }

  lemma RequestHasNoNul(r: Request)
    requires ValidMethod(r.method_) && ValidTarget(r.target) && ValidHeaders(r.headers)
    ensures '\0' !in RequestBytes(r)
  {
    hide LinesBytes, HeaderLine, ValidHeader, RequestLine, ValidMethod, ValidTarget;
    LineHasNoNul(r);
    forall i | 0 <= i < |r.headers|
      ensures '\0' !in HeaderLine(r.headers[i])
    {
      FieldHasNoNul(r.headers[i]);
    }
    LinesHaveNoNul([RequestLine(r)] + HeaderLines(r.headers));
  }

  /** It reads back every valid request, and rejects a NUL on sight. */
  lemma StrictReads(r: Request, d: Conn, n: nat)
    requires ValidMethod(r.method_) && ValidTarget(r.target) && ValidHeaders(r.headers)
    ensures ReadsRequest(Strict(r), d, r, []) && Strict(r).authority("a")
    ensures Strict(r).request("a", n).Partial? && Strict(r).request("a\0", n) == Invalid(Some(400))
    ensures Strict(r).trailers([], n, false).Partial? && Strict(r).trailers("\0", n, false) == Invalid(Some(400))
  {
    hide Strict, SectionAs, Judges, RequestBytes, ValidMethod, ValidTarget, ValidHeaders;
    var head := RequestBytes(r) + [];
    var parse := b => Strict(r).request(b, d.limits.maxHeaderCount);
    RequestScanned(r, []);
    RequestHasNoNul(r);
    SectionJudged(head, true, r, d.limits.maxHeadBytes);
    forall k | 0 <= k <= |head|
      ensures parse(head[..k]) == SectionAs(head[..k], true, r)
    {
      StrictIs(r, head[..k], d.limits.maxHeaderCount, false);
    }
    SameOnPrefixes(b => SectionAs(b, true, r), parse, head, true, d.limits.maxHeadBytes);
    assert head[..|head|] == head;
    Completes(head, true, r);
    StrictIs(r, "a", n, false);
    StrictIs(r, "a\0", n, false);
    StrictIs(r, [], n, false);
    StrictIs(r, "\0", n, false);
    NotYet("a", true, r);
    NotYet<seq<Header>>([], false, []);
  }

  lemma NotYet<T>(data: bytes, skip: bool, value: T)
    requires '\n' !in data
    ensures SectionAs(data, skip, value).Partial?
  {
    hide SectionEnd;
    NoLineNoEnd(data, skip);
  }

  lemma SameOnPrefixes<T>(parse: bytes -> Parsed<T>, other: bytes -> Parsed<T>, data: bytes, skip: bool, limit: nat)
    requires Judges(parse, data, skip, limit) && forall k :: 0 <= k <= |data| ==> parse(data[..k]) == other(data[..k])
    ensures Judges(other, data, skip, limit)
  {
    hide SectionEnd;
    forall k | 0 <= k <= |data|
      ensures JudgesPrefix(other, data, skip, limit, k)
    {
      assert JudgesPrefix(parse, data, skip, limit, k);
      SectionEndIsFirst(data[..k], skip);
    }
  }
}
