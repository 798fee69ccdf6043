/**
 From one endpoint to the other: a chunked message, as the sender writes it and
 the transport cuts it, is what the receiver reports.
 */
module RoundTrip {
  import opened Prelude
  import opened Bytes
  import opened Numbers
  import opened Fields
  import opened Heads
  import opened Scan
  import opened ConnectionModel
  import opened LifecycleRuns
  import opened Coupling
  import opened Polling
  import opened Fragmentation
  import opened FragmentedRuns
  import opened ChunkedBodies
  import opened BodyFragments
  import opened Agreement
  import L = Lifecycle

  // ------------------------------------------------------------------
  // The trailer section and the end
  // ------------------------------------------------------------------

  /** The trailer parser reads back this section, whatever follows. */
  ghost predicate ReadsTrailers(x: Externals, c: Conn, trailers: seq<Header>, rest: bytes) {
    var data := TrailerBytes(trailers) + rest;
    && Judges(d => x.trailers(d, c.limits.maxHeaderCount, c.role == L.Client), data, false, c.limits.maxHeadBytes)
    && x.trailers(data, c.limits.maxHeaderCount, c.role == L.Client).Complete?
    && x.trailers(data, c.limits.maxHeaderCount, c.role == L.Client).value == trailers
  }

  /** The connection after the peer's message has ended. */
  function AtEnd(c: Conn, rest: bytes): Conn
    requires L.Process(c.state, c.role.Peer(), L.EndOfMessage).Some?
  {
    c.(state := L.Process(c.state, c.role.Peer(), L.EndOfMessage).value, input := rest, reader := AwaitHead)
  }

  /** While a body is being read its end is acceptable, and the peer is then
      between messages. */
  lemma MessageEnds(c: Conn)
    requires Coupled(c) && c.Peer() == L.SendBody
    ensures L.Process(c.state, c.role.Peer(), L.EndOfMessage).Some?
    ensures forall rest :: !Active(AtEnd(c, rest))
    ensures forall rest :: AtEnd(c, rest).Peer() != L.Error && AtEnd(c, rest).Peer() != L.Closed
  {
    BodyEventsAccepted(c);
    OwnActor(c.state, c.role.Peer(), L.EndOfMessage);
    hide L.Process, Sound;
  }

  lemma TrailersParsed(x: Externals, c: Conn, trailers: seq<Header>, rest: bytes)
    requires ValidHeaders(trailers) && |TrailerBytes(trailers)| <= c.limits.maxHeadBytes
    requires ReadsTrailers(x, c, trailers, rest) && c.input == TrailerBytes(trailers) + rest
    ensures ParseTrailers(x, c.input, c.limits, c.role == L.Client) == Complete(|TrailerBytes(trailers)|, trailers)
  {
    hide Judges, TrailerBytes, ValidHeaders, SectionEnd;
    TrailersScanned(trailers, rest);
  }

  lemma TrailersRead(x: Externals, c: Conn, trailers: seq<Header>, rest: bytes)
    requires Coupled(c) && !c.eof && c.Peer() == L.SendBody && c.reader == ReadChunked(Trailers) && c.progress.None?
    requires ValidHeaders(trailers) && |TrailerBytes(trailers)| <= c.limits.maxHeadBytes
    requires ReadsTrailers(x, c, trailers, rest) && c.input == TrailerBytes(trailers) + rest
    ensures L.Process(c.state, c.role.Peer(), L.EndOfMessage).Some?
    ensures PlainNext(x, c) == Step(AtEnd(c, rest), Occurred(EndEvent(trailers)))
    ensures Coupled(AtEnd(c, rest)) && !Active(AtEnd(c, rest)) && Forget(AtEnd(c, rest)) == AtEnd(c, rest)
    ensures AtEnd(c, rest).Peer() != L.Error && AtEnd(c, rest).Peer() != L.Closed
  {
    hide NextInner, Coupled, ReadsTrailers, TrailerBytes, L.Process, WaitForSection, ValidHeaders, ParseTrailers, PlainNext,
         Potential;
    TrailersParsed(x, c, trailers, rest);
    assert c.input[|TrailerBytes(trailers)|..] == rest;
    TrailersPoll(x, c);
    MessageEnds(c);
    PlainNextIs(x, c);
    PlainNextAdvances(x, c);
  }

  /** Between messages a drain reports nothing and changes nothing. */
  lemma InactiveDrain(x: Externals, c: Conn)
    requires Coupled(c) && !Active(c) && !c.eof && Forget(c) == c && c.Peer() != L.Error && c.Peer() != L.Closed
    ensures PlainDrain(x, c).events == [] && PlainDrain(x, c).conn == c && !PlainDrain(x, c).outcome.Failed?
    ensures Orderly(x, c)
  {
    InactivePoll(x, c);
    hide PlainNext, Coupled, Potential, Orderly, PlainDrain;
    PlainNextAdvances(x, c);
    DrainStops(x, c);
    InactivePollOrderly(x, c);
    OrderlyIs(x, c);
  }

  lemma InactivePoll(x: Externals, c: Conn)
    requires Coupled(c) && !Active(c) && !c.eof && Forget(c) == c && c.Peer() != L.Error && c.Peer() != L.Closed
    ensures PlainNext(x, c).conn == c && (PlainNext(x, c).outcome.NeedData? || PlainNext(x, c).outcome.Paused?)
  {
    hide Sound, ReadMessage;
  }

  // ------------------------------------------------------------------
  // A chunked message from its first chunk on
  // ------------------------------------------------------------------

  /** The bytes of a chunked message after its head. */
  function ChunkedBytes(bodies: seq<bytes>, trailers: seq<Header>): bytes {
    ChunksBytes(bodies) + (LAST_CHUNK + TrailerBytes(trailers))
  }

  lemma OrderlySilent(x: Externals, c: Conn)
    requires Coupled(c) && Silent(c).Some? && Coupled(Silent(c).value) && Orderly(x, Silent(c).value)
    ensures Orderly(x, c)
  {
    var d := Silent(c).value;
    assert OrderlyPoll(x, c) by {
      OrderlyNext(x, d);
    }
    hide NextInner, Coupled, Silent, OrderlyPoll, Orderly, L.Poison;
    SilentPoll(x, c);
    SilentKeepsRole(c);
    PlainNextIs(x, c);
    PlainNextIs(x, d);
    OrderlyNext(x, d);
    OrderlyIs(x, c);
  }

  /** The stream is judged properly when its trailer section is. */
  lemma {:induction false} ChunksAreOrderly(x: Externals, c: Conn, bodies: seq<bytes>, tail: bytes)
    requires Coupled(c) && !c.eof && c.Peer() == L.SendBody && c.reader == ReadChunked(Size(0)) && c.progress.None?
    requires Fits(bodies, c.limits.maxHeadBytes) && c.limits.maxHeadBytes > 0
    requires c.input == ChunksBytes(bodies) + (LAST_CHUNK + tail)
    requires forall waiting ::
      var there := c.(reader := ReadChunked(Trailers), input := tail, waiting := waiting);
      Coupled(there) && Orderly(x, there)
    ensures Orderly(x, c)
    decreases |bodies|
  {
    hide *;
    if bodies == [] {
      NoChunks();
      assert [] + (LAST_CHUNK + tail) == LAST_CHUNK + tail;
      LastChunkRead(x, c, tail);
      assert c.(reader := ReadChunked(Trailers), input := tail)
          == c.(reader := ReadChunked(Trailers), input := tail, waiting := c.waiting);
      OrderlySilent(x, c);
      return;
    }
    var rest := ChunksBytes(bodies[1..]) + (LAST_CHUNK + tail);
    ChunksSplit(bodies, c.limits.maxHeadBytes, LAST_CHUNK + tail);
    if bodies[0] == [] {
      ChunksAreOrderly(x, c, bodies[1..], tail);
      return;
    }
    ChunkRead(x, c, bodies[0], rest);
    AfterChunkIs(c, rest);
    var after := AfterChunk(c, rest);
    assert forall w :: (after.(reader := ReadChunked(Trailers), input := tail, waiting := w)
                        == c.(reader := ReadChunked(Trailers), input := tail, waiting := w));
    ChunksAreOrderly(x, after, bodies[1..], tail);
    ChunkIsOrderly(x, c, bodies[0], rest);
  }

  lemma ChunkIsOrderly(x: Externals, c: Conn, body: bytes, rest: bytes)
    requires Coupled(c) && !c.eof && c.Peer() == L.SendBody && c.reader == ReadChunked(Size(0)) && c.progress.None?
    requires body != [] && |body| <= USIZE_MAX && |Hex(|body|)| <= c.limits.maxHeadBytes
    requires c.input == ChunkBytes(body) + rest
    requires Coupled(AfterChunk(c, rest)) && Orderly(x, AfterChunk(c, rest))
    ensures Orderly(x, c)
  {
    hide NextInner, Coupled, Silent, Hex, Orderly, OrderlyPoll, Potential;
    var tail := body + (CRLF + rest);
    assert c.input == Hex(|body|) + CRLF + tail;
    SizeRead(c, |body|, tail);
    SilentCoupled(c);
    var d := c.(reader := ReadChunked(Body(|body|, true)), input := tail);
    TakenPoll(x, d);
    assert tail[..|body|] == body && tail[|body|..] == CRLF + rest;
    var e := d.(reader := ReadChunked(BodyEnd), input := CRLF + rest, waiting := false);
    assert PlainNext(x, d) == Step(e, Occurred(DataEvent(body, true, true)));
    PlainNextAdvances(x, d);
    ChunkEndRead(e, rest);
    OrderlySilent(x, e);
    TakingIsOrderly(x, d);
    OrderlyIs(x, d);
    OrderlySilent(x, c);
  }

  lemma TrailersAreOrderly(x: Externals, c: Conn, trailers: seq<Header>, rest: bytes)
    requires Coupled(c) && !c.eof && c.Peer() == L.SendBody && c.reader == ReadChunked(Trailers) && c.progress.None?
    requires ValidHeaders(trailers) && |TrailerBytes(trailers)| <= c.limits.maxHeadBytes
    requires ReadsTrailers(x, c, trailers, rest) && c.input == TrailerBytes(trailers) + rest
    ensures Orderly(x, c)
  {
    assert OrderlyPoll(x, c) by {
      hide Judges, Sound;
    }
    hide PlainNext, Coupled, Orderly, OrderlyPoll, TrailerBytes, ReadsTrailers, ValidHeaders, L.Process;
    TrailersRead(x, c, trailers, rest);
    InactiveDrain(x, AtEnd(c, rest));
    OrderlyIs(x, c);
  }

  lemma TrailersDrain(x: Externals, c: Conn, trailers: seq<Header>, rest: bytes)
    requires Coupled(c) && !c.eof && c.Peer() == L.SendBody && c.reader == ReadChunked(Trailers) && c.progress.None?
    requires ValidHeaders(trailers) && |TrailerBytes(trailers)| <= c.limits.maxHeadBytes
    requires ReadsTrailers(x, c, trailers, rest) && c.input == TrailerBytes(trailers) + rest
    ensures L.Process(c.state, c.role.Peer(), L.EndOfMessage).Some?
    ensures PlainDrain(x, c).events == [EndEvent(trailers)] && PlainDrain(x, c).conn == AtEnd(c, rest)
    ensures !PlainDrain(x, c).outcome.Failed?
  {
    hide PlainNext, Coupled, PlainDrain, TrailerBytes, ReadsTrailers, ValidHeaders, L.Process;
    TrailersRead(x, c, trailers, rest);
    InactiveDrain(x, AtEnd(c, rest));
    DrainGoesOn(x, c);
  }

  /** What has to hold of a chunked body for a reader to take it back. */
  ghost predicate Readable(x: Externals, c: Conn, bodies: seq<bytes>, trailers: seq<Header>, rest: bytes) {
    && Fits(bodies, c.limits.maxHeadBytes) && c.limits.maxHeadBytes > 0
    && ValidHeaders(trailers) && |TrailerBytes(trailers)| <= c.limits.maxHeadBytes
    && ReadsTrailers(x, c, trailers, rest)
  }

  /** The reader of a chunked body. */
  predicate AtFirstChunk(c: Conn) {
    Coupled(c) && !c.eof && c.Peer() == L.SendBody && c.reader == ReadChunked(Size(0)) && c.progress.None?
  }

  lemma TrailersCoupled(c: Conn, input: bytes, waiting: bool)
    requires AtFirstChunk(c)
    ensures Coupled(c.(reader := ReadChunked(Trailers), input := input, waiting := waiting))
  {
    hide Sound;
  }

  lemma BodyIsOrderly(x: Externals, c: Conn, bodies: seq<bytes>, trailers: seq<Header>, rest: bytes)
    requires AtFirstChunk(c) && Readable(x, c, bodies, trailers, rest)
    requires c.input == ChunkedBytes(bodies, trailers) + rest
    ensures Orderly(x, c)
  {
    hide Coupled, Orderly, TrailerBytes, ReadsTrailers, ValidHeaders, ChunksBytes, Fits;
    var tail := TrailerBytes(trailers) + rest;
    assert c.input == ChunksBytes(bodies) + (LAST_CHUNK + tail);
    forall waiting
      ensures var there := c.(reader := ReadChunked(Trailers), input := tail, waiting := waiting);
        Coupled(there) && Orderly(x, there)
    {
      var there := c.(reader := ReadChunked(Trailers), input := tail, waiting := waiting);
      TrailersCoupled(c, tail, waiting);
      SameReadsTrailers(x, c, there, trailers, rest);
      TrailersAreOrderly(x, there, trailers, rest);
    }
    ChunksAreOrderly(x, c, bodies, tail);
  }

  lemma SameReadsTrailers(x: Externals, c: Conn, d: Conn, trailers: seq<Header>, rest: bytes)
    requires ReadsTrailers(x, c, trailers, rest) && d.role == c.role && d.limits == c.limits
    ensures ReadsTrailers(x, d, trailers, rest)
  {
    hide TrailerBytes;
  }

  /** A chunked body drains as its bytes, its chunks and its trailer section,
      and what follows is left unread. */
  lemma BodyRead(x: Externals, c: Conn, bodies: seq<bytes>, trailers: seq<Header>, rest: bytes)
    requires AtFirstChunk(c) && Readable(x, c, bodies, trailers, rest)
    requires c.input == ChunkedBytes(bodies, trailers) + rest
    ensures L.Process(c.state, c.role.Peer(), L.EndOfMessage).Some?
    ensures var a := PlainDrain(x, c);
      && Trace(a.events) == BodyTokens(bodies) + [Mark(EndEvent(trailers))]
      && a.conn == AtEnd(c.(waiting := c.waiting && AllEmpty(bodies)), rest)
      && !a.outcome.Failed?
  {
    hide Coupled, PlainDrain, TrailerBytes, ReadsTrailers, ValidHeaders, ChunksBytes, Fits, Trace, BodyTokens, L.Process;
    var tail := TrailerBytes(trailers) + rest;
    assert c.input == ChunksBytes(bodies) + (LAST_CHUNK + tail);
    ChunksRead(x, c, bodies, tail);
    var there := c.(reader := ReadChunked(Trailers), input := tail, waiting := c.waiting && AllEmpty(bodies));
    SameReadsTrailers(x, c, there, trailers, rest);
    TrailersDrain(x, there, trailers, rest);
    EndTrace(trailers);
  }

  lemma EndTrace(trailers: seq<Header>)
    ensures Trace([EndEvent(trailers)]) == [Mark(EndEvent(trailers))]
  {
    TraceCons(EndEvent(trailers), []);
  }

  // ------------------------------------------------------------------
  // Content alone
  // ------------------------------------------------------------------

  lemma {:induction false} TokensAreContent(bodies: seq<bytes>)
    ensures Content(BodyTokens(bodies)) == BodyTokens(bodies)
    decreases |bodies|
  {
    if bodies != [] {
      var chunk := if bodies[0] == [] then [] else [Open] + Octets(bodies[0]) + [Shut];
      AllContent(chunk);
      TokensAreContent(bodies[1..]);
      ContentConcat(chunk, BodyTokens(bodies[1..]));
    }
  }

  lemma {:induction false} AllContent(tokens: seq<Token>)
    requires forall i :: 0 <= i < |tokens| ==> !tokens[i].Mark?
    ensures Content(tokens) == tokens
    decreases |tokens|
  {
    if tokens != [] {
      AllContent(tokens[1..]);
      assert [tokens[0]] + tokens[1..] == tokens;
    }
  }

  lemma TrailersAreSilent(x: Externals, c: Conn)
    requires Coupled(c) && AtTrailers(c) && !c.eof && Forget(c) == c
    ensures Content(Trace(PlainDrain(Ideal(x), c).events)) == []
  {
    assert HintOk(c) && Past(c);
    hide Coupled, Orderly, PlainDrain, Drain, HintOk, Past, Content, Trace, Ideal;
    BodyIsJudged(x, c);
    DrainPlainly(Ideal(x), c);
    PastDrain(Ideal(x), c);
  }

  lemma StillPlain(c: Conn)
    requires c.progress.None? && c.reader == ReadChunked(Trailers)
    ensures Forget(c) == c
  {
  }

  lemma FreshWhole(c: Conn, fragments: seq<bytes>)
    requires AtFirstChunk(c) && c.input == [] && Fragments(fragments)
    ensures Coupled(c) && c.Peer() == L.SendBody && !c.eof && HintOk(c)
    ensures var whole := Feed(c, Concat(fragments));
      && AtFirstChunk(whole) && HintOk(whole) && Forget(whole) == whole && whole.input == Concat(fragments)
      && Coupled(whole) && whole.Peer() == L.SendBody && !whole.eof && whole.reader == ReadChunked(Size(0))
      && whole.progress.None? && whole.limits == c.limits
  {
    hide Coupled, Concat, Fragments;
    WholeBody(c, fragments);
  }

  /**
   The chunked round trip of content.  The chunks a sender writes, cut in any
   way and with anything behind the last one, are reported as the same bytes in
   the same chunks, whatever the parser makes of what follows.
   */
  lemma ContentRoundTrip(x: Externals, c: Conn, bodies: seq<bytes>, tail: bytes, fragments: seq<bytes>)
    requires AtFirstChunk(c) && c.input == []
    requires Fits(bodies, c.limits.maxHeadBytes) && c.limits.maxHeadBytes > 0
    requires Fragments(fragments) && Concat(fragments) == ChunksBytes(bodies) + (LAST_CHUNK + tail)
    ensures Content(Trace(FeedAll(x, c, fragments).events)) == BodyTokens(bodies)
  {
    hide AtFirstChunk, Feed, Forget, Coupled, Orderly, HintOk, FeedAll, Drain, PlainDrain, Fragments, Concat, Content,
         Trace, BodyTokens, ChunksBytes, Fits, Ideal;
    var y := Ideal(x);
    var whole := Feed(c, Concat(fragments));
    FreshWhole(c, fragments);
    BodyIsJudged(x, whole);
    SameContent(x, y, c, fragments);
    FragmentsAtOnce(y, c, fragments);
    DrainPlainly(y, whole);
    ChunksRead(y, whole, bodies, tail);
    var there := whole.(reader := ReadChunked(Trailers), input := tail, waiting := whole.waiting && AllEmpty(bodies));
    StillPlain(there);
    TrailersAreSilent(x, there);
    ContentConcat(BodyTokens(bodies), Trace(PlainDrain(y, there).events));
    TokensAreContent(bodies);
  }

  lemma NothingEnds(skip: bool)
    ensures SectionEnd([], skip) == None
  {
  }

  lemma NothingIsJudged<T>(parse: bytes -> Parsed<T>, skip: bool, limit: nat)
    requires parse([]).Partial?
    ensures Judges(parse, [], skip, limit)
  {
    hide SectionEnd;
    NothingEnds(skip);
    var none: bytes := [];
    assert none[..0] == none;
  }

  lemma TrailersAwaited(x: Externals, c: Conn)
    requires Coupled(c) && AtTrailers(c) && !c.eof && c.progress.None? && c.input == []
    requires x.trailers([], c.limits.maxHeaderCount, c.role == L.Client).Partial?
    ensures Orderly(x, c) && PlainDrain(x, c) == Drained(c, [], NeedData)
  {
    var parse := d => x.trailers(d, c.limits.maxHeaderCount, c.role == L.Client);
    NothingIsJudged(parse, false, c.limits.maxHeadBytes);
    assert OrderlyPoll(x, c) by {
      hide Judges, Sound;
    }
    assert PlainNext(x, c) == Step(c, NeedData) by {
      hide NextInner, Coupled, SectionEnd, PollFrom;
      TrailersPoll(x, c);
      NothingEnds(false);
      WaitPlainly(c, false);
    }
    hide PlainNext, Coupled, PlainDrain, Orderly, OrderlyPoll, Potential;
    DrainStops(x, c);
    OrderlyIs(x, c);
  }

  /** When the last chunk is all there is, the reader stands exactly behind it, at
      the trailer section, whatever the fragments. */
  lemma ChunksStand(x: Externals, c: Conn, bodies: seq<bytes>, fragments: seq<bytes>)
    requires AtFirstChunk(c) && c.input == []
    requires Fits(bodies, c.limits.maxHeadBytes) && c.limits.maxHeadBytes > 0
    requires Fragments(fragments) && Concat(fragments) == ChunksBytes(bodies) + LAST_CHUNK
    requires x.trailers([], c.limits.maxHeaderCount, c.role == L.Client).Partial?
    ensures var a := FeedAll(x, c, fragments);
      && Trace(a.events) == BodyTokens(bodies) && a.outcome == NeedData
      && Forget(a.conn) == c.(reader := ReadChunked(Trailers), waiting := c.waiting && AllEmpty(bodies))
  {
    hide AtFirstChunk, Feed, Forget, Coupled, Orderly, HintOk, FeedAll, Drain, PlainDrain, Fragments, Concat, Trace,
         BodyTokens, ChunksBytes, Fits, AllEmpty;
    var whole := Feed(c, Concat(fragments));
    FedIs(c, Concat(fragments));
    FreshWhole(c, fragments);
    assert LAST_CHUNK + [] == LAST_CHUNK;
    forall waiting
      ensures var there := whole.(reader := ReadChunked(Trailers), input := [], waiting := waiting);
        Coupled(there) && Orderly(x, there)
    {
      TrailersCoupled(whole, [], waiting);
      TrailersAwaited(x, whole.(reader := ReadChunked(Trailers), input := [], waiting := waiting));
    }
    ChunksAreOrderly(x, whole, bodies, []);
    FragmentsAtOnce(x, c, fragments);
    DrainPlainly(x, whole);
    ChunksRead(x, whole, bodies, []);
    TrailersAwaited(x, whole.(reader := ReadChunked(Trailers), input := [], waiting := whole.waiting && AllEmpty(bodies)));
    NoContentAtAll();
    assert BodyTokens(bodies) + [] == BodyTokens(bodies);
  }

  lemma FedIs(c: Conn, more: bytes)
    ensures Feed(c, more) == c.(input := c.input + more)
  {
  }

  // ------------------------------------------------------------------
  // A whole message behind its head
  // ------------------------------------------------------------------

  /** Bodies and the end of the message, as the sender writes them. */
  function SendContent(c: Conn, bodies: seq<bytes>, trailers: seq<Header>): Sent {
    match SendBodies(c, bodies)
    case Refused => Refused
    case Sent(next, chunks) =>
      match EndMessage(next, trailers)
      case Refused => Refused
      case Sent(last, end) => Sent(last, chunks + end)
  }

  /** A chunked message can always be sent to its end; the bytes are its chunks
      and its trailer section, and the sender has ended its message. */
  lemma ContentSent(c: Conn, bodies: seq<bytes>, trailers: seq<Header>)
    requires Coupled(c) && c.writer == Some(Chunked) && ValidTrailers(trailers)
    ensures var s := SendContent(c, bodies, trailers);
      && s.Sent? && s.out == ChunkedBytes(bodies, trailers)
      && L.Process(c.state, c.role, L.EndOfMessage) == Some(s.conn.state) && !s.conn.waiting
  {
    assert c.Local() == L.SendBody by {
      hide Sound;
    }
    assert Coupled(c.(waiting := c.waiting && bodies == [])) by {
      hide Sound;
    }
    hide Coupled, L.Process, ValidTrailers, SendBodies, ChunksBytes, TrailerBytes;
    BodiesSent(c, bodies);
    ChunkedEnds(c.(waiting := c.waiting && bodies == []), trailers);
  }

  /** Bodies of a declared length are written as they are, and use it up. */
  lemma {:induction false} FixedBodiesSent(c: Conn, bodies: seq<bytes>)
    requires Sound(c.state) && c.writer.Some? && c.writer.value.Fixed? && SendBodies(c, bodies).Sent?
    ensures var s := SendBodies(c, bodies);
      && s.out == Concat(bodies) && |Concat(bodies)| <= c.writer.value.length
      && s.conn.writer == Some(Fixed(c.writer.value.length - |Concat(bodies)|))
      && s.conn.state == c.state && s.conn.role == c.role
    decreases |bodies|
  {
    hide Sound, SendData;
    if bodies != [] {
      FixedDataSent(c, bodies[0]);
      FixedBodiesSent(SendData(c, bodies[0]).conn, bodies[1..]);
    }
  }

  lemma FixedDataSent(c: Conn, data: bytes)
    requires Sound(c.state) && c.writer.Some? && c.writer.value.Fixed? && SendData(c, data).Sent?
    ensures var s := SendData(c, data);
      && s.out == data && |data| <= c.writer.value.length
      && s.conn.writer == Some(Fixed(c.writer.value.length - |data|)) && s.conn.state == c.state && s.conn.role == c.role
  {
    hide Sound, L.Process;
    OwnActor(c.state, c.role, L.Data);
    assert [] + data + [] == data;
  }

  lemma FixedContentSent(c: Conn, bodies: seq<bytes>, trailers: seq<Header>)
    requires Coupled(c) && c.writer.Some? && c.writer.value.Fixed? && SendContent(c, bodies, trailers).Sent?
    ensures var s := SendContent(c, bodies, trailers);
      && s.out == Concat(bodies) && |Concat(bodies)| == c.writer.value.length && trailers == []
      && L.Process(c.state, c.role, L.EndOfMessage) == Some(s.conn.state) && !s.conn.waiting
  {
    assert Sound(c.state);
    hide Coupled, Sound, L.Process, ValidTrailers, SendBodies, Concat;
    FixedBodiesSent(c, bodies);
    assert Concat(bodies) + [] == Concat(bodies);
  }

  /** The content of a message, by its framing. */
  function ContentBytes(framing: Framing, bodies: seq<bytes>, trailers: seq<Header>): bytes {
    if framing == Chunked then ChunkedBytes(bodies, trailers) else Concat(bodies)
  }

  /** Content of a declared length has no boundaries to report. */
  function ContentTokens(framing: Framing, bodies: seq<bytes>): seq<Token> {
    if framing == Chunked then BodyTokens(bodies) else Octets(Concat(bodies))
  }

  ghost predicate Receivable(x: Externals, c: Conn, framing: Framing, bodies: seq<bytes>, trailers: seq<Header>, rest: bytes) {
    framing == Chunked ==> Readable(x, c, bodies, trailers, rest)
  }

  predicate Complies(framing: Framing, bodies: seq<bytes>, trailers: seq<Header>) {
    match framing
    case Fixed(length) => trailers == [] && |Concat(bodies)| == length
    case Chunked => true
    case CloseDelimited => false
  }

  lemma ContentWritten(c: Conn, framing: Framing, bodies: seq<bytes>, trailers: seq<Header>)
    requires Coupled(c) && c.writer == Some(framing) && framing != CloseDelimited && SendContent(c, bodies, trailers).Sent?
    ensures var s := SendContent(c, bodies, trailers);
      && s.out == ContentBytes(framing, bodies, trailers) && Complies(framing, bodies, trailers)
      && L.Process(c.state, c.role, L.EndOfMessage) == Some(s.conn.state) && !s.conn.waiting
    ensures c.Local() == L.SendBody
  {
    if framing == Chunked {
      assert ValidTrailers(trailers) by {
        hide Coupled, ValidTrailers, SendBodies, L.Process, TrailerBytes;
      }
      hide Coupled, L.Process, ValidTrailers, SendContent, ChunkedBytes;
      ContentSent(c, bodies, trailers);
    } else {
      hide Coupled, L.Process, SendContent, Concat;
      FixedContentSent(c, bodies, trailers);
    }
    EndsFromBody(c.state, c.role);
  }

  lemma EndsFromBody(j: L.Joint, role: L.Role)
    requires L.Process(j, role, L.EndOfMessage).Some?
    ensures j.At(role) == L.SendBody
  {
  }

  lemma FixedEnds(x: Externals, c: Conn)
    requires Coupled(c) && !c.eof && c.Peer() == L.SendBody && c.reader == ReadFixed(0) && c.progress.None?
    ensures L.Process(c.state, c.role.Peer(), L.EndOfMessage).Some?
    ensures PlainDrain(x, c).events == [EndEvent([])] && PlainDrain(x, c).conn == AtEnd(c, c.input)
    ensures !PlainDrain(x, c).outcome.Failed?
  {
    hide NextInner, Coupled, L.Process, PlainDrain, Potential, PlainNext;
    PollReads(x, c);
    MessageEnds(c);
    PlainNextIs(x, c);
    assert PlainNext(x, c) == Step(AtEnd(c, c.input), Occurred(EndEvent([])));
    PlainNextAdvances(x, c);
    InactiveDrain(x, AtEnd(c, c.input));
    DrainGoesOn(x, c);
  }

  lemma FixedTaken(x: Externals, c: Conn, data: bytes, rest: bytes)
    requires Coupled(c) && !c.eof && c.Peer() == L.SendBody && c.reader == ReadFixed(|data|) && c.progress.None?
    requires data != [] && c.input == data + rest
    ensures PlainNext(x, c) == Step(c.(reader := ReadFixed(0), input := rest, waiting := false),
                                    Occurred(DataEvent(data, false, false)))
  {
    hide NextInner, Coupled;
    TakenPoll(x, c);
    assert c.input[..|data|] == data && c.input[|data|..] == rest;
  }

  /** A body of a declared length drains as its bytes, and what follows is left unread. */
  lemma FixedRead(x: Externals, c: Conn, data: bytes, rest: bytes)
    requires Coupled(c) && !c.eof && c.Peer() == L.SendBody && c.reader == ReadFixed(|data|) && c.progress.None?
    requires c.input == data + rest
    ensures Orderly(x, c)
    ensures L.Process(c.state, c.role.Peer(), L.EndOfMessage).Some?
    ensures var a := PlainDrain(x, c);
      && Trace(a.events) == Octets(data) + [Mark(EndEvent([]))]
      && a.conn == AtEnd(c.(waiting := c.waiting && data == []), rest)
      && !a.outcome.Failed?
  {
    hide Coupled, Orderly, PlainDrain, PlainNext, Trace, L.Process, Potential;
    PlainBodiesAreOrderly(x, c);
    EndTrace([]);
    if data == [] {
      assert data + rest == rest;
      FixedEnds(x, c);
      return;
    }
    FixedTaken(x, c, data, rest);
    DrainGoesOn(x, c);
    FixedEnds(x, PlainNext(x, c).conn);
    TraceCons(DataEvent(data, false, false), [EndEvent([])]);
    DataTokens(data);
  }

  lemma DataTokens(data: bytes)
    ensures Tokens(DataEvent(data, false, false)) == Octets(data)
  {
    var u := Octets(data);
    hide Octets;
    assert [] + u + [] == u;
  }

  /** Where a reader of this framing starts. */
  predicate AtContent(c: Conn, framing: Framing) {
    Coupled(c) && !c.eof && c.Peer() == L.SendBody && c.reader == ReaderFor(framing) && c.progress.None?
  }

  lemma ContentRead(x: Externals, c: Conn, framing: Framing, bodies: seq<bytes>, trailers: seq<Header>, rest: bytes)
    requires AtContent(c, framing) && Complies(framing, bodies, trailers) && Receivable(x, c, framing, bodies, trailers, rest)
    requires c.input == ContentBytes(framing, bodies, trailers) + rest
    ensures Orderly(x, c)
    ensures L.Process(c.state, c.role.Peer(), L.EndOfMessage).Some?
    ensures var a := PlainDrain(x, c);
      && Trace(a.events) == ContentTokens(framing, bodies) + [Mark(EndEvent(trailers))]
      && a.conn == AtEnd(c.(waiting := c.waiting && AllEmpty(bodies)), rest)
      && !a.outcome.Failed?
  {
    hide Coupled, Orderly, PlainDrain, Readable, ChunkedBytes, BodyTokens, Trace, L.Process, AllEmpty, Concat, Octets;
    if framing == Chunked {
      BodyRead(x, c, bodies, trailers, rest);
      BodyIsOrderly(x, c, bodies, trailers, rest);
      return;
    }
    FixedRead(x, c, Concat(bodies), rest);
    EmptyConcat(bodies);
  }

  lemma {:induction false} EmptyConcat(bodies: seq<bytes>)
    ensures Concat(bodies) == [] <==> AllEmpty(bodies)
    decreases |bodies|
  {
    if bodies != [] {
      AllEmptyTail(bodies);
      EmptyConcat(bodies[1..]);
    }
  }

  /** One poll takes the head, then the body is drained. */
  lemma MessageRead(x: Externals, d: Conn, e: Event, g: Conn, framing: Framing, bodies: seq<bytes>, trailers: seq<Header>,
                    rest: bytes)
    requires Coupled(d) && OrderlyPoll(x, d) && PlainNext(x, d) == Step(g, Occurred(e))
    requires !e.DataEvent? && !e.ClosedEvent?
    requires AtContent(g, framing) && Complies(framing, bodies, trailers) && Receivable(x, g, framing, bodies, trailers, rest)
    requires g.input == ContentBytes(framing, bodies, trailers) + rest
    ensures Orderly(x, d)
    ensures L.Process(g.state, g.role.Peer(), L.EndOfMessage).Some?
    ensures var a := PlainDrain(x, d);
      && Trace(a.events) == [Mark(e)] + ContentTokens(framing, bodies) + [Mark(EndEvent(trailers))]
      && a.conn == AtEnd(g.(waiting := g.waiting && AllEmpty(bodies)), rest)
      && !a.outcome.Failed?
  {
    hide Coupled, PlainDrain, PlainNext, Orderly, OrderlyPoll, Receivable, Complies, ContentBytes, ContentTokens, Trace,
         L.Process, AllEmpty;
    ContentRead(x, g, framing, bodies, trailers, rest);
    OrderlyIs(x, d);
    DrainGoesOn(x, d);
    TraceCons(e, PlainDrain(x, g).events);
  }

  /** Sending content touches the lifecycle, the writer and the wait, and nothing else. */
  lemma {:induction false} BodiesKeep(c: Conn, bodies: seq<bytes>)
    requires SendBodies(c, bodies).Sent?
    ensures var d := SendBodies(c, bodies).conn; d == c.(state := d.state, writer := d.writer, waiting := d.waiting)
    decreases |bodies|
  {
    if bodies != [] {
      var d := SendData(c, bodies[0]).conn;
      assert d == c.(state := d.state, writer := d.writer, waiting := d.waiting) by {
        hide L.Process, DataPrefix, DataSuffix;
      }
      hide SendData;
      BodiesKeep(d, bodies[1..]);
    }
  }

  lemma ContentKeeps(c: Conn, bodies: seq<bytes>, trailers: seq<Header>)
    requires SendContent(c, bodies, trailers).Sent?
    ensures var d := SendContent(c, bodies, trailers).conn; d == c.(state := d.state, writer := d.writer, waiting := d.waiting)
  {
    hide SendBodies, L.Process, ValidTrailers, Terminator;
    BodiesKeep(c, bodies);
  }

  /** The endpoint is the same, with the same limits, the same writer and an open stream. */
  predicate SameEnd(d: Conn, a: Conn) {
    a.role == d.role && a.limits == d.limits && a.writer == d.writer && a.eof == d.eof && a.reader == AwaitHead
  }

  // ------------------------------------------------------------------
  // The head
  // ------------------------------------------------------------------

  /** Ready for the peer's next head. */
  predicate AwaitsHead(d: Conn) {
    Coupled(d) && Active(d) && d.reader == AwaitHead && d.progress.None? && !d.eof
  }

  /** The parser reads back this request head from the bytes it starts. */
  ghost predicate ReadsRequest(x: Externals, d: Conn, r: Request, rest: bytes) {
    var data := RequestBytes(r) + rest;
    && Judges(b => x.request(b, d.limits.maxHeaderCount), data, true, d.limits.maxHeadBytes)
    && x.request(data, d.limits.maxHeaderCount).Complete?
    && x.request(data, d.limits.maxHeaderCount).value == r
  }

  lemma JudgedWhole<T>(parse: bytes -> Parsed<T>, data: bytes, skip: bool, limit: nat)
    requires Judges(parse, data, skip, limit) && parse(data).Complete? && SectionEnd(data, skip).Some?
    ensures parse(data).end == SectionEnd(data, skip).value
  {
    hide SectionEnd;
    assert JudgesPrefix(parse, data, skip, limit, |data|);
    assert data[..|data|] == data;
  }

  lemma RequestParsed(x: Externals, d: Conn, r: Request, rest: bytes)
    requires ReadsRequest(x, d, r, rest) && d.input == RequestBytes(r) + rest
    requires ValidMethod(r.method_) && ValidTarget(r.target) && ValidHeaders(r.headers)
    requires |RequestBytes(r)| <= d.limits.maxHeadBytes
    ensures ParseRequest(x, d.input, d.limits) == Complete(|RequestBytes(r)|, r)
  {
    hide Judges, RequestBytes, ValidHeaders, ValidMethod, ValidTarget, SectionEnd;
    RequestScanned(r, rest);
    JudgedWhole(b => x.request(b, d.limits.maxHeaderCount), d.input, true, d.limits.maxHeadBytes);
  }

  lemma RequestTaken(x: Externals, d: Conn, r: Request, rest: bytes)
    requires AwaitsHead(d) && d.role == L.Server
    requires ReadsRequest(x, d, r, rest) && d.input == RequestBytes(r) + rest
    requires ValidMethod(r.method_) && ValidTarget(r.target) && ValidHeaders(r.headers)
    requires |RequestBytes(r)| <= d.limits.maxHeadBytes
    ensures NextInner(x, d) == AcceptRequest(x, d.(input := rest), r)
  {
    hide NextInner, Coupled, ReadsRequest, RequestBytes, ValidHeaders, ValidMethod, ValidTarget, ParseRequest, AcceptRequest,
         WaitForSection;
    RequestParsed(x, d, r, rest);
    HeadPoll(x, d);
    assert d.input[|RequestBytes(r)|..] == rest;
    assert Consume(d, |RequestBytes(r)|).(progress := None) == d.(input := rest);
  }

  lemma HeadIsOrderly(x: Externals, d: Conn)
    requires AwaitsHead(d) && Clear(x, d)
    ensures OrderlyPoll(x, d)
  {
    hide Clear, Sound;
  }

  /** A head that starts a message at its sender starts it at its receiver. */
  lemma StartsAlike(j: L.Joint, k: L.Joint, m: Action)
    requires Sound(j) && Sound(k) && m.Move? && Act(j, m).Some? && Act(k, m).Some?
    requires m.event.Request? || m.event.Response? || m.event.ProtocolSwitch?
    requires Act(j, m).value.At(m.role) == L.SendBody
    ensures Act(k, m).value.At(m.role) == L.SendBody
  {
    hide Sound, L.Process, L.DisableKeepAlive;
    StartState(j, m);
    StartState(k, m);
  }

  lemma StartState(j: L.Joint, m: Action)
    requires Sound(j) && m.Move? && Act(j, m).Some? && (m.event.Request? || m.event.Response? || m.event.ProtocolSwitch?)
    ensures Act(j, m).value.At(m.role) == L.SendBody <==> !m.event.ProtocolSwitch?
  {
    hide Sound, L.Process, L.DisableKeepAlive;
    OwnActor(j, m.role, m.event);
    OtherActor(j, m.role, m.event);
    DisableUndisturbed(L.Process(j, m.role, m.event).value, m.role);
  }

  lemma WholeAwaits(d: Conn, more: bytes)
    requires AwaitsHead(d)
    ensures AwaitsHead(Feed(d, more)) && Forget(Feed(d, more)) == Feed(d, more)
  {
    hide Coupled;
    if more == [] {
      assert Feed(d, more) == d;
    } else {
      FeedCoupled(d, more);
    }
  }

  lemma SameReadsRequest(x: Externals, d: Conn, e: Conn, r: Request, rest: bytes)
    requires ReadsRequest(x, d, r, rest) && e.limits == d.limits
    ensures ReadsRequest(x, e, r, rest)
  {
    hide RequestBytes;
  }

  lemma SameReadable(x: Externals, c: Conn, d: Conn, bodies: seq<bytes>, trailers: seq<Header>, rest: bytes)
    requires Readable(x, c, bodies, trailers, rest) && d.role == c.role && d.limits == c.limits
    ensures Readable(x, d, bodies, trailers, rest)
  {
    hide ReadsTrailers, TrailerBytes, ValidHeaders, Fits;
    SameReadsTrailers(x, c, d, trailers, rest);
  }

  lemma SameReceivable(x: Externals, c: Conn, d: Conn, framing: Framing, bodies: seq<bytes>, trailers: seq<Header>, rest: bytes)
    requires Receivable(x, c, framing, bodies, trailers, rest) && d.role == c.role && d.limits == c.limits
    ensures Receivable(x, d, framing, bodies, trailers, rest)
  {
    hide Readable;
    if framing == Chunked {
      SameReadable(x, c, d, bodies, trailers, rest);
    }
  }

  /** Fragments drain as the stream does, when it is judged properly. */
  lemma Delivered(x: Externals, d: Conn, fragments: seq<bytes>)
    requires AwaitsHead(d) && Fragments(fragments)
    requires Coupled(Feed(d, Concat(fragments))) && Orderly(x, Feed(d, Concat(fragments)))
    ensures var a, p := FeedAll(x, d, fragments), PlainDrain(x, Feed(d, Concat(fragments)));
      && Trace(a.events) == Trace(p.events) && Forget(a.conn) == p.conn && a.outcome == p.outcome
      && Coupled(a.conn)
  {
    FeedAllCoupled(x, d, fragments);
    hide Coupled, Orderly, PlainDrain, Drain, FeedAll, Trace, Concat, Fragments;
    var whole := Feed(d, Concat(fragments));
    assert Forget(whole) == whole;
    FragmentsAtOnce(x, d, fragments);
    DrainPlainly(x, whole);
  }

  // ------------------------------------------------------------------
  // Requests, end to end
  // ------------------------------------------------------------------

  /** The first poll of a server that has received a client's request. */
  lemma RequestArrives(x: Externals, c: Conn, d: Conn, r: Request, rest: bytes)
    requires SendRequest(x, c, r).Sent? && ValidMethod(r.method_)
    requires AwaitsHead(d) && d.role == L.Server && Act(d.state, RequestMove(r, WritePlan(x, r))).Some?
    requires ReadsRequest(x, d, r, rest) && d.input == RequestBytes(r) + rest
    requires |RequestBytes(r)| <= d.limits.maxHeadBytes
    ensures OrderlyPoll(x, d)
    ensures var g := AcceptRequest(x, d.(input := rest), r).conn;
      && PlainNext(x, d) == Step(g, Occurred(RequestEvent(r)))
      && Coupled(g) && g.input == rest
  {
    assert Sound(d.state);
    hide NextInner, PlainNext, Coupled, OrderlyPoll, ReadsRequest, RequestBytes, AcceptRequest, WritePlan, SendRequest, Potential,
         RequestMove, Act, Clear, ValidMethod, ValidTarget, ValidHeaders;
    RequestClear(x, d, r, rest);
    HeadIsOrderly(x, d);
    RequestWritten(x, c, r);
    RequestTaken(x, d, r, rest);
    RequestAgreement(x, c, d.(input := rest), r);
    AcceptKeepsPlain(x, d.(input := rest), r);
    PlainNextIs(x, d);
    PlainNextAdvances(x, d);
  }

  lemma RequestClear(x: Externals, d: Conn, r: Request, rest: bytes)
    requires d.role == L.Server && d.reader == AwaitHead
    requires ReadsRequest(x, d, r, rest) && d.input == RequestBytes(r) + rest
    ensures Clear(x, d)
  {
    hide Judges, RequestBytes;
  }

  lemma MoverOf(r: Request, plan: RequestPlan)
    requires plan.RequestPlan?
    ensures RequestMove(r, plan).Move? && RequestMove(r, plan).role == L.Client && RequestMove(r, plan).event.Request?
  {
  }

  lemma AcceptKeepsPlain(x: Externals, d: Conn, r: Request)
    requires Forget(d) == d
    ensures Forget(AcceptRequest(x, d, r).conn) == AcceptRequest(x, d, r).conn
    ensures SameWire(d, AcceptRequest(x, d, r).conn)
  {
    hide ReadPlan, L.Process, Persistent, ExpectsContinue, KindOf, L.DisableKeepAlive;
  }

  /** A request never has a body that ends with the connection. */
  lemma RequestFraming(x: Externals, c: Conn, r: Request)
    requires SendRequest(x, c, r).Sent?
    ensures SendRequest(x, c, r).conn.writer.Some? && SendRequest(x, c, r).conn.writer != Some(CloseDelimited)
  {
    hide ValidTarget, ValidHeaders, ValidHost, SelectFraming, UpgradeProtocols, HasToken, L.Process, ExpectsContinue, Persistent,
         RequestBytes, KindOf, L.DisableKeepAlive;
    FramingExact(r.headers, r.version, 0);
  }

  lemma RequestOpensBody(x: Externals, c: Conn, r: Request)
    requires Coupled(c) && SendRequest(x, c, r).Sent?
    ensures SendRequest(x, c, r).conn.Local() == L.SendBody
  {
    hide WritePlan, Persistent, ExpectsContinue, RequestBytes, KindOf;
  }

  /** The server at the start of the content: in the state of the client and
      with the reader of its writer. */
  lemma RequestStarts(x: Externals, c: Conn, d: Conn, r: Request, framing: Framing, content: bytes)
    requires Coupled(c) && SendRequest(x, c, r).Sent? && SendRequest(x, c, r).conn.writer == Some(framing)
    requires SendRequest(x, c, r).conn.Local() == L.SendBody
    requires AwaitsHead(d) && d.role == L.Server && Act(d.state, RequestMove(r, WritePlan(x, r))).Some?
    requires ValidMethod(r.method_) && |RequestBytes(r)| <= d.limits.maxHeadBytes
    requires ReadsRequest(x, d, r, content) && d.input == RequestBytes(r) + content
    ensures OrderlyPoll(x, d)
    ensures var head, g := SendRequest(x, c, r).conn, AcceptRequest(x, d.(input := content), r).conn;
      && PlainNext(x, d) == Step(g, Occurred(RequestEvent(r)))
      && AtContent(g, framing) && g.input == content && g.waiting == head.waiting
      && SameContext(head, g) && g.peerVersion == Some(r.version)
      && g.role == d.role && g.limits == d.limits && g.writer == d.writer
      && (c.state == d.state ==> g.state == head.state)
  {
    assert Sound(c.state) && Sound(d.state);
    hide Coupled, SendRequest, AcceptRequest, WritePlan, RequestMove, Act, RequestBytes, ReadsRequest, OrderlyPoll,
         PlainNext, ValidMethod, Sound;
    RequestWritten(x, c, r);
    RequestArrives(x, c, d, r, content);
    RequestAgreement(x, c, d.(input := content), r);
    AcceptKeepsPlain(x, d.(input := content), r);
    MoverOf(r, WritePlan(x, r));
    StartsAlike(c.state, d.state, RequestMove(r, WritePlan(x, r)));
  }

  /** The same bytes received at once. */
  lemma RequestRead(x: Externals, c: Conn, d: Conn, r: Request, framing: Framing, bodies: seq<bytes>, trailers: seq<Header>,
                    rest: bytes)
    requires Coupled(c) && SendRequest(x, c, r).Sent? && SendRequest(x, c, r).conn.writer == Some(framing)
    requires SendRequest(x, c, r).conn.Local() == L.SendBody && Complies(framing, bodies, trailers)
    requires AwaitsHead(d) && d.role == L.Server && Act(d.state, RequestMove(r, WritePlan(x, r))).Some?
    requires ValidMethod(r.method_) && |RequestBytes(r)| <= d.limits.maxHeadBytes
    requires var content := ContentBytes(framing, bodies, trailers) + rest;
      && ReadsRequest(x, d, r, content) && Receivable(x, d, framing, bodies, trailers, rest)
      && d.input == RequestBytes(r) + content
    ensures Orderly(x, d)
    ensures var head := SendRequest(x, c, r).conn;
      var a := PlainDrain(x, d);
      && Trace(a.events) == [Mark(RequestEvent(r))] + ContentTokens(framing, bodies) + [Mark(EndEvent(trailers))]
      && !a.outcome.Failed? && a.conn.input == rest && (a.conn.waiting <==> head.waiting && AllEmpty(bodies))
      && SameContext(head, a.conn) && a.conn.peerVersion == Some(r.version) && SameEnd(d, a.conn)
      && (c.state == d.state ==> L.Process(head.state, L.Client, L.EndOfMessage) == Some(a.conn.state))
  {
    hide Coupled, SendRequest, AcceptRequest, WritePlan, RequestMove, Act, RequestBytes, Receivable, ContentBytes,
         ContentTokens, Complies, ReadsRequest, OrderlyPoll, Orderly, PlainNext, PlainDrain, Trace, L.Process, AllEmpty,
         ValidMethod, AtContent;
    var content := ContentBytes(framing, bodies, trailers) + rest;
    RequestStarts(x, c, d, r, framing, content);
    var g := AcceptRequest(x, d.(input := content), r).conn;
    ContentOpen(g, framing);
    SameReceivable(x, d, g, framing, bodies, trailers, rest);
    MessageRead(x, d, RequestEvent(r), g, framing, bodies, trailers, rest);
  }

  lemma ContentOpen(c: Conn, framing: Framing)
    requires AtContent(c, framing)
    ensures !c.eof && c.progress.None? && c.Peer() == L.SendBody && c.reader == ReaderFor(framing) && Coupled(c)
  {
  }

  /**
   The request round trip.  A client sends a request, its bodies and the end of
   the message; the bytes reach a server in any fragments, with anything behind
   them.  The server reports the request, the content in its chunks, the trailers
   and nothing else, leaves what follows unread, and, having started in the
   client's lifecycle state, ends in it.  Only the 100 (Continue) flag may differ:
   the client has dropped it, the server keeps it when no content came.
   */
  lemma RequestRoundTrip(x: Externals, c: Conn, d: Conn, r: Request, framing: Framing, bodies: seq<bytes>,
                         trailers: seq<Header>, rest: bytes, fragments: seq<bytes>)
    requires Coupled(c) && SendRequest(x, c, r).Sent? && SendRequest(x, c, r).conn.writer == Some(framing)
    requires SendContent(SendRequest(x, c, r).conn, bodies, trailers).Sent?
    requires AwaitsHead(d) && d.role == L.Server && d.input == []
    requires Act(d.state, RequestMove(r, WritePlan(x, r))).Some?
    requires ValidMethod(r.method_) && |RequestBytes(r)| <= d.limits.maxHeadBytes
    requires var content := SendContent(SendRequest(x, c, r).conn, bodies, trailers).out + rest;
      && ReadsRequest(x, d, r, content) && Receivable(x, d, framing, bodies, trailers, rest)
      && Fragments(fragments) && Concat(fragments) == SendRequest(x, c, r).out + content
    ensures var sent := SendContent(SendRequest(x, c, r).conn, bodies, trailers).conn;
      var a := FeedAll(x, d, fragments);
      && Trace(a.events) == [Mark(RequestEvent(r))] + ContentTokens(framing, bodies) + [Mark(EndEvent(trailers))]
      && !a.outcome.Failed? && a.conn.input == rest
      && (c.state == d.state ==> a.conn.state == sent.state)
      && Coupled(a.conn) && SameContext(sent, a.conn) && a.conn.peerVersion == Some(r.version) && SameEnd(d, a.conn)
      && !sent.waiting && (a.conn.waiting <==> SendRequest(x, c, r).conn.waiting && AllEmpty(bodies))
  {
    hide Coupled, SendRequest, SendContent, WritePlan, RequestMove, Act, RequestBytes, Receivable, ContentBytes,
         ContentTokens, Complies, ReadsRequest, Orderly, PlainDrain, FeedAll, Fragments, Concat, Trace, L.Process, AllEmpty,
         ValidMethod;
    RequestWritten(x, c, r);
    RequestFraming(x, c, r);
    SendRequestCoupled(x, c, r);
    ContentWritten(SendRequest(x, c, r).conn, framing, bodies, trailers);
    var content := ContentBytes(framing, bodies, trailers) + rest;
    var whole := Feed(d, Concat(fragments));
    assert whole.input == RequestBytes(r) + content;
    WholeAwaits(d, Concat(fragments));
    SameReadsRequest(x, d, whole, r, content);
    SameReceivable(x, d, whole, framing, bodies, trailers, rest);
    RequestRead(x, c, whole, r, framing, bodies, trailers, rest);
    ContentKeeps(SendRequest(x, c, r).conn, bodies, trailers);
    Delivered(x, d, fragments);
  }

  lemma RequestWritten(x: Externals, c: Conn, r: Request)
    requires SendRequest(x, c, r).Sent?
    ensures SendRequest(x, c, r).out == RequestBytes(r)
    ensures SendRequest(x, c, r).conn.role == L.Client && WritePlan(x, r).RequestPlan?
    ensures ValidTarget(r.target) && ValidHeaders(r.headers)
  {
    assert ValidTarget(r.target) && ValidHeaders(r.headers) by {
      hide ValidTarget, ValidHeaders, ValidHost, SelectFraming, UpgradeProtocols, HasToken, L.Process;
    }
    hide WritePlan, L.Process, Persistent, ExpectsContinue, KindOf, L.DisableKeepAlive, RequestBytes;
  }

  // ------------------------------------------------------------------
  // Responses, end to end
  // ------------------------------------------------------------------

  ghost predicate ReadsResponse(x: Externals, d: Conn, r: Response, rest: bytes) {
    var data := ResponseBytes(r) + rest;
    && Judges(b => x.response(b, d.limits.maxHeaderCount), data, true, d.limits.maxHeadBytes)
    && x.response(data, d.limits.maxHeaderCount).Complete?
    && x.response(data, d.limits.maxHeaderCount).value == r
  }

  lemma ResponseParsed(x: Externals, d: Conn, r: Response, rest: bytes)
    requires ReadsResponse(x, d, r, rest) && d.input == ResponseBytes(r) + rest
    requires ValidReason(r.reason) && ValidHeaders(r.headers)
    requires |ResponseBytes(r)| <= d.limits.maxHeadBytes
    ensures ParseResponse(x, d.input, d.limits) == Complete(|ResponseBytes(r)|, r)
  {
    hide Judges, ResponseBytes, ValidHeaders, ValidReason, SectionEnd;
    ResponseScanned(r, rest);
    JudgedWhole(b => x.response(b, d.limits.maxHeaderCount), d.input, true, d.limits.maxHeadBytes);
  }

  lemma ResponseTaken(x: Externals, d: Conn, r: Response, rest: bytes)
    requires AwaitsHead(d) && d.role == L.Client
    requires ReadsResponse(x, d, r, rest) && d.input == ResponseBytes(r) + rest
    requires ValidReason(r.reason) && ValidHeaders(r.headers)
    requires |ResponseBytes(r)| <= d.limits.maxHeadBytes
    ensures NextInner(x, d) == AcceptResponse(d.(input := rest), r)
  {
    hide NextInner, Coupled, ReadsResponse, ResponseBytes, ValidHeaders, ValidReason, ParseResponse, AcceptResponse,
         WaitForSection;
    ResponseParsed(x, d, r, rest);
    HeadPoll(x, d);
    assert d.input[|ResponseBytes(r)|..] == rest;
    assert Consume(d, |ResponseBytes(r)|).(progress := None) == d.(input := rest);
  }

  lemma ResponseKeepsPlain(d: Conn, r: Response)
    requires Forget(d) == d
    ensures Forget(AcceptResponse(d, r).conn) == AcceptResponse(d, r).conn
    ensures !IsInformational(r.status) && AcceptResponse(d, r).outcome.Occurred? ==> !AcceptResponse(d, r).conn.waiting
    ensures SameWire(d, AcceptResponse(d, r).conn)
  {
    hide L.Process, Persistent, L.DisableKeepAlive, ResponseFraming, ValidUpgrade, FinalEvent, NoContent;
  }

  lemma ResponseArrives(x: Externals, c: Conn, d: Conn, r: Response, rest: bytes)
    requires SendResponse(c, r).Sent?
    requires AwaitsHead(d) && d.role == L.Client && c.requestKind == d.requestKind
    requires var head := EmittedHead(c, r);
      && Act(d.state, ResponseMove(c.requestKind, head)).Some?
      && ReadsResponse(x, d, head, rest) && d.input == ResponseBytes(head) + rest
      && |ResponseBytes(head)| <= d.limits.maxHeadBytes
    ensures OrderlyPoll(x, d)
    ensures var head := EmittedHead(c, r);
      var g := AcceptResponse(d.(input := rest), head).conn;
      && PlainNext(x, d) == Step(g, Occurred(ResponseEvent(head)))
      && Coupled(g) && g.input == rest
  {
    assert Sound(d.state);
    hide NextInner, PlainNext, Coupled, OrderlyPoll, ReadsResponse, ResponseBytes, AcceptResponse, SendResponse, Clear,
         Potential, PlanResponse, Act, FinalEvent, Persistent, ValidReason, ValidHeaders;
    ResponseWritten(c, r);
    EmittedHeadIsValid(c, r);
    var head := EmittedHead(c, r);
    ResponseClear(x, d, head, rest);
    HeadIsOrderly(x, d);
    ResponseTaken(x, d, head, rest);
    ResponseAgreement(c, d.(input := rest), r);
    ResponseKeepsPlain(d.(input := rest), head);
    PlainNextIs(x, d);
    PlainNextAdvances(x, d);
  }

  lemma ResponseClear(x: Externals, d: Conn, r: Response, rest: bytes)
    requires d.role == L.Client && d.reader == AwaitHead
    requires ReadsResponse(x, d, r, rest) && d.input == ResponseBytes(r) + rest
    ensures Clear(x, d)
  {
    hide Judges, ResponseBytes;
  }

  lemma ResponseStarts(x: Externals, c: Conn, d: Conn, r: Response, framing: Framing, content: bytes)
    requires Coupled(c) && SendResponse(c, r).Sent? && SendResponse(c, r).conn.writer == Some(framing)
    requires SendResponse(c, r).conn.Local() == L.SendBody
    requires AwaitsHead(d) && d.role == L.Client && c.requestKind == d.requestKind
    requires Act(d.state, ResponseMove(c.requestKind, EmittedHead(c, r))).Some?
    requires |ResponseBytes(EmittedHead(c, r))| <= d.limits.maxHeadBytes
    requires ReadsResponse(x, d, EmittedHead(c, r), content) && d.input == ResponseBytes(EmittedHead(c, r)) + content
    ensures OrderlyPoll(x, d)
    ensures var g := AcceptResponse(d.(input := content), EmittedHead(c, r)).conn;
      && PlainNext(x, d) == Step(g, Occurred(ResponseEvent(EmittedHead(c, r))))
      && AtContent(g, framing) && g.input == content && !g.waiting
      && g.role == d.role && g.limits == d.limits && g.writer == d.writer && SameContext(SendResponse(c, r).conn, g)
      && (c.state == d.state ==> g.state == SendResponse(c, r).conn.state)
  {
    assert Sound(c.state) && Sound(d.state);
    hide Coupled, SendResponse, AcceptResponse, PlanResponse, EmittedHead, ResponseMove, Act, ResponseBytes, ReadsResponse,
         OrderlyPoll, PlainNext, Sound;
    ResponseWritten(c, r);
    var head := EmittedHead(c, r);
    ResponseArrives(x, c, d, r, content);
    ResponseAgreement(c, d.(input := content), r);
    ResponseKeepsPlain(d.(input := content), head);
    ResponderOf(c.requestKind, head);
    StartsAlike(c.state, d.state, ResponseMove(c.requestKind, head));
  }

  /** The same bytes received at once. */
  lemma ResponseRead(x: Externals, c: Conn, d: Conn, r: Response, framing: Framing, bodies: seq<bytes>, trailers: seq<Header>,
                     rest: bytes)
    requires Coupled(c) && SendResponse(c, r).Sent? && SendResponse(c, r).conn.writer == Some(framing)
    requires SendResponse(c, r).conn.Local() == L.SendBody && Complies(framing, bodies, trailers)
    requires AwaitsHead(d) && d.role == L.Client && c.requestKind == d.requestKind
    requires Act(d.state, ResponseMove(c.requestKind, EmittedHead(c, r))).Some?
    requires |ResponseBytes(EmittedHead(c, r))| <= d.limits.maxHeadBytes
    requires var content := ContentBytes(framing, bodies, trailers) + rest;
      && ReadsResponse(x, d, EmittedHead(c, r), content) && Receivable(x, d, framing, bodies, trailers, rest)
      && d.input == ResponseBytes(EmittedHead(c, r)) + content
    ensures Orderly(x, d)
    ensures var a := PlainDrain(x, d);
      && Trace(a.events)
         == [Mark(ResponseEvent(EmittedHead(c, r)))] + ContentTokens(framing, bodies) + [Mark(EndEvent(trailers))]
      && !a.outcome.Failed? && a.conn.input == rest && !a.conn.waiting && SameEnd(d, a.conn)
      && SameContext(SendResponse(c, r).conn, a.conn)
      && (c.state == d.state ==> L.Process(SendResponse(c, r).conn.state, L.Server, L.EndOfMessage) == Some(a.conn.state))
  {
    hide Coupled, SendResponse, AcceptResponse, PlanResponse, EmittedHead, ResponseMove, Act, ResponseBytes, Receivable,
         ContentBytes, ContentTokens, Complies, ReadsResponse, OrderlyPoll, Orderly, PlainNext, PlainDrain, Trace, L.Process,
         AllEmpty, AtContent;
    ResponseWritten(c, r);
    var content := ContentBytes(framing, bodies, trailers) + rest;
    ResponseStarts(x, c, d, r, framing, content);
    var g := AcceptResponse(d.(input := content), EmittedHead(c, r)).conn;
    ContentOpen(g, framing);
    SameReceivable(x, d, g, framing, bodies, trailers, rest);
    MessageRead(x, d, ResponseEvent(EmittedHead(c, r)), g, framing, bodies, trailers, rest);
  }

  /**
   The response round trip.  As for requests, and the head the client reports is
   the one the server put on the wire, with the framing and the closure it added.
   */
  lemma ResponseRoundTrip(x: Externals, c: Conn, d: Conn, r: Response, framing: Framing, bodies: seq<bytes>,
                          trailers: seq<Header>, rest: bytes, fragments: seq<bytes>)
    requires Coupled(c) && SendResponse(c, r).Sent? && SendResponse(c, r).conn.writer == Some(framing)
    requires SendContent(SendResponse(c, r).conn, bodies, trailers).Sent? && framing != CloseDelimited
    requires AwaitsHead(d) && d.role == L.Client && d.input == [] && c.requestKind == d.requestKind
    requires Act(d.state, ResponseMove(c.requestKind, EmittedHead(c, r))).Some?
    requires |ResponseBytes(EmittedHead(c, r))| <= d.limits.maxHeadBytes
    requires var content := SendContent(SendResponse(c, r).conn, bodies, trailers).out + rest;
      && ReadsResponse(x, d, EmittedHead(c, r), content) && Receivable(x, d, framing, bodies, trailers, rest)
      && Fragments(fragments) && Concat(fragments) == SendResponse(c, r).out + content
    ensures var sent := SendContent(SendResponse(c, r).conn, bodies, trailers).conn;
      var a := FeedAll(x, d, fragments);
      && Trace(a.events)
         == [Mark(ResponseEvent(EmittedHead(c, r)))] + ContentTokens(framing, bodies) + [Mark(EndEvent(trailers))]
      && !a.outcome.Failed? && a.conn.input == rest
      && (c.state == d.state ==> a.conn.state == sent.state)
      && Coupled(a.conn) && SameEnd(d, a.conn)
      && !sent.waiting && !a.conn.waiting
  {
    hide Coupled, SendResponse, SendContent, PlanResponse, EmittedHead, ResponseMove, Act, ResponseBytes, Receivable,
         ContentBytes, ContentTokens, Complies, ReadsResponse, Orderly, PlainDrain, FeedAll, Fragments, Concat, Trace, L.Process;
    ResponseWritten(c, r);
    SendResponseCoupled(c, r);
    ContentWritten(SendResponse(c, r).conn, framing, bodies, trailers);
    var content := ContentBytes(framing, bodies, trailers) + rest;
    var whole := Feed(d, Concat(fragments));
    assert whole.input == ResponseBytes(EmittedHead(c, r)) + content;
    WholeAwaits(d, Concat(fragments));
    SameReadsResponse(x, d, whole, EmittedHead(c, r), content);
    SameReceivable(x, d, whole, framing, bodies, trailers, rest);
    ResponseRead(x, c, whole, r, framing, bodies, trailers, rest);
    Delivered(x, d, fragments);
  }

  lemma ResponderOf(kind: Option<RequestKind>, r: Response)
    ensures var m := ResponseMove(kind, r); m.Move? && m.role == L.Server && (m.event.Response? || m.event.ProtocolSwitch?)
  {
    hide Persistent;
  }

  lemma ResponseWritten(c: Conn, r: Response)
    requires SendResponse(c, r).Sent?
    ensures PlanResponse(c, r).ResponsePlan? && SendResponse(c, r).out == ResponseBytes(EmittedHead(c, r))
    ensures !IsInformational(EmittedHead(c, r).status)
    ensures SendResponse(c, r).conn.role == L.Server
  {
    hide PlanResponse, L.Process, Persistent, L.DisableKeepAlive, ResponseBytes;
  }

  lemma SameReadsResponse(x: Externals, d: Conn, e: Conn, r: Response, rest: bytes)
    requires ReadsResponse(x, d, r, rest) && e.limits == d.limits
    ensures ReadsResponse(x, e, r, rest)
  {
    hide ResponseBytes;
  }
}
