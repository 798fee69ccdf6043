/**
 The chunked round trip: what `send_data` and `end_of_message` write for a chunked
 body is read back as the same bytes in the same chunks, and the reader is left
 exactly at the trailer section.
 */
module ChunkedBodies {
  import opened Prelude
  import opened Bytes
  import opened Numbers
  import opened Fields
  import opened Heads
  import opened Scan
  import opened ChunkLine
  import opened ConnectionModel
  import opened LifecycleRuns
  import opened Coupling
  import opened Fragmentation
  import opened FragmentedRuns
  import L = Lifecycle

  // ------------------------------------------------------------------
  // Writing
  // ------------------------------------------------------------------

  /** One chunk; no bytes at all for an empty body, which would end the message. */
  function ChunkBytes(body: bytes): bytes {
    if body == [] then [] else Hex(|body|) + CRLF + body + CRLF
  }

  function ChunksBytes(bodies: seq<bytes>): bytes {
    if bodies == [] then [] else ChunkBytes(bodies[0]) + ChunksBytes(bodies[1..])
  }

  const LAST_CHUNK: bytes := "0\r\n"

  /** Sends bodies one after the other; the bytes written, in order. */
  function SendBodies(c: Conn, bodies: seq<bytes>): Sent
    decreases |bodies|
  {
    if bodies == [] then Sent(c, [])
    else
      match SendData(c, bodies[0])
      case Refused => Refused
      case Sent(next, out) =>
        match SendBodies(next, bodies[1..])
        case Refused => Refused
        case Sent(last, more) => Sent(last, out + more)
  }

  lemma SendDataAccepted(c: Conn, data: bytes)
    requires Coupled(c) && c.Local() == L.SendBody && c.writer == Some(Chunked)
    ensures SendData(c, data) == Sent(c.(waiting := false), ChunkBytes(data))
  {
    hide Sound, Hex, L.Process;
    LocalData(c);
    if data != [] {
      assert (Hex(|data|) + CRLF) + data + CRLF == ChunkBytes(data);
    } else {
      assert [] + data + [] == ChunkBytes(data);
    }
  }

  lemma LocalData(c: Conn)
    requires Coupled(c) && c.Local() == L.SendBody
    ensures AdvanceLocal(c, L.Data) == Some(c)
    ensures AdvanceLocal(c, L.EndOfMessage).Some?
  {
    OwnActor(c.state, c.role, L.Data);
  }

  /** Every body of a chunked message can be sent, and what is written is the
      chunks of the bodies that are not empty. */
  lemma {:induction false} BodiesSent(c: Conn, bodies: seq<bytes>)
    requires Coupled(c) && c.Local() == L.SendBody && c.writer == Some(Chunked)
    ensures SendBodies(c, bodies)
         == Sent(c.(waiting := c.waiting && bodies == []), ChunksBytes(bodies))
    decreases |bodies|
  {
    hide Coupled, SendData, ChunkBytes;
    if bodies != [] {
      SendDataAccepted(c, bodies[0]);
      StopWaiting(c);
      BodiesSent(c.(waiting := false), bodies[1..]);
    }
  }

  /** Ending the message writes the last chunk and the trailer section. */
  lemma ChunkedEnds(c: Conn, trailers: seq<Header>)
    requires Coupled(c) && c.Local() == L.SendBody && c.writer == Some(Chunked)
    ensures EndMessage(c, trailers).Sent? <==> ValidTrailers(trailers)
    ensures EndMessage(c, trailers).Sent? ==> EndMessage(c, trailers).out == LAST_CHUNK + TrailerBytes(trailers)
  {
    hide Sound, ValidTrailers, TrailerBytes, L.Process, AdvanceLocal;
    LocalData(c);
  }

  // ------------------------------------------------------------------
  // Reading
  // ------------------------------------------------------------------

  /** What a reader of the chunks should report. */
  function BodyTokens(bodies: seq<bytes>): seq<Token> {
    if bodies == [] then []
    else (if bodies[0] == [] then [] else [Open] + Octets(bodies[0]) + [Shut]) + BodyTokens(bodies[1..])
  }

  predicate AllEmpty(bodies: seq<bytes>) {
    forall i :: 0 <= i < |bodies| ==> bodies[i] == []
  }

  /** Every chunk size is a `usize` and its digits fit the line limit. */
  predicate Fits(bodies: seq<bytes>, limit: nat) {
    forall i :: 0 <= i < |bodies| ==> |bodies[i]| <= USIZE_MAX && |Hex(|bodies[i]|)| <= limit
  }

  lemma HexHasNoCr(n: nat)
    ensures '\r' !in Hex(n) && Hex(n) != []
  {
    HexDigitsOnly(n);
  }

  /** A printed size is found and read as a silent step. */
  lemma SizeRead(c: Conn, n: nat, rest: bytes)
    requires c.Peer() == L.SendBody && c.reader == ReadChunked(Size(0)) && c.progress.None?
    requires c.input == Hex(n) + CRLF + rest && n <= USIZE_MAX && |Hex(n)| <= c.limits.maxHeadBytes
    ensures Silent(c) == Some(c.(reader := ReadChunked(if n == 0 then Trailers else Body(n, true)), input := rest))
  {
    hide Hex, ParseChunkHeader, FindCrlf;
    HexHasNoCr(n);
    var digits := |Hex(n)|;
    forall i | 0 <= i < digits
      ensures !CrlfAt(c.input, i)
    {
      assert c.input[i] == Hex(n)[i];
    }
    assert CrlfAt(c.input, digits);
    FindCrlfUnique(c.input, 0, digits + 2);
    assert c.input[..digits] == Hex(n);
    assert c.input[digits + 2..] == rest;
    ChunkSizeRoundTrip(n);
  }

  lemma ChunkEndRead(c: Conn, rest: bytes)
    requires c.Peer() == L.SendBody && c.reader == ReadChunked(BodyEnd) && c.input == CRLF + rest
    ensures Silent(c) == Some(c.(reader := ReadChunked(Size(0)), input := rest))
  {
    assert c.input[..2] == CRLF;
    assert c.input[2..] == rest;
  }

  /** A silent step does not change what draining reports. */
  lemma SilentDrain(x: Externals, c: Conn)
    requires Coupled(c) && Silent(c).Some?
    ensures Coupled(Silent(c).value)
    ensures PlainDrain(x, c) == PlainDrain(x, Silent(c).value)
  {
    hide NextInner, Coupled, Silent, PlainDrain, L.Poison;
    SilentCoupled(c);
    SilentPoll(x, c);
    SilentKeepsRole(c);
    PlainNextIs(x, c);
    PlainNextIs(x, Silent(c).value);
    SameDrain(x, c, Silent(c).value);
  }

  lemma SilentKeepsRole(c: Conn)
    requires Silent(c).Some?
    ensures Silent(c).value.role == c.role
  {
    hide FindCrlf, ParseChunkHeader;
  }

  /** The state after a whole chunk. */
  function AfterChunk(c: Conn, rest: bytes): Conn {
    c.(input := rest, waiting := false)
  }

  /** One non-empty chunk: one body event with both marks, then the next size. */
  lemma ChunkRead(x: Externals, c: Conn, body: bytes, rest: bytes)
    requires Coupled(c) && !c.eof && c.Peer() == L.SendBody && c.reader == ReadChunked(Size(0)) && c.progress.None?
    requires body != [] && |body| <= USIZE_MAX && |Hex(|body|)| <= c.limits.maxHeadBytes
    requires c.input == ChunkBytes(body) + rest
    ensures Coupled(AfterChunk(c, rest))
    ensures var after := PlainDrain(x, AfterChunk(c, rest));
      PlainDrain(x, c) == after.(events := [DataEvent(body, true, true)] + after.events)
  {
    hide NextInner, Coupled, Silent, PlainDrain, Hex;
    var tail := body + (CRLF + rest);
    assert c.input == Hex(|body|) + CRLF + tail;
    SizeRead(c, |body|, tail);
    SilentDrain(x, c);
    var d := c.(reader := ReadChunked(Body(|body|, true)), input := tail);
    TakenPoll(x, d);
    assert tail[..|body|] == body && tail[|body|..] == CRLF + rest;
    var e := d.(reader := ReadChunked(BodyEnd), input := CRLF + rest, waiting := false);
    assert PlainNext(x, d) == Step(e, Occurred(DataEvent(body, true, true)));
    DrainGoesOn(x, d);
    ChunkEndRead(e, rest);
    SilentDrain(x, e);
  }

  /**
   The chunked round trip.  Draining the written chunks reports exactly their
   bytes with a mark at each end, empty bodies leaving no trace, and goes on as
   a connection that stands at the trailer section with nothing else changed.
   */
  lemma {:induction false} ChunksRead(x: Externals, c: Conn, bodies: seq<bytes>, tail: bytes)
    requires Coupled(c) && !c.eof && c.Peer() == L.SendBody && c.reader == ReadChunked(Size(0)) && c.progress.None?
    requires Fits(bodies, c.limits.maxHeadBytes) && c.limits.maxHeadBytes > 0
    requires c.input == ChunksBytes(bodies) + (LAST_CHUNK + tail)
    ensures var there := c.(reader := ReadChunked(Trailers), input := tail, waiting := c.waiting && AllEmpty(bodies));
      && Coupled(there)
      && Trace(PlainDrain(x, c).events) == BodyTokens(bodies) + Trace(PlainDrain(x, there).events)
      && PlainDrain(x, c).conn == PlainDrain(x, there).conn
      && PlainDrain(x, c).outcome == PlainDrain(x, there).outcome
    decreases |bodies|
  {
    hide *;
    if bodies == [] {
      NoChunks();
      assert [] + (LAST_CHUNK + tail) == LAST_CHUNK + tail;
      LastChunkRead(x, c, tail);
      assert [] + Trace(PlainDrain(x, c).events) == Trace(PlainDrain(x, c).events);
      return;
    }
    var rest := ChunksBytes(bodies[1..]) + (LAST_CHUNK + tail);
    ChunksSplit(bodies, c.limits.maxHeadBytes, LAST_CHUNK + tail);
    AllEmptyTail(bodies);
    if bodies[0] == [] {
      ChunksRead(x, c, bodies[1..], tail);
      return;
    }
    ChunkRead(x, c, bodies[0], rest);
    AfterChunkIs(c, rest);
    ChunksRead(x, AfterChunk(c, rest), bodies[1..], tail);
    var events := PlainDrain(x, AfterChunk(c, rest)).events;
    ChunkTrace(bodies[0], events);
    var chunk := [Open] + Octets(bodies[0]) + [Shut];
    var there := c.(reader := ReadChunked(Trailers), input := tail, waiting := false);
    assert chunk + (BodyTokens(bodies[1..]) + Trace(PlainDrain(x, there).events))
        == (chunk + BodyTokens(bodies[1..])) + Trace(PlainDrain(x, there).events);
  }

  lemma AfterChunkIs(c: Conn, rest: bytes)
    ensures AfterChunk(c, rest) == c.(input := rest, waiting := false)
    ensures AfterChunk(c, rest).Peer() == c.Peer()
  {
  }

  lemma NoChunks()
    ensures ChunksBytes([]) == [] && BodyTokens([]) == [] && AllEmpty([])
  {
  }

  /** The first body and the others. */
  lemma ChunksSplit(bodies: seq<bytes>, limit: nat, end: bytes)
    requires bodies != [] && Fits(bodies, limit)
    ensures bodies[0] == [] ==> ChunksBytes(bodies) + end == ChunksBytes(bodies[1..]) + end
    ensures bodies[0] != [] ==> ChunksBytes(bodies) + end == ChunkBytes(bodies[0]) + (ChunksBytes(bodies[1..]) + end)
    ensures Fits(bodies[1..], limit) && |bodies[0]| <= USIZE_MAX && |Hex(|bodies[0]|)| <= limit
    ensures BodyTokens(bodies)
         == if bodies[0] == [] then BodyTokens(bodies[1..])
            else [Open] + Octets(bodies[0]) + [Shut] + BodyTokens(bodies[1..])
  {
    hide *;
    ChunksAre(bodies);
    TokensAre(bodies);
    FitsSplit(bodies, limit);
    var first, rest := ChunkBytes(bodies[0]), ChunksBytes(bodies[1..]);
    if bodies[0] == [] {
      NoChunk();
      assert [] + rest == rest;
    } else {
      assert (first + rest) + end == first + (rest + end);
    }
  }

  lemma NoChunk()
    ensures ChunkBytes([]) == []
  {
  }

  lemma ChunksAre(bodies: seq<bytes>)
    requires bodies != []
    ensures ChunksBytes(bodies) == ChunkBytes(bodies[0]) + ChunksBytes(bodies[1..])
  {
    hide ChunkBytes;
  }

  lemma TokensAre(bodies: seq<bytes>)
    requires bodies != []
    ensures BodyTokens(bodies)
         == if bodies[0] == [] then BodyTokens(bodies[1..])
            else [Open] + Octets(bodies[0]) + [Shut] + BodyTokens(bodies[1..])
  {
    hide Octets;
    assert [] + BodyTokens(bodies[1..]) == BodyTokens(bodies[1..]);
  }

  lemma FitsSplit(bodies: seq<bytes>, limit: nat)
    requires bodies != [] && Fits(bodies, limit)
    ensures Fits(bodies[1..], limit) && |bodies[0]| <= USIZE_MAX && |Hex(|bodies[0]|)| <= limit
  {
    hide Hex;
  }

  /** The last chunk is read silently, and leaves the trailer section. */
  lemma LastChunkRead(x: Externals, c: Conn, tail: bytes)
    requires Coupled(c) && !c.eof && c.Peer() == L.SendBody && c.reader == ReadChunked(Size(0)) && c.progress.None?
    requires c.limits.maxHeadBytes > 0 && c.input == LAST_CHUNK + tail
    ensures var there := c.(reader := ReadChunked(Trailers), input := tail);
      Coupled(there) && PlainDrain(x, c) == PlainDrain(x, there) && Silent(c) == Some(there)
  {
    hide NextInner, Coupled, Silent, PlainDrain, Hex;
    ZeroIsZero();
    assert c.input == Hex(0) + CRLF + tail;
    SizeRead(c, 0, tail);
    SilentDrain(x, c);
  }

  lemma AllEmptyTail(bodies: seq<bytes>)
    requires bodies != []
    ensures AllEmpty(bodies) <==> bodies[0] == [] && AllEmpty(bodies[1..])
  {
    if bodies[0] == [] && AllEmpty(bodies[1..]) {
      forall i | 0 <= i < |bodies|
        ensures bodies[i] == []
      {
        if i > 0 {
          assert bodies[i] == bodies[1..][i - 1];
        }
      }
    }
  }

  lemma ZeroIsZero()
    ensures Hex(0) == "0"
  {
  }

  lemma ChunkTrace(body: bytes, events: seq<Event>)
    ensures Trace([DataEvent(body, true, true)] + events) == [Open] + Octets(body) + [Shut] + Trace(events)
  {
    TraceCons(DataEvent(body, true, true), events);
  }
}
