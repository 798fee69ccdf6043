/**
 The end of the stream: it never completes a body cut short, and a connection
 that knows of it never asks for more.
 */
module EndOfStream {
  import opened Bytes
  import opened Fields
  import opened Scan
  import opened ChunkLine
  import opened ConnectionModel
  import opened LifecycleRuns
  import opened Coupling
  import opened Polling
  import opened Fragmentation
  import opened BodyFragments
  import L = Lifecycle

  /** What a message has to have come to, for its end to be reported. */
  predicate Whole(x: Externals, c: Conn, trailers: seq<Header>, unread: bytes)
    requires Coupled(c)
  {
    match c.reader
    case AwaitHead => false
    case ReadFixed(remaining) => remaining == 0 && trailers == [] && unread == c.input
    case ReadToClose => c.eof && c.input == [] && trailers == [] && unread == []
    case ReadChunked(_) =>
      && Enters(c)
      && var there := There(c);
         var parsed := ParseTrailers(x, there.input, there.limits, there.role == L.Client);
         && parsed.Complete? && parsed.value == trailers && parsed.end <= |there.input| && unread == there.input[parsed.end..]
  }

  lemma TrailersWhole(x: Externals, c: Conn, trailers: seq<Header>)
    requires AtTrailers(c) && NextInner(x, c).outcome == Occurred(EndEvent(trailers))
    ensures var parsed := ParseTrailers(x, c.input, c.limits, c.role == L.Client);
      && parsed.Complete? && parsed.value == trailers && parsed.end <= |c.input|
      && NextInner(x, c).conn.input == c.input[parsed.end..]
  {
    hide NextInner, FinishPeer, ParseTrailers, PollFrom;
    TrailersPoll(x, c);
    ParsedEnds(x, c);
  }

  lemma PlainWhole(x: Externals, c: Conn, trailers: seq<Header>)
    requires Coupled(c) && c.Peer() == L.SendBody && (c.reader.ReadFixed? || c.reader.ReadToClose?)
    requires NextInner(x, c).outcome == Occurred(EndEvent(trailers))
    ensures Whole(x, c, trailers, NextInner(x, c).conn.input)
  {
    hide NextInner, Sound, FinishPeer, PeerData;
    PollReads(x, c);
  }

  /** A message ends only when all of it is there, and what follows it is left
      unread: the declared length, the end of the stream, or the last chunk and
      its trailer section. */
  lemma EndsOnlyWhole(x: Externals, c: Conn, trailers: seq<Header>)
    requires Coupled(c) && c.Peer() == L.SendBody && NextInner(x, c).outcome == Occurred(EndEvent(trailers))
    ensures Whole(x, c, trailers, NextInner(x, c).conn.input)
  {
    Busy(c);
    if !c.reader.ReadChunked? {
      hide NextInner, Coupled, Whole;
      assert c.reader != AwaitHead;
      PlainWhole(x, c, trailers);
      return;
    }
    hide NextInner, Coupled, Silent, Enters, There;
    if Enters(c) {
      EnteringPoll(x, c);
      TrailersWhole(x, There(c), trailers);
    } else {
      ChunksGoOn(x, c);
    }
  }

  /** Short of the trailer section, a chunked body does not end. */
  lemma {:induction false} ChunksGoOn(x: Externals, c: Conn)
    requires Coupled(c) && c.Peer() == L.SendBody && c.reader.ReadChunked? && !Enters(c)
    ensures NextInner(x, c).outcome.Occurred? ==> NextInner(x, c).outcome.event.DataEvent?
    ensures c.eof ==> NextInner(x, c).outcome != NeedData
    decreases |c.input|
  {
    hide NextInner, Coupled, Silent;
    if Silent(c).Some? {
      SilentCoupled(c);
      SilentPoll(x, c);
      SilentStaysChunked(c);
      ChunksGoOn(x, Silent(c).value);
      return;
    }
    if c.reader.chunk.Body? {
      ReadingBody(x, c);
      return;
    }
    if c.reader.chunk.Size? {
      SizeHint(c, c.reader.chunk.scanned);
    }
    StuckGoesOn(x, c);
  }

  lemma SilentStaysChunked(c: Conn)
    requires Silent(c).Some?
    ensures Silent(c).value.reader.ReadChunked? && Silent(c).value.eof == c.eof
  {
    hide FindCrlf, ParseChunkHeader;
  }

  lemma ReadingBody(x: Externals, c: Conn)
    requires c.Peer() == L.SendBody && c.reader.ReadChunked? && c.reader.chunk.Body?
    ensures NextInner(x, c).outcome.Occurred? ==> NextInner(x, c).outcome.event.DataEvent?
    ensures c.eof ==> NextInner(x, c).outcome != NeedData
  {
    hide NextInner, ReadMessage, PeerData;
    PollReads(x, c);
    ReadsChunk(x, c);
  }

  /** Chunk lines and chunk ends that cannot be read. */
  lemma StuckGoesOn(x: Externals, c: Conn)
    requires c.Peer() == L.SendBody && c.reader.ReadChunked? && Silent(c).None?
    requires c.reader.chunk.BodyEnd? ||
      (c.reader.chunk.Size? && FindCrlf(c.input, c.reader.chunk.scanned) == FindCrlf(c.input, 0))
    ensures !NextInner(x, c).outcome.Occurred?
    ensures c.eof ==> NextInner(x, c).outcome != NeedData
  {
    hide NextInner, ReadMessage, FindCrlf, ParseChunkHeader;
    PollReads(x, c);
    ReadsChunk(x, c);
  }

  // ------------------------------------------------------------------
  // Polling at the end of the stream
  // ------------------------------------------------------------------

  lemma HeadAtEof(x: Externals, c: Conn)
    requires c.eof
    ensures ReadHead(x, c).outcome != NeedData
  {
    hide AcceptRequest, AcceptResponse, ParseRequest, ParseResponse, PollFrom;
    ParsedEnds(x, c);
  }

  lemma TrailersAtEof(x: Externals, c: Conn)
    requires c.eof && AtTrailers(c)
    ensures NextInner(x, c).outcome != NeedData
  {
    hide NextInner, FinishPeer, ParseTrailers, PollFrom;
    TrailersPoll(x, c);
    ParsedEnds(x, c);
  }

  lemma PlainAtEof(x: Externals, c: Conn)
    requires c.eof && c.Peer() == L.SendBody && (c.reader.ReadFixed? || c.reader.ReadToClose?)
    ensures NextInner(x, c).outcome != NeedData
  {
    hide NextInner, FinishPeer, PeerData;
    PollReads(x, c);
  }

  lemma InactiveAtEof(x: Externals, c: Conn)
    requires c.eof && (!Active(c) || (c.Peer() == L.Idle && c.input == []))
    ensures NextInner(x, c).outcome != NeedData
  {
    hide ReadMessage, L.Process;
  }

  /** Knowing that nothing more will come, no poll waits. */
  lemma NoWaiting(x: Externals, c: Conn)
    requires Coupled(c) && c.eof
    ensures Next(x, c).outcome != NeedData
  {
    if !Active(c) || (c.Peer() == L.Idle && c.input == []) {
      InactiveAtEof(x, c);
      return;
    }
    Busy(c);
    hide NextInner, Coupled, Enters, There, L.Poison;
    if c.reader == AwaitHead {
      PollReads(x, c);
      ReadsHead(x, c);
      HeadAtEof(x, c);
    } else if !c.reader.ReadChunked? {
      PlainAtEof(x, c);
    } else if Enters(c) {
      EnteringPoll(x, c);
      TrailersAtEof(x, There(c));
    } else {
      ChunksGoOn(x, c);
    }
  }

  /** So at the end of the stream a drain settles the connection: it is closed, it
      failed, or it is paused for the caller to move on. */
  lemma {:induction false} EofSettles(x: Externals, c: Conn)
    requires Coupled(c) && c.eof
    ensures var d := Drain(x, c); d.outcome == Occurred(ClosedEvent) || d.outcome.Failed? || d.outcome.Paused?
    decreases Potential(c)
  {
    hide Coupled, Next, Potential, Drain;
    NoWaiting(x, c);
    DrainStep(x, c);
    var r := Next(x, c);
    if Reports(r.outcome) {
      EofSettles(x, r.conn);
    }
  }
}
