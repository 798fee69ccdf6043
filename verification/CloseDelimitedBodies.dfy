/**
 Bodies that end with the connection: what the server writes until it closes is
 what the client has reported when it sees the end of the stream.
 */
module CloseDelimitedBodies {
  import opened Prelude
  import opened Bytes
  import opened Fields
  import opened Heads
  import opened ConnectionModel
  import opened LifecycleRuns
  import opened Coupling
  import opened Polling
  import opened Fragmentation
  import opened FragmentedRuns
  import opened ChunkedBodies
  import opened BodyFragments
  import opened Agreement
  import opened RoundTrip
  import L = Lifecycle

  // ------------------------------------------------------------------
  // Writing
  // ------------------------------------------------------------------

  lemma DataSentPlainly(c: Conn, data: bytes)
    requires Sound(c.state) && c.writer == Some(CloseDelimited) && SendData(c, data).Sent?
    ensures var s := SendData(c, data);
      s.out == data && s.conn.writer == c.writer && s.conn.state == c.state && s.conn.role == c.role
  {
    hide Sound, L.Process;
    OwnActor(c.state, c.role, L.Data);
    assert [] + data + [] == data;
  }

  lemma {:induction false} BodiesSentPlainly(c: Conn, bodies: seq<bytes>)
    requires Sound(c.state) && c.writer == Some(CloseDelimited) && SendBodies(c, bodies).Sent?
    ensures var s := SendBodies(c, bodies);
      s.out == Concat(bodies) && s.conn.writer == c.writer && s.conn.state == c.state && s.conn.role == c.role
    decreases |bodies|
  {
    hide Sound, SendData;
    if bodies != [] {
      DataSentPlainly(c, bodies[0]);
      BodiesSentPlainly(SendData(c, bodies[0]).conn, bodies[1..]);
    }
  }

  lemma ContentSentPlainly(c: Conn, bodies: seq<bytes>, trailers: seq<Header>)
    requires Sound(c.state) && c.writer == Some(CloseDelimited) && SendContent(c, bodies, trailers).Sent?
    ensures var s := SendContent(c, bodies, trailers);
      && s.out == Concat(bodies) && trailers == []
      && L.Process(c.state, c.role, L.EndOfMessage) == Some(s.conn.state)
    ensures c.Local() == L.SendBody
  {
    hide Sound, L.Process, ValidTrailers, SendBodies, Concat;
    BodiesSentPlainly(c, bodies);
    assert Concat(bodies) + [] == Concat(bodies);
    EndsFromBody(c.state, c.role);
  }

  // ------------------------------------------------------------------
  // Reading
  // ------------------------------------------------------------------

  /** A connection in such a body, all of it read so far. */
  predicate ReadingToClose(c: Conn) {
    Coupled(c) && !c.eof && c.Peer() == L.SendBody && c.reader == ReadToClose
  }

  lemma NothingYet(x: Externals, c: Conn)
    requires ReadingToClose(c) && c.input == []
    ensures PlainDrain(x, c) == Drained(c, [], NeedData)
  {
    assert Forget(c) == c by {
      hide Sound;
    }
    assert PlainNext(x, c) == Step(c, NeedData) by {
      hide NextInner, Coupled;
      PollReads(x, c);
    }
    hide PlainNext, Coupled, PlainDrain;
    DrainStops(x, c);
  }

  lemma AllTaken(x: Externals, c: Conn)
    requires ReadingToClose(c) && c.input != []
    ensures PlainNext(x, c) == Step(c.(input := [], waiting := false), Occurred(DataEvent(c.input, false, false)))
  {
    assert Forget(c) == c by {
      hide Sound;
    }
    hide NextInner, Coupled;
    TakenPoll(x, c);
    assert c.input[..|c.input|] == c.input && c.input[|c.input|..] == [];
  }

  /** What has come of the body is reported, and more is awaited. */
  lemma ToCloseRead(x: Externals, c: Conn)
    requires ReadingToClose(c)
    ensures Orderly(x, c)
    ensures var a := PlainDrain(x, c);
      && Trace(a.events) == Octets(c.input) && a.outcome == NeedData
      && a.conn == c.(input := [], waiting := c.waiting && c.input == [])
  {
    assert Forget(c) == c by {
      hide Sound;
    }
    hide Coupled, PlainNext, PlainDrain, Orderly, Potential, Trace, Octets;
    PlainBodiesAreOrderly(x, c);
    if c.input == [] {
      NothingYet(x, c);
      NoContentAtAll();
      return;
    }
    var d := c.(input := [], waiting := false);
    AllTaken(x, c);
    DrainGoesOn(x, c);
    NothingYet(x, d);
    TraceCons(DataEvent(c.input, false, false), []);
    DataTokens(c.input);
    NoContentAtAll();
    assert Octets(c.input) + [] == Octets(c.input);
  }

  lemma EndAtEof(x: Externals, c: Conn)
    requires ReadingToClose(c) && c.input == []
    ensures L.Process(c.state, c.role.Peer(), L.EndOfMessage).Some?
    ensures Next(x, c.(eof := true)) == Step(AtEnd(c, []).(eof := true), Occurred(EndEvent([])))
  {
    hide NextInner, Coupled, L.Process;
    PollReads(x, c.(eof := true));
    MessageEnds(c);
  }

  lemma ClosedAtEof(x: Externals, c: Conn)
    requires c.eof && c.input == [] && (c.Peer() == L.Done || c.Peer() == L.MustClose)
    ensures L.Process(c.state, c.role.Peer(), L.ConnectionClosed).Some?
    ensures var next := L.Process(c.state, c.role.Peer(), L.ConnectionClosed).value;
      Next(x, c) == Step(c.(state := next), Occurred(ClosedEvent))
  {
    CloseAccepted(c);
    hide ReadMessage, L.Process;
  }

  /** The end of the stream ends the body, then the connection. */
  lemma EofRead(x: Externals, c: Conn)
    requires ReadingToClose(c) && c.input == [] && c.role == L.Client
    ensures L.Process(c.state, L.Server, L.EndOfMessage).Some?
    ensures var ended := L.Process(c.state, L.Server, L.EndOfMessage).value;
      var closed := L.Process(ended, L.Server, L.ConnectionClosed);
      && Coupled(c.(eof := true)) && closed.Some?
      && Drain(x, c.(eof := true))
         == Drained(AtEnd(c, []).(eof := true, state := closed.value), [EndEvent([])], Occurred(ClosedEvent))
  {
    EndAtEof(x, c);
    ServerEnds(c.state);
    assert Coupled(c.(eof := true)) by {
      hide Sound;
    }
    hide Coupled, Next, L.Process, Drain, Potential;
    var d := AtEnd(c, []).(eof := true);
    DrainStep(x, c.(eof := true));
    ClosedAtEof(x, d);
    DrainStep(x, d);
  }

  lemma ServerEnds(j: L.Joint)
    requires Sound(j) && L.Process(j, L.Server, L.EndOfMessage).Some?
    ensures var k := L.Process(j, L.Server, L.EndOfMessage).value; k.server == L.Done || k.server == L.MustClose
  {
    OwnActor(j, L.Server, L.EndOfMessage);
  }

  // ------------------------------------------------------------------
  // End to end
  // ------------------------------------------------------------------

  lemma ResponseReadToClose(x: Externals, c: Conn, d: Conn, r: Response, content: bytes)
    requires Coupled(c) && SendResponse(c, r).Sent? && SendResponse(c, r).conn.writer == Some(CloseDelimited)
    requires SendResponse(c, r).conn.Local() == L.SendBody
    requires AwaitsHead(d) && d.role == L.Client && c.requestKind == d.requestKind
    requires Act(d.state, ResponseMove(c.requestKind, EmittedHead(c, r))).Some?
    requires |ResponseBytes(EmittedHead(c, r))| <= d.limits.maxHeadBytes
    requires ReadsResponse(x, d, EmittedHead(c, r), content) && d.input == ResponseBytes(EmittedHead(c, r)) + content
    ensures Orderly(x, d)
    ensures var a := PlainDrain(x, d);
      && Trace(a.events) == [Mark(ResponseEvent(EmittedHead(c, r)))] + Octets(content) && a.outcome == NeedData
      && ReadingToClose(a.conn) && a.conn.input == [] && a.conn.role == L.Client
      && (c.state == d.state ==> a.conn.state == SendResponse(c, r).conn.state)
  {
    hide Coupled, SendResponse, AcceptResponse, PlanResponse, EmittedHead, ResponseMove, Act, ResponseBytes, ReadsResponse,
         OrderlyPoll, Orderly, PlainNext, PlainDrain, Trace, Octets, AtContent;
    ResponseWritten(c, r);
    ResponseStarts(x, c, d, r, CloseDelimited, content);
    var g := AcceptResponse(d.(input := content), EmittedHead(c, r)).conn;
    ContentOpen(g, CloseDelimited);
    ToCloseRead(x, g);
    StillCoupled(g);
    OrderlyIs(x, d);
    DrainGoesOn(x, d);
    TraceCons(ResponseEvent(EmittedHead(c, r)), PlainDrain(x, g).events);
  }

  lemma StillCoupled(c: Conn)
    requires ReadingToClose(c)
    ensures forall w :: Coupled(c.(input := [], waiting := w))
  {
    hide Sound;
  }

  /**
   A response that ends with the connection.  The client has reported the head
   and every byte of the body when the stream ends, whatever the fragments; the
   end of the stream then ends the body and closes the connection, and a server
   that closes after its message is in the client's state.
   */
  lemma CloseDelimitedRoundTrip(x: Externals, c: Conn, d: Conn, r: Response, bodies: seq<bytes>, trailers: seq<Header>,
                                fragments: seq<bytes>)
    requires Coupled(c) && SendResponse(c, r).Sent? && SendResponse(c, r).conn.writer == Some(CloseDelimited)
    requires SendContent(SendResponse(c, r).conn, bodies, trailers).Sent?
    requires AwaitsHead(d) && d.role == L.Client && d.input == [] && c.requestKind == d.requestKind
    requires Act(d.state, ResponseMove(c.requestKind, EmittedHead(c, r))).Some?
    requires |ResponseBytes(EmittedHead(c, r))| <= d.limits.maxHeadBytes
    requires var content := SendContent(SendResponse(c, r).conn, bodies, trailers).out;
      && ReadsResponse(x, d, EmittedHead(c, r), content)
      && Fragments(fragments) && Concat(fragments) == SendResponse(c, r).out + content
    ensures var a := FeedAll(x, d, fragments);
      && Trace(a.events) == [Mark(ResponseEvent(EmittedHead(c, r)))] + Octets(Concat(bodies)) && a.outcome == NeedData
      && Receive(a.conn, []) == Some(a.conn.(eof := true)) && Coupled(a.conn.(eof := true))
    ensures var b := Drain(x, FeedAll(x, d, fragments).conn.(eof := true));
      && b.events == [EndEvent([])] && b.outcome == Occurred(ClosedEvent) && b.conn.input == []
      && var closing := Close(SendContent(SendResponse(c, r).conn, bodies, trailers).conn);
         (c.state == d.state ==> closing.Sent? && closing.conn.state == b.conn.state)
  {
    hide Coupled, SendResponse, SendContent, PlanResponse, EmittedHead, ResponseMove, Act, ResponseBytes, ReadsResponse,
         Orderly, PlainDrain, FeedAll, Fragments, Concat, Trace, L.Process, Drain;
    ResponseWritten(c, r);
    SendResponseCoupled(c, r);
    var head := SendResponse(c, r).conn;
    CoupledIsSound(head);
    ContentSentPlainly(head, bodies, trailers);
    ContentKeeps(head, bodies, trailers);
    var content := Concat(bodies);
    var whole := Feed(d, Concat(fragments));
    assert whole.input == ResponseBytes(EmittedHead(c, r)) + content;
    WholeAwaits(d, Concat(fragments));
    SameReadsResponse(x, d, whole, EmittedHead(c, r), content);
    ResponseReadToClose(x, c, whole, r, content);
    Delivered(x, d, fragments);
    var a := FeedAll(x, d, fragments);
    SameReading(a.conn, PlainDrain(x, whole).conn);
    EofRead(x, a.conn);
  }

  /** Such a connection keeps no hints. */
  lemma SameReading(a: Conn, p: Conn)
    requires Coupled(a) && Forget(a) == p && ReadingToClose(p)
    ensures a == p
  {
    hide Sound;
  }
}
