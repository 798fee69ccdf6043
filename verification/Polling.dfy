/**
 Polling a connection: what is conserved, why it stops, and what the caller
 sees when it polls until there is nothing more to report.
 */
module Polling {
  import opened Prelude
  import opened Bytes
  import opened Fields
  import opened Heads
  import opened Scan
  import opened ChunkLine
  import opened ConnectionModel
  import opened LifecycleRuns
  import opened Coupling
  import L = Lifecycle

  // ------------------------------------------------------------------
  // Progress
  // ------------------------------------------------------------------

  /** The peer may still start or finish a message in this cycle. */
  predicate Active(c: Conn) {
    c.Peer() == L.Idle || c.Peer() == L.SendResponse || c.Peer() == L.SendBody
  }

  /** What bounds the events still to come. */
  function Potential(c: Conn): nat {
    |c.input| + if Active(c) then 1 else 0
  }

  /** An event that reports something new; the end of the connection is reported for ever. */
  predicate Reports(outcome: Outcome) {
    outcome.Occurred? && !outcome.event.ClosedEvent?
  }

  /** With an event, input is consumed or the message has ended; the end of
      the connection is only reported once all input is. */
  predicate Advances(c: Conn, r: Step) {
    && (Reports(r.outcome) ==> Active(c) && (|r.conn.input| < |c.input| || !Active(r.conn)))
    && (r.outcome == Occurred(ClosedEvent) ==> c.Peer() != L.SendBody && c.eof && c.input == [] && r.conn.input == [])
  }

  lemma ReadHeadAdvances(x: Externals, c: Conn)
    requires Active(c)
    ensures Advances(c, ReadHead(x, c))
  {
    hide WaitForSection, AcceptRequest, AcceptResponse, ParseRequest, ParseResponse, SectionReady, Active;
    ScannedFields(c, true);
    ParsedEnds(x, c);
  }

  lemma FinishAdvances(c: Conn, d: Conn, trailers: seq<Header>)
    requires Coupled(c) && c.Peer() == L.SendBody && |c.input| <= |d.input| && Active(d)
    ensures Advances(d, FinishPeer(c, trailers))
  {
    hide L.Process, Sound;
    FinishPeerCoupled(c, trailers);
    PeerMoves(c, L.EndOfMessage);
    OwnActor(c.state, c.role.Peer(), L.EndOfMessage);
  }

  lemma ReadTrailersAdvances(x: Externals, c: Conn)
    requires Coupled(c) && c.Peer() == L.SendBody && c.reader == ReadChunked(Trailers)
    ensures Advances(c, ReadTrailers(x, c))
  {
    hide WaitForSection, FinishPeer, ParseTrailers, SectionReady, Coupled;
    ScannedFields(c, false);
    ParsedEnds(x, c);
    WaitForSectionCoupled(c, false);
    var scanned := SectionReady(c, false).0;
    var parsed := ParseTrailers(x, c.input, c.limits, c.role == L.Client);
    if parsed.Complete? {
      ReadingOn(scanned, scanned.reader, scanned.input[parsed.end..]);
      FinishAdvances(Consume(scanned, parsed.end).(progress := None), c, parsed.value);
    }
  }

  lemma {:induction false} ReadSizeAdvances(x: Externals, c: Conn, scanned: nat)
    requires Coupled(c) && c.Peer() == L.SendBody && c.reader == ReadChunked(Size(scanned))
    ensures Advances(c, ReadSize(x, c, scanned))
    decreases |c.input|, 0
  {
    hide NextInner, FindCrlf, ParseChunkHeader, Coupled;
    var end := FindCrlf(c.input, scanned);
    if end.Some? && end.value - 2 <= c.limits.maxHeadBytes && ParseChunkHeader(c.input[..end.value - 2]).Some? {
      var size := ParseChunkHeader(c.input[..end.value - 2]).value;
      NextChunkCoupled(c.input[end.value..], size);
      var reader := ReadChunked(if size == 0 then Trailers else Body(size, true));
      ReadingOn(c, reader, c.input[end.value..]);
      NextInnerAdvances(x, if size == 0 then Consume(c, end.value).(reader := reader, progress := None)
                           else Consume(c, end.value).(reader := reader));
    }
  }

  lemma {:induction false} ReadBodyEndAdvances(x: Externals, c: Conn)
    requires Coupled(c) && c.Peer() == L.SendBody && c.reader == ReadChunked(BodyEnd)
    ensures Advances(c, ReadBodyEnd(x, c))
    decreases |c.input|, 0
  {
    hide NextInner, Coupled;
    if |c.input| >= 2 && c.input[..2] == CRLF {
      HintStartsSound(c.input[2..]);
      ReadingOn(c, ReadChunked(Size(0)), c.input[2..]);
      NextInnerAdvances(x, Consume(c, 2).(reader := ReadChunked(Size(0))));
    }
  }

  lemma {:induction false} ReadMessageAdvances(x: Externals, c: Conn)
    requires Coupled(c) && Active(c)
    ensures Advances(c, ReadMessage(x, c))
    decreases |c.input|, 1
  {
    Busy(c);
    hide Coupled, ReadHead, PeerData, FinishPeer, ReadSize, ReadBodyEnd, ReadTrailers;
    match c.reader {
      case AwaitHead => ReadHeadAdvances(x, c);
      case ReadFixed(remaining) =>
        if remaining == 0 {
          FinishAdvances(c, c, []);
        }
      case ReadToClose =>
        if c.input == [] && c.eof {
          FinishAdvances(c, c, []);
        }
      case ReadChunked(chunk) =>
        match chunk {
          case Size(scanned) => ReadSizeAdvances(x, c, scanned);
          case Body(remaining, first) =>
          case BodyEnd => ReadBodyEndAdvances(x, c);
          case Trailers => ReadTrailersAdvances(x, c);
        }
    }
  }

  lemma {:induction false} NextInnerAdvances(x: Externals, c: Conn)
    requires Coupled(c)
    ensures Advances(c, NextInner(x, c))
    decreases |c.input|, 2
  {
    hide Sound, ReadMessage;
    if Active(c) && !(c.Peer() == L.Idle && c.eof && c.input == []) {
      ReadMessageAdvances(x, c);
    }
  }

  lemma InactiveStays(x: Externals, c: Conn)
    requires Coupled(c) && !Active(c)
    ensures !Active(Next(x, c).conn)
  {
    hide Sound, L.Process;
    if (c.Peer() == L.Done || c.Peer() == L.MustClose) && c.input == [] && c.eof {
      PeerClosedCoupled(c);
      PeerMoves(c, L.ConnectionClosed);
      OwnActor(c.state, c.role.Peer(), L.ConnectionClosed);
    }
  }

  /** Every reported event pays for itself. */
  lemma NextAdvances(x: Externals, c: Conn)
    requires Coupled(c)
    ensures Coupled(Next(x, c).conn)
    ensures Potential(Next(x, c).conn) <= Potential(c)
    ensures Reports(Next(x, c).outcome) ==> Potential(Next(x, c).conn) < Potential(c)
  {
    NextCoupled(x, c);
    NextReadsOn(x, c);
    if Active(c) {
      hide NextInner, Coupled;
      NextInnerAdvances(x, c);
    } else {
      InactiveStays(x, c);
      hide NextInner, Coupled;
      NextInnerAdvances(x, c);
    }
  }

  // ------------------------------------------------------------------
  // Polling to the end
  // ------------------------------------------------------------------

  datatype Drained = Drained(conn: Conn, events: seq<Event>, outcome: Outcome)

  /** Polls until the connection has nothing new to report; there are at most
      as many events as unread bytes, and one more. */
  function Drain(x: Externals, c: Conn): (d: Drained)
    requires Coupled(c)
    ensures Coupled(d.conn) && !Reports(d.outcome) && d.conn.eof == c.eof
    ensures |d.events| + Potential(d.conn) <= Potential(c)
    decreases Potential(c)
  {
    hide Coupled, Next, Potential;
    NextAdvances(x, c);
    NextReadsOn(x, c);
    var r := Next(x, c);
    if Reports(r.outcome) then
      var rest := Drain(x, r.conn);
      rest.(events := [r.outcome.event] + rest.events)
    else Drained(r.conn, [], r.outcome)
  }

  lemma DrainIsBounded(x: Externals, c: Conn)
    requires Coupled(c)
    ensures |Drain(x, c).events| <= |c.input| + 1
  {
  }

  // ------------------------------------------------------------------
  // Conservation
  // ------------------------------------------------------------------

  /** The bytes a sequence of calls has handed to the connection. */
  function Received(x: Externals, c: Conn, calls: seq<Call>): bytes
    decreases |calls|
  {
    if calls == [] then []
    else
      (if calls[0].CallReceive? && Receive(c, calls[0].data).Some? then calls[0].data else [])
      + Received(x, After(x, c, calls[0]), calls[1..])
  }

  predicate IsSuffix(s: bytes, t: bytes) {
    |s| <= |t| && s == t[|t| - |s|..]
  }

  lemma SuffixExtends(s: bytes, t: bytes, more: bytes)
    requires IsSuffix(s, t)
    ensures IsSuffix(s + more, t + more)
  {
  }

  lemma SuffixTransitive(s: bytes, t: bytes, u: bytes)
    requires IsSuffix(s, t) && IsSuffix(t, u)
    ensures IsSuffix(s, u)
  {
  }

  /** No call but `receive_data` adds input, and none changes the unread bytes
      other than by reading them from the front. */
  lemma AfterInput(x: Externals, c: Conn, call: Call)
    ensures if call.CallReceive? && Receive(c, call.data).Some? then After(x, c, call).input == c.input + call.data
            else IsSuffix(After(x, c, call).input, c.input)
  {
    if call.CallNext? {
      hide Next;
      NextReadsOn(x, c);
    } else {
      hide Next, L.Process, L.DisableKeepAlive, WritePlan, PlanResponse, ValidHeaders, ValidReason, FramingFields,
           ValidUpgrade, ValidTrailers, RequestBytes, ResponseBytes, TrailerBytes, Persistent, ExpectsContinue;
    }
  }

  /** Whatever the calls: what was received is what was consumed followed by
      what `trailing_data` still shows. */
  lemma {:induction false} Conservation(x: Externals, c: Conn, calls: seq<Call>)
    ensures IsSuffix(RunCalls(x, c, calls).input, c.input + Received(x, c, calls))
    decreases |calls|
  {
    hide After, Receive, IsSuffix;
    if calls == [] {
      assert c.input + [] == c.input;
      SuffixReflexive(c.input);
    } else {
      var d := After(x, c, calls[0]);
      var rest := Received(x, d, calls[1..]);
      Conservation(x, d, calls[1..]);
      AfterInput(x, c, calls[0]);
      if calls[0].CallReceive? && Receive(c, calls[0].data).Some? {
        assert c.input + (calls[0].data + rest) == d.input + rest;
      } else {
        SuffixExtends(d.input, c.input, rest);
        SuffixTransitive(RunCalls(x, d, calls[1..]).input, d.input + rest, c.input + rest);
        assert [] + rest == rest;
      }
    }
  }

  lemma SuffixReflexive(s: bytes)
    ensures IsSuffix(s, s)
  {
  }

  /** Between messages and after a switch nothing is consumed: the unread bytes
      are exactly those that follow the message. */
  lemma PausedKeepsInput(x: Externals, c: Conn)
    requires Coupled(c) && !Active(c)
    ensures Next(x, c).conn.input == c.input
    ensures c.input != [] && c.Peer() != L.Error ==> Next(x, c) == Step(c, Paused)
  {
  }

  /** The end of the connection is reported only at end of input, with every
      byte consumed. */
  lemma CleanClose(x: Externals, c: Conn)
    requires Coupled(c) && Next(x, c).outcome == Occurred(ClosedEvent)
    ensures c.eof && c.input == [] && Next(x, c).conn.input == []
  {
    hide NextInner, Coupled;
    NextInnerAdvances(x, c);
  }
}
