/**
 What ties the readers, the writer and the buffer of a connection to its
 lifecycle, in every state any sequence of calls can reach.
 */
module Coupling {
  import opened Prelude
  import opened Bytes
  import opened Fields
  import opened Heads
  import opened Scan
  import opened ChunkLine
  import opened ConnectionModel
  import opened LifecycleRuns
  import L = Lifecycle

  // ------------------------------------------------------------------
  // What an event does to either actor
  // ------------------------------------------------------------------

  /** An actor that is busy, gone or poisoned stays so. */
  predicate Undisturbed(before: L.State, after: L.State) {
    && (after == L.SendBody <==> before == L.SendBody)
    && (after == L.Error <==> before == L.Error)
    && (after == L.Closed <==> before == L.Closed)
    && (after == L.SwitchedProtocol <== before == L.SwitchedProtocol)
    && (after == L.SwitchedProtocol && before != after ==> before == L.MightSwitchProtocol)
  }

  lemma OtherActor(j: L.Joint, role: L.Role, event: L.StateEvent)
    requires Sound(j) && L.Process(j, role, event).Some?
    ensures Undisturbed(j.At(role.Peer()), L.Process(j, role, event).value.At(role.Peer()))
    ensures Sound(L.Process(j, role, event).value)
  {
    EventKeepsSound(j, role, event);
  }

  /** The state an event leaves its own actor in. */
  lemma OwnActor(j: L.Joint, role: L.Role, event: L.StateEvent)
    requires Sound(j) && L.Process(j, role, event).Some?
    ensures var before, after := j.At(role), L.Process(j, role, event).value.At(role);
      match event
      case Request(_) => after == L.SendBody && role == L.Client && before == L.Idle
      case Response => after == L.SendBody && role == L.Server
      case InformationalResponse => after == L.SendResponse == before && role == L.Server
      case Data => after == before == L.SendBody && L.Process(j, role, event).value == j
      case EndOfMessage =>
        && before == L.SendBody
        && (|| after == L.Done || after == L.MustClose
            || (role == L.Client && (after == L.MightSwitchProtocol || after == L.SwitchedProtocol)))
      case ProtocolSwitch(_) => after == L.SwitchedProtocol && before == L.SendResponse && role == L.Server
      case ConnectionClosed =>
        after == L.Closed && (before == L.Idle || before == L.Done || before == L.MustClose || before == L.Closed)
  {
  }

  lemma DisableUndisturbed(j: L.Joint, role: L.Role)
    requires Sound(j)
    ensures Undisturbed(j.At(role), L.DisableKeepAlive(j).At(role)) && Sound(L.DisableKeepAlive(j))
  {
    DisableKeepsSound(j);
  }

  lemma PoisonUndisturbed(j: L.Joint, role: L.Role)
    requires Sound(j)
    ensures Undisturbed(j.At(role.Peer()), L.Poison(j, role).At(role.Peer()))
    ensures L.Poison(j, role).At(role) == L.Error && Sound(L.Poison(j, role))
  {
    PoisonKeepsSound(j, role);
  }

  // ------------------------------------------------------------------
  // The invariant
  // ------------------------------------------------------------------

  /** The local half: an active writer belongs to a message being sent, or to
      a successful CONNECT response, whose empty body is never written. */
  predicate LocalCoupled(c: Conn) {
    && c.Local() != L.Error
    && (c.Local() == L.SendBody ==> c.writer.Some?)
    && (c.writer.Some? && c.Local() != L.SendBody ==>
          c.role == L.Server && c.Local() == L.SwitchedProtocol && c.writer == Some(Fixed(0)))
  }

  /** The peer half: an active reader belongs to a message being received, or
      to such a response, or to a peer that has failed. */
  predicate PeerCoupled(c: Conn) {
    && (c.Peer() == L.SendBody ==> c.reader != AwaitHead)
    && (c.reader != AwaitHead && c.Peer() != L.SendBody ==>
          c.Peer() == L.Error || (c.role == L.Client && c.Peer() == L.SwitchedProtocol && c.reader == ReadFixed(0)))
    && (c.Peer() == L.Closed ==> c.eof && c.input == [])
    && (c.Peer() == L.SendBody && c.reader.ReadChunked? ==> ChunkCoupled(c.reader.chunk, c.input))
    // Only heads and trailer sections are searched for.
    && (c.Peer() == L.SendBody && c.reader != ReadChunked(Trailers) ==> c.progress.None?)
  }

  /** A chunk in progress is not empty, and a search hint has skipped no CRLF. */
  predicate ChunkCoupled(chunk: Chunk, input: bytes) {
    match chunk
    case Size(scanned) => (scanned == 0 || scanned < |input|) && HintSound(input, scanned)
    case Body(remaining, _) => remaining > 0
    case _ => true
  }

  predicate Coupled(c: Conn) {
    Sound(c.state) && LocalCoupled(c) && PeerCoupled(c)
  }

  lemma CoupledIsSound(c: Conn)
    requires Coupled(c)
    ensures Sound(c.state)
  {
  }

  /** While a body is being read, the lifecycle cannot refuse its events. */
  lemma BodyEventsAccepted(c: Conn)
    requires Coupled(c) && c.Peer() == L.SendBody
    ensures AdvancePeer(c, L.Data) == Some(c)
    ensures AdvancePeer(c, L.EndOfMessage).Some?
  {
    OwnActor(c.state, c.role.Peer(), L.Data);
  }

  lemma CloseAccepted(c: Conn)
    requires c.Peer() == L.Idle || c.Peer() == L.Done || c.Peer() == L.MustClose
    ensures AdvancePeer(c, L.ConnectionClosed).Some?
  {
  }

  // ------------------------------------------------------------------
  // Receiving keeps it
  // ------------------------------------------------------------------

  /** After a poll that failed the peer is about to be poisoned, and only the
      local half of the invariant is owed. */
  predicate StepCoupled(r: Step) {
    Sound(r.conn.state) && LocalCoupled(r.conn) && (!r.outcome.Failed? ==> PeerCoupled(r.conn))
  }

  lemma PeerMoves(c: Conn, event: L.StateEvent)
    requires Coupled(c) && AdvancePeer(c, event).Some?
    ensures var d := AdvancePeer(c, event).value;
      && d == c.(state := d.state) && Sound(d.state) && LocalCoupled(d)
      && L.Process(c.state, c.role.Peer(), event) == Some(d.state)
  {
    OtherActor(c.state, c.role.Peer(), event);
  }

  lemma PersistenceKeeps(c: Conn, version: Version, headers: seq<Header>)
    requires Sound(c.state) && LocalCoupled(c)
    ensures var d := ApplyPersistence(c, version, headers);
      && d == c.(state := d.state) && Sound(d.state) && LocalCoupled(d) && Undisturbed(c.Peer(), d.Peer())
  {
    hide L.DisableKeepAlive, Sound, Persistent;
    DisableUndisturbed(c.state, c.role);
    DisableUndisturbed(c.state, c.role.Peer());
  }

  lemma ReaderForCoupled(framing: Framing, input: bytes)
    ensures ReaderFor(framing) != AwaitHead
    ensures ReaderFor(framing).ReadChunked? ==> ChunkCoupled(ReaderFor(framing).chunk, input)
  {
  }

  lemma AcceptRequestCoupled(x: Externals, c: Conn, r: Request)
    requires Coupled(c) && c.progress.None?
    ensures StepCoupled(AcceptRequest(x, c, r))
  {
    hide Sound, ReadPlan, AdvancePeer, ExpectsContinue, KindOf, ReaderFor, ChunkCoupled, L.Process;
    var plan := ReadPlan(x, r);
    if plan.RequestPlan? && AdvancePeer(c, RequestProposals(r, plan)).Some? {
      var d := AdvancePeer(c, RequestProposals(r, plan)).value;
      PeerMoves(c, RequestProposals(r, plan));
      OwnActor(c.state, c.role.Peer(), RequestProposals(r, plan));
      PersistenceKeeps(d, r.version, r.headers);
      ReaderForCoupled(plan.framing, c.input);
    }
  }

  lemma AcceptInformationalCoupled(c: Conn, r: Response)
    requires Coupled(c) && c.reader == AwaitHead && IsInformational(r.status)
    ensures StepCoupled(AcceptInformational(c, r))
  {
    hide Sound, ValidUpgrade, AdvancePeer, L.Process;
    var event := if r.status == 101 then L.ProtocolSwitch(L.Upgrade) else L.InformationalResponse;
    if AdvancePeer(c, event).Some? {
      PeerMoves(c, event);
      OwnActor(c.state, c.role.Peer(), event);
    }
  }

  lemma AcceptFinalCoupled(c: Conn, r: Response)
    requires Coupled(c) && c.role == L.Client && !IsInformational(r.status) && c.progress.None?
    ensures StepCoupled(AcceptFinal(c, r))
  {
    hide Sound, AdvancePeer, ApplyPersistence, ResponseFraming, ChunkCoupled, L.Process, L.DisableKeepAlive;
    var event := FinalEvent(c.requestKind, r.status);
    if AdvancePeer(c, event).Some? {
      var d := AdvancePeer(c, event).value;
      PeerMoves(c, event);
      OwnActor(c.state, L.Server, event);
      PersistenceKeeps(d, r.version, r.headers);
      var e := ApplyPersistence(d, r.version, r.headers);
      DisableUndisturbed(e.state, L.Client);
      DisableUndisturbed(e.state, L.Server);
      var selected := if NoContent(c.requestKind, r.status) then Framed(Fixed(0)) else ResponseFraming(r.headers, r.version);
      if selected.Framed? {
        ReaderForCoupled(selected.framing, c.input);
      }
    }
  }

  /** A section is being awaited, so that a search for its end may be saved. */
  predicate Awaiting(c: Conn) {
    c.Peer() != L.SendBody || c.reader == ReadChunked(Trailers)
  }

  lemma WaitForSectionCoupled(c: Conn, skip: bool)
    requires Coupled(c) && Awaiting(c)
    ensures StepCoupled(WaitForSection(c, skip))
    ensures Coupled(SectionReady(c, skip).0)
  {
    hide Sound, PollFrom;
  }

  lemma ReadHeadCoupled(x: Externals, c: Conn)
    requires Coupled(c) && c.reader == AwaitHead && c.Peer() != L.Closed && c.Peer() != L.SendBody
    ensures StepCoupled(ReadHead(x, c))
  {
    hide Coupled, StepCoupled, SectionReady, WaitForSection, AcceptRequest, AcceptResponse, ParseRequest, ParseResponse;
    var scanned := SectionReady(c, true).0;
    ScannedFields(c, true);
    WaitForSectionCoupled(c, true);
    WaitForSectionCoupled(scanned, true);
    if c.role == L.Server {
      var parsed := ParseRequest(x, c.input, c.limits);
      if parsed.Complete? {
        ParsedEnds(x, c);
        ConsumeCoupled(scanned, parsed.end);
        AcceptRequestCoupled(x, Consume(scanned, parsed.end).(progress := None), parsed.value);
      } else if parsed.Invalid? {
        FailureCoupled(scanned, parsed.status);
      }
    } else {
      var parsed := ParseResponse(x, c.input, c.limits);
      if parsed.Complete? {
        ParsedEnds(x, c);
        ConsumeCoupled(scanned, parsed.end);
        AcceptResponseCoupled(Consume(scanned, parsed.end).(progress := None), parsed.value);
      } else if parsed.Invalid? {
        FailureCoupled(scanned, parsed.status);
      }
    }
  }

  lemma FailureCoupled(c: Conn, status: Option<nat>)
    requires Coupled(c)
    ensures StepCoupled(Step(c, Failed(status)))
  {
  }

  lemma ConsumeCoupled(c: Conn, count: nat)
    requires Coupled(c) && count <= |c.input| && c.Peer() != L.Closed && c.Peer() != L.SendBody
    ensures Coupled(Consume(c, count).(progress := None))
  {
  }

  lemma AcceptResponseCoupled(c: Conn, r: Response)
    requires Coupled(c) && c.reader == AwaitHead && c.role == L.Client && c.progress.None?
    ensures StepCoupled(AcceptResponse(c, r))
  {
    hide AcceptInformational, AcceptFinal, Coupled, StepCoupled;
    if IsInformational(r.status) {
      AcceptInformationalCoupled(c, r);
    } else {
      AcceptFinalCoupled(c, r);
    }
  }

  // ------------------------------------------------------------------
  // What a poll leaves alone
  // ------------------------------------------------------------------

  /** Polling reads on from where it was: the unread input is a suffix of what
      it was, and what the local side and the transport decided stays. */
  predicate ReadsOn(c: Conn, d: Conn) {
    && d.role == c.role && d.limits == c.limits && d.eof == c.eof && d.writer == c.writer
    && |d.input| <= |c.input| && d.input == c.input[|c.input| - |d.input|..]
  }

  lemma ReadsOnTransitive(c: Conn, d: Conn, e: Conn)
    requires ReadsOn(c, d) && ReadsOn(d, e)
    ensures ReadsOn(c, e)
  {
  }

  lemma Consumed(c: Conn, count: nat, d: Conn)
    requires count <= |c.input| && SameWire(Consume(c, count), d)
    ensures ReadsOn(c, d)
  {
  }

  /** A search, a wait and a parsed section, as far as the input goes. */
  lemma SectionReadsOn(c: Conn, skip: bool)
    ensures ReadsOn(c, SectionReady(c, skip).0) && ReadsOn(c, WaitForSection(SectionReady(c, skip).0, skip).conn)
  {
    ScannedFields(c, skip);
    hide SectionReady, WaitForSection;
  }

  lemma TakenReadsOn(c: Conn, end: nat, d: Conn)
    requires end <= |c.input| && SameWire(Consume(c, end).(progress := None), d)
    ensures ReadsOn(c, d)
  {
  }

  lemma ReadHeadReadsOn(x: Externals, c: Conn)
    ensures ReadsOn(c, ReadHead(x, c).conn)
  {
    hide *;
    SectionReadsOn(c, true);
    if c.role == L.Server {
      ReadRequestIs(x, c);
      var parsed := ParseRequest(x, c.input, c.limits);
      if parsed.Complete? {
        TakenReadsOn(c, parsed.end, AcceptRequest(x, Consume(c, parsed.end).(progress := None), parsed.value).conn);
      }
    } else {
      ReadResponseIs(x, c);
      var parsed := ParseResponse(x, c.input, c.limits);
      if parsed.Complete? {
        TakenReadsOn(c, parsed.end, AcceptResponse(Consume(c, parsed.end).(progress := None), parsed.value).conn);
      }
    }
  }

  lemma ReadTrailersReadsOn(x: Externals, c: Conn)
    ensures ReadsOn(c, ReadTrailers(x, c).conn)
  {
    hide *;
    SectionReadsOn(c, false);
    ReadTrailersIs(x, c);
    var parsed := ParseTrailers(x, c.input, c.limits, c.role == L.Client);
    if parsed.Complete? {
      TakenReadsOn(c, parsed.end, FinishPeer(Consume(c, parsed.end).(progress := None), parsed.value).conn);
    }
  }

  lemma PlainBodyReadsOn(x: Externals, c: Conn)
    requires c.reader.ReadFixed? || c.reader.ReadToClose?
    ensures ReadsOn(c, ReadMessage(x, c).conn)
  {
    hide PeerData, FinishPeer, NeedDataOrEof, ReadsOn, ReadMessage;
    var r := ReadMessage(x, c).conn;
    if c.reader.ReadFixed? {
      ReadFixedIs(x, c, c.reader.remaining);
      Consumed(c, Min(c.reader.remaining, |c.input|), r);
      return;
    }
    ReadToCloseIs(x, c);
    Consumed(c, |c.input|, r);
  }

  lemma ReadBodyReadsOn(c: Conn, remaining: nat, first: bool)
    ensures ReadsOn(c, ReadBody(c, remaining, first).conn)
  {
    hide PeerData, NeedDataOrEof, ReadsOn;
    Consumed(c, Min(remaining, |c.input|), ReadBody(c, remaining, first).conn);
  }

  lemma {:induction false} ReadMessageReadsOn(x: Externals, c: Conn)
    ensures ReadsOn(c, ReadMessage(x, c).conn)
    decreases |c.input|, 1
  {
    hide ReadHead, ReadSize, ReadBody, ReadBodyEnd, ReadTrailers, PeerData, FinishPeer, NeedDataOrEof, ReadsOn;
    match c.reader {
      case AwaitHead => ReadHeadReadsOn(x, c);
      case ReadFixed(remaining) => PlainBodyReadsOn(x, c);
      case ReadToClose => PlainBodyReadsOn(x, c);
      case ReadChunked(chunk) =>
        match chunk {
          case Size(scanned) => ReadSizeReadsOn(x, c, scanned);
          case Body(remaining, first) => ReadBodyReadsOn(c, remaining, first);
          case BodyEnd => ReadBodyEndReadsOn(x, c);
          case Trailers => ReadTrailersReadsOn(x, c);
        }
    }
  }

  lemma {:induction false} ReadBodyEndReadsOn(x: Externals, c: Conn)
    ensures ReadsOn(c, ReadBodyEnd(x, c).conn)
    decreases |c.input|, 0
  {
    hide NextInner, NeedDataOrEof, ReadsOn;
    var r := ReadBodyEnd(x, c).conn;
    if |c.input| >= 2 && c.input[..2] == CRLF {
      var d := Consume(c, 2).(reader := ReadChunked(Size(0)));
      NextInnerReadsOn(x, d);
      Consumed(c, 2, d);
      ReadsOnTransitive(c, d, r);
    } else {
      Consumed(c, 0, r);
    }
  }

  lemma {:induction false} ReadSizeReadsOn(x: Externals, c: Conn, scanned: nat)
    ensures ReadsOn(c, ReadSize(x, c, scanned).conn)
    decreases |c.input|, 0
  {
    hide NextInner, FindCrlf, ParseChunkHeader, NeedDataOrEof, ReadsOn;
    var r := ReadSize(x, c, scanned).conn;
    var end := FindCrlf(c.input, scanned);
    if end.Some? && end.value - 2 <= c.limits.maxHeadBytes && ParseChunkHeader(c.input[..end.value - 2]).Some? {
      var size := ParseChunkHeader(c.input[..end.value - 2]).value;
      var d := if size == 0 then Consume(c, end.value).(reader := ReadChunked(Trailers), progress := None)
               else Consume(c, end.value).(reader := ReadChunked(Body(size, true)));
      NextInnerReadsOn(x, d);
      Consumed(c, end.value, d);
      ReadsOnTransitive(c, d, r);
    } else {
      Consumed(c, 0, r);
    }
  }

  lemma {:induction false} NextInnerReadsOn(x: Externals, c: Conn)
    ensures ReadsOn(c, NextInner(x, c).conn)
    decreases |c.input|, 2
  {
    hide PeerClosed, Between, ReadMessage, ReadsOn;
    var r := NextInner(x, c).conn;
    match c.Peer() {
      case Idle =>
        if c.eof && c.input == [] {
          Consumed(c, 0, r);
        } else {
          ReadMessageReadsOn(x, c);
        }
      case SendResponse => ReadMessageReadsOn(x, c);
      case SendBody => ReadMessageReadsOn(x, c);
      case _ => Consumed(c, 0, r);
    }
  }

  lemma NextReadsOn(x: Externals, c: Conn)
    ensures ReadsOn(c, Next(x, c).conn)
  {
    hide NextInner, L.Poison;
    NextInnerReadsOn(x, c);
  }

  // While the peer sends its body, only the reader and the input change.

  lemma PeerDataCoupled(c: Conn, data: bytes, chunkStart: bool, chunkEnd: bool)
    requires Coupled(c) && c.Peer() == L.SendBody
    ensures StepCoupled(PeerData(c, data, chunkStart, chunkEnd))
    ensures PeerData(c, data, chunkStart, chunkEnd)
         == Step(c.(waiting := false), Occurred(DataEvent(data, chunkStart, chunkEnd)))
  {
    hide AdvancePeer, Sound;
    BodyEventsAccepted(c);
  }

  lemma FinishPeerCoupled(c: Conn, trailers: seq<Header>)
    requires Coupled(c) && c.Peer() == L.SendBody
    ensures StepCoupled(FinishPeer(c, trailers))
    ensures FinishPeer(c, trailers).outcome == Occurred(EndEvent(trailers))
  {
    hide AdvancePeer, Sound, L.Process;
    BodyEventsAccepted(c);
    PeerMoves(c, L.EndOfMessage);
    OwnActor(c.state, c.role.Peer(), L.EndOfMessage);
  }

  lemma PeerClosedCoupled(c: Conn)
    requires Coupled(c) && c.eof && c.input == [] && c.reader == AwaitHead
    requires c.Peer() == L.Idle || c.Peer() == L.Done || c.Peer() == L.MustClose
    ensures StepCoupled(PeerClosed(c))
    ensures PeerClosed(c).outcome == Occurred(ClosedEvent)
  {
    hide AdvancePeer, Sound, L.Process;
    CloseAccepted(c);
    PeerMoves(c, L.ConnectionClosed);
    OwnActor(c.state, c.role.Peer(), L.ConnectionClosed);
  }

  /** Replacing reader and input during a body. */
  lemma ReadingOn(c: Conn, reader: Reader, input: bytes)
    requires Coupled(c) && c.Peer() == L.SendBody && reader != AwaitHead
    requires c.reader == ReadChunked(Trailers) ==> reader == c.reader
    requires reader.ReadChunked? ==> ChunkCoupled(reader.chunk, input)
    ensures Coupled(c.(reader := reader, input := input))
    ensures Coupled(c.(reader := reader, input := input, progress := None))
  {
  }

  lemma HintStartsSound(input: bytes)
    ensures ChunkCoupled(Size(0), input)
    ensures FindCrlf(input, 0).None? ==> ChunkCoupled(Size(if input == [] then 0 else |input| - 1), input)
  {
    if FindCrlf(input, 0).None? {
      SavedHintIsSound(input, []);
      assert input + [] == input;
    }
  }

  lemma ReadBodyCoupled(c: Conn, remaining: nat, first: bool)
    requires Coupled(c) && c.Peer() == L.SendBody && c.reader == ReadChunked(Body(remaining, first))
    ensures StepCoupled(ReadBody(c, remaining, first))
  {
    hide Coupled, PeerData;
    var count := Min(remaining, |c.input|);
    if count > 0 {
      var reader := ReadChunked(if count == remaining then BodyEnd else Body(remaining - count, false));
      ReadingOn(c, reader, c.input[count..]);
      PeerDataCoupled(c.(reader := reader, input := c.input[count..]), c.input[..count], first, count == remaining);
    } else {
      NeedCoupled(c);
    }
  }

  lemma NeedCoupled(c: Conn)
    requires Coupled(c)
    ensures StepCoupled(NeedDataOrEof(c))
  {
  }

  lemma ReadTrailersCoupled(x: Externals, c: Conn)
    requires Coupled(c) && c.Peer() == L.SendBody && c.reader == ReadChunked(Trailers)
    ensures StepCoupled(ReadTrailers(x, c))
  {
    hide Coupled, StepCoupled, SectionReady, WaitForSection, FinishPeer, ParseTrailers;
    var scanned := SectionReady(c, false).0;
    ScannedFields(c, false);
    WaitForSectionCoupled(c, false);
    WaitForSectionCoupled(scanned, false);
    var parsed := ParseTrailers(x, c.input, c.limits, c.role == L.Client);
    if parsed.Complete? {
      ParsedEnds(x, c);
      ReadingOn(scanned, scanned.reader, scanned.input[parsed.end..]);
      FinishPeerCoupled(Consume(scanned, parsed.end).(progress := None), parsed.value);
    } else if parsed.Invalid? {
      FailureCoupled(scanned, parsed.status);
    }
  }

  lemma {:induction false} ReadSizeCoupled(x: Externals, c: Conn, scanned: nat)
    requires Coupled(c) && c.Peer() == L.SendBody && c.reader == ReadChunked(Size(scanned))
    ensures StepCoupled(ReadSize(x, c, scanned))
    decreases |c.input|, 0
  {
    hide Coupled, StepCoupled, NextInner, FindCrlf, ParseChunkHeader, ChunkCoupled;
    SizeHint(c, scanned);
    match FindCrlf(c.input, scanned) {
      case None =>
        var saved := Size(if c.input == [] then 0 else |c.input| - 1);
        HintStartsSound(c.input);
        ReadingOn(c, ReadChunked(saved), c.input);
        NeedCoupled(c.(reader := ReadChunked(saved), input := c.input));
        FailureCoupled(c, ChunkLineTooLong(c).status);
      case Some(end) =>
        FailureCoupled(c, ChunkLineTooLong(c).status);
        FailureCoupled(c, Some(400));
        var size := ParseChunkHeader(c.input[..end - 2]);
        if end - 2 <= c.limits.maxHeadBytes && size.Some? {
          NextChunkCoupled(c.input[end..], size.value);
          var reader := ReadChunked(if size.value == 0 then Trailers else Body(size.value, true));
          ReadingOn(c, reader, c.input[end..]);
          NextInnerCoupled(x, if size.value == 0 then Consume(c, end).(reader := reader, progress := None)
                              else Consume(c, end).(reader := reader));
        }
    }
  }

  lemma NextChunkCoupled(input: bytes, size: nat)
    ensures ChunkCoupled(if size == 0 then Trailers else Body(size, true), input)
  {
  }

  lemma SizeHint(c: Conn, scanned: nat)
    requires Coupled(c) && c.Peer() == L.SendBody && c.reader == ReadChunked(Size(scanned))
    ensures FindCrlf(c.input, scanned) == FindCrlf(c.input, 0)
  {
    ResumedSearch(c.input, scanned);
  }

  lemma {:induction false} ReadBodyEndCoupled(x: Externals, c: Conn)
    requires Coupled(c) && c.Peer() == L.SendBody && c.reader == ReadChunked(BodyEnd)
    ensures StepCoupled(ReadBodyEnd(x, c))
    decreases |c.input|, 0
  {
    hide Coupled, StepCoupled, NextInner;
    NeedCoupled(c);
    FailureCoupled(c, Some(400));
    if |c.input| >= 2 && c.input[..2] == CRLF {
      HintStartsSound(c.input[2..]);
      ReadingOn(c, ReadChunked(Size(0)), c.input[2..]);
      NextInnerCoupled(x, Consume(c, 2).(reader := ReadChunked(Size(0))));
    }
  }

  lemma ReadFixedCoupled(x: Externals, c: Conn, remaining: nat)
    requires Coupled(c) && c.Peer() == L.SendBody && c.reader == ReadFixed(remaining)
    ensures StepCoupled(ReadMessage(x, c))
  {
    hide Coupled, StepCoupled, ReadMessage, PeerData, FinishPeer, NeedDataOrEof;
    ReadFixedIs(x, c, remaining);
    NeedCoupled(c);
    if remaining == 0 {
      FinishPeerCoupled(c, []);
      return;
    }
    var count := Min(remaining, |c.input|);
    if count > 0 {
      ReadingOn(c, ReadFixed(remaining - count), c.input[count..]);
      PeerDataCoupled(Consume(c, count).(reader := ReadFixed(remaining - count)), c.input[..count], false, false);
    }
  }

  lemma ReadToCloseCoupled(x: Externals, c: Conn)
    requires Coupled(c) && c.Peer() == L.SendBody && c.reader == ReadToClose
    ensures StepCoupled(ReadMessage(x, c))
  {
    hide Coupled, StepCoupled, ReadMessage, PeerData, FinishPeer;
    ReadToCloseIs(x, c);
    if c.input != [] {
      ReadingOn(c, ReadToClose, c.input[|c.input|..]);
      PeerDataCoupled(Consume(c, |c.input|), c.input, false, false);
    } else if c.eof {
      FinishPeerCoupled(c, []);
    } else {
      WaitingCoupled(c);
    }
  }

  lemma WaitingCoupled(c: Conn)
    requires Coupled(c)
    ensures StepCoupled(Step(c, NeedData))
  {
  }

  lemma {:induction false} ReadMessageCoupled(x: Externals, c: Conn)
    requires Coupled(c)
    requires c.Peer() == L.Idle || c.Peer() == L.SendResponse || c.Peer() == L.SendBody
    ensures StepCoupled(ReadMessage(x, c))
    decreases |c.input|, 1
  {
    Busy(c);
    hide Coupled, StepCoupled, ReadHead, PeerData, FinishPeer, ReadSize, ReadBody, ReadBodyEnd, ReadTrailers, NeedDataOrEof;
    match c.reader {
      case AwaitHead => ReadHeadCoupled(x, c);
      case ReadFixed(remaining) => ReadFixedCoupled(x, c, remaining);
      case ReadToClose => ReadToCloseCoupled(x, c);
      case ReadChunked(chunk) =>
        match chunk {
          case Size(scanned) => ReadSizeCoupled(x, c, scanned);
          case Body(remaining, first) => ReadBodyCoupled(c, remaining, first);
          case BodyEnd => ReadBodyEndCoupled(x, c);
          case Trailers => ReadTrailersCoupled(x, c);
        }
    }
  }

  /** A connection that is reading a body has a peer in its body, and conversely. */
  lemma Busy(c: Conn)
    requires Coupled(c)
    requires c.Peer() == L.Idle || c.Peer() == L.SendResponse || c.Peer() == L.SendBody
    ensures c.reader != AwaitHead <==> c.Peer() == L.SendBody
  {
  }

  lemma {:induction false} NextInnerCoupled(x: Externals, c: Conn)
    requires Coupled(c)
    ensures StepCoupled(NextInner(x, c))
    decreases |c.input|, 2
  {
    hide StepCoupled, ReadMessage, PeerClosed, Sound;
    match c.Peer() {
      case Idle =>
        if c.eof && c.input == [] {
          PeerClosedCoupled(c);
        } else {
          ReadMessageCoupled(x, c);
        }
      case SendResponse => ReadMessageCoupled(x, c);
      case SendBody => ReadMessageCoupled(x, c);
      case Done => BetweenCoupled(c);
      case MustClose => BetweenCoupled(c);
      case Closed => StayCoupled(c, Occurred(ClosedEvent));
      case MightSwitchProtocol => StayCoupled(c, Paused);
      case SwitchedProtocol => StayCoupled(c, Paused);
      case Error => FailureCoupled(c, None);
    }
  }

  lemma StayCoupled(c: Conn, outcome: Outcome)
    requires Coupled(c)
    ensures StepCoupled(Step(c, outcome))
  {
  }

  lemma BetweenCoupled(c: Conn)
    requires Coupled(c) && (c.Peer() == L.Done || c.Peer() == L.MustClose)
    ensures StepCoupled(Between(c))
  {
    hide Sound, PeerClosed;
    if c.input == [] && c.eof {
      PeerClosedCoupled(c);
    }
  }

  lemma NextCoupled(x: Externals, c: Conn)
    requires Coupled(c)
    ensures Coupled(Next(x, c).conn)
  {
    hide NextInner, L.Poison, Sound;
    NextInnerCoupled(x, c);
    var r := NextInner(x, c);
    NextInnerReadsOn(x, c);
    if r.outcome.Failed? {
      PoisonUndisturbed(r.conn.state, c.role.Peer());
    }
  }

  // ------------------------------------------------------------------
  // Sending keeps it
  // ------------------------------------------------------------------

  lemma LocalMoves(c: Conn, event: L.StateEvent)
    requires Coupled(c) && AdvanceLocal(c, event).Some?
    ensures var d := AdvanceLocal(c, event).value;
      && d == c.(state := d.state) && Sound(d.state) && PeerCoupled(d)
      && L.Process(c.state, c.role, event) == Some(d.state)
  {
    hide Sound, ChunkCoupled;
    OtherActor(c.state, c.role, event);
  }

  lemma LocalPersistenceKeeps(c: Conn, version: Version, headers: seq<Header>)
    requires Sound(c.state) && PeerCoupled(c)
    ensures var d := ApplyPersistence(c, version, headers);
      && d == c.(state := d.state) && Sound(d.state) && PeerCoupled(d) && Undisturbed(c.Local(), d.Local())
  {
    hide L.DisableKeepAlive, Sound, Persistent, ChunkCoupled;
    DisableUndisturbed(c.state, c.role);
    DisableUndisturbed(c.state, c.role.Peer());
  }

  lemma SendRequestCoupled(x: Externals, c: Conn, r: Request)
    requires Coupled(c)
    ensures SendRequest(x, c, r).Sent? ==> Coupled(SendRequest(x, c, r).conn)
  {
    hide Sound, WritePlan, AdvanceLocal, ApplyPersistence, ExpectsContinue, KindOf, L.Process, RequestBytes, ChunkCoupled;
    var plan := WritePlan(x, r);
    if plan.RequestPlan? && AdvanceLocal(c, RequestProposals(r, plan)).Some? {
      var d := AdvanceLocal(c, RequestProposals(r, plan)).value;
      LocalMoves(c, RequestProposals(r, plan));
      OwnActor(c.state, c.role, RequestProposals(r, plan));
      LocalPersistenceKeeps(d, r.version, r.headers);
    }
  }

  lemma SendInformationalCoupled(c: Conn, r: Response)
    requires Coupled(c)
    ensures SendInformational(c, r).Sent? ==> Coupled(SendInformational(c, r).conn)
  {
    hide Sound, ValidHeaders, ValidReason, FramingFields, ValidUpgrade, AdvanceLocal, L.Process, ResponseBytes, ChunkCoupled;
    var event := if r.status == 101 then L.ProtocolSwitch(L.Upgrade) else L.InformationalResponse;
    if AdvanceLocal(c, event).Some? {
      LocalMoves(c, event);
      OwnActor(c.state, c.role, event);
    }
  }

  lemma PlannedConnect(c: Conn, r: Response)
    ensures Connects(c.requestKind, r.status) && PlanResponse(c, r).ResponsePlan? ==> PlanResponse(c, r).framing == Fixed(0)
  {
    hide ValidHeaders, ValidReason, FramingFields, DropCodings, SelectFraming, SetConnectionClose, HasToken;
  }

  lemma SendResponseCoupled(c: Conn, r: Response)
    requires Coupled(c)
    ensures SendResponse(c, r).Sent? ==> Coupled(SendResponse(c, r).conn)
  {
    hide Sound, PlanResponse, AdvanceLocal, ApplyPersistence, L.Process, ResponseBytes, ChunkCoupled;
    PlannedConnect(c, r);
    var event := FinalEvent(c.requestKind, r.status);
    if PlanResponse(c, r).ResponsePlan? && AdvanceLocal(c, event).Some? {
      var d := AdvanceLocal(c, event).value;
      LocalMoves(c, event);
      OwnActor(c.state, c.role, event);
      LocalPersistenceKeeps(d, r.version, PlanResponse(c, r).headers);
    }
  }

  lemma SendDataCoupled(c: Conn, data: bytes)
    requires Coupled(c)
    ensures SendData(c, data).Sent? ==> Coupled(SendData(c, data).conn)
  {
    hide Sound, AdvanceLocal, L.Process, DataPrefix, DataSuffix, ChunkCoupled;
    if AdvanceLocal(c, L.Data).Some? {
      LocalMoves(c, L.Data);
      OwnActor(c.state, c.role, L.Data);
    }
  }

  lemma EndMessageCoupled(c: Conn, trailers: seq<Header>)
    requires Coupled(c)
    ensures EndMessage(c, trailers).Sent? ==> Coupled(EndMessage(c, trailers).conn)
  {
    hide Sound, AdvanceLocal, L.Process, ValidTrailers, TrailerBytes, ChunkCoupled;
    if AdvanceLocal(c, L.EndOfMessage).Some? {
      LocalMoves(c, L.EndOfMessage);
      OwnActor(c.state, c.role, L.EndOfMessage);
    }
  }

  lemma CloseCoupled(c: Conn)
    requires Coupled(c)
    ensures Close(c).Sent? ==> Coupled(Close(c).conn)
  {
    hide Sound, AdvanceLocal, L.Process, ChunkCoupled;
    if AdvanceLocal(c, L.ConnectionClosed).Some? {
      LocalMoves(c, L.ConnectionClosed);
      OwnActor(c.state, c.role, L.ConnectionClosed);
    }
  }

  lemma StartNextCycleCoupled(c: Conn)
    requires Coupled(c)
    ensures StartNextCycle(c).Sent? ==> Coupled(StartNextCycle(c).conn)
  {
  }

  lemma ReceiveCoupled(c: Conn, data: bytes)
    requires Coupled(c)
    ensures Receive(c, data).Some? ==> Coupled(Receive(c, data).value)
  {
    hide Sound;
    if c.reader.ReadChunked? && c.reader.chunk.Size? {
      assert forall i :: 0 <= i < c.reader.chunk.scanned < |c.input| ==> CrlfAt(c.input + data, i) == CrlfAt(c.input, i);
    }
  }

  // ------------------------------------------------------------------
  // Every run
  // ------------------------------------------------------------------

  /** A call on the public interface. */
  datatype Call =
    | CallReceive(data: bytes)
    | CallNext
    | CallSendRequest(request: Request)
    | CallSendInformational(response: Response)
    | CallSendResponse(response: Response)
    | CallSendData(data: bytes)
    | CallEndMessage(trailers: seq<Header>)
    | CallStartNextCycle
    | CallClose

  function Unless(sent: Sent, c: Conn): Conn {
    if sent.Sent? then sent.conn else c
  }

  /** The connection after a call; refused calls change nothing. */
  function After(x: Externals, c: Conn, call: Call): Conn {
    match call
    case CallReceive(data) => (var r := Receive(c, data); if r.Some? then r.value else c)
    case CallNext => Next(x, c).conn
    case CallSendRequest(r) => Unless(SendRequest(x, c, r), c)
    case CallSendInformational(r) => Unless(SendInformational(c, r), c)
    case CallSendResponse(r) => Unless(SendResponse(c, r), c)
    case CallSendData(data) => Unless(SendData(c, data), c)
    case CallEndMessage(trailers) => Unless(EndMessage(c, trailers), c)
    case CallStartNextCycle => Unless(StartNextCycle(c), c)
    case CallClose => Unless(Close(c), c)
  }

  function RunCalls(x: Externals, c: Conn, calls: seq<Call>): Conn
    decreases |calls|
  {
    if calls == [] then c else RunCalls(x, After(x, c, calls[0]), calls[1..])
  }

  lemma AfterCoupled(x: Externals, c: Conn, call: Call)
    requires Coupled(c)
    ensures Coupled(After(x, c, call))
  {
    hide Coupled, Receive, Next, SendRequest, SendInformational, SendResponse, SendData, EndMessage, StartNextCycle, Close;
    match call {
      case CallReceive(data) => ReceiveCoupled(c, data);
      case CallNext => NextCoupled(x, c);
      case CallSendRequest(r) => SendRequestCoupled(x, c, r);
      case CallSendInformational(r) => SendInformationalCoupled(c, r);
      case CallSendResponse(r) => SendResponseCoupled(c, r);
      case CallSendData(data) => SendDataCoupled(c, data);
      case CallEndMessage(trailers) => EndMessageCoupled(c, trailers);
      case CallStartNextCycle => StartNextCycleCoupled(c);
      case CallClose => CloseCoupled(c);
    }
  }

  /** The coupling holds after any sequence of calls on a new connection. */
  lemma {:induction false} EveryRunIsCoupled(x: Externals, c: Conn, calls: seq<Call>)
    requires Coupled(c)
    ensures Coupled(RunCalls(x, c, calls))
    decreases |calls|
  {
    hide Coupled, After;
    if calls != [] {
      AfterCoupled(x, c, calls[0]);
      EveryRunIsCoupled(x, After(x, c, calls[0]), calls[1..]);
    }
  }

  lemma NewIsCoupled(role: L.Role, limits: Limits)
    ensures Coupled(New(role, limits))
  {
  }
}
