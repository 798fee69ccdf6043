/**
 Two endpoints of one connection.  Each keeps its own copy of the joint lifecycle
 and sees the moves of both actors in an order of its own: its own moves when it
 makes them, the peer's when they arrive.  If nothing failed and both have seen
 the same moves of each actor, both copies are the same.
 */
module Endpoints {
  import opened Prelude
  import opened Bytes
  import opened Fields
  import opened Heads
  import opened Scan
  import opened ChunkLine
  import opened ConnectionModel
  import opened LifecycleRuns
  import opened Coupling
  import opened Polling
  import opened Fragmentation
  import opened Agreement
  import opened History
  import L = Lifecycle

  // ------------------------------------------------------------------
  // The moves of a run
  // ------------------------------------------------------------------

  /** The lifecycle move behind a fact; content moves nothing. */
  function FactMove(kind: Option<RequestKind>, f: Fact): Option<Action> {
    match f
    case Requested(r) =>
      Some(Move(L.Client, L.Request(L.Proposals(r.method_ == CONNECT, ProposedUpgrades(r.version, r.headers) != [])),
                !Persistent(r.version, r.headers)))
    case Informed(r) => Some(InformationalMove(r))
    case Responded(r) =>
      Some(Move(L.Server, FinalEvent(kind, r.status),
                !Persistent(r.version, r.headers) || FinalFraming(kind, r) == Framed(CloseDelimited)))
    case Conveyed(_, _) => None
    case Ended(actor) => Some(Move(actor, L.EndOfMessage, false))
    case Gone(actor) => Some(Move(actor, L.ConnectionClosed, false))
    case Cycled => Some(Cycle)
  }

  function CallMove(x: Externals, c: Conn, call: Call): Option<Action> {
    var f := FactOf(x, c, call);
    if f.Some? then FactMove(c.requestKind, f.value) else None
  }

  function Moves(x: Externals, c: Conn, calls: seq<Call>): seq<Action>
    decreases |calls|
  {
    if calls == [] then []
    else
      var m := CallMove(x, c, calls[0]);
      (if m.Some? then [m.value] else []) + Moves(x, After(x, c, calls[0]), calls[1..])
  }

  /** No poll of the run fails. */
  predicate Healthy(x: Externals, c: Conn, calls: seq<Call>)
    decreases |calls|
  {
    calls == [] || (!(calls[0].CallNext? && Next(x, c).outcome.Failed?) && Healthy(x, After(x, c, calls[0]), calls[1..]))
  }

  /** The state is where the move leads, or where it was. */
  predicate Moved(j: L.Joint, m: Option<Action>, k: L.Joint) {
    if m.Some? then Act(j, m.value) == Some(k) else k == j
  }

  predicate StepMoved(c: Conn, r: Step) {
    match r.outcome
    case Failed(_) => true
    case Occurred(e) => Moved(c.state, FactMove(c.requestKind, EventFact(c.role.Peer(), e)), r.conn.state)
    case _ => r.conn.state == c.state
  }

  // ------------------------------------------------------------------
  // Heads
  // ------------------------------------------------------------------

  lemma AcceptRequestMoved(x: Externals, c: Conn, r: Request)
    requires c.role == L.Server
    ensures StepMoved(c, AcceptRequest(x, c, r))
  {
    hide ValidTarget, ValidHost, SelectFraming, ProposedUpgrades, L.Process, L.DisableKeepAlive, Persistent, ExpectsContinue;
  }

  lemma AcceptInformationalMoved(c: Conn, r: Response)
    requires c.role == L.Client && IsInformational(r.status)
    ensures StepMoved(c, AcceptInformational(c, r))
  {
    hide ValidUpgrade, L.Process;
  }

  lemma AcceptFinalMoved(c: Conn, r: Response)
    requires c.role == L.Client && !IsInformational(r.status)
    ensures StepMoved(c, AcceptFinal(c, r))
  {
    hide L.Process, L.DisableKeepAlive, Persistent, ResponseFraming, FinalEvent;
    var next := L.Process(c.state, L.Server, FinalEvent(c.requestKind, r.status));
    if next.Some? {
      DisableTwice(next.value);
    }
  }

  lemma AcceptResponseMoved(c: Conn, r: Response)
    requires c.role == L.Client
    ensures StepMoved(c, AcceptResponse(c, r))
  {
    hide StepMoved, AcceptInformational, AcceptFinal;
    if IsInformational(r.status) {
      AcceptInformationalMoved(c, r);
    } else {
      AcceptFinalMoved(c, r);
    }
  }

  lemma SendRequestMoved(x: Externals, c: Conn, r: Request)
    requires SendRequest(x, c, r).Sent?
    ensures Moved(c.state, FactMove(c.requestKind, Requested(r)), SendRequest(x, c, r).conn.state)
  {
    var plan := WritePlan(x, r);
    hide WritePlan, SelectFraming, ProposedUpgrades, L.Process, L.DisableKeepAlive, Persistent, ExpectsContinue, RequestBytes;
    PlansAgree(x, r);
    ReadPlanOffers(x, r);
  }

  lemma ReadPlanOffers(x: Externals, r: Request)
    requires ReadPlan(x, r).RequestPlan?
    ensures ReadPlan(x, r).upgrades == ProposedUpgrades(r.version, r.headers)
  {
    hide ValidTarget, ValidHost, SelectFraming, ProposedUpgrades;
  }

  lemma SendInformationalMoved(c: Conn, r: Response)
    requires SendInformational(c, r).Sent?
    ensures Moved(c.state, FactMove(c.requestKind, Informed(r)), SendInformational(c, r).conn.state)
  {
    hide ValidUpgrade, L.Process, ValidHeaders, ValidReason, FramingFields, ResponseBytes;
  }

  lemma SendResponseMoved(c: Conn, r: Response)
    requires SendResponse(c, r).Sent?
    ensures PlanResponse(c, r).ResponsePlan?
    ensures Moved(c.state, FactMove(c.requestKind, Responded(EmittedHead(c, r))), SendResponse(c, r).conn.state)
  {
    hide PlanResponse, L.Process, L.DisableKeepAlive, Persistent, ResponseFraming, FinalEvent, ResponseBytes;
    PlanFraming(c, r);
  }

  // ------------------------------------------------------------------
  // Polls
  // ------------------------------------------------------------------

  lemma SameStateMoved(c: Conn, d: Conn, r: Step)
    requires StepMoved(d, r) && d.state == c.state && d.requestKind == c.requestKind && d.role == c.role
    ensures StepMoved(c, r)
  {
    hide FactMove, Act;
  }

  lemma ReadHeadMoved(x: Externals, c: Conn)
    ensures StepMoved(c, ReadHead(x, c))
  {
    hide AcceptRequest, AcceptResponse, ParseRequest, ParseResponse, PollFrom, FactMove, Act;
    var scanned := SectionReady(c, true).0;
    ParsedEnds(x, c);
    if c.role == L.Server {
      var parsed := ParseRequest(x, c.input, c.limits);
      if parsed.Complete? {
        AcceptRequestMoved(x, Consume(scanned, parsed.end).(progress := None), parsed.value);
      }
    } else {
      var parsed := ParseResponse(x, c.input, c.limits);
      if parsed.Complete? {
        AcceptResponseMoved(Consume(scanned, parsed.end).(progress := None), parsed.value);
      }
    }
  }

  lemma FinishMoved(c: Conn, trailers: seq<Header>)
    ensures StepMoved(c, FinishPeer(c, trailers))
  {
    hide L.Process;
  }

  lemma ReadTrailersMoved(x: Externals, c: Conn)
    ensures StepMoved(c, ReadTrailers(x, c))
  {
    hide FinishPeer, ParseTrailers, PollFrom, FactMove, Act;
    var scanned := SectionReady(c, false).0;
    ParsedEnds(x, c);
    var parsed := ParseTrailers(x, c.input, c.limits, c.role == L.Client);
    if parsed.Complete? {
      FinishMoved(Consume(scanned, parsed.end).(progress := None), parsed.value);
    }
  }

  lemma PeerDataMoved(c: Conn, data: bytes, chunkStart: bool, chunkEnd: bool)
    requires Sound(c.state)
    ensures StepMoved(c, PeerData(c, data, chunkStart, chunkEnd))
  {
    hide L.Process, Sound;
    if L.Process(c.state, c.role.Peer(), L.Data).Some? {
      OwnActor(c.state, c.role.Peer(), L.Data);
    }
  }

  lemma PeerClosedMoved(c: Conn)
    ensures StepMoved(c, PeerClosed(c)) && StepMoved(c, Between(c))
  {
    GoneMove(c.requestKind, c.role.Peer());
    hide L.Process, FactMove;
  }

  lemma GoneMove(kind: Option<RequestKind>, actor: L.Role)
    ensures FactMove(kind, Gone(actor)) == Some(Move(actor, L.ConnectionClosed, false))
  {
  }

  lemma ClosedMoved(c: Conn)
    requires Sound(c.state) && c.Peer() == L.Closed
    ensures StepMoved(c, Step(c, Occurred(ClosedEvent)))
  {
    ClosedAgain(c);
    hide *;
    CloseActs(c.state, c.role.Peer());
    GoneMove(c.requestKind, c.role.Peer());
    GoneIsMoved(c);
  }

  lemma CloseActs(j: L.Joint, role: L.Role)
    ensures Act(j, Move(role, L.ConnectionClosed, false)) == L.Process(j, role, L.ConnectionClosed)
  {
    hide L.Process;
  }

  lemma GoneIsMoved(c: Conn)
    requires FactMove(c.requestKind, Gone(c.role.Peer())) == Some(Move(c.role.Peer(), L.ConnectionClosed, false))
    requires Act(c.state, Move(c.role.Peer(), L.ConnectionClosed, false)) == Some(c.state)
    ensures StepMoved(c, Step(c, Occurred(ClosedEvent)))
  {
    hide FactMove, Act;
  }

  lemma InactiveMoved(x: Externals, c: Conn)
    requires Sound(c.state) && (!Active(c) || (c.Peer() == L.Idle && c.eof && c.input == []))
    ensures StepMoved(c, NextInner(x, c))
  {
    hide ReadMessage, Sound, PeerClosed, Between, FactMove, Moved;
    PeerClosedMoved(c);
    if c.Peer() == L.Closed {
      ClosedMoved(c);
    }
  }

  lemma PlainBodyMoved(x: Externals, c: Conn)
    requires Sound(c.state) && (c.reader.ReadFixed? || c.reader.ReadToClose?)
    ensures StepMoved(c, ReadMessage(x, c))
  {
    hide NextInner, Sound, PeerData, FinishPeer, FactMove, Act;
    FinishMoved(c, []);
    var count := if c.reader.ReadFixed? then Min(c.reader.remaining, |c.input|) else |c.input|;
    var after := if c.reader.ReadFixed? then ReadFixed(c.reader.remaining - count) else ReadToClose;
    PeerDataMoved(Consume(c, count).(reader := after), c.input[..count], false, false);
    assert c.input[..|c.input|] == c.input;
  }

  lemma ChunkBodyMoved(c: Conn, remaining: nat, first: bool)
    requires Sound(c.state) && c.reader == ReadChunked(Body(remaining, first))
    ensures StepMoved(c, ReadBody(c, remaining, first))
  {
    hide Sound, PeerData, FactMove, Act;
    var count := Min(remaining, |c.input|);
    var after := ReadChunked(if count == remaining then BodyEnd else Body(remaining - count, false));
    PeerDataMoved(Consume(c, count).(reader := after), c.input[..count], first, count == remaining);
  }

  /** Chunk lines and chunk ends that cannot be read. */
  lemma StuckMoved(x: Externals, c: Conn)
    requires c.reader.ReadChunked? && c.Peer() == L.SendBody && Silent(c).None?
    requires c.reader.chunk.BodyEnd? ||
      (c.reader.chunk.Size? && FindCrlf(c.input, c.reader.chunk.scanned) == FindCrlf(c.input, 0))
    ensures StepMoved(c, NextInner(x, c))
  {
    hide NextInner, ReadMessage, FindCrlf, ParseChunkHeader, FactMove, Act;
    PollReads(x, c);
    ReadsChunk(x, c);
  }

  lemma {:induction false} PollMoved(x: Externals, c: Conn)
    requires Coupled(c)
    ensures StepMoved(c, NextInner(x, c))
    decreases |c.input|
  {
    assert Sound(c.state);
    hide Sound, StepMoved, NextInner, ReadMessage;
    if Silent(c).Some? {
      var d := Silent(c).value;
      SilentCoupled(c);
      SilentPoll(x, c);
      SilentKeepsState(c);
      PollMoved(x, d);
      SameStateMoved(c, d, NextInner(x, c));
      return;
    }
    if !Active(c) || (c.Peer() == L.Idle && c.eof && c.input == []) {
      InactiveMoved(x, c);
      return;
    }
    Busy(c);
    PollReads(x, c);
    match c.reader {
      case AwaitHead =>
        ReadsHead(x, c);
        ReadHeadMoved(x, c);
      case ReadFixed(_) => PlainBodyMoved(x, c);
      case ReadToClose => PlainBodyMoved(x, c);
      case ReadChunked(chunk) =>
        ReadsChunk(x, c);
        match chunk {
          case Size(scanned) =>
            SizeHint(c, scanned);
            StuckMoved(x, c);
          case Body(remaining, first) => ChunkBodyMoved(c, remaining, first);
          case BodyEnd => StuckMoved(x, c);
          case Trailers => ReadTrailersMoved(x, c);
        }
    }
  }

  lemma SilentKeepsState(c: Conn)
    requires Silent(c).Some?
    ensures var d := Silent(c).value; d.state == c.state && d.requestKind == c.requestKind && d.role == c.role
  {
    hide FindCrlf, ParseChunkHeader;
  }

  lemma NextMoved(x: Externals, c: Conn)
    requires Coupled(c) && !Next(x, c).outcome.Failed?
    ensures Moved(c.state, CallMove(x, c, CallNext), Next(x, c).conn.state)
  {
    hide NextInner, Coupled, FactMove, Act, EventFact;
    PollMoved(x, c);
  }

  // ------------------------------------------------------------------
  // Calls and runs
  // ------------------------------------------------------------------

  lemma SendDataMoved(c: Conn, data: bytes)
    requires Sound(c.state) && SendData(c, data).Sent?
    ensures Moved(c.state, FactMove(c.requestKind, Conveyed(c.role, data)), SendData(c, data).conn.state)
  {
    hide Sound, L.Process, DataPrefix, DataSuffix;
    OwnActor(c.state, c.role, L.Data);
  }

  lemma EndMessageMoved(c: Conn, trailers: seq<Header>)
    requires EndMessage(c, trailers).Sent?
    ensures Moved(c.state, FactMove(c.requestKind, Ended(c.role)), EndMessage(c, trailers).conn.state)
  {
    hide L.Process, ValidTrailers, Terminator;
  }

  lemma CloseMoved(c: Conn)
    requires Close(c).Sent?
    ensures Moved(c.state, FactMove(c.requestKind, Gone(c.role)), Close(c).conn.state)
  {
    hide L.Process;
  }

  lemma CycleMoved(c: Conn)
    requires StartNextCycle(c).Sent?
    ensures Moved(c.state, FactMove(c.requestKind, Cycled), StartNextCycle(c).conn.state)
  {
  }

  lemma ReceiveMoved(c: Conn, data: bytes)
    ensures Receive(c, data).Some? ==> Receive(c, data).value.state == c.state
  {
  }

  predicate SendsHead(call: Call) {
    call.CallSendRequest? || call.CallSendInformational? || call.CallSendResponse?
  }

  lemma HeadCallMoved(x: Externals, c: Conn, call: Call)
    requires SendsHead(call)
    ensures Moved(c.state, CallMove(x, c, call), After(x, c, call).state)
  {
    hide SendRequest, SendInformational, SendResponse, Act, FactMove, EmittedHead;
    match call {
      case CallSendRequest(r) =>
        if SendRequest(x, c, r).Sent? {
          SendRequestMoved(x, c, r);
        }
      case CallSendInformational(r) =>
        if SendInformational(c, r).Sent? {
          SendInformationalMoved(c, r);
        }
      case CallSendResponse(r) =>
        if SendResponse(c, r).Sent? {
          SendResponseMoved(c, r);
        }
      case _ =>
    }
  }

  lemma OtherCallMoved(x: Externals, c: Conn, call: Call)
    requires Sound(c.state) && !SendsHead(call) && !call.CallNext?
    ensures Moved(c.state, CallMove(x, c, call), After(x, c, call).state)
  {
    hide Sound, SendData, EndMessage, StartNextCycle, Close, Receive, Act, FactMove;
    match call {
      case CallReceive(data) => ReceiveMoved(c, data);
      case CallSendData(data) =>
        if SendData(c, data).Sent? {
          SendDataMoved(c, data);
        }
      case CallEndMessage(trailers) =>
        if EndMessage(c, trailers).Sent? {
          EndMessageMoved(c, trailers);
        }
      case CallStartNextCycle =>
        if StartNextCycle(c).Sent? {
          CycleMoved(c);
        }
      case CallClose =>
        if Close(c).Sent? {
          CloseMoved(c);
        }
      case _ =>
    }
  }

  /** One call moves the lifecycle by the move it records. */
  lemma CallMoved(x: Externals, c: Conn, call: Call)
    requires Coupled(c) && !(call.CallNext? && Next(x, c).outcome.Failed?)
    ensures Moved(c.state, CallMove(x, c, call), After(x, c, call).state)
  {
    assert Sound(c.state);
    hide Coupled, Sound, Next, CallMove, Moved, SendRequest, SendInformational, SendResponse, SendData, EndMessage,
         StartNextCycle, Close, Receive;
    if call.CallNext? {
      NextMoved(x, c);
    } else if SendsHead(call) {
      HeadCallMoved(x, c, call);
    } else {
      OtherCallMoved(x, c, call);
    }
  }

  lemma MoveIsNoFault(x: Externals, c: Conn, call: Call)
    ensures CallMove(x, c, call).Some? ==> !CallMove(x, c, call).value.Fault?
  {
    hide FactOf, Persistent, ProposedUpgrades, FinalFraming, FinalEvent;
  }

  /** The state at the end of a run is where its moves lead. */
  lemma {:induction false} RunMoved(x: Externals, c: Conn, calls: seq<Call>)
    requires Coupled(c) && Healthy(x, c, calls)
    ensures FaultFree(Moves(x, c, calls))
    ensures Accept(c.state, Moves(x, c, calls)) == Some(RunCalls(x, c, calls).state)
    decreases |calls|
  {
    hide Coupled, CallMove, After, Next, Act;
    if calls != [] {
      var m := CallMove(x, c, calls[0]);
      var d := After(x, c, calls[0]);
      AfterCoupled(x, c, calls[0]);
      CallMoved(x, c, calls[0]);
      MoveIsNoFault(x, c, calls[0]);
      RunMoved(x, d, calls[1..]);
      var rest := Moves(x, d, calls[1..]);
      if m.Some? {
        assert ([m.value] + rest)[1..] == rest;
      } else {
        assert [] + rest == rest;
      }
    }
  }

  /**
   Two endpoints agree.  A client and a server start a connection; each is
   driven by any calls of its own, nothing fails, and at the end both have seen
   the same moves of the client and the same moves of the server, in whatever
   interleaving.  Then both are in the same joint state, so both allow the same
   next events, and one may start the next cycle exactly when the other may.
   */
  lemma EndpointsAgree(x: Externals, client: Conn, calls: seq<Call>, y: Externals, server: Conn, others: seq<Call>)
    requires Coupled(client) && Coupled(server) && client.state == server.state
    requires Healthy(x, client, calls) && Healthy(y, server, others)
    requires forall role :: Project(role, Moves(x, client, calls)) == Project(role, Moves(y, server, others))
    ensures RunCalls(x, client, calls).state == RunCalls(y, server, others).state
    ensures StartNextCycle(RunCalls(x, client, calls)).Sent? <==> StartNextCycle(RunCalls(y, server, others)).Sent?
  {
    assert Sound(client.state);
    hide Coupled, Sound, Moves, RunCalls, Healthy, Act, Accept, Project;
    RunMoved(x, client, calls);
    RunMoved(y, server, others);
    OrderIndependence(client.state, Moves(x, client, calls), Moves(y, server, others));
  }
}
