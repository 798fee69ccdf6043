/**
 When a server's final response says that the connection will close, and when it
 closes without having said so.
 */
module Closure {
  import opened Prelude
  import opened Bytes
  import opened Fields
  import opened Heads
  import opened ConnectionModel
  import opened LifecycleRuns
  import opened Coupling
  import opened Agreement
  import opened History
  import L = Lifecycle

  /** Completing the framing leaves the connection options alone. */
  lemma FramingKeepsOptions(c: Conn, r: Response)
    requires FrameResponse(c, r).ResponsePlan?
    ensures HeaderValues(FrameResponse(c, r).headers, CONNECTION) == HeaderValues(r.headers, CONNECTION)
  {
    hide HeaderValues, EqIgnoreCase, Without, SelectFraming, FramingFields, CountHeader;
    var coding := Header("Transfer-Encoding", CHUNKED);
    CodingIsNoOption(coding);
    WithoutValues(r.headers, TRANSFER_ENCODING, CONNECTION);
    WithoutValues(Without(r.headers, TRANSFER_ENCODING), CONTENT_LENGTH, CONNECTION);
    var headers := DropCodings(c, r);
    HeaderValuesConcat(headers, [coding], CONNECTION);
    OneHeader(coding, CONNECTION);
    assert HeaderValues(headers, CONNECTION) + [] == HeaderValues(headers, CONNECTION);
  }

  lemma CodingIsNoOption(coding: Header)
    requires coding.name == "Transfer-Encoding"
    ensures !EqIgnoreCase(coding.name, CONNECTION)
    ensures !EqIgnoreCase(TRANSFER_ENCODING, CONNECTION) && !EqIgnoreCase(CONTENT_LENGTH, CONNECTION)
  {
    assert |CONNECTION| == 10 && |coding.name| == 17;
  }

  predicate SaysClose(headers: seq<Header>) {
    HasToken(headers, CONNECTION, CLOSE)
  }

  lemma SameOptions(h: seq<Header>, g: seq<Header>)
    requires HeaderValues(h, CONNECTION) == HeaderValues(g, CONNECTION)
    ensures SaysClose(h) <==> SaysClose(g)
  {
    hide HeaderValues, AllMembers, EqIgnoreCase;
  }

  /** What the emitted head says. */
  lemma EmittedOptions(c: Conn, r: Response)
    requires PlanResponse(c, r).ResponsePlan?
    ensures SaysClose(EmittedHead(c, r).headers) <==>
      SaysClose(r.headers) || (!Connects(c.requestKind, r.status) && (!c.state.keepAlive || !BothHttp11(c, r)))
  {
    hide HeaderValues, SetConnectionClose, FrameResponse, ValidHeaders, ValidReason, FramingFields, HasToken;
    var p := FrameResponse(c, r);
    FramingKeepsOptions(c, r);
    SameOptions(p.headers, r.headers);
    CloseSignalled(p.headers);
  }

  /** Whether a final response leaves the connection reusable. */
  lemma ReuseAfter(c: Conn, r: Response)
    requires Sound(c.state) && SendResponse(c, r).Sent?
    ensures PlanResponse(c, r).ResponsePlan?
    ensures SendResponse(c, r).conn.state.keepAlive <==>
      && c.state.keepAlive && Persistent(r.version, EmittedHead(c, r).headers)
      && (Connects(c.requestKind, r.status) || (!c.state.proposals.connect && c.state.server != L.Idle))
  {
    hide Sound, PlanResponse, Persistent, ResponseBytes, L.Process, L.DisableKeepAlive;
    var event := FinalEvent(c.requestKind, r.status);
    FinalKeepAlive(c.state, event);
    DisabledForGood(L.Process(c.state, L.Server, event).value);
  }

  lemma DisabledForGood(j: L.Joint)
    ensures !L.DisableKeepAlive(j).keepAlive
  {
  }

  lemma FinalKeepAlive(j: L.Joint, event: L.StateEvent)
    requires L.Process(j, L.Server, event).Some? && (event.Response? || event.ProtocolSwitch?)
    ensures L.Process(j, L.Server, event).value.keepAlive <==>
      j.keepAlive && (event.ProtocolSwitch? || (!j.proposals.connect && j.server != L.Idle))
  {
  }

  /** A server that will not reuse the connection says so in the response. */
  predicate Signalled(c: Conn, r: Response)
    requires SendResponse(c, r).Sent? && PlanResponse(c, r).ResponsePlan?
  {
    SendResponse(c, r).conn.state.keepAlive || !Persistent(r.version, EmittedHead(c, r).headers)
  }

  /** The responses whose closure goes unsaid: reuse is lost only as they are
      sent, by the refusal of a CONNECT or for want of a request, after it has
      been decided what to say; or they switch protocols, which says nothing. */
  predicate Unsaid(c: Conn, r: Response) {
    if Connects(c.requestKind, r.status) then !c.state.keepAlive && Persistent(r.version, r.headers)
    else c.state.keepAlive && BothHttp11(c, r) && !SaysClose(r.headers) && (c.state.proposals.connect || c.state.server == L.Idle)
  }

  /** Closure is signalled exactly when it is not one of these. */
  lemma ClosureExactly(c: Conn, r: Response)
    requires Sound(c.state) && SendResponse(c, r).Sent?
    ensures PlanResponse(c, r).ResponsePlan?
    ensures Signalled(c, r) <==> !Unsaid(c, r)
    ensures !Persistent(r.version, EmittedHead(c, r).headers) ==> !SendResponse(c, r).conn.state.keepAlive
  {
    hide Sound, PlanResponse, SendResponse, SaysClose;
    ReuseAfter(c, r);
    EmittedOptions(c, r);
    PersistentIs(r.version, EmittedHead(c, r).headers);
    PersistentIs(r.version, r.headers);
  }

  lemma PersistentIs(version: Version, headers: seq<Header>)
    ensures Persistent(version, headers) <==> version == Http11 && !SaysClose(headers)
  {
    hide HasToken;
  }

  /** Over runs: a server that is not switching leaves its closure unsaid exactly
      when it answers a CONNECT with a refusal, or answers before any request of
      the cycle, on a connection that nothing else keeps from being reused. */
  lemma ClosureOfRuns(x: Externals, limits: Limits, calls: seq<Call>, r: Response)
    requires SendResponse(RunCalls(x, New(L.Server, limits), calls), r).Sent?
    requires !Connects(RunCalls(x, New(L.Server, limits), calls).requestKind, r.status)
    ensures var c := RunCalls(x, New(L.Server, limits), calls);
      && PlanResponse(c, r).ResponsePlan?
      && (Signalled(c, r) <==>
            !(&& c.state.keepAlive && BothHttp11(c, r) && !SaysClose(r.headers)
              && (c.state.server == L.Idle || c.requestKind == Some(ConnectKind))))
  {
    hide Coupled, RunCalls, SendResponse, PlanResponse, Signalled, SaysClose, Tracks, HistoryOf;
    var c := RunCalls(x, New(L.Server, limits), calls);
    NewIsCoupled(L.Server, limits);
    NewIsTracked(L.Server, limits);
    EveryRunIsCoupled(x, New(L.Server, limits), calls);
    EveryRunIsAllowed(x, BLANK, New(L.Server, limits), calls);
    OffersAre(Books(BLANK, HistoryOf(x, New(L.Server, limits), calls)), c, r);
    ClosureExactly(c, r);
  }

  lemma OffersAre(b: Book, c: Conn, r: Response)
    requires Coupled(c) && Tracks(b, c) && SendResponse(c, r).Sent?
    ensures Sound(c.state)
    ensures c.role == L.Server && (c.state.server == L.Idle || c.state.server == L.SendResponse)
    ensures c.state.server == L.SendResponse ==> (c.state.proposals.connect <==> c.requestKind == Some(ConnectKind))
  {
    hide Sound, PlanResponse, Persistent, ResponseBytes, L.DisableKeepAlive, ClientFits, ServerFits, WriterFits, ReaderFits;
  }
}
