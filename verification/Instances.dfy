/**
 Exchanges that meet the hypotheses of the round trips: `GET /`, answered with 204
 over HTTP/1.1, and towards HTTP/1.0 with content that ends with the connection.
 */
module Instances {
  import opened Prelude
  import opened Bytes
  import opened Fields
  import opened Heads
  import opened ConnectionModel
  import opened LifecycleRuns
  import opened Coupling
  import opened Polling
  import opened Fragmentation
  import opened FragmentedRuns
  import opened ChunkedBodies
  import opened CloseDelimitedBodies
  import opened Agreement
  import opened RoundTrip
  import opened Feeding
  import opened Exchanges
  import opened Closure
  import opened Inputs
  import Pipelining
  import Legs
  import L = Lifecycle

  // ------------------------------------------------------------------
  // The request
  // ------------------------------------------------------------------

  function Fetch(version: Version): Request {
    Request("GET", "/", TUNNEL.headers, version)
  }

  function Fetching(version: Version, s: Response, sent: bytes): Exchange {
    Exchange(Fetch(version), [], [], [RequestBytes(Fetch(version))], s, [], [], [sent])
  }

  lemma FetchIsValid(version: Version)
    ensures ValidMethod("GET") && ValidTarget("/") && ValidHeaders(Fetch(version).headers)
    ensures KindOf("GET") == Other && RequestBytes(Fetch(version)) != []
  {
    assert |HEAD| == 4 && |CONNECT| == 7;
    HostIsValid();
    assert |SectionBytes([RequestLine(Fetch(version))] + HeaderLines(TUNNEL.headers))| >= 2;
  }

  lemma FetchPlan(x: Externals, version: Version)
    requires x.authority("a")
    ensures WritePlan(x, Fetch(version)) == RequestPlan(Fixed(0), [])
    ensures Persistent(version, TUNNEL.headers) <==> version == Http11
  {
    hide HeaderValues, AllMembers, EqIgnoreCase, ValidHeaders, ValidTarget, SelectFraming, UpgradeProtocols, Members;
    var h := TUNNEL.headers;
    FetchIsValid(version);
    TunnelValues(HOST);
    TunnelValues(TRANSFER_ENCODING);
    TunnelValues(CONTENT_LENGTH);
    TunnelValues(EXPECT);
    TunnelValues(CONNECTION);
    TunnelValues(UPGRADE);
    NoneElements(h, TRANSFER_ENCODING);
    NoneElements(h, CONTENT_LENGTH);
    NoneElements(h, EXPECT);
    NoneElements(h, CONNECTION);
    NoUpgrade(h);
    FramingExact(h, version, 0);
  }

  /** Where the request leaves both endpoints. */
  function Asked(version: Version): L.Joint {
    L.Joint(if version == Http11 then L.Done else L.MustClose, L.SendResponse, version == Http11, L.NO_PROPOSALS)
  }

  lemma FetchSent(x: Externals, limits: Limits, version: Version)
    requires x.authority("a")
    ensures var s := SendRequest(x, New(L.Client, limits), Fetch(version));
      && s.Sent? && s.conn.writer == Some(Fixed(0)) && s.conn.requestKind == Some(Other) && s.conn.role == L.Client
      && s.out == RequestBytes(Fetch(version))
      && s.conn.state == L.Joint(L.SendBody, L.SendResponse, version == Http11, L.NO_PROPOSALS)
  {
    hide WritePlan, ExpectsContinue, Persistent, RequestBytes, KindOf;
    FetchPlan(x, version);
    FetchIsValid(version);
  }

  /** A message without content ends at once. */
  lemma NoneSent(c: Conn)
    requires c.writer == Some(Fixed(0)) && c.Local() == L.SendBody
    ensures SendContent(c, [], []) == EndMessage(c, []) && EndMessage(c, []).Sent? && EndMessage(c, []).out == []
    ensures EndMessage(c, []).conn.requestKind == c.requestKind && EndMessage(c, []).conn.peerVersion == c.peerVersion
    ensures EndMessage(c, []).conn.role == c.role
    ensures L.Process(c.state, c.role, L.EndOfMessage) == Some(EndMessage(c, []).conn.state)
  {
    NoneAreValid();
    hide ValidTrailers;
  }

  lemma FetchEnds(version: Version)
    ensures var j := L.Joint(L.SendBody, L.SendResponse, version == Http11, L.NO_PROPOSALS);
      L.Process(j, L.Client, L.EndOfMessage) == Some(Asked(version))
  {
  }

  /** The server's parser reads the request back. */
  ghost predicate ReadsFetch(x: Externals, limits: Limits, version: Version) {
    && x.authority("a") && |RequestBytes(Fetch(version))| <= limits.maxHeadBytes
    && ReadsRequest(x, New(L.Server, limits), Fetch(version), [])
  }

  lemma CannedReadsFetch(limits: Limits, version: Version, s: Response)
    requires |RequestBytes(Fetch(version))| <= limits.maxHeadBytes
    ensures ReadsFetch(Canned(Fetch(version), s), limits, version)
  {
    hide Canned, RequestBytes, ReadsRequest, ReadsTrailers, ValidMethod, ValidTarget, ValidHeaders;
    FetchIsValid(version);
    CannedIs(Fetch(version), s, "a", 0, false);
    CannedReads(Fetch(version), s, New(L.Server, limits), []);
  }

  /** It can be carried outward. */
  lemma FetchOutward(x: Externals, limits: Limits, version: Version, s: Response, sent: bytes)
    requires ReadsFetch(x, limits, version)
    ensures var e := Fetching(version, s, sent);
      && Outward(x, New(L.Client, limits), New(L.Server, limits), e)
      && RequestSent(x, New(L.Client, limits), e).conn.state == Asked(version)
      && RequestSent(x, New(L.Client, limits), e).conn.requestKind == Some(Other)
  {
    hide RequestBytes, ReadsRequest, ReadsTrailers, SendRequest, SendContent, EndMessage, ValidMethod, ValidTarget,
         ValidHeaders, KindOf, L.Process;
    var c, r := New(L.Client, limits), Fetch(version);
    var wire := RequestBytes(r);
    FetchIsValid(version);
    FetchSent(x, limits, version);
    NoneSent(SendRequest(x, c, r).conn);
    FetchEnds(version);
    assert wire + [] == wire;
    OneFragment(wire);
  }

  /** What the server makes of it. */
  lemma FetchHeard(x: Externals, limits: Limits, version: Version, s: Response, sent: bytes)
    requires ReadsFetch(x, limits, version)
    ensures var t := Carry(x, New(L.Client, limits), New(L.Server, limits), Fetching(version, s, sent));
      && AwaitsHead(t.asked) && t.asked.input == [] && t.asked.role == L.Client && t.asked.limits == limits
      && Coupled(t.heard.conn) && t.heard.conn.role == L.Server && !t.heard.conn.eof
      && t.asked.state == Asked(version) && t.heard.conn.state == Asked(version)
      && t.asked.requestKind == Some(Other) && t.heard.conn.requestKind == Some(Other)
      && t.heard.conn.peerVersion == Some(version)
  {
    hide RequestBytes, ReadsFetch, RequestSent, ResponseSent, Outward, Fed, FeedAll, Trace, RequestTrace, AwaitsHead, Coupled,
         Ready;
    NewIsReady(L.Client, limits);
    NewIsReady(L.Server, limits);
    FetchOutward(x, limits, version, s, sent);
    OutwardLeg(x, New(L.Client, limits), New(L.Server, limits), Fetching(version, s, sent));
  }

  // ------------------------------------------------------------------
  // An exchange that leaves the connection reusable
  // ------------------------------------------------------------------

  const NOTHING := Response(204, [], [], Http11)

  lemma NothingSent(d: Conn)
    requires d.role == L.Server && d.state == Asked(Http11) && d.requestKind == Some(Other) && d.peerVersion == Some(Http11)
    ensures PlanResponse(d, NOTHING) == ResponsePlan([], Fixed(0))
    ensures var s := SendResponse(d, NOTHING);
      && s.Sent? && s.conn.writer == Some(Fixed(0)) && s.out == ResponseBytes(NOTHING)
      && s.conn.role == L.Server && s.conn.requestKind == d.requestKind && s.conn.peerVersion == d.peerVersion
      && s.conn.state == L.Joint(L.Done, L.SendBody, true, L.NO_PROPOSALS)
  {
    hide SetConnectionClose, ResponseBytes, HasToken, Persistent, L.DisableKeepAlive, Elements;
    NoneAreValid();
    NoOptions();
    assert DropCodings(d, NOTHING) == [];
    NoCloseOption();
  }

  lemma NoCloseOption()
    ensures !HasToken([], CONNECTION, CLOSE) && Persistent(Http11, [])
  {
    NoneElements([], CONNECTION);
  }

  /** From two new connections, `GET /` answered with 204 is carried. */
  lemma FetchCarried(limits: Limits)
    requires |RequestBytes(Fetch(Http11))| <= limits.maxHeadBytes && |ResponseBytes(NOTHING)| <= limits.maxHeadBytes
    ensures var x, e := Canned(Fetch(Http11), NOTHING), Fetching(Http11, NOTHING, ResponseBytes(NOTHING));
      Carried(x, New(L.Client, limits), New(L.Server, limits), e)
  {
    hide Canned, RequestBytes, ResponseBytes, ReadsFetch, ReadsResponse, SendResponse, SendContent, EndMessage,
         ValidReason, ValidHeaders, RequestSent, Outward, Fed, AwaitsHead, Coupled, PlanResponse;
    var c, d := New(L.Client, limits), New(L.Server, limits);
    var x, e := Canned(Fetch(Http11), NOTHING), Fetching(Http11, NOTHING, ResponseBytes(NOTHING));
    CannedReadsFetch(limits, Http11, NOTHING);
    FetchOutward(x, limits, Http11, NOTHING, ResponseBytes(NOTHING));
    FetchHeard(x, limits, Http11, NOTHING, ResponseBytes(NOTHING));
    var t := Carry(x, c, d, e);
    NothingSent(t.heard.conn);
    NoneSent(SendResponse(t.heard.conn, NOTHING).conn);
    NothingIsValid();
    CannedReadsResponse(Fetch(Http11), NOTHING, t.asked, []);
    assert ResponseBytes(NOTHING) + [] == ResponseBytes(NOTHING);
    OneFragment(ResponseBytes(NOTHING));
  }

  lemma NothingIsValid()
    ensures ValidReason([]) && ValidHeaders([]) && ResponseBytes(NOTHING) != []
  {
    assert |SectionBytes([StatusLine(NOTHING)] + HeaderLines([]))| >= 2;
  }

  // ------------------------------------------------------------------
  // A server that answers before there is a request
  // ------------------------------------------------------------------

  lemma ServedEnds()
    ensures var j := L.Joint(L.Done, L.SendBody, true, L.NO_PROPOSALS);
      L.Process(j, L.Server, L.EndOfMessage) == Some(L.Joint(L.Done, L.Done, true, L.NO_PROPOSALS))
  {
  }

  /** The calls with which a server answers a polled request and goes on. */
  const SERVED: seq<Call> := [CallSendResponse(NOTHING), CallEndMessage([]), CallStartNextCycle]

  lemma ServedRun(x: Externals, d: Conn)
    requires SendResponse(d, NOTHING).Sent? && EndMessage(SendResponse(d, NOTHING).conn, []).Sent?
    ensures var last := EndMessage(SendResponse(d, NOTHING).conn, []).conn;
      RunCalls(x, d, SERVED) == Unless(StartNextCycle(last), last) && Received(x, d, SERVED) == []
  {
    hide SendResponse, EndMessage, StartNextCycle, RunCalls, Received;
    var head := SendResponse(d, NOTHING).conn;
    var last := EndMessage(head, []).conn;
    assert SERVED == [CallSendResponse(NOTHING)] + ([CallEndMessage([])] + [CallStartNextCycle]);
    RunConcat(x, d, [CallSendResponse(NOTHING)], [CallEndMessage([])] + [CallStartNextCycle]);
    RunConcat(x, head, [CallEndMessage([])], [CallStartNextCycle]);
    OneCall(x, d, CallSendResponse(NOTHING));
    OneCall(x, head, CallEndMessage([]));
    OneCall(x, last, CallStartNextCycle);
  }

  /**
   A closure that goes unsaid, as a run.  A new server receives `GET /` over
   HTTP/1.1, polls it, answers 204, starts the next cycle and answers again
   before there is a request: the response does not say close, and the
   connection is never reused.
   */
  lemma EarlyClosureRun(x: Externals, limits: Limits) returns (calls: seq<Call>)
    requires ReadsFetch(x, limits, Http11)
    ensures Received(x, New(L.Server, limits), calls) == RequestBytes(Fetch(Http11))
    ensures var c := RunCalls(x, New(L.Server, limits), calls);
      && SendResponse(c, EARLY).Sent? && PlanResponse(c, EARLY).ResponsePlan?
      && !SaysClose(EmittedHead(c, EARLY).headers) && !SendResponse(c, EARLY).conn.state.keepAlive
  {
    hide RequestBytes, ResponseBytes, ReadsFetch, SendResponse, SendContent, EndMessage, RequestSent, ResponseSent, FeedAll,
         AwaitsHead, Coupled, PlanResponse, RunCalls, Received, FeedCalls, L.Process, SaysClose;
    var d, wire := New(L.Server, limits), RequestBytes(Fetch(Http11));
    FetchHeard(x, limits, Http11, NOTHING, []);
    var heard := Carry(x, New(L.Client, limits), d, Fetching(Http11, NOTHING, [])).heard.conn;
    FetchIsValid(Http11);
    OneFragment(wire);
    NewIsCoupled(L.Server, limits);
    FeedIsRun(x, d, [wire]);
    NothingSent(heard);
    NoneSent(SendResponse(heard, NOTHING).conn);
    ServedEnds();
    var last := EndMessage(SendResponse(heard, NOTHING).conn, []).conn;
    ServedRun(x, heard);
    EarlyClosureUnsaid(last);
    calls := FeedCalls(x, d, [wire]) + SERVED;
    RunConcat(x, d, FeedCalls(x, d, [wire]), SERVED);
    assert wire + [] == wire;
  }

  // ------------------------------------------------------------------
  // Content that ends with the connection
  // ------------------------------------------------------------------

  function Closing(): Response {
    EARLY.(headers := SetConnectionClose([]))
  }

  lemma ClosingSent(d: Conn)
    requires d.role == L.Server && d.state == Asked(Http10) && d.requestKind == Some(Other) && d.peerVersion == Some(Http10)
    ensures PlanResponse(d, EARLY).ResponsePlan? && EmittedHead(d, EARLY) == Closing()
    ensures var s := SendResponse(d, EARLY);
      s.Sent? && s.conn.writer == Some(CloseDelimited) && s.conn.Local() == L.SendBody && s.out == ResponseBytes(Closing())
  {
    hide SetConnectionClose, ResponseBytes, HasToken, Persistent, Elements;
    NoneAreValid();
    assert DropCodings(d, EARLY) == [];
  }

  lemma ClosingIsValid()
    ensures ValidReason([]) && ValidHeaders(Closing().headers) && ResponseBytes(Closing()) != []
  {
    NoneElements([], CONNECTION);
    assert Closing().headers == [Header("Connection", CLOSE)] by {
      assert KeptOptions(Elements([], CONNECTION)) + [CLOSE] == [CLOSE];
    }
    assert |SectionBytes([StatusLine(Closing())] + HeaderLines(Closing().headers))| >= 2;
  }

  lemma DataToClose(c: Conn, content: bytes)
    requires c.writer == Some(CloseDelimited) && c.Local() == L.SendBody
    ensures SendData(c, content).Sent? && EndMessage(SendData(c, content).conn, []).Sent?
  {
    NoneAreValid();
    hide ValidTrailers;
  }

  lemma ContentToClose(c: Conn, content: bytes)
    requires c.writer == Some(CloseDelimited) && c.Local() == L.SendBody && Coupled(c)
    ensures SendContent(c, [content], []).Sent? && SendContent(c, [content], []).out == content
  {
    CoupledIsSound(c);
    DataToClose(c, content);
    BodySent(c, content);
    hide Coupled, SendBodies, EndMessage, Sound, SendData, L.Process;
    assert SendContent(c, [content], []).Sent?;
    hide SendContent;
    ContentSentPlainly(c, [content], []);
    assert content + [] == content && [content][1..] == [];
  }

  lemma BodySent(c: Conn, content: bytes)
    requires SendData(c, content).Sent?
    ensures SendBodies(c, [content]).Sent? && SendBodies(c, [content]).conn == SendData(c, content).conn
  {
    hide SendData;
    assert [content][1..] == [];
  }

  /** `GET /` over HTTP/1.0, answered with content that ends with the connection: the
      client reports it, and both endpoints end closed alike. */
  lemma FetchClosed(limits: Limits, content: bytes)
    requires |RequestBytes(Fetch(Http10))| <= limits.maxHeadBytes && |ResponseBytes(Closing())| <= limits.maxHeadBytes
    ensures var x, wire := Canned(Fetch(Http10), Closing()), ResponseBytes(Closing()) + content;
      var t := Carry(x, New(L.Client, limits), New(L.Server, limits), Fetching(Http10, EARLY, wire));
      && ResponseSent(t.heard.conn, Fetching(Http10, EARLY, wire).(download := [content])).Sent?
      && Coupled(t.asked) && !t.asked.eof && Fragments([wire])
      && var a := FeedAll(x, t.asked, [wire]);
         && Trace(a.events) == [Mark(ResponseEvent(Closing()))] + Octets(content)
         && Receive(a.conn, []) == Some(a.conn.(eof := true)) && Coupled(a.conn.(eof := true))
         && Drain(x, a.conn.(eof := true)).events == [EndEvent([])]
         && Drain(x, a.conn.(eof := true)).outcome == Occurred(ClosedEvent)
  {
    hide Canned, RequestBytes, ResponseBytes, ReadsFetch, ReadsResponse, SendResponse, SendContent, RequestSent, Outward, Fed,
         ValidReason, ValidHeaders, Coupled, PlanResponse, FeedAll, Drain, Trace, Octets, EmittedHead, Act, ResponseMove,
         Active;
    var s := Closing();
    var x, wire := Canned(Fetch(Http10), s), ResponseBytes(s) + content;
    CannedReadsFetch(limits, Http10, s);
    FetchHeard(x, limits, Http10, EARLY, wire);
    var t := Carry(x, New(L.Client, limits), New(L.Server, limits), Fetching(Http10, EARLY, wire));
    var c, d := t.heard.conn, t.asked;
    ClosingSent(c);
    SendResponseCoupled(c, EARLY);
    ContentToClose(SendResponse(c, EARLY).conn, content);
    ClosingIsValid();
    CannedReadsResponse(Fetch(Http10), s, d, content);
    OneFragment(wire);
    ResponseMoves(c, EARLY);
    CloseDelimitedRoundTrip(x, c, d, EARLY, [content], [], [wire]);
    assert Concat([content]) == content by {
      assert [content][1..] == [] && content + [] == content;
    }
  }

  // ------------------------------------------------------------------
  // Two requests at once
  // ------------------------------------------------------------------

  lemma FetchLegible(limits: Limits, s: Response, sent: bytes, rest: bytes)
    requires |RequestBytes(Fetch(Http11))| <= limits.maxHeadBytes
    ensures var x, e := Canned(Fetch(Http11), s), Fetching(Http11, s, sent);
      && Pipelining.Legible(x, New(L.Client, limits), New(L.Server, limits), e, rest)
      && RequestSent(x, New(L.Client, limits), e).Sent?
      && RequestSent(x, New(L.Client, limits), e).out == RequestBytes(Fetch(Http11))
  {
    hide Canned, RequestBytes, ReadsRequest, SendRequest, SendContent, EndMessage, ValidMethod, ValidTarget, ValidHeaders,
         KindOf, L.Process;
    var c, r := New(L.Client, limits), Fetch(Http11);
    var x := Canned(r, s);
    CannedIs(r, s, "a", 0, false);
    FetchIsValid(Http11);
    FetchSent(x, limits, Http11);
    NoneSent(SendRequest(x, c, r).conn);
    assert RequestBytes(r) + [] == RequestBytes(r) && [] + rest == rest;
    CannedReads(r, s, New(L.Server, limits), rest);
  }

  /** A new server that receives `GET /` twice in one piece reports it once, and keeps
      the bytes of the second. */
  lemma TwoFetches(limits: Limits)
    requires |RequestBytes(Fetch(Http11))| <= limits.maxHeadBytes
    ensures var x, e := Canned(Fetch(Http11), NOTHING), Fetching(Http11, NOTHING, []);
      var wire := RequestBytes(Fetch(Http11));
      var s := Pipelining.Serving(New(L.Server, limits), [e, e], []);
      && Pipelining.Serve(x, s, [Pipelining.Arrive(wire + wire)]).Some?
      && Pipelining.Serve(x, s, [Pipelining.Arrive(wire + wire)]).value.heard == RequestTrace(x, New(L.Client, limits), e)
      && Pipelining.Serve(x, s, [Pipelining.Arrive(wire + wire)]).value.conn.input == wire
  {
    var c, d := New(L.Client, limits), New(L.Server, limits);
    var x, e := Canned(Fetch(Http11), NOTHING), Fetching(Http11, NOTHING, []);
    var wire := RequestBytes(Fetch(Http11));
    NewIsReady(L.Client, limits);
    NewIsReady(L.Server, limits);
    FetchIsValid(Http11);
    hide Canned, RequestBytes, RequestSent, Pipelining.Legible, Pipelining.Emptied, RequestTrace, Ready, Trace;
    FetchLegible(limits, NOTHING, [], wire);
    FetchLegible(limits, NOTHING, [], []);
    var es, turns := [e, e], [Pipelining.Arrive(wire + wire)];
    assert es[1..] == [e] && [e][1..] == [] && turns[1..] == [];
    assert wire + [] == wire && (wire + wire) + [] == wire + wire;
    assert Pipelining.Wires(x, c, [e]) == wire;
    assert Pipelining.Wires(x, c, es) == wire + wire;
    assert Pipelining.Arrived(turns) == wire + wire;
    assert Pipelining.AllLegible(x, c, d, [e]);
    Pipelining.PipelinedRequests(x, c, d, es, turns, []);
    assert Pipelining.Requests(x, c, [e]) == RequestTrace(x, c, e) + [];
    assert Pipelining.Requests(x, c, es) == RequestTrace(x, c, e) + (RequestTrace(x, c, e) + []);
    Twice(RequestTrace(x, c, e), Pipelining.Serve(x, Pipelining.Serving(d, es, []), turns).value.heard);
  }

  /** Of two equal pieces, leaving the second leaves the first. */
  lemma Twice(piece: seq<Token>, heard: seq<Token>)
    ensures heard + (piece + []) == piece + (piece + []) ==> heard == piece
  {
    assert piece + [] == piece;
    if heard + piece == piece + piece {
      assert |heard| == |piece|;
      assert (heard + piece)[..|piece|] == heard && (piece + piece)[..|piece|] == piece;
    }
  }

  /** A leg that can travel between two new connections. */
  lemma FetchTravels(limits: Limits)
    requires |RequestBytes(Fetch(Http11))| <= limits.maxHeadBytes
    ensures var x, r := Canned(Fetch(Http11), NOTHING), Fetch(Http11);
      var line := Legs.Line(New(L.Client, limits), New(L.Server, limits), [], []);
      Legs.TiedLine(line) && Legs.CanSchedule(x, line, [Legs.Travel(Legs.AskWhole(r, [], []), [RequestBytes(r)])])
  {
    hide Canned, RequestBytes, ReadsRequest, SendRequest, SendContent, EndMessage, ValidMethod, ValidTarget, ValidHeaders,
         KindOf, L.Process, Legs.TiedLine, Legs.Staged, Legs.Meant;
    var c, r := New(L.Client, limits), Fetch(Http11);
    var x := Canned(r, NOTHING);
    Legs.NewLine(limits, limits);
    CannedIs(r, NOTHING, "a", 0, false);
    FetchIsValid(Http11);
    FetchSent(x, limits, Http11);
    NoneSent(SendRequest(x, c, r).conn);
    assert RequestBytes(r) + [] == RequestBytes(r);
    OneFragment(RequestBytes(r));
    CannedReads(r, NOTHING, New(L.Server, limits), []);
    var stages := [Legs.Travel(Legs.AskWhole(r, [], []), [RequestBytes(r)])];
    assert stages[1..] == [];
  }
}
