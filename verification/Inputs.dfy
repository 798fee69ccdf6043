/**
 The inputs that show what does not hold, as runs from a new connection.  They
 are stated for every parser that reads the request back; `Canned` is one.
 */
module Inputs {
  import opened Prelude
  import opened Bytes
  import opened Fields
  import opened Heads
  import opened Scan
  import opened ConnectionModel
  import opened LifecycleRuns
  import opened Coupling
  import opened Polling
  import opened Fragmentation
  import opened FragmentedRuns
  import opened ChunkedBodies
  import opened BodyFragments
  import opened Agreement
  import opened RoundTrip
  import opened Feeding
  import opened Exchanges
  import opened Closure
  import L = Lifecycle

  // ------------------------------------------------------------------
  // A parser for one request and one response
  // ------------------------------------------------------------------

  /** Takes every complete head for this request or this response, and every
      complete trailer section for no trailers. */
  function Canned(r: Request, s: Response): Externals {
    var x := Externals((data, _) => SectionAs(data, true, r), (data, _) => SectionAs(data, true, s),
                       (data, _, _) => NoTrailers(data), _ => true);
    assert Consuming(x);
    x
  }

  lemma CannedIs(r: Request, s: Response, data: bytes, n: nat, fold: bool)
    ensures Canned(r, s).request(data, n) == SectionAs(data, true, r)
    ensures Canned(r, s).response(data, n) == SectionAs(data, true, s)
    ensures Canned(r, s).trailers(data, n, fold) == SectionAs(data, false, [])
    ensures Canned(r, s).authority(data)
  {
  }

  /** It reads back every valid request, and every empty trailer section. */
  lemma CannedReads(r: Request, s: Response, d: Conn, rest: bytes)
    requires ValidMethod(r.method_) && ValidTarget(r.target) && ValidHeaders(r.headers)
    ensures ReadsRequest(Canned(r, s), d, r, rest) && ReadsTrailers(Canned(r, s), d, [], rest)
  {
    hide Canned, SectionAs, Judges, RequestBytes, ValidMethod, ValidTarget, ValidHeaders;
    var n, limit, fold := d.limits.maxHeaderCount, d.limits.maxHeadBytes, d.role == L.Client;
    var x := Canned(r, s);
    var none: seq<Header> := [];
    var head, section := RequestBytes(r) + rest, TrailerBytes(none) + rest;
    forall b: bytes
      ensures x.request(b, n) == SectionAs(b, true, r) && x.trailers(b, n, fold) == SectionAs(b, false, none)
    {
      CannedIs(r, s, b, n, fold);
    }
    RequestScanned(r, rest);
    NoneAreValid();
    TrailersScanned(none, rest);
    SectionJudged(head, true, r, limit);
    SectionJudged(section, false, none, limit);
    SameJudgement(b => SectionAs(b, true, r), b => x.request(b, n), head, true, limit);
    SameJudgement(b => SectionAs(b, false, none), b => x.trailers(b, n, fold), section, false, limit);
    Completes(head, true, r);
    Completes(section, false, none);
  }

  /** And every valid response. */
  lemma CannedReadsResponse(r: Request, s: Response, d: Conn, rest: bytes)
    requires ValidReason(s.reason) && ValidHeaders(s.headers)
    ensures ReadsResponse(Canned(r, s), d, s, rest)
  {
    hide Canned, SectionAs, Judges, ResponseBytes, ValidReason, ValidHeaders;
    var n, limit := d.limits.maxHeaderCount, d.limits.maxHeadBytes;
    var x, head := Canned(r, s), ResponseBytes(s) + rest;
    forall b: bytes
      ensures x.response(b, n) == SectionAs(b, true, s)
    {
      CannedIs(r, s, b, n, false);
    }
    ResponseScanned(s, rest);
    SectionJudged(head, true, s, limit);
    SameJudgement(b => SectionAs(b, true, s), b => x.response(b, n), head, true, limit);
    Completes(head, true, s);
  }

  lemma Completes<T>(data: bytes, skip: bool, value: T)
    requires SectionEnd(data, skip).Some?
    ensures SectionAs(data, skip, value).Complete? && SectionAs(data, skip, value).value == value
  {
    hide SectionEnd;
  }

  lemma NoneAreValid()
    ensures ValidHeaders([]) && ValidTrailers([])
  {
  }

  // ------------------------------------------------------------------
  // Looking up a few fields
  // ------------------------------------------------------------------

  lemma OtherLength(s: bytes, t: bytes)
    requires |s| != |t|
    ensures !EqIgnoreCase(s, t)
  {
  }

  lemma LookUp(h: Header, rest: seq<Header>, name: bytes)
    requires |h.name| != |name| || h.name == name
    ensures HeaderValues([h] + rest, name) == (if h.name == name then [h.value] else []) + HeaderValues(rest, name)
  {
    assert ([h] + rest)[1..] == rest;
    if h.name == name {
      EqIgnoreCaseReflexive(name);
    } else {
      OtherLength(h.name, name);
    }
  }

  lemma NoneElements(headers: seq<Header>, name: bytes)
    requires HeaderValues(headers, name) == []
    ensures Elements(headers, name) == [] && CountHeader(headers, name) == 0
    ensures forall token :: !HasToken(headers, name, token)
  {
    hide HeaderValues;
  }

  lemma OneElement(headers: seq<Header>, name: bytes, value: bytes)
    requires HeaderValues(headers, name) == [value] && IsMember(value)
    ensures Elements(headers, name) == [value] && HasToken(headers, name, value)
  {
    hide HeaderValues, Members;
    MembersOfMember(value);
    EqIgnoreCaseReflexive(value);
    assert [value][1..] == [];
    assert AllMembers([value]) == Members(value) + AllMembers([]);
    assert Elements(headers, name)[0] == value;
  }

  lemma NoUpgrade(headers: seq<Header>)
    requires HeaderValues(headers, UPGRADE) == []
    ensures UpgradeProtocols(headers) == Some([])
  {
    hide HeaderValues, ValidProtocol;
    NoneElements(headers, UPGRADE);
  }

  // ------------------------------------------------------------------
  // The 100 (Continue) flag
  // ------------------------------------------------------------------

  const EXPECTING := Request(
    "POST", "/",
    [Header(HOST, "a")] + ([Header(TRANSFER_ENCODING, CHUNKED)] + ([Header(EXPECT, CONTINUE_100)] + [])),
    Http11)

  lemma ExpectingFields()
    ensures var h := EXPECTING.headers;
      && HeaderValues(h, HOST) == ["a"] && HeaderValues(h, TRANSFER_ENCODING) == [CHUNKED]
      && HeaderValues(h, EXPECT) == [CONTINUE_100]
  {
    hide HeaderValues;
    ExpectingValues(HOST);
    ExpectingValues(TRANSFER_ENCODING);
    ExpectingValues(EXPECT);
  }

  lemma ExpectingOthers()
    ensures var h := EXPECTING.headers;
      HeaderValues(h, CONTENT_LENGTH) == [] && HeaderValues(h, CONNECTION) == [] && HeaderValues(h, UPGRADE) == []
  {
    hide HeaderValues;
    ExpectingValues(CONTENT_LENGTH);
    ExpectingValues(CONNECTION);
    ExpectingValues(UPGRADE);
  }

  lemma ExpectingValues(name: bytes)
    requires name in [HOST, TRANSFER_ENCODING, EXPECT, CONTENT_LENGTH, CONNECTION, UPGRADE]
    ensures HeaderValues(EXPECTING.headers, name) ==
      if name == HOST then ["a"]
      else if name == TRANSFER_ENCODING then [CHUNKED]
      else if name == EXPECT then [CONTINUE_100]
      else []
  {
    hide EqIgnoreCase;
    NameLengths();
    var third := [Header(EXPECT, CONTINUE_100)] + [];
    var second := [Header(TRANSFER_ENCODING, CHUNKED)] + third;
    LookUp(Header(EXPECT, CONTINUE_100), [], name);
    LookUp(Header(TRANSFER_ENCODING, CHUNKED), third, name);
    LookUp(Header(HOST, "a"), second, name);
  }

  lemma NameLengths()
    ensures |HOST| == 4 && |TRANSFER_ENCODING| == 17 && |EXPECT| == 6 && |CONTENT_LENGTH| == 14 && |CONNECTION| == 10
    ensures |UPGRADE| == 7
  {
  }

  lemma HostIsValid()
    ensures ValidHeader(Header(HOST, "a"))
  {
  }

  lemma CodingFieldIsValid()
    ensures ValidHeader(Header(TRANSFER_ENCODING, CHUNKED))
  {
  }

  lemma ExpectIsValid()
    ensures ValidHeader(Header(EXPECT, CONTINUE_100))
  {
  }

  lemma LineIsValid()
    ensures ValidMethod(EXPECTING.method_) && ValidTarget(EXPECTING.target)
  {
  }

  lemma ExpectingIsValid()
    ensures ValidMethod(EXPECTING.method_) && ValidTarget(EXPECTING.target) && ValidHeaders(EXPECTING.headers)
  {
    hide ValidHeader, ValidMethod, ValidTarget;
    LineIsValid();
    HostIsValid();
    CodingFieldIsValid();
    ExpectIsValid();
  }

  lemma ExpectingPlan(x: Externals)
    requires x.authority("a")
    ensures WritePlan(x, EXPECTING) == RequestPlan(Chunked, [])
    ensures ExpectsContinue(Http11, EXPECTING.headers, Chunked)
  {
    hide HeaderValues, AllMembers, EqIgnoreCase, ValidHeaders, ValidTarget, SelectFraming, UpgradeProtocols, Members;
    var h := EXPECTING.headers;
    ExpectingIsValid();
    ExpectingFields();
    ExpectingOthers();
    FieldMembers();
    OneElement(h, TRANSFER_ENCODING, CHUNKED);
    OneElement(h, EXPECT, CONTINUE_100);
    NoneElements(h, CONTENT_LENGTH);
    NoneElements(h, CONNECTION);
    NoUpgrade(h);
    EqIgnoreCaseReflexive(CHUNKED);
    FramingExact(h, Http11, 0);
  }

  lemma FieldMembers()
    ensures IsMember(CHUNKED) && IsMember(CONTINUE_100)
  {
  }

  lemma ExpectingSent(x: Externals, limits: Limits)
    requires x.authority("a")
    ensures var s := SendRequest(x, New(L.Client, limits), EXPECTING);
      s.Sent? && s.conn.writer == Some(Chunked) && s.conn.waiting
  {
    hide WritePlan, ExpectsContinue, Persistent, RequestBytes, KindOf;
    ExpectingPlan(x);
  }

  /** The client's whole message: a request that expects a 100, and no content. */
  function ExpectingWire(): bytes {
    RequestBytes(EXPECTING) + (LAST_CHUNK + TrailerBytes([]))
  }

  ghost predicate ReadsExpecting(x: Externals, limits: Limits) {
    && x.authority("a") && |RequestBytes(EXPECTING)| <= limits.maxHeadBytes && |TrailerBytes([])| <= limits.maxHeadBytes
    && ReadsRequest(x, New(L.Server, limits), EXPECTING, LAST_CHUNK + TrailerBytes([]))
    && ReadsTrailers(x, New(L.Server, limits), [], [])
  }

  lemma CannedReadsExpecting(limits: Limits)
    requires |RequestBytes(EXPECTING)| <= limits.maxHeadBytes && |TrailerBytes([])| <= limits.maxHeadBytes
    ensures ReadsExpecting(Canned(EXPECTING, REFUSAL), limits)
  {
    hide Canned, ReadsRequest, ReadsTrailers, RequestBytes, TrailerBytes, ValidMethod, ValidTarget, ValidHeaders;
    ExpectingIsValid();
    CannedIs(EXPECTING, REFUSAL, "a", 0, false);
    CannedReads(EXPECTING, REFUSAL, New(L.Server, limits), LAST_CHUNK + TrailerBytes([]));
    CannedReads(EXPECTING, REFUSAL, New(L.Server, limits), []);
  }

  /** The calls of the client, and what they put on the wire. */
  lemma ExpectingClient(x: Externals, limits: Limits)
    requires x.authority("a")
    ensures var head := SendRequest(x, New(L.Client, limits), EXPECTING);
      && head.Sent? && SendContent(head.conn, [], []).Sent?
      && head.out == RequestBytes(EXPECTING) && SendContent(head.conn, [], []).out == LAST_CHUNK + TrailerBytes([])
      && RunCalls(x, New(L.Client, limits), [CallSendRequest(EXPECTING), CallEndMessage([])])
         == SendContent(head.conn, [], []).conn
  {
    hide Coupled, SendRequest, EndMessage, RunCalls, After, RequestBytes, TrailerBytes, ValidTrailers;
    var c := New(L.Client, limits);
    ExpectingSent(x, limits);
    NewIsCoupled(L.Client, limits);
    SendRequestCoupled(x, c, EXPECTING);
    RequestWritten(x, c, EXPECTING);
    NoneAreValid();
    var head := SendRequest(x, c, EXPECTING).conn;
    ContentSent(head, [], []);
    assert ChunkedBytes([], []) == LAST_CHUNK + TrailerBytes([]);
    RunConcat(x, c, [CallSendRequest(EXPECTING)], [CallEndMessage([])]);
    assert [CallSendRequest(EXPECTING)] + [CallEndMessage([])] == [CallSendRequest(EXPECTING), CallEndMessage([])];
    OneCall(x, c, CallSendRequest(EXPECTING));
    OneCall(x, head, CallEndMessage([]));
    CallsSent(x, c, head);
    assert [] + EndMessage(head, []).out == EndMessage(head, []).out;
  }

  lemma CallsSent(x: Externals, c: Conn, d: Conn)
    ensures After(x, c, CallSendRequest(EXPECTING)) == Unless(SendRequest(x, c, EXPECTING), c)
    ensures After(x, d, CallEndMessage([])) == Unless(EndMessage(d, []), d)
  {
    hide SendRequest, EndMessage;
  }

  lemma NoneToFit(limit: nat)
    ensures Fits([], limit) && AllEmpty([])
  {
  }

  lemma ExpectingReceivable(x: Externals, limits: Limits)
    requires ReadsExpecting(x, limits)
    ensures Receivable(x, New(L.Server, limits), Chunked, [], [], [])
  {
    hide ReadsRequest, ReadsTrailers, RequestBytes, ValidHeaders;
    NoneAreValid();
    NoneToFit(limits.maxHeadBytes);
    assert |TrailerBytes([])| == 2;
  }

  lemma OneFragment(wire: bytes)
    requires wire != []
    ensures Fragments([wire]) && Concat([wire]) == wire
  {
    assert [wire][1..] == [] && wire + [] == wire;
  }

  /**
   The endpoints disagree on the flag.  The client sends this request and ends
   the message; the server receives exactly those bytes and polls.  Both are in
   the same lifecycle state, and only the server still says waiting.
   */
  lemma FlagsDiffer(x: Externals, limits: Limits) returns (calls: seq<Call>)
    requires ReadsExpecting(x, limits)
    ensures Received(x, New(L.Server, limits), calls) == ExpectingWire()
    ensures var client := RunCalls(x, New(L.Client, limits), [CallSendRequest(EXPECTING), CallEndMessage([])]);
      var server := RunCalls(x, New(L.Server, limits), calls);
      client.state == server.state && !client.waiting && server.waiting && server.peerVersion == Some(Http11)
  {
    hide Coupled, SendRequest, SendContent, RunCalls, Received, RequestBytes, TrailerBytes, ReadsRequest, ReadsTrailers, FeedAll,
         FeedCalls, WritePlan, Act, Trace, AllEmpty, ValidMethod, ValidHeaders, ValidTarget;
    var c, d := New(L.Client, limits), New(L.Server, limits);
    var wire := ExpectingWire();
    ExpectingSent(x, limits);
    ExpectingClient(x, limits);
    ExpectingIsValid();
    NewIsCoupled(L.Client, limits);
    NewIsReady(L.Server, limits);
    ReadyAwaits(d);
    RequestWritten(x, c, EXPECTING);
    RequestMoves(x, c, d, EXPECTING);
    NoneAreValid();
    var content := SendContent(SendRequest(x, c, EXPECTING).conn, [], []).out;
    ExpectingReceivable(x, limits);
    assert content + [] == content && content == LAST_CHUNK + TrailerBytes([]);
    OneFragment(wire);
    RequestRoundTrip(x, c, d, EXPECTING, Chunked, [], [], [], [wire]);
    assert AllEmpty([]) by {
      NoneToFit(1);
    }
    calls := FeedCalls(x, d, [wire]);
    FeedIsRun(x, d, [wire]);
  }

  // ------------------------------------------------------------------
  // A closure that goes unsaid
  // ------------------------------------------------------------------

  const TUNNEL := Request(CONNECT, "a", [Header(HOST, "a")] + [], Http11)
  const REFUSAL := Response(403, [], [], Http11)

  lemma TunnelIsValid()
    ensures ValidMethod(TUNNEL.method_) && ValidTarget(TUNNEL.target) && ValidHeaders(TUNNEL.headers)
  {
    HostIsValid();
  }

  lemma TunnelValues(name: bytes)
    requires name in [HOST, TRANSFER_ENCODING, EXPECT, CONTENT_LENGTH, CONNECTION, UPGRADE]
    ensures HeaderValues(TUNNEL.headers, name) == if name == HOST then ["a"] else []
  {
    hide EqIgnoreCase;
    NameLengths();
    LookUp(Header(HOST, "a"), [], name);
  }

  lemma TunnelPlan(x: Externals)
    requires x.authority("a")
    ensures WritePlan(x, TUNNEL) == RequestPlan(Fixed(0), []) && Persistent(Http11, TUNNEL.headers)
  {
    hide HeaderValues, AllMembers, EqIgnoreCase, ValidHeaders, ValidTarget, SelectFraming, UpgradeProtocols, Members;
    var h := TUNNEL.headers;
    TunnelIsValid();
    TunnelValues(HOST);
    TunnelValues(TRANSFER_ENCODING);
    TunnelValues(CONTENT_LENGTH);
    TunnelValues(EXPECT);
    TunnelValues(CONNECTION);
    TunnelValues(UPGRADE);
    NoneElements(h, TRANSFER_ENCODING);
    NoneElements(h, CONTENT_LENGTH);
    NoneElements(h, EXPECT);
    NoneElements(h, CONNECTION);
    NoUpgrade(h);
    FramingExact(h, Http11, 0);
  }

  ghost predicate ReadsTunnel(x: Externals, limits: Limits) {
    && x.authority("a") && |RequestBytes(TUNNEL)| <= limits.maxHeadBytes
    && ReadsRequest(x, New(L.Server, limits), TUNNEL, [])
  }

  lemma CannedReadsTunnel(limits: Limits)
    requires |RequestBytes(TUNNEL)| <= limits.maxHeadBytes
    ensures ReadsTunnel(Canned(TUNNEL, REFUSAL), limits)
  {
    hide Canned, ReadsRequest, RequestBytes, ValidMethod, ValidTarget, ValidHeaders;
    TunnelIsValid();
    CannedIs(TUNNEL, REFUSAL, "a", 0, false);
    CannedReads(TUNNEL, REFUSAL, New(L.Server, limits), []);
  }

  lemma TunnelSent(x: Externals, limits: Limits)
    requires x.authority("a")
    ensures var s := SendRequest(x, New(L.Client, limits), TUNNEL);
      && s.Sent? && s.conn.requestKind == Some(ConnectKind)
      && s.conn.state == L.Joint(L.SendBody, L.SendResponse, true, L.Proposals(true, false))
  {
    hide WritePlan, ExpectsContinue, Persistent, RequestBytes;
    TunnelPlan(x);
    assert |HEAD| == 4 && |CONNECT| == 7;
  }

  /** The server once it has polled the request. */
  lemma TunnelAccepted(x: Externals, limits: Limits)
    requires ReadsTunnel(x, limits)
    ensures var c := Next(x, Feed(New(L.Server, limits), RequestBytes(TUNNEL))).conn;
      && c.role == L.Server && c.requestKind == Some(ConnectKind) && c.peerVersion == Some(Http11)
      && c.state == L.Joint(L.SendBody, L.SendResponse, true, L.Proposals(true, false))
  {
    hide NextInner, Coupled, SendRequest, AcceptRequest, WritePlan, RequestMove, Act, RequestBytes, ReadsRequest, ValidMethod,
         ValidTarget, ValidHeaders;
    var c, d := New(L.Client, limits), New(L.Server, limits);
    var whole := Feed(d, RequestBytes(TUNNEL));
    assert whole.input == RequestBytes(TUNNEL) + [];
    TunnelSent(x, limits);
    TunnelIsValid();
    NewIsReady(L.Server, limits);
    ReadyAwaits(d);
    WholeAwaits(d, RequestBytes(TUNNEL));
    SameReadsRequest(x, d, whole, TUNNEL, []);
    RequestTaken(x, whole, TUNNEL, []);
    RequestWritten(x, c, TUNNEL);
    RequestMoves(x, c, d, TUNNEL);
    RequestAgreement(x, c, whole.(input := []), TUNNEL);
    AcceptKeepsPlain(x, whole.(input := []), TUNNEL);
  }

  lemma RefusalPlan(c: Conn)
    requires c.role == L.Server && c.requestKind == Some(ConnectKind) && c.peerVersion == Some(Http11)
    requires c.state == L.Joint(L.SendBody, L.SendResponse, true, L.Proposals(true, false))
    ensures SendResponse(c, REFUSAL).Sent?
  {
    hide SetConnectionClose, ResponseBytes, HasToken, Persistent, L.DisableKeepAlive;
  }

  lemma NoOptions()
    ensures !SaysClose([])
  {
    NoneElements([], CONNECTION);
  }

  /**
   A closure that goes unsaid.  A server receives a CONNECT request over
   HTTP/1.1, polls it and refuses it: the response does not say close, and the
   connection is never reused.
   */
  lemma ClosureUnsaid(x: Externals, limits: Limits)
    requires ReadsTunnel(x, limits)
    ensures var c := RunCalls(x, New(L.Server, limits), [CallReceive(RequestBytes(TUNNEL)), CallNext]);
      && SendResponse(c, REFUSAL).Sent? && PlanResponse(c, REFUSAL).ResponsePlan?
      && !SaysClose(EmittedHead(c, REFUSAL).headers) && Persistent(Http11, EmittedHead(c, REFUSAL).headers)
      && !SendResponse(c, REFUSAL).conn.state.keepAlive
  {
    hide Coupled, RunCalls, Next, SendResponse, PlanResponse, SaysClose, RequestBytes, ReadsTunnel, Persistent, EmittedHead;
    var d := New(L.Server, limits);
    var wire := RequestBytes(TUNNEL);
    assert wire != [] by {
      WireIsThere();
    }
    TwoCalls(x, d, wire);
    TunnelAccepted(x, limits);
    var c := Next(x, Feed(d, wire)).conn;
    NewIsCoupled(L.Server, limits);
    FeedCoupled(d, wire);
    NextCoupled(x, Feed(d, wire));
    RefusalPlan(c);
    CoupledIsSound(c);
    ClosureExactly(c, REFUSAL);
    EmittedOptions(c, REFUSAL);
    NoOptions();
    PersistentIs(Http11, EmittedHead(c, REFUSAL).headers);
  }

  lemma WireIsThere()
    ensures RequestBytes(TUNNEL) != []
  {
    assert |SectionBytes([RequestLine(TUNNEL)] + HeaderLines(TUNNEL.headers))| >= 2;
  }

  lemma TwoCalls(x: Externals, d: Conn, wire: bytes)
    requires !d.eof && wire != []
    ensures RunCalls(x, d, [CallReceive(wire), CallNext]) == Next(x, Feed(d, wire)).conn
  {
    hide RunCalls, Next, After;
    RunConcat(x, d, [CallReceive(wire)], [CallNext]);
    assert [CallReceive(wire)] + [CallNext] == [CallReceive(wire), CallNext];
    FeedIsReceived(x, d, wire);
    OneCall(x, Feed(d, wire), CallNext);
    NextIs(x, Feed(d, wire));
  }

  lemma NextIs(x: Externals, c: Conn)
    ensures After(x, c, CallNext) == Next(x, c).conn
  {
    hide Next;
  }

  const EARLY := Response(200, [], [], Http11)

  /** Nor does a server say it that has served an HTTP/1.1 client, starts the
      next cycle and answers before there is a request. */
  lemma EarlyClosureUnsaid(c: Conn)
    requires c.role == L.Server && c.peerVersion == Some(Http11) && StartNextCycle(c).Sent?
    ensures var next := StartNextCycle(c).conn;
      && SendResponse(next, EARLY).Sent? && PlanResponse(next, EARLY).ResponsePlan?
      && !SaysClose(EmittedHead(next, EARLY).headers) && !SendResponse(next, EARLY).conn.state.keepAlive
  {
    var next := StartNextCycle(c).conn;
    assert SendResponse(next, EARLY).Sent? by {
      hide SetConnectionClose, ResponseBytes, HasToken, Persistent, L.DisableKeepAlive;
    }
    assert Sound(next.state);
    hide SendResponse, PlanResponse, SaysClose, Sound;
    ClosureExactly(next, EARLY);
    EmittedOptions(next, EARLY);
    NoOptions();
    PersistentIs(Http11, EmittedHead(next, EARLY).headers);
  }
}
