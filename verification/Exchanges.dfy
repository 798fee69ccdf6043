/**
 Whole exchanges between a client and a server over the wire: a request and its
 response, with their content, in any fragments; and any number of exchanges on
 one connection.  Nothing is assumed of what either side has seen: it follows
 from the bytes.
 */
module Exchanges {
  import opened Prelude
  import opened Bytes
  import opened Fields
  import opened Heads
  import opened ChunkedBodies
  import opened ConnectionModel
  import opened LifecycleRuns
  import opened Coupling
  import opened Polling
  import opened Fragmentation
  import opened FragmentedRuns
  import opened Agreement
  import opened RoundTrip
  import L = Lifecycle

  // ------------------------------------------------------------------
  // The lifecycle of one exchange
  // ------------------------------------------------------------------

  /** Request, end, final response, end: the connection can be reused exactly
      when neither message gave that up and the request was no CONNECT. */
  lemma ExchangeStates(p: L.Proposals, closeFirst: bool, closeSecond: bool, j: L.Joint, k: L.Joint, l: L.Joint, m: L.Joint)
    requires Act(L.INITIAL, Move(L.Client, L.Request(p), closeFirst)) == Some(j)
    requires L.Process(j, L.Client, L.EndOfMessage) == Some(k)
    requires Act(k, Move(L.Server, L.Response, closeSecond)) == Some(l)
    requires L.Process(l, L.Server, L.EndOfMessage) == Some(m)
    ensures m.keepAlive <==> !closeFirst && !closeSecond && !p.connect
    ensures m == if m.keepAlive then L.Joint(L.Done, L.Done, true, L.NO_PROPOSALS)
                 else L.Joint(L.MustClose, L.MustClose, false, L.NO_PROPOSALS)
  {
    hide Act, L.Process;
    AfterRequest(p, closeFirst);
    AfterUpload(j);
    AfterAnswer(k, closeSecond);
    AfterDownload(l);
  }

  lemma AfterUpload(j: L.Joint)
    requires j.client == L.SendBody && j.server == L.SendResponse
    ensures L.Process(j, L.Client, L.EndOfMessage) ==
      Some(j.(client := if j.proposals.Pending() then L.MightSwitchProtocol else if j.keepAlive then L.Done else L.MustClose))
  {
  }

  lemma AfterAnswer(k: L.Joint, close: bool)
    requires k.server == L.SendResponse && (k.client == L.MightSwitchProtocol || k.client == L.Done || k.client == L.MustClose)
    requires k.client == L.MightSwitchProtocol <==> k.proposals.Pending()
    requires k.client == L.MustClose ==> !k.keepAlive
    ensures var keep := k.keepAlive && !k.proposals.connect && !close;
      Act(k, Move(L.Server, L.Response, close))
      == Some(L.Joint(if keep then L.Done else L.MustClose, L.SendBody, keep, L.NO_PROPOSALS))
  {
  }

  lemma AfterDownload(l: L.Joint)
    requires l.server == L.SendBody && l.proposals == L.NO_PROPOSALS && l.client == if l.keepAlive then L.Done else L.MustClose
    ensures L.Process(l, L.Server, L.EndOfMessage) == Some(l.(server := l.client))
  {
  }

  lemma AfterRequest(p: L.Proposals, close: bool)
    ensures Act(L.INITIAL, Move(L.Client, L.Request(p), close)) == Some(L.Joint(L.SendBody, L.SendResponse, !close, p))
  {
  }

  // ------------------------------------------------------------------
  // One exchange
  // ------------------------------------------------------------------

  /** Between cycles, with nothing unread. */
  predicate Ready(c: Conn) {
    Coupled(c) && c.state == L.INITIAL && c.reader == AwaitHead && c.progress.None? && !c.eof && c.input == []
  }

  /** What both sides do in an exchange, and how the transport cuts it. */
  datatype Exchange = Exchange(
    request: Request, upload: seq<bytes>, uploadTrailers: seq<Header>, outward: seq<bytes>,
    response: Response, download: seq<bytes>, downloadTrailers: seq<Header>, homeward: seq<bytes>)

  function RequestSent(x: Externals, c: Conn, e: Exchange): Sent {
    match SendRequest(x, c, e.request)
    case Refused => Refused
    case Sent(head, out) =>
      match SendContent(head, e.upload, e.uploadTrailers)
      case Refused => Refused
      case Sent(last, content) => Sent(last, out + content)
  }

  function ResponseSent(d: Conn, e: Exchange): Sent {
    match SendResponse(d, e.response)
    case Refused => Refused
    case Sent(head, out) =>
      match SendContent(head, e.download, e.downloadTrailers)
      case Refused => Refused
      case Sent(last, content) => Sent(last, out + content)
  }

  function FramingOf(sent: Sent): Framing {
    if sent.Sent? && sent.conn.writer.Some? then sent.conn.writer.value else Fixed(0)
  }

  /** The client's request can be sent, fits the server's limits, and is read
      back by its parser; its bytes are the fragments. */
  ghost predicate Outward(x: Externals, c: Conn, d: Conn, e: Exchange) {
    && RequestSent(x, c, e).Sent? && ValidMethod(e.request.method_)
    && |RequestBytes(e.request)| <= d.limits.maxHeadBytes
    && Fragments(e.outward) && Concat(e.outward) == RequestSent(x, c, e).out
    && var head := SendRequest(x, c, e.request);
       && ReadsRequest(x, d, e.request, SendContent(head.conn, e.upload, e.uploadTrailers).out)
       && Receivable(x, d, FramingOf(head), e.upload, e.uploadTrailers, [])
  }

  /** The same of the server's response. */
  ghost predicate Homeward(x: Externals, c: Conn, d: Conn, e: Exchange) {
    && ResponseSent(d, e).Sent?
    && |ResponseBytes(EmittedHead(d, e.response))| <= c.limits.maxHeadBytes
    && Fragments(e.homeward) && Concat(e.homeward) == ResponseSent(d, e).out
    && var head := SendResponse(d, e.response);
       && FramingOf(head) != CloseDelimited
       && ReadsResponse(x, c, EmittedHead(d, e.response), SendContent(head.conn, e.download, e.downloadTrailers).out)
       && Receivable(x, c, FramingOf(head), e.download, e.downloadTrailers, [])
  }

  /** What the server should report of the request. */
  function RequestTrace(x: Externals, c: Conn, e: Exchange): seq<Token> {
    [Mark(RequestEvent(e.request))] + ContentTokens(FramingOf(SendRequest(x, c, e.request)), e.upload)
    + [Mark(EndEvent(e.uploadTrailers))]
  }

  function ResponseTrace(d: Conn, e: Exchange): seq<Token>
    requires PlanResponse(d, e.response).ResponsePlan?
  {
    [Mark(ResponseEvent(EmittedHead(d, e.response)))] + ContentTokens(FramingOf(SendResponse(d, e.response)), e.download)
    + [Mark(EndEvent(e.downloadTrailers))]
  }

  /** A ready server accepts the request of a ready client. */
  lemma RequestIsDelivered(x: Externals, c: Conn, d: Conn, e: Exchange)
    requires Ready(c) && Ready(d) && c.role == L.Client && d.role == L.Server && Outward(x, c, d, e)
    ensures var sent := RequestSent(x, c, e).conn;
      var a := FeedAll(x, d, e.outward);
      && Trace(a.events) == RequestTrace(x, c, e)
      && !a.outcome.Failed? && a.conn.input == [] && a.conn.state == sent.state
      && Coupled(a.conn) && SameContext(sent, a.conn) && SameEnd(d, a.conn) && a.conn.peerVersion == Some(e.request.version)
  {
    hide Coupled, SendRequest, SendContent, WritePlan, RequestMove, Act, RequestBytes, Receivable, ContentTokens, ReadsRequest,
         FeedAll, Fragments, Concat, Trace, AllEmpty, ValidMethod;
    var head := SendRequest(x, c, e.request);
    var content := SendContent(head.conn, e.upload, e.uploadTrailers);
    RequestWritten(x, c, e.request);
    RequestFraming(x, c, e.request);
    RequestMoves(x, c, d, e.request);
    ReadyAwaits(d);
    assert content.out + [] == content.out;
    RequestRoundTrip(x, c, d, e.request, FramingOf(head), e.upload, e.uploadTrailers, [], e.outward);
  }

  lemma NewIsReady(role: L.Role, limits: Limits)
    ensures Ready(New(role, limits))
  {
    NewIsCoupled(role, limits);
  }

  lemma ReadyAwaits(c: Conn)
    requires Ready(c)
    ensures AwaitsHead(c)
  {
    hide Sound;
  }

  lemma RequestMoves(x: Externals, c: Conn, d: Conn, r: Request)
    requires SendRequest(x, c, r).Sent? && WritePlan(x, r).RequestPlan? && d.state == c.state
    ensures Act(d.state, RequestMove(r, WritePlan(x, r))) == Some(SendRequest(x, c, r).conn.state)
  {
    hide WritePlan, L.Process, L.DisableKeepAlive, Persistent, ExpectsContinue, RequestBytes, KindOf;
  }

  /** The client that has sent its request is ready for the response. */
  lemma ClientAwaits(x: Externals, c: Conn, e: Exchange)
    requires Ready(c) && c.role == L.Client && RequestSent(x, c, e).Sent?
    ensures var sent := RequestSent(x, c, e).conn;
      && AwaitsHead(sent) && sent.input == [] && sent.role == L.Client && sent.limits == c.limits
      && Coupled(sent)
  {
    var head := SendRequest(x, c, e.request);
    RequestWritten(x, c, e.request);
    RequestFraming(x, c, e.request);
    RequestKeeps(x, c, e.request);
    SendRequestCoupled(x, c, e.request);
    ContentKeeps(head.conn, e.upload, e.uploadTrailers);
    ContentCoupled(head.conn, e.upload, e.uploadTrailers);
    RequestMoves(x, c, c, e.request);
    ContentWritten(head.conn, FramingOf(head), e.upload, e.uploadTrailers);
    ServerOwes(c.state, RequestMove(e.request, WritePlan(x, e.request)), head.conn.state, RequestSent(x, c, e).conn.state);
  }

  lemma RequestKeeps(x: Externals, c: Conn, r: Request)
    requires SendRequest(x, c, r).Sent?
    ensures var d := SendRequest(x, c, r).conn;
      && d.reader == c.reader && d.progress == c.progress && d.input == c.input && d.eof == c.eof && d.limits == c.limits
      && d.role == c.role && d.peerVersion == c.peerVersion && d.requestKind == Some(KindOf(r.method_))
  {
    hide WritePlan, L.Process, L.DisableKeepAlive, Persistent, ExpectsContinue, RequestBytes, KindOf;
  }

  lemma ServerOwes(i: L.Joint, m: Action, j: L.Joint, k: L.Joint)
    requires i == L.INITIAL && m.Move? && m.role == L.Client && m.event.Request? && Act(i, m) == Some(j)
    requires L.Process(j, L.Client, L.EndOfMessage) == Some(k)
    ensures k.server == L.SendResponse
  {
    hide Act, L.Process;
    AfterRequest(m.event.proposals, m.close);
    AfterUpload(j);
  }

  lemma {:induction false} BodiesCoupled(c: Conn, bodies: seq<bytes>)
    requires Coupled(c) && SendBodies(c, bodies).Sent?
    ensures Coupled(SendBodies(c, bodies).conn)
    decreases |bodies|
  {
    hide Coupled, SendData;
    if bodies != [] {
      SendDataCoupled(c, bodies[0]);
      BodiesCoupled(SendData(c, bodies[0]).conn, bodies[1..]);
    }
  }

  lemma ContentCoupled(c: Conn, bodies: seq<bytes>, trailers: seq<Header>)
    requires Coupled(c) && SendContent(c, bodies, trailers).Sent?
    ensures Coupled(SendContent(c, bodies, trailers).conn)
  {
    hide Coupled, SendBodies, EndMessage;
    BodiesCoupled(c, bodies);
    EndMessageCoupled(SendBodies(c, bodies).conn, trailers);
  }

  /** The client accepts the response of a server in its own state. */
  lemma ResponseIsDelivered(x: Externals, c: Conn, d: Conn, e: Exchange)
    requires AwaitsHead(c) && c.role == L.Client && c.input == []
    requires Coupled(d) && c.state == d.state && c.requestKind == d.requestKind && Homeward(x, c, d, e)
    ensures PlanResponse(d, e.response).ResponsePlan?
    ensures var sent := ResponseSent(d, e).conn;
      var b := FeedAll(x, c, e.homeward);
      && Trace(b.events) == ResponseTrace(d, e)
      && !b.outcome.Failed? && b.conn.input == [] && b.conn.state == sent.state
      && Coupled(b.conn) && SameEnd(c, b.conn)
  {
    hide Coupled, SendResponse, SendContent, PlanResponse, EmittedHead, ResponseMove, Act, ResponseBytes, Receivable,
         ContentTokens, ReadsResponse, FeedAll, Fragments, Concat, Trace, Active;
    var head := SendResponse(d, e.response);
    var content := SendContent(head.conn, e.download, e.downloadTrailers);
    ResponseWritten(d, e.response);
    ResponseMoves(d, e.response);
    assert content.out + [] == content.out;
    ResponseRoundTrip(x, d, c, e.response, FramingOf(head), e.download, e.downloadTrailers, [], e.homeward);
  }

  lemma ResponseMoves(d: Conn, r: Response)
    requires SendResponse(d, r).Sent?
    ensures PlanResponse(d, r).ResponsePlan? && SendResponse(d, r).conn.writer == Some(PlanResponse(d, r).framing)
    ensures Act(d.state, ResponseMove(d.requestKind, EmittedHead(d, r))) == Some(SendResponse(d, r).conn.state)
  {
    hide PlanResponse, L.Process, L.DisableKeepAlive, Persistent, ResponseBytes, FinalEvent;
  }

  lemma ResponseKeeps(d: Conn, r: Response)
    requires SendResponse(d, r).Sent?
    ensures var e := SendResponse(d, r).conn;
      && e.reader == d.reader && e.input == d.input && e.eof == d.eof && e.role == d.role && e.limits == d.limits
      && e.requestKind == d.requestKind && e.peerVersion == d.peerVersion
  {
    hide PlanResponse, L.Process, L.DisableKeepAlive, Persistent, ResponseBytes, FinalEvent;
  }

  /** Whether a message pair leaves the connection reusable. */
  predicate Reuses(r: Request, s: Response) {
    Persistent(r.version, r.headers) && Persistent(s.version, s.headers) && r.method_ != CONNECT
  }

  /** The state after both messages, from either side. */
  lemma ExchangeState(x: Externals, c: Conn, d: Conn, e: Exchange)
    requires c.state == L.INITIAL && Coupled(c) && RequestSent(x, c, e).Sent?
    requires Coupled(d) && d.state == RequestSent(x, c, e).conn.state && ResponseSent(d, e).Sent?
    requires FramingOf(SendResponse(d, e.response)) != CloseDelimited
    ensures PlanResponse(d, e.response).ResponsePlan?
    ensures var j := ResponseSent(d, e).conn.state;
      && (j.keepAlive <==> Reuses(e.request, EmittedHead(d, e.response)))
      && j == if j.keepAlive then L.Joint(L.Done, L.Done, true, L.NO_PROPOSALS)
              else L.Joint(L.MustClose, L.MustClose, false, L.NO_PROPOSALS)
  {
    assert Sound(d.state);
    hide Coupled, SendRequest, SendResponse, SendContent, PlanResponse, Act, L.Process, Persistent, FinalEvent, Sound, WritePlan;
    var r, s := e.request, EmittedHeadOf(d, e.response);
    var first, second := SendRequest(x, c, r).conn, SendResponse(d, e.response).conn;
    RequestWritten(x, c, r);
    RequestFraming(x, c, r);
    RequestMoves(x, c, c, r);
    SendRequestCoupled(x, c, r);
    ContentWritten(first, first.writer.value, e.upload, e.uploadTrailers);
    ResponseWritten(d, e.response);
    ResponseMoves(d, e.response);
    SendResponseCoupled(d, e.response);
    ContentWritten(second, second.writer.value, e.download, e.downloadTrailers);
    ResponderOf(d.requestKind, s);
    var m := ResponseMove(d.requestKind, s);
    StartState(d.state, m);
    ExchangeStates(RequestProposals(r, WritePlan(x, r)).proposals, !Persistent(r.version, r.headers), m.close,
                   first.state, d.state, second.state, ResponseSent(d, e).conn.state);
  }

  function EmittedHeadOf(d: Conn, r: Response): Response {
    if PlanResponse(d, r).ResponsePlan? then EmittedHead(d, r) else r
  }

  /** Feeds what can be fed. */
  function Fed(x: Externals, c: Conn, fragments: seq<bytes>): Drained {
    if Coupled(c) && !c.eof && Fragments(fragments) then FeedAll(x, c, fragments) else Drained(c, [], NeedData)
  }

  /** The client once it has asked, what the server then hears, the server once it
      has answered, and what the client then hears. */
  datatype Passage = Passage(asked: Conn, heard: Drained, answered: Conn, told: Drained)

  function Carry(x: Externals, c: Conn, d: Conn, e: Exchange): Passage {
    var asked, heard := Unless(RequestSent(x, c, e), c), Fed(x, d, e.outward);
    Passage(asked, heard, Unless(ResponseSent(heard.conn, e), heard.conn), Fed(x, asked, e.homeward))
  }

  /** Both messages of the exchange are sent and can be read. */
  ghost predicate Carried(x: Externals, c: Conn, d: Conn, e: Exchange) {
    Outward(x, c, d, e) && Homeward(x, Carry(x, c, d, e).asked, Carry(x, c, d, e).heard.conn, e)
  }

  lemma OutwardLeg(x: Externals, c: Conn, d: Conn, e: Exchange)
    requires Ready(c) && Ready(d) && c.role == L.Client && d.role == L.Server && Outward(x, c, d, e)
    ensures var t := Carry(x, c, d, e);
      && RequestSent(x, c, e) == Sent(t.asked, Concat(e.outward))
      && Trace(t.heard.events) == RequestTrace(x, c, e)
      && !t.heard.outcome.Failed? && t.heard.conn.input == [] && t.heard.conn.state == t.asked.state
      && Coupled(t.heard.conn) && SameContext(t.asked, t.heard.conn) && SameEnd(d, t.heard.conn)
      && t.heard.conn.peerVersion == Some(e.request.version)
      && AwaitsHead(t.asked) && t.asked.input == [] && t.asked.role == L.Client && t.asked.limits == c.limits
  {
    hide Coupled, RequestSent, ResponseSent, Outward, FeedAll, Trace, RequestTrace, Fragments, Active;
    OutwardSent(x, c, d, e);
    RequestIsDelivered(x, c, d, e);
    ClientAwaits(x, c, e);
  }

  lemma HomewardLeg(x: Externals, c: Conn, d: Conn, e: Exchange)
    requires AwaitsHead(c) && c.role == L.Client && c.input == []
    requires Coupled(d) && c.state == d.state && c.requestKind == d.requestKind && Homeward(x, c, d, e)
    ensures PlanResponse(d, e.response).ResponsePlan?
    ensures var answered, b := Unless(ResponseSent(d, e), d), Fed(x, c, e.homeward);
      && ResponseSent(d, e) == Sent(answered, Concat(e.homeward))
      && Trace(b.events) == ResponseTrace(d, e)
      && !b.outcome.Failed? && b.conn.input == [] && b.conn.state == answered.state
      && Coupled(b.conn) && SameEnd(c, b.conn)
  {
    assert Coupled(c) && !c.eof;
    hide Coupled, ResponseSent, Homeward, FeedAll, Trace, ResponseTrace, Fragments, PlanResponse, AwaitsHead;
    HomewardSent(x, c, d, e);
    ResponseIsDelivered(x, c, d, e);
  }

  /**
   A whole exchange.  A client and a server, ready for each other, exchange a
   request and its response, with content, in any fragments either way.  Each
   reports exactly what the other sent, both end in the same joint state with
   nothing unread, and both can start the next cycle exactly when neither
   message forbids reuse; then they are ready for each other again.
   */
  lemma WholeExchange(x: Externals, c: Conn, d: Conn, e: Exchange)
    requires Ready(c) && Ready(d) && c.role == L.Client && d.role == L.Server && Carried(x, c, d, e)
    ensures PlanResponse(Carry(x, c, d, e).heard.conn, e.response).ResponsePlan?
    ensures var t := Carry(x, c, d, e);
      && Trace(t.heard.events) == RequestTrace(x, c, e) && Trace(t.told.events) == ResponseTrace(t.heard.conn, e)
      && !t.heard.outcome.Failed? && !t.told.outcome.Failed?
      && t.told.conn.state == t.answered.state && t.told.conn.input == [] && t.answered.input == []
      && (t.told.conn.state.keepAlive <==> Reuses(e.request, EmittedHead(t.heard.conn, e.response)))
      && Renewed(t.told.conn, c) && Renewed(t.answered, d)
  {
    hide Coupled, RequestSent, ResponseSent, Outward, Homeward, Fed, Trace, RequestTrace, ResponseTrace, EmittedHead,
         PlanResponse, Reuses, SendResponse, Concat, AwaitsHead, Fragments, Renewed;
    var t := Carry(x, c, d, e);
    OutwardLeg(x, c, d, e);
    HomewardSent(x, t.asked, t.heard.conn, e);
    HomewardLeg(x, t.asked, t.heard.conn, e);
    ExchangeState(x, c, t.heard.conn, e);
    AnsweredKeeps(t.heard.conn, e);
    AwaitsOpen(t.asked);
    Renews(t.told.conn, c);
    Renews(t.answered, d);
  }

  lemma AwaitsOpen(c: Conn)
    requires AwaitsHead(c)
    ensures !c.eof
  {
  }

  lemma OutwardSent(x: Externals, c: Conn, d: Conn, e: Exchange)
    requires Outward(x, c, d, e)
    ensures RequestSent(x, c, e).Sent? && Fragments(e.outward) && Concat(e.outward) == RequestSent(x, c, e).out
  {
    hide RequestSent;
  }

  lemma HomewardSent(x: Externals, c: Conn, d: Conn, e: Exchange)
    requires Homeward(x, c, d, e)
    ensures ResponseSent(d, e).Sent? && Fragments(e.homeward) && Concat(e.homeward) == ResponseSent(d, e).out
    ensures FramingOf(SendResponse(d, e.response)) != CloseDelimited
  {
    hide ResponseSent, SendResponse;
  }

  lemma AnsweredKeeps(d: Conn, e: Exchange)
    requires Coupled(d) && ResponseSent(d, e).Sent?
    ensures var answered := ResponseSent(d, e).conn;
      && answered.reader == d.reader && answered.input == d.input && answered.eof == d.eof
      && answered.role == d.role && answered.limits == d.limits && Coupled(answered)
  {
    hide Coupled, SendResponse, SendContent;
    var head := SendResponse(d, e.response).conn;
    ResponseKeeps(d, e.response);
    SendResponseCoupled(d, e.response);
    ContentKeeps(head, e.download, e.downloadTrailers);
    ContentCoupled(head, e.download, e.downloadTrailers);
  }

  /** The next cycle starts exactly when reuse is possible, and is as ready as the last. */
  predicate Renewed(c: Conn, before: Conn) {
    && (StartNextCycle(c).Sent? <==> c.state.keepAlive)
    && (StartNextCycle(c).Sent? ==> (var next := StartNextCycle(c).conn;
          Ready(next) && next.role == before.role && next.limits == before.limits))
  }

  lemma Renews(c: Conn, before: Conn)
    requires Coupled(c) && !c.eof && c.input == [] && c.role == before.role && c.limits == before.limits
    requires c.state == if c.state.keepAlive then L.Joint(L.Done, L.Done, true, L.NO_PROPOSALS)
                        else L.Joint(L.MustClose, L.MustClose, false, L.NO_PROPOSALS)
    ensures Renewed(c, before)
  {
    hide Coupled;
    StartNextCycleCoupled(c);
  }

  // ------------------------------------------------------------------
  // Any number of exchanges
  // ------------------------------------------------------------------

  /** The two endpoints and what they have reported so far. */
  datatype Pair = Pair(client: Conn, server: Conn, heard: seq<Token>, told: seq<Token>)

  /** One exchange, and the next cycle on both sides where it can start. */
  function Proceed(x: Externals, p: Pair, e: Exchange): Pair {
    var t := Carry(x, p.client, p.server, e);
    Pair(Unless(StartNextCycle(t.told.conn), t.told.conn), Unless(StartNextCycle(t.answered), t.answered),
         p.heard + Trace(t.heard.events), p.told + Trace(t.told.events))
  }

  function Converse(x: Externals, p: Pair, es: seq<Exchange>): Pair
    decreases |es|
  {
    if es == [] then p else Converse(x, Proceed(x, p, es[0]), es[1..])
  }

  /** Every exchange is carried, and all but the last leave the connection reusable. */
  ghost predicate AllCarried(x: Externals, p: Pair, es: seq<Exchange>)
    decreases |es|
  {
    es == [] ||
    (&& Carried(x, p.client, p.server, es[0])
     && (|es| > 1 ==>
           Reuses(es[0].request, EmittedHeadOf(Carry(x, p.client, p.server, es[0]).heard.conn, es[0].response)))
     && AllCarried(x, Proceed(x, p, es[0]), es[1..]))
  }

  /** What the server should have reported of all exchanges, and what the client. */
  function AllRequests(x: Externals, p: Pair, es: seq<Exchange>): seq<Token>
    decreases |es|
  {
    if es == [] then [] else RequestTrace(x, p.client, es[0]) + AllRequests(x, Proceed(x, p, es[0]), es[1..])
  }

  function AllResponses(x: Externals, p: Pair, es: seq<Exchange>): seq<Token>
    decreases |es|
  {
    if es == [] then []
    else
      var d := Carry(x, p.client, p.server, es[0]).heard.conn;
      (if PlanResponse(d, es[0].response).ResponsePlan? then ResponseTrace(d, es[0]) else [])
      + AllResponses(x, Proceed(x, p, es[0]), es[1..])
  }

  predicate ReadyPair(p: Pair) {
    Ready(p.client) && Ready(p.server) && p.client.role == L.Client && p.server.role == L.Server
  }

  lemma ExchangeProceeds(x: Externals, p: Pair, e: Exchange)
    requires ReadyPair(p) && Carried(x, p.client, p.server, e)
    ensures var q := Proceed(x, p, e);
      var heard := Carry(x, p.client, p.server, e).heard.conn;
      && PlanResponse(heard, e.response).ResponsePlan?
      && q.heard == p.heard + RequestTrace(x, p.client, e) && q.told == p.told + ResponseTrace(heard, e)
      && q.client.state == q.server.state
      && (Reuses(e.request, EmittedHead(heard, e.response)) ==> ReadyPair(q))
  {
    hide Carried, Carry, Trace, RequestTrace, ResponseTrace, PlanResponse, EmittedHead, Reuses, Ready;
    WholeExchange(x, p.client, p.server, e);
    var t := Carry(x, p.client, p.server, e);
    CycledAlike(t.told.conn, t.answered);
  }

  lemma CycledAlike(c: Conn, d: Conn)
    requires c.state == d.state
    ensures Unless(StartNextCycle(c), c).state == Unless(StartNextCycle(d), d).state
  {
  }

  /**
   A conversation.  Over any number of exchanges on one connection, in any
   fragments, the server reports exactly the requests and the client exactly the
   responses, in order, and after every exchange both are in the same state.
   */
  lemma {:induction false} Conversation(x: Externals, p: Pair, es: seq<Exchange>)
    requires ReadyPair(p) && AllCarried(x, p, es)
    ensures var q := Converse(x, p, es);
      && q.heard == p.heard + AllRequests(x, p, es) && q.told == p.told + AllResponses(x, p, es)
      && q.client.state == q.server.state
    decreases |es|
  {
    hide Carried, Carry, RequestTrace, ResponseTrace, PlanResponse, EmittedHead, Reuses, Ready, Proceed, ReadyPair;
    if es == [] {
      ReadyAlike(p);
      assert p.heard + [] == p.heard && p.told + [] == p.told;
      return;
    }
    ExchangeProceeds(x, p, es[0]);
    var q := Proceed(x, p, es[0]);
    if |es| > 1 {
      Conversation(x, q, es[1..]);
    } else {
      assert es[1..] == [];
      assert q.heard + [] == q.heard && q.told + [] == q.told;
    }
  }

  lemma ReadyAlike(p: Pair)
    requires ReadyPair(p)
    ensures p.client.state == p.server.state
  {
    hide Coupled;
  }
}
