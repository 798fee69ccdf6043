/**
 Exchanges in legs.  A head, its content, informational responses and whole
 messages travel separately, each in any fragments, in any order in which the
 endpoints will send them: a response may overtake the upload it answers.  Derived
 from the bytes alone, the endpoints are in the same state after every leg.
 */
module Legs {
  import opened Prelude
  import opened Bytes
  import opened Fields
  import opened Heads
  import opened Scan
  import opened ConnectionModel
  import opened LifecycleRuns
  import opened Coupling
  import opened Polling
  import opened Fragmentation
  import opened FragmentedRuns
  import opened ChunkedBodies
  import opened Agreement
  import opened RoundTrip
  import opened Exchanges
  import L = Lifecycle

  // ------------------------------------------------------------------
  // Two endpoints between legs
  // ------------------------------------------------------------------

  /** A receiver that has read the head waits for content of this framing. */
  predicate Holds(framing: Framing) {
    framing != CloseDelimited && framing != Fixed(0)
  }

  ghost predicate Open(c: Conn) {
    Coupled(c) && HintOk(c) && !c.eof && c.input == []
  }

  /** What one end is sending, the other is reading. */
  predicate Flows(s: Conn, t: Conn) {
    s.Local() == L.SendBody ==>
      s.writer.Some? && Holds(s.writer.value) && ForgetReader(t.reader) == ReaderFor(s.writer.value)
  }

  ghost predicate Tied(s: Conn, t: Conn) {
    && Open(s) && Open(t) && t.role == s.role.Peer() && s.state == t.state && SameContext(s, t)
    && Flows(s, t) && Flows(t, s)
  }

  // ------------------------------------------------------------------
  // Legs
  // ------------------------------------------------------------------

  datatype Leg =
    | Ask(request: Request)
    | AskWhole(request: Request, bodies: seq<bytes>, trailers: seq<Header>)
    | Inform(response: Response)
    | Answer(response: Response)
    | AnswerWhole(response: Response, bodies: seq<bytes>, trailers: seq<Header>)
    | Finish(role: L.Role, bodies: seq<bytes>, trailers: seq<Header>)
  {
    function Speaker(): L.Role {
      match this
      case Ask(_) => L.Client
      case AskWhole(_, _, _) => L.Client
      case Finish(role, _, _) => role
      case _ => L.Server
    }
  }

  function Then(head: Sent, bodies: seq<bytes>, trailers: seq<Header>): Sent {
    match head
    case Refused => Refused
    case Sent(next, out) =>
      match SendContent(next, bodies, trailers)
      case Refused => Refused
      case Sent(last, content) => Sent(last, out + content)
  }

  /** The calls of a leg. */
  function Said(x: Externals, s: Conn, leg: Leg): Sent {
    match leg
    case Ask(r) => SendRequest(x, s, r)
    case AskWhole(r, bodies, trailers) => Then(SendRequest(x, s, r), bodies, trailers)
    case Inform(r) => SendInformational(s, r)
    case Answer(r) => SendResponse(s, r)
    case AnswerWhole(r, bodies, trailers) => Then(SendResponse(s, r), bodies, trailers)
    case Finish(_, bodies, trailers) => SendContent(s, bodies, trailers)
  }

  /** What the other end should report. */
  function Meant(x: Externals, s: Conn, leg: Leg): seq<Token> {
    match leg
    case Ask(r) => [Mark(RequestEvent(r))]
    case AskWhole(r, bodies, trailers) =>
      [Mark(RequestEvent(r))] + ContentTokens(FramingOf(SendRequest(x, s, r)), bodies) + [Mark(EndEvent(trailers))]
    case Inform(r) => [Mark(InformationalEvent(r))]
    case Answer(r) => [Mark(ResponseEvent(EmittedHeadOf(s, r)))]
    case AnswerWhole(r, bodies, trailers) =>
      [Mark(ResponseEvent(EmittedHeadOf(s, r)))] + ContentTokens(FramingOf(SendResponse(s, r)), bodies)
      + [Mark(EndEvent(trailers))]
    case Finish(_, bodies, trailers) =>
      ContentTokens(if s.writer.Some? then s.writer.value else Chunked, bodies) + [Mark(EndEvent(trailers))]
  }

  function ContentBehind(head: Sent, bodies: seq<bytes>, trailers: seq<Header>): bytes {
    if head.Sent? && SendContent(head.conn, bodies, trailers).Sent? then SendContent(head.conn, bodies, trailers).out else []
  }

  ghost predicate RequestLegible(x: Externals, t: Conn, r: Request, content: bytes) {
    ValidMethod(r.method_) && |RequestBytes(r)| <= t.limits.maxHeadBytes && ReadsRequest(x, t, r, content)
  }

  ghost predicate ResponseLegible(x: Externals, t: Conn, r: Response, content: bytes) {
    |ResponseBytes(r)| <= t.limits.maxHeadBytes && ReadsResponse(x, t, r, content)
  }

  /** The leg fits the receiver's limits and is read back by its parser; a message
      that ends with the connection is no leg, nor is the head of an empty one. */
  ghost predicate CanBeRead(x: Externals, s: Conn, t: Conn, leg: Leg) {
    match leg
    case Ask(r) => RequestLegible(x, t, r, []) && Holds(FramingOf(SendRequest(x, s, r)))
    case AskWhole(r, bodies, trailers) =>
      var head := SendRequest(x, s, r);
      && RequestLegible(x, t, r, ContentBehind(head, bodies, trailers))
      && Receivable(x, t, FramingOf(head), bodies, trailers, [])
    case Inform(r) => ResponseLegible(x, t, r, [])
    case Answer(r) => ResponseLegible(x, t, EmittedHeadOf(s, r), []) && Holds(FramingOf(SendResponse(s, r)))
    case AnswerWhole(r, bodies, trailers) =>
      var head := SendResponse(s, r);
      && ResponseLegible(x, t, EmittedHeadOf(s, r), ContentBehind(head, bodies, trailers))
      && FramingOf(head) != CloseDelimited && Receivable(x, t, FramingOf(head), bodies, trailers, [])
    case Finish(_, bodies, trailers) => s.writer.Some? ==> Receivable(x, t, s.writer.value, bodies, trailers, [])
  }

  // ------------------------------------------------------------------
  // Delivery with a saved search
  // ------------------------------------------------------------------

  lemma {:induction false} FeedAllKeepsHint(x: Externals, c: Conn, fragments: seq<bytes>)
    requires Coupled(c) && HintOk(c) && !c.eof && Fragments(fragments)
    requires Coupled(Forget(Feed(c, Concat(fragments)))) && Orderly(x, Forget(Feed(c, Concat(fragments))))
    ensures !FeedAll(x, c, fragments).outcome.Failed? ==> HintOk(FeedAll(x, c, fragments).conn)
    decreases |fragments|
  {
    hide Drain, Coupled, Orderly, HintOk, Forget, Potential;
    var first, rest := fragments[0], Concat(fragments[1..]);
    ConcatNonEmpty(fragments);
    FeedCoupled(c, first);
    if |fragments| == 1 {
      assert first + [] == first;
      FeedKeepsHint(c, first);
      DrainPlainly(x, Feed(c, first));
    } else {
      ConcatNonEmpty(fragments[1..]);
      FirstFragment(x, c, first, rest);
      var a := Drain(x, Feed(c, first));
      if !a.outcome.Failed? {
        FeedAllKeepsHint(x, a.conn, fragments[1..]);
      }
    }
  }

  /** The whole leg at once, read by the receiver without its saved search. */
  ghost predicate Heard(x: Externals, sent: Conn, t: Conn, out: bytes, tokens: seq<Token>) {
    var whole := Feed(Forget(t), out);
    && Coupled(whole) && Orderly(x, whole)
    && var p := PlainDrain(x, whole);
       && Trace(p.events) == tokens && !p.outcome.Failed?
       && p.conn.input == [] && p.conn.state == sent.state && SameContext(sent, p.conn) && Flows(sent, p.conn)
       && p.conn.writer == t.writer && p.conn.role == t.role && p.conn.limits == t.limits
  }

  /** Sending leaves what this end reads alone. */
  predicate Spoken(s: Conn, sent: Conn) {
    && sent.role == s.role && sent.limits == s.limits && sent.reader == s.reader && sent.progress == s.progress
    && sent.input == s.input && sent.eof == s.eof
    && (sent.Peer() == L.SendBody <==> s.Peer() == L.SendBody)
  }

  lemma Delivers(x: Externals, s: Conn, sent: Conn, t: Conn, out: bytes, tokens: seq<Token>, cut: seq<bytes>)
    requires Tied(s, t) && Coupled(sent) && Spoken(s, sent) && Heard(x, sent, t, out, tokens)
    requires Fragments(cut) && Concat(cut) == out
    ensures var a := FeedAll(x, t, cut);
      Trace(a.events) == tokens && !a.outcome.Failed? && Tied(sent, a.conn) && a.conn.limits == t.limits
  {
    FeedAllCoupled(x, t, cut);
    hide Coupled, Orderly, PlainDrain, Drain, FeedAll, Trace, Concat, Fragments, InStep;
    var whole := Feed(t, Concat(cut));
    FedForgets(t, Concat(cut));
    FragmentsAtOnce(x, t, cut);
    FeedKeepsHint(t, Concat(cut));
    DrainPlainly(x, whole);
    FeedAllKeepsHint(x, t, cut);
  }

  // ------------------------------------------------------------------
  // Waiting after a head
  // ------------------------------------------------------------------

  /** A body that is still to come is waited for. */
  lemma ContentWaits(x: Externals, g: Conn, framing: Framing)
    requires AtContent(g, framing) && Holds(framing) && g.input == []
    ensures Orderly(x, g) && PlainDrain(x, g).events == [] && PlainDrain(x, g).conn == g && !PlainDrain(x, g).outcome.Failed?
  {
    hide Coupled, Orderly, PlainDrain, PlainNext;
    PlainNextAdvances(x, g);
    if framing.Fixed? {
      PlainBodiesAreOrderly(x, g);
      NothingToTake(x, g);
    } else {
      SizeWaits(x, g);
      OrderlyIs(x, g);
    }
    DrainStops(x, g);
  }

  lemma SizeWaits(x: Externals, g: Conn)
    requires AtContent(g, Chunked) && g.input == []
    ensures OrderlyPoll(x, g) && PlainNext(x, g) == Step(g, NeedData)
  {
    hide NextInner, ReadMessage, Coupled, PlainNext;
    PlainNextIs(x, g);
    PollReads(x, g);
    ReadsChunk(x, g);
  }

  /** A head that leaves its body to come. */
  lemma HeadThenWait(x: Externals, d: Conn, e: Event, g: Conn, framing: Framing)
    requires Coupled(d) && OrderlyPoll(x, d) && PlainNext(x, d) == Step(g, Occurred(e))
    requires !e.DataEvent? && !e.ClosedEvent? && AtContent(g, framing) && Holds(framing) && g.input == []
    ensures Orderly(x, d)
    ensures var p := PlainDrain(x, d); Trace(p.events) == [Mark(e)] && p.conn == g && !p.outcome.Failed?
  {
    hide Coupled, PlainDrain, PlainNext, Orderly, OrderlyPoll, Trace, AtContent, Holds;
    ContentOpen(g, framing);
    ContentWaits(x, g, framing);
    OrderlyIs(x, d);
    DrainGoesOn(x, d);
    TraceCons(e, []);
    assert [e] + [] == [e];
    EmptyTrace();
  }

  lemma EmptyTrace()
    ensures Trace([]) == []
  {
  }

  // ------------------------------------------------------------------
  // Requests
  // ------------------------------------------------------------------

  lemma ActKeepsOther(j: L.Joint, m: Action)
    requires Sound(j) && m.Move? && Act(j, m).Some?
    ensures Act(j, m).value.At(m.role.Peer()) == L.SendBody <==> j.At(m.role.Peer()) == L.SendBody
  {
    hide Sound, L.Process, L.DisableKeepAlive;
    OtherActor(j, m.role, m.event);
    DisableUndisturbed(L.Process(j, m.role, m.event).value, m.role.Peer());
  }

  /** A server whose client may send a request awaits it. */
  lemma ServerListens(t: Conn, m: Action)
    requires Coupled(t) && !t.eof && t.role == L.Server
    requires m.Move? && m.role == L.Client && m.event.Request? && Act(t.state, m).Some?
    ensures AwaitsHead(Forget(t))
  {
    ForgetCoupled(t);
    CoupledIsSound(t);
    assert t.Peer() == L.Idle by {
      hide Sound;
      OwnActor(t.state, L.Client, m.event);
    }
    Busy(t);
    hide Coupled;
  }

  /** And a client whose server may respond awaits that. */
  lemma ClientListens(t: Conn, m: Action)
    requires Coupled(t) && !t.eof && t.role == L.Client && m.Move? && m.role == L.Server && Act(t.state, m).Some?
    requires m.event.Response? || m.event.ProtocolSwitch? || m.event.InformationalResponse?
    ensures AwaitsHead(Forget(t))
  {
    ForgetCoupled(t);
    assert t.Peer() == L.Idle || t.Peer() == L.SendResponse;
    Busy(t);
    hide Coupled;
  }

  lemma RequestSpoken(x: Externals, s: Conn, r: Request)
    requires Coupled(s) && SendRequest(x, s, r).Sent?
    ensures Coupled(SendRequest(x, s, r).conn) && Spoken(s, SendRequest(x, s, r).conn)
  {
    CoupledIsSound(s);
    hide Coupled, Sound, SendRequest, Act, WritePlan, RequestMove;
    SendRequestCoupled(x, s, r);
    RequestKeeps(x, s, r);
    RequestWritten(x, s, r);
    RequestMoves(x, s, s, r);
    MoverOf(r, WritePlan(x, r));
    ActKeepsOther(s.state, RequestMove(r, WritePlan(x, r)));
  }

  lemma AskHeard(x: Externals, s: Conn, t: Conn, r: Request)
    requires Tied(s, t) && s.role == L.Client && SendRequest(x, s, r).Sent? && CanBeRead(x, s, t, Ask(r))
    ensures Heard(x, SendRequest(x, s, r).conn, t, SendRequest(x, s, r).out, [Mark(RequestEvent(r))])
  {
    hide Coupled, SendRequest, AcceptRequest, WritePlan, RequestMove, Act, RequestBytes, ReadsRequest, OrderlyPoll, Orderly,
         PlainNext, PlainDrain, Trace, L.Process, ValidMethod, AtContent, AwaitsHead, HintOk;
    var head := SendRequest(x, s, r);
    var framing := FramingOf(head);
    RequestWritten(x, s, r);
    RequestFraming(x, s, r);
    RequestMoves(x, s, t, r);
    MoverOf(r, WritePlan(x, r));
    ServerListens(t, RequestMove(r, WritePlan(x, r)));
    WholeAwaits(Forget(t), RequestBytes(r));
    var whole := Feed(Forget(t), RequestBytes(r));
    assert whole.input == RequestBytes(r) + [];
    SameReadsRequest(x, t, whole, r, []);
    RequestOpensBody(x, s, r);
    RequestStarts(x, s, whole, r, framing, []);
    var g := AcceptRequest(x, whole.(input := []), r).conn;
    AwaitsCoupled(whole);
    HeadThenWait(x, whole, RequestEvent(r), g, framing);
    ContentOpen(g, framing);
    PlainReader(framing);
  }

  lemma AwaitsCoupled(d: Conn)
    requires AwaitsHead(d)
    ensures Coupled(d) && d.reader == AwaitHead
  {
  }

  lemma PlainReader(framing: Framing)
    ensures ForgetReader(ReaderFor(framing)) == ReaderFor(framing)
  {
  }

  lemma AskWholeHeard(x: Externals, s: Conn, t: Conn, r: Request, bodies: seq<bytes>, trailers: seq<Header>)
    requires Tied(s, t) && s.role == L.Client && CanBeRead(x, s, t, AskWhole(r, bodies, trailers))
    requires Then(SendRequest(x, s, r), bodies, trailers).Sent?
    ensures var sent := Then(SendRequest(x, s, r), bodies, trailers);
      Heard(x, sent.conn, t, sent.out, Meant(x, s, AskWhole(r, bodies, trailers)))
  {
    hide Coupled, SendRequest, SendContent, WritePlan, RequestMove, Act, RequestBytes, ReadsRequest, Receivable, Orderly,
         PlainDrain, Trace, L.Process, ValidMethod, AwaitsHead, HintOk, ContentBytes, ContentTokens, Complies, AllEmpty;
    var head := SendRequest(x, s, r);
    var framing := FramingOf(head);
    var content := SendContent(head.conn, bodies, trailers);
    RequestWritten(x, s, r);
    RequestFraming(x, s, r);
    RequestMoves(x, s, t, r);
    MoverOf(r, WritePlan(x, r));
    ServerListens(t, RequestMove(r, WritePlan(x, r)));
    WholeAwaits(Forget(t), RequestBytes(r) + content.out);
    var whole := Feed(Forget(t), RequestBytes(r) + content.out);
    assert whole.input == RequestBytes(r) + content.out;
    SendRequestCoupled(x, s, r);
    ContentWritten(head.conn, framing, bodies, trailers);
    ContentKeeps(head.conn, bodies, trailers);
    assert content.out + [] == content.out;
    SameReadsRequest(x, t, whole, r, content.out);
    SameReceivable(x, t, whole, framing, bodies, trailers, []);
    RequestRead(x, s, whole, r, framing, bodies, trailers, []);
    AwaitsCoupled(whole);
    CoupledIsSound(head.conn);
    Ended(head.conn.state, L.Client, content.conn);
  }

  /** Who has ended a message is not sending one. */
  lemma Ended(j: L.Joint, role: L.Role, sent: Conn)
    requires Sound(j) && sent.role == role && L.Process(j, role, L.EndOfMessage) == Some(sent.state)
    ensures sent.Local() != L.SendBody
  {
    hide Sound, L.Process;
    OwnActor(j, role, L.EndOfMessage);
  }

  // ------------------------------------------------------------------
  // Responses
  // ------------------------------------------------------------------

  lemma ResponseSpoken(s: Conn, r: Response)
    requires Coupled(s) && SendResponse(s, r).Sent?
    ensures Coupled(SendResponse(s, r).conn) && Spoken(s, SendResponse(s, r).conn)
  {
    CoupledIsSound(s);
    hide Coupled, Sound, Act, PlanResponse, ResponseMove, EmittedHead;
    SendResponseCoupled(s, r);
    ResponseKeepsSearch(s, r);
    hide SendResponse;
    ResponseKeeps(s, r);
    ResponseMoves(s, r);
    var m := ResponseMove(s.requestKind, EmittedHead(s, r));
    ResponseWritten(s, r);
    ResponderOf(s.requestKind, EmittedHead(s, r));
    ActKeepsOther(s.state, m);
  }

  lemma ResponseKeepsSearch(s: Conn, r: Response)
    requires SendResponse(s, r).Sent?
    ensures SendResponse(s, r).conn.progress == s.progress && s.role == L.Server
  {
    hide PlanResponse, L.Process, L.DisableKeepAlive, Persistent, ResponseBytes, FinalEvent;
  }

  lemma AnswerHeard(x: Externals, s: Conn, t: Conn, r: Response)
    requires Tied(s, t) && s.role == L.Server && SendResponse(s, r).Sent? && CanBeRead(x, s, t, Answer(r))
    ensures Heard(x, SendResponse(s, r).conn, t, SendResponse(s, r).out, Meant(x, s, Answer(r)))
  {
    hide Coupled, SendResponse, AcceptResponse, PlanResponse, ResponseMove, Act, ResponseBytes, ReadsResponse, OrderlyPoll,
         Orderly, PlainNext, PlainDrain, Trace, L.Process, AtContent, AwaitsHead, HintOk, EmittedHead;
    var head := SendResponse(s, r);
    var framing := FramingOf(head);
    ResponseMoves(s, r);
    ResponseWritten(s, r);
    var emitted := EmittedHead(s, r);
    ResponderOf(s.requestKind, emitted);
    ClientListens(t, ResponseMove(s.requestKind, emitted));
    WholeAwaits(Forget(t), ResponseBytes(emitted));
    var whole := Feed(Forget(t), ResponseBytes(emitted));
    assert whole.input == ResponseBytes(emitted) + [];
    SameReadsResponse(x, t, whole, emitted, []);
    ResponseBegins(s, r);
    ResponseStarts(x, s, whole, r, framing, []);
    var g := AcceptResponse(whole.(input := []), emitted).conn;
    AwaitsCoupled(whole);
    HeadThenWait(x, whole, ResponseEvent(emitted), g, framing);
    ContentOpen(g, framing);
    PlainReader(framing);
  }

  /** A head with a body to come starts that body. */
  lemma ResponseBegins(s: Conn, r: Response)
    requires Coupled(s) && SendResponse(s, r).Sent? && Holds(FramingOf(SendResponse(s, r)))
    ensures SendResponse(s, r).conn.Local() == L.SendBody
  {
    CoupledIsSound(s);
    PlannedConnect(s, r);
    hide Coupled, Sound, PlanResponse, L.Process, L.DisableKeepAlive, Persistent, ResponseBytes;
    var event := FinalEvent(s.requestKind, r.status);
    OwnActor(s.state, L.Server, event);
    OtherActor(s.state, L.Server, event);
    DisableUndisturbed(L.Process(s.state, L.Server, event).value, L.Server);
  }

  lemma AnswerWholeHeard(x: Externals, s: Conn, t: Conn, r: Response, bodies: seq<bytes>, trailers: seq<Header>)
    requires Tied(s, t) && s.role == L.Server && CanBeRead(x, s, t, AnswerWhole(r, bodies, trailers))
    requires Then(SendResponse(s, r), bodies, trailers).Sent?
    ensures var sent := Then(SendResponse(s, r), bodies, trailers);
      Heard(x, sent.conn, t, sent.out, Meant(x, s, AnswerWhole(r, bodies, trailers)))
  {
    hide Coupled, SendResponse, SendContent, PlanResponse, ResponseMove, Act, ResponseBytes, ReadsResponse, Receivable, Orderly,
         PlainDrain, Trace, L.Process, AwaitsHead, HintOk, ContentBytes, ContentTokens, Complies, EmittedHead;
    var head := SendResponse(s, r);
    var framing := FramingOf(head);
    var content := SendContent(head.conn, bodies, trailers);
    ResponseMoves(s, r);
    ResponseWritten(s, r);
    var emitted := EmittedHead(s, r);
    ResponderOf(s.requestKind, emitted);
    ClientListens(t, ResponseMove(s.requestKind, emitted));
    WholeAwaits(Forget(t), ResponseBytes(emitted) + content.out);
    var whole := Feed(Forget(t), ResponseBytes(emitted) + content.out);
    assert whole.input == ResponseBytes(emitted) + content.out;
    SendResponseCoupled(s, r);
    ContentWritten(head.conn, framing, bodies, trailers);
    ContentKeeps(head.conn, bodies, trailers);
    assert content.out + [] == content.out;
    SameReadsResponse(x, t, whole, emitted, content.out);
    SameReceivable(x, t, whole, framing, bodies, trailers, []);
    ResponseRead(x, s, whole, r, framing, bodies, trailers, []);
    AwaitsCoupled(whole);
    CoupledIsSound(head.conn);
    Ended(head.conn.state, L.Server, content.conn);
  }

  // ------------------------------------------------------------------
  // Informational responses
  // ------------------------------------------------------------------

  lemma InformationalWritten(s: Conn, r: Response)
    requires SendInformational(s, r).Sent?
    ensures SendInformational(s, r).out == ResponseBytes(r) && s.role == L.Server && IsInformational(r.status)
    ensures ValidHeaders(r.headers) && ValidReason(r.reason)
    ensures var sent := SendInformational(s, r).conn;
      sent == s.(state := sent.state, waiting := sent.waiting, continueFirst := sent.continueFirst)
    ensures Act(s.state, InformationalMove(r)) == Some(SendInformational(s, r).conn.state)
  {
    hide L.Process, ValidHeaders, ValidReason, FramingFields, ValidUpgrade, ResponseBytes;
  }

  lemma InformationalSpoken(s: Conn, r: Response)
    requires Coupled(s) && SendInformational(s, r).Sent?
    ensures Coupled(SendInformational(s, r).conn) && Spoken(s, SendInformational(s, r).conn)
  {
    CoupledIsSound(s);
    hide Coupled, Sound, Act, SendInformational, InformationalMove;
    SendInformationalCoupled(s, r);
    InformationalWritten(s, r);
    InformsAs(r);
    ActKeepsOther(s.state, InformationalMove(r));
  }

  lemma InformsAs(r: Response)
    ensures var m := InformationalMove(r);
      m.Move? && m.role == L.Server && (m.event.ProtocolSwitch? || m.event.InformationalResponse?)
  {
  }

  /** The client takes the head and has nothing more to read. */
  lemma InformHeard(x: Externals, s: Conn, t: Conn, r: Response)
    requires Tied(s, t) && s.role == L.Server && SendInformational(s, r).Sent? && CanBeRead(x, s, t, Inform(r))
    ensures Heard(x, SendInformational(s, r).conn, t, SendInformational(s, r).out, [Mark(InformationalEvent(r))])
  {
    hide Coupled, SendInformational, AcceptResponse, InformationalMove, Act, ResponseBytes, ReadsResponse, OrderlyPoll,
         Orderly, PlainNext, PlainDrain, Trace, L.Process, AwaitsHead, HintOk, ValidHeaders, ValidReason, Clear, NextInner,
         Flows;
    InformationalWritten(s, r);
    InformsAs(r);
    ClientListens(t, InformationalMove(r));
    WholeAwaits(Forget(t), ResponseBytes(r));
    var whole := Feed(Forget(t), ResponseBytes(r));
    assert whole.input == ResponseBytes(r) + [];
    AwaitsCoupled(whole);
    SameReadsResponse(x, t, whole, r, []);
    ResponseClear(x, whole, r, []);
    HeadIsOrderly(x, whole);
    ResponseTaken(x, whole, r, []);
    InformationalAgreement(s, whole.(input := []), r);
    ResponseKeepsPlain(whole.(input := []), r);
    PlainNextIs(x, whole);
    PlainNextAdvances(x, whole);
    var g := AcceptResponse(whole.(input := []), r).conn;
    InformedWaits(x, whole, g, r);
    OrderlyIs(x, whole);
    DrainGoesOn(x, whole);
    TraceCons(InformationalEvent(r), []);
    EmptyTrace();
    NotInContent(s, r);
    FlowsOn(SendInformational(s, r).conn, g);
  }

  lemma NotInContent(s: Conn, r: Response)
    requires Coupled(s) && SendInformational(s, r).Sent?
    ensures SendInformational(s, r).conn.Local() != L.SendBody
  {
    CoupledIsSound(s);
    hide Coupled, Sound, L.Process, ValidHeaders, ValidReason, FramingFields, ValidUpgrade, ResponseBytes;
    OwnActor(s.state, L.Server, if r.status == 101 then L.ProtocolSwitch(L.Upgrade) else L.InformationalResponse);
  }

  lemma InformedWaits(x: Externals, d: Conn, g: Conn, r: Response)
    requires AwaitsHead(d) && d.role == L.Client && IsInformational(r.status) && ReadsResponse(x, d, r, [])
    requires g == AcceptResponse(d.(input := []), r).conn && Coupled(g) && AcceptResponse(d.(input := []), r).outcome.Occurred?
    ensures Orderly(x, g) && PlainDrain(x, g).events == [] && PlainDrain(x, g).conn == g && !PlainDrain(x, g).outcome.Failed?
  {
    InformedIs(d, r);
    hide Coupled, Orderly, PlainDrain, PlainNext, AcceptResponse, ReadsResponse, OrderlyPoll, AwaitsHead, Active;
    if !Active(g) {
      InactiveDrain(x, g);
      return;
    }
    NothingToJudge(x, d, g, r);
    PlainNextAdvances(x, g);
    DrainStops(x, g);
    OrderlyIs(x, g);
  }

  lemma InformedIs(d: Conn, r: Response)
    requires AwaitsHead(d) && d.role == L.Client && IsInformational(r.status)
    requires AcceptResponse(d.(input := []), r).outcome.Occurred?
    ensures var g := AcceptResponse(d.(input := []), r).conn;
      && g.reader == AwaitHead && g.progress.None? && !g.eof && g.input == [] && g.role == L.Client && g.limits == d.limits
      && Forget(g) == g && g.Peer() != L.Error && g.Peer() != L.Closed && g.Peer() != L.SendBody
  {
    CoupledIsSound(d);
    hide L.Process, ValidUpgrade, Sound, Coupled;
    var event := if r.status == 101 then L.ProtocolSwitch(L.Upgrade) else L.InformationalResponse;
    OwnActor(d.state, L.Server, event);
  }

  /** Of an empty head the parser has nothing to say. */
  lemma NothingToJudge(x: Externals, d: Conn, g: Conn, r: Response)
    requires ReadsResponse(x, d, r, []) && AwaitsHead(g) && g.role == L.Client && g.input == [] && g.limits == d.limits
    requires Forget(g) == g
    ensures OrderlyPoll(x, g) && PlainNext(x, g) == Step(g, NeedData)
  {
    var data := ResponseBytes(r) + [];
    var parse := b => x.response(b, d.limits.maxHeaderCount);
    hide NextInner, Coupled, PlainNext, ResponseBytes, Judges, SectionEnd, ReadHead, HeadVerdict, OrderlyPoll;
    assert [] + data == data;
    JudgesShorter(parse, [], data, true, d.limits.maxHeadBytes);
    PartialVerdict(parse, [], true, d.limits.maxHeadBytes);
    NoEndOfNothing();
    assert HeadVerdict(x, g).Partial? by {
      VerdictOnNothing(x, g);
    }
    HeadIsOrderly(x, g);
    HeadPoll(x, g);
    UnsearchedHead(x, g);
    WaitPlainly(g, true);
    PlainNextIs(x, g);
  }

  lemma NoEndOfNothing()
    ensures SectionEnd([], true).None?
  {
  }

  lemma VerdictOnNothing(x: Externals, g: Conn)
    requires g.role == L.Client && x.response(g.input, g.limits.maxHeaderCount).Partial?
    ensures HeadVerdict(x, g).Partial?
  {
  }

  lemma FlowsOn(sent: Conn, g: Conn)
    requires sent.Local() != L.SendBody
    ensures Flows(sent, g)
  {
  }

  // ------------------------------------------------------------------
  // Content
  // ------------------------------------------------------------------

  lemma ContentSpoken(s: Conn, bodies: seq<bytes>, trailers: seq<Header>)
    requires Coupled(s) && s.writer.Some? && s.writer != Some(CloseDelimited) && SendContent(s, bodies, trailers).Sent?
    ensures Coupled(SendContent(s, bodies, trailers).conn) && Spoken(s, SendContent(s, bodies, trailers).conn)
  {
    CoupledIsSound(s);
    hide Coupled, Sound, SendContent, L.Process;
    ContentCoupled(s, bodies, trailers);
    ContentKeeps(s, bodies, trailers);
    ContentWritten(s, s.writer.value, bodies, trailers);
    OtherActor(s.state, s.role, L.EndOfMessage);
  }

  lemma SpokenTwice(s: Conn, head: Conn, last: Conn)
    requires Spoken(s, head) && Spoken(head, last)
    ensures Spoken(s, last)
  {
  }

  /** Who can send content is sending it. */
  lemma Sending(s: Conn, bodies: seq<bytes>, trailers: seq<Header>)
    requires Coupled(s) && SendContent(s, bodies, trailers).Sent?
    ensures s.Local() == L.SendBody
  {
    assert s.writer.Some? by {
      hide Coupled, L.Process, ValidTrailers, TrailerBytes;
    }
    hide Sound, SendContent;
  }

  lemma FinishHeard(x: Externals, s: Conn, t: Conn, bodies: seq<bytes>, trailers: seq<Header>)
    requires Tied(s, t) && SendContent(s, bodies, trailers).Sent? && CanBeRead(x, s, t, Finish(s.role, bodies, trailers))
    ensures s.writer.Some? && s.writer != Some(CloseDelimited)
    ensures var sent := SendContent(s, bodies, trailers);
      Heard(x, sent.conn, t, sent.out, Meant(x, s, Finish(s.role, bodies, trailers)))
  {
    hide Coupled, SendContent, Receivable, Orderly, PlainDrain, Trace, L.Process, HintOk, ContentBytes, ContentTokens, Complies,
         AllEmpty;
    Sending(s, bodies, trailers);
    var framing := s.writer.value;
    ContentWritten(s, framing, bodies, trailers);
    ContentKeeps(s, bodies, trailers);
    CoupledIsSound(s);
    Ended(s.state, s.role, SendContent(s, bodies, trailers).conn);
    var out := ContentBytes(framing, bodies, trailers);
    ForgetCoupled(t);
    var whole := Feed(Forget(t), out);
    assert whole.input == out + [];
    if out == [] {
      assert whole == Forget(t);
    } else {
      FeedCoupled(Forget(t), out);
    }
    SameReceivable(x, t, whole, framing, bodies, trailers, []);
    ContentRead(x, whole, framing, bodies, trailers, []);
  }

  // ------------------------------------------------------------------
  // Every leg
  // ------------------------------------------------------------------

  /**
   One leg.  Whatever is sent, in any fragments, is reported by the other end and
   leaves both in the same state, ready for the next leg either way.
   */
  lemma LegArrives(x: Externals, s: Conn, t: Conn, leg: Leg, cut: seq<bytes>)
    requires Tied(s, t) && s.role == leg.Speaker() && Said(x, s, leg).Sent? && CanBeRead(x, s, t, leg)
    requires Fragments(cut) && Concat(cut) == Said(x, s, leg).out
    ensures var a := FeedAll(x, t, cut);
      && Trace(a.events) == Meant(x, s, leg) && !a.outcome.Failed? && Tied(Said(x, s, leg).conn, a.conn)
      && a.conn.limits == t.limits && Said(x, s, leg).conn.limits == s.limits && Said(x, s, leg).conn.role == s.role
  {
    assert Coupled(s);
    LegHeard(x, s, t, leg);
    LegSpoken(x, s, t, leg);
    hide Tied, Coupled, Spoken, Heard, Said, Meant, CanBeRead, FeedAll, Trace, Fragments, Concat;
    var sent := Said(x, s, leg);
    Delivers(x, s, sent.conn, t, sent.out, Meant(x, s, leg), cut);
    SpokenLimits(s, sent.conn);
  }

  lemma SpokenLimits(s: Conn, sent: Conn)
    requires Spoken(s, sent)
    ensures sent.limits == s.limits && sent.role == s.role
  {
  }

  lemma LegHeard(x: Externals, s: Conn, t: Conn, leg: Leg)
    requires Tied(s, t) && s.role == leg.Speaker() && Said(x, s, leg).Sent? && CanBeRead(x, s, t, leg)
    ensures Heard(x, Said(x, s, leg).conn, t, Said(x, s, leg).out, Meant(x, s, leg))
  {
    hide Tied, Heard, CanBeRead, SendRequest, SendInformational, SendResponse, SendContent, Then, ContentTokens, EmittedHeadOf;
    match leg {
      case Ask(r) => AskHeard(x, s, t, r);
      case AskWhole(r, bodies, trailers) => AskWholeHeard(x, s, t, r, bodies, trailers);
      case Inform(r) => InformHeard(x, s, t, r);
      case Answer(r) => AnswerHeard(x, s, t, r);
      case AnswerWhole(r, bodies, trailers) => AnswerWholeHeard(x, s, t, r, bodies, trailers);
      case Finish(role, bodies, trailers) => FinishHeard(x, s, t, bodies, trailers);
    }
  }

  lemma LegSpoken(x: Externals, s: Conn, t: Conn, leg: Leg)
    requires Tied(s, t) && s.role == leg.Speaker() && Said(x, s, leg).Sent? && CanBeRead(x, s, t, leg)
    ensures Coupled(Said(x, s, leg).conn) && Spoken(s, Said(x, s, leg).conn)
  {
    assert Coupled(s);
    hide Tied, Coupled, Spoken, SendRequest, SendInformational, SendResponse, SendContent, RequestLegible, ResponseLegible,
         Receivable, PlanResponse;
    match leg {
      case Ask(r) => RequestSpoken(x, s, r);
      case AskWhole(r, bodies, trailers) =>
        RequestSpoken(x, s, r);
        RequestFraming(x, s, r);
        ContentSpoken(SendRequest(x, s, r).conn, bodies, trailers);
        SpokenTwice(s, SendRequest(x, s, r).conn, SendContent(SendRequest(x, s, r).conn, bodies, trailers).conn);
      case Inform(r) => InformationalSpoken(s, r);
      case Answer(r) => ResponseSpoken(s, r);
      case AnswerWhole(r, bodies, trailers) =>
        ResponseSpoken(s, r);
        ResponseMoves(s, r);
        ContentSpoken(SendResponse(s, r).conn, bodies, trailers);
        SpokenTwice(s, SendResponse(s, r).conn, SendContent(SendResponse(s, r).conn, bodies, trailers).conn);
      case Finish(role, bodies, trailers) =>
        FinishHeard(x, s, t, bodies, trailers);
        ContentSpoken(s, bodies, trailers);
    }
  }

  // ------------------------------------------------------------------
  // Every schedule
  // ------------------------------------------------------------------

  /** The endpoints, and what each has reported so far. */
  datatype Line = Line(client: Conn, server: Conn, asked: seq<Token>, told: seq<Token>)

  /** A leg travels, or both endpoints start the next cycle. */
  datatype Stage = Travel(leg: Leg, cut: seq<bytes>) | Renew

  function Staged(x: Externals, l: Line, stage: Stage): Line {
    match stage
    case Travel(leg, cut) =>
      if leg.Speaker() == L.Client then
        var a := Fed(x, l.server, cut);
        Line(Unless(Said(x, l.client, leg), l.client), a.conn, l.asked + Trace(a.events), l.told)
      else
        var a := Fed(x, l.client, cut);
        Line(a.conn, Unless(Said(x, l.server, leg), l.server), l.asked, l.told + Trace(a.events))
    case Renew => Line(Unless(StartNextCycle(l.client), l.client), Unless(StartNextCycle(l.server), l.server), l.asked, l.told)
  }

  /** The leg is sent, its bytes are the fragments, and it can be read. */
  ghost predicate Travels(x: Externals, s: Conn, t: Conn, leg: Leg, cut: seq<bytes>) {
    Said(x, s, leg).Sent? && Fragments(cut) && Concat(cut) == Said(x, s, leg).out && CanBeRead(x, s, t, leg)
  }

  ghost predicate CanStage(x: Externals, l: Line, stage: Stage) {
    match stage
    case Travel(leg, cut) =>
      if leg.Speaker() == L.Client then Travels(x, l.client, l.server, leg, cut) else Travels(x, l.server, l.client, leg, cut)
    case Renew => StartNextCycle(l.client).Sent?
  }

  function Schedule(x: Externals, l: Line, stages: seq<Stage>): Line
    decreases |stages|
  {
    if stages == [] then l else Schedule(x, Staged(x, l, stages[0]), stages[1..])
  }

  ghost predicate CanSchedule(x: Externals, l: Line, stages: seq<Stage>)
    decreases |stages|
  {
    stages != [] ==> CanStage(x, l, stages[0]) && CanSchedule(x, Staged(x, l, stages[0]), stages[1..])
  }

  /** What the client, or the server, says in a stage, and over a schedule. */
  function Uttered(x: Externals, l: Line, stage: Stage, role: L.Role): seq<Token> {
    if stage.Travel? && stage.leg.Speaker() == role
    then Meant(x, if role == L.Client then l.client else l.server, stage.leg) else []
  }

  function AllUttered(x: Externals, l: Line, stages: seq<Stage>, role: L.Role): seq<Token>
    decreases |stages|
  {
    if stages == [] then []
    else Uttered(x, l, stages[0], role) + AllUttered(x, Staged(x, l, stages[0]), stages[1..], role)
  }

  ghost predicate TiedLine(l: Line) {
    Tied(l.client, l.server) && l.client.role == L.Client
  }

  lemma TiedBack(s: Conn, t: Conn)
    requires Tied(s, t)
    ensures Tied(t, s) && t.role == s.role.Peer()
  {
    hide Open;
  }

  lemma RenewTies(s: Conn, t: Conn)
    requires Tied(s, t) && StartNextCycle(s).Sent?
    ensures StartNextCycle(t).Sent? && Tied(StartNextCycle(s).conn, StartNextCycle(t).conn)
    ensures StartNextCycle(s).conn.role == s.role
  {
    hide Coupled, InStep;
    StartNextCycleCoupled(s);
    StartNextCycleCoupled(t);
  }

  lemma StageTies(x: Externals, l: Line, stage: Stage)
    requires TiedLine(l) && CanStage(x, l, stage)
    ensures TiedLine(Staged(x, l, stage))
    ensures Staged(x, l, stage).asked == l.asked + Uttered(x, l, stage, L.Client)
    ensures Staged(x, l, stage).told == l.told + Uttered(x, l, stage, L.Server)
  {
    var s, t := l.client, l.server;
    assert Coupled(s) && !s.eof && Coupled(t) && !t.eof && t.role == L.Server;
    hide Tied, Coupled, Said, Meant, CanBeRead, FeedAll, Trace, Fragments, Concat, StartNextCycle;
    if stage.Renew? {
      RenewTies(s, t);
    } else if stage.leg.Speaker() == L.Client {
      LegArrives(x, s, t, stage.leg, stage.cut);
    } else {
      TiedBack(s, t);
      LegArrives(x, t, s, stage.leg, stage.cut);
      TiedBack(Said(x, t, stage.leg).conn, FeedAll(x, s, stage.cut).conn);
    }
    assert l.asked + [] == l.asked && l.told + [] == l.told;
  }

  /**
   Legs in any order.  Starting from two new connections, whatever legs travel, in
   whatever fragments, as long as they can be sent and read: each end has reported
   exactly what the other said, and both are in the same state.
   */
  lemma {:induction false} EverySchedule(x: Externals, l: Line, stages: seq<Stage>)
    requires TiedLine(l) && CanSchedule(x, l, stages)
    ensures var last := Schedule(x, l, stages);
      && TiedLine(last) && last.client.state == last.server.state
      && last.asked == l.asked + AllUttered(x, l, stages, L.Client)
      && last.told == l.told + AllUttered(x, l, stages, L.Server)
    decreases |stages|
  {
    assert l.client.state == l.server.state;
    hide TiedLine, Uttered, Staged, CanStage;
    if stages == [] {
      assert l.asked + [] == l.asked && l.told + [] == l.told;
      return;
    }
    var next := Staged(x, l, stages[0]);
    StageTies(x, l, stages[0]);
    EverySchedule(x, next, stages[1..]);
    Regroup(l.asked, Uttered(x, l, stages[0], L.Client), AllUttered(x, next, stages[1..], L.Client));
    Regroup(l.told, Uttered(x, l, stages[0], L.Server), AllUttered(x, next, stages[1..], L.Server));
  }

  lemma Regroup(u: seq<Token>, v: seq<Token>, w: seq<Token>)
    ensures (u + v) + w == u + (v + w)
  {
  }

  lemma NewLine(limits: Limits, other: Limits)
    ensures TiedLine(Line(New(L.Client, limits), New(L.Server, other), [], []))
  {
    NewIsCoupled(L.Client, limits);
    NewIsCoupled(L.Server, other);
    hide Coupled;
  }
}
