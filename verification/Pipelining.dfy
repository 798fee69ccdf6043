/**
 Pipelined requests.  A client need not wait for a response before the next
 request reaches the server.  However the bytes of several requests arrive, and
 however the answers to them fall in between, the server reports the requests one
 at a time and in order, and keeps the bytes of the later ones until their turn.
 */
module Pipelining {
  import opened Prelude
  import opened Bytes
  import opened Fields
  import opened Heads
  import opened Scan
  import opened ConnectionModel
  import opened LifecycleRuns
  import opened Coupling
  import opened Polling
  import opened Fragmentation
  import opened FragmentedRuns
  import opened ChunkedBodies
  import opened CloseDelimitedBodies
  import opened Agreement
  import opened RoundTrip
  import opened Exchanges
  import Cuts
  import L = Lifecycle

  // ------------------------------------------------------------------
  // The server
  // ------------------------------------------------------------------

  /** Bytes arrive and are polled; or the oldest request is answered, the next
      cycle is started and what was kept is polled. */
  datatype Turn = Arrive(data: bytes) | Answer

  /** The server, the exchanges it has not answered, and what it has reported. */
  datatype Serving = Serving(conn: Conn, pending: seq<Exchange>, heard: seq<Token>)

  function Emptied(x: Externals, c: Conn): Drained {
    if Coupled(c) then Drain(x, c) else Drained(c, [], NeedData)
  }

  function Noting(x: Externals, s: Serving, c: Conn, pending: seq<Exchange>): Serving {
    Serving(Emptied(x, c).conn, pending, s.heard + Trace(Emptied(x, c).events))
  }

  /** One turn, `None` when it is refused. */
  function Turned(x: Externals, s: Serving, turn: Turn): Option<Serving> {
    match turn
    case Arrive(data) => if data == [] then None else Some(Noting(x, s, Feed(s.conn, data), s.pending))
    case Answer =>
      if s.pending == [] then None
      else
        match ResponseSent(s.conn, s.pending[0])
        case Refused => None
        case Sent(last, _) =>
          match StartNextCycle(last)
          case Refused => None
          case Sent(next, _) => Some(Noting(x, s, next, s.pending[1..]))
  }

  function Serve(x: Externals, s: Serving, turns: seq<Turn>): Option<Serving>
    decreases |turns|
  {
    if turns == [] then Some(s)
    else
      match Turned(x, s, turns[0])
      case None => None
      case Some(next) => Serve(x, next, turns[1..])
  }

  function Arrived(turns: seq<Turn>): bytes {
    if turns == [] then []
    else (if turns[0].Arrive? then turns[0].data else []) + Arrived(turns[1..])
  }

  // ------------------------------------------------------------------
  // The requests
  // ------------------------------------------------------------------

  /** The requests back to back, each as a ready client sends it. */
  function Wires(x: Externals, c: Conn, es: seq<Exchange>): bytes {
    if es == [] then []
    else (var sent := RequestSent(x, c, es[0]); if sent.Sent? then sent.out else []) + Wires(x, c, es[1..])
  }

  /** What a server should report of them. */
  function Requests(x: Externals, c: Conn, es: seq<Exchange>): seq<Token> {
    if es == [] then [] else RequestTrace(x, c, es[0]) + Requests(x, c, es[1..])
  }

  /** A request that can be sent, fits the server's limits, and is read back with
      these bytes behind it. */
  ghost predicate Legible(x: Externals, c: Conn, d: Conn, e: Exchange, rest: bytes) {
    && RequestSent(x, c, e).Sent? && ValidMethod(e.request.method_)
    && |RequestBytes(e.request)| <= d.limits.maxHeadBytes
    && var head := SendRequest(x, c, e.request);
       && ReadsRequest(x, d, e.request, SendContent(head.conn, e.upload, e.uploadTrailers).out + rest)
       && Receivable(x, d, FramingOf(head), e.upload, e.uploadTrailers, rest)
  }

  ghost predicate AllLegible(x: Externals, c: Conn, d: Conn, es: seq<Exchange>)
    decreases |es|
  {
    es != [] ==> Legible(x, c, d, es[0], Wires(x, c, es[1..])) && AllLegible(x, c, d, es[1..])
  }

  // ------------------------------------------------------------------
  // Polling now or later
  // ------------------------------------------------------------------

  /** The peer's message is over. */
  predicate Over(c: Conn) {
    !Active(c) && c.Peer() != L.Error
  }

  lemma QuietDrain(x: Externals, c: Conn)
    requires Coupled(c) && Over(c) && !c.eof && Forget(c) == c
    ensures PlainDrain(x, c).events == [] && PlainDrain(x, c).conn == c && !PlainDrain(x, c).outcome.Failed?
    ensures Orderly(x, c)
  {
    assert c.Peer() != L.Closed;
    hide Coupled, PlainDrain, Orderly;
    InactiveDrain(x, c);
  }

  /** What is left to report once the rest of the stream is there. */
  function Ahead(x: Externals, c: Conn, rest: bytes): Drained {
    var w := Forget(Feed(c, rest));
    if Coupled(w) then PlainDrain(x, w) else Drained(w, [], NeedData)
  }

  /** The rest of the stream completes the peer's message. */
  ghost predicate Leads(x: Externals, c: Conn, rest: bytes) {
    && Coupled(c) && HintOk(c) && !c.eof
    && Coupled(Forget(Feed(c, rest))) && Orderly(x, Forget(Feed(c, rest)))
    && !Ahead(x, c, rest).outcome.Failed? && Over(Ahead(x, c, rest).conn)
  }

  /** Polling now takes its part of that. */
  lemma PollNow(x: Externals, c: Conn, rest: bytes)
    requires Leads(x, c, rest)
    ensures var a := Emptied(x, c);
      var whole, later := Ahead(x, c, rest), Ahead(x, a.conn, rest);
      && Leads(x, a.conn, rest) && ReadsOn(c, a.conn)
      && Trace(whole.events) == Trace(a.events) + Trace(later.events) && later.conn == whole.conn
      && (rest == [] ==> Over(a.conn))
  {
    hide Coupled, Orderly, PlainDrain, Drain, HintOk, Potential, Trace, Over, ReadsOn;
    var a := Drain(x, c);
    Cuts.DrainReadsOn(x, c);
    ForgetCoupled(c);
    FedForgets(c, rest);
    FedForgets(a.conn, rest);
    ForgetTwice(c);
    if rest == [] {
      assert Feed(Forget(c), rest) == Forget(c) && Feed(Forget(a.conn), rest) == Forget(a.conn);
      DrainPlainly(x, c);
      OverForgets(a.conn);
      QuietDrain(x, Forget(a.conn));
      assert Trace([]) == [] by {
        NoTrace();
      }
      assert Trace(a.events) + [] == Trace(a.events);
      return;
    }
    OrderlyShorter(x, Forget(c), rest);
    DrainPlainly(x, c);
    DrainSplit(x, Forget(c), rest);
    TraceConcat(a.events, PlainDrain(x, Feed(Forget(a.conn), rest)).events);
  }

  lemma OverForgets(c: Conn)
    ensures Over(Forget(c)) <==> Over(c)
  {
  }

  lemma NoTrace()
    ensures Trace([]) == []
  {
  }

  // ------------------------------------------------------------------
  // A request in its turn
  // ------------------------------------------------------------------

  /** A server between cycles, whatever it keeps unread. */
  predicate Fresh(d: Conn, limits: Limits) {
    AwaitsHead(d) && d.role == L.Server && d.limits == limits && d.state == L.INITIAL
  }

  /** The stream of requests, once it is all there, completes the first of them. */
  lemma StreamLeads(x: Externals, c: Conn, d: Conn, next: Conn, es: seq<Exchange>, rest: bytes)
    requires Ready(c) && c.role == L.Client && Fresh(next, d.limits) && es != [] && AllLegible(x, c, d, es)
    requires next.input + rest == Wires(x, c, es) && d.role == L.Server
    ensures Leads(x, next, rest) && Ahead(x, next, rest).conn.input == Wires(x, c, es[1..])
    ensures Trace(Ahead(x, next, rest).events) == RequestTrace(x, c, es[0])
  {
    hide Coupled, SendRequest, SendContent, WritePlan, RequestMove, Act, RequestBytes, Receivable, ContentTokens, ReadsRequest,
         Orderly, PlainDrain, Trace, AllEmpty, ValidMethod, ContentBytes, Complies, L.Process, Wires, Active;
    var e, tail := es[0], Wires(x, c, es[1..]);
    var head := SendRequest(x, c, e.request);
    var content := SendContent(head.conn, e.upload, e.uploadTrailers);
    var whole := Feed(next, rest);
    WiresAre(x, c, es);
    WholeAwaits(next, rest);
    RequestWritten(x, c, e.request);
    RequestFraming(x, c, e.request);
    SendRequestCoupled(x, c, e.request);
    ContentWritten(head.conn, FramingOf(head), e.upload, e.uploadTrailers);
    RequestMoves(x, c, whole, e.request);
    assert whole.input == RequestBytes(e.request) + (content.out + tail);
    SameReadsRequest(x, d, whole, e.request, content.out + tail);
    SameReceivable(x, d, whole, FramingOf(head), e.upload, e.uploadTrailers, tail);
    RequestRead(x, c, whole, e.request, FramingOf(head), e.upload, e.uploadTrailers, tail);
    CoupledIsSound(head.conn);
    RequestOver(head.conn.state, PlainDrain(x, whole).conn);
  }

  lemma WiresAre(x: Externals, c: Conn, es: seq<Exchange>)
    requires es != [] && RequestSent(x, c, es[0]).Sent?
    ensures Wires(x, c, es) == RequestSent(x, c, es[0]).out + Wires(x, c, es[1..])
  {
    hide RequestSent;
  }

  lemma RequestOver(j: L.Joint, d: Conn)
    requires Sound(j) && d.role == L.Server && L.Process(j, L.Client, L.EndOfMessage) == Some(d.state)
    ensures Over(d)
  {
    hide Sound, L.Process;
    OwnActor(j, L.Client, L.EndOfMessage);
  }

  // ------------------------------------------------------------------
  // Answers
  // ------------------------------------------------------------------

  /** Only a client that had finished is left finished by the server. */
  lemma DoneBefore(j: L.Joint, event: L.StateEvent)
    requires L.Process(j, L.Server, event).Some? && L.Process(j, L.Server, event).value.client == L.Done
    ensures j.client == L.Done || j.client == L.MightSwitchProtocol
  {
  }

  lemma DoneBeforeLoss(j: L.Joint)
    requires L.DisableKeepAlive(j).client == L.Done || L.DisableKeepAlive(j).client == L.MightSwitchProtocol
    ensures j.client == L.Done || j.client == L.MightSwitchProtocol
  {
  }

  lemma StillBefore(j: L.Joint, event: L.StateEvent)
    requires L.Process(j, L.Server, event).Some? && L.Process(j, L.Server, event).value.client == L.MightSwitchProtocol
    ensures j.client == L.Done || j.client == L.MightSwitchProtocol
  {
  }

  lemma ResponseBefore(d: Conn, r: Response)
    requires d.role == L.Server && SendResponse(d, r).Sent?
    requires var j := SendResponse(d, r).conn.state; j.client == L.Done || j.client == L.MightSwitchProtocol
    ensures d.state.client == L.Done || d.state.client == L.MightSwitchProtocol
  {
    hide PlanResponse, L.Process, L.DisableKeepAlive, Persistent, ResponseBytes;
    var event := FinalEvent(d.requestKind, r.status);
    var j := L.Process(d.state, L.Server, event).value;
    if L.DisableKeepAlive(j).client == L.Done || L.DisableKeepAlive(j).client == L.MightSwitchProtocol {
      DoneBeforeLoss(j);
    }
    if j.client == L.Done {
      DoneBefore(d.state, event);
    } else if j.client == L.MightSwitchProtocol {
      StillBefore(d.state, event);
    }
  }

  /** A cycle ends only after the request it answers. */
  lemma AnswerFollows(d: Conn, e: Exchange)
    requires Coupled(d) && d.role == L.Server && ResponseSent(d, e).Sent? && StartNextCycle(ResponseSent(d, e).conn).Sent?
    ensures Over(d)
  {
    hide Coupled, SendResponse, SendContent, L.Process, PlanResponse;
    var head := SendResponse(d, e.response).conn;
    ResponseWritten(d, e.response);
    ResponseMoves(d, e.response);
    SendResponseCoupled(d, e.response);
    CoupledIsSound(head);
    if head.writer == Some(CloseDelimited) {
      ContentSentPlainly(head, e.download, e.downloadTrailers);
    } else {
      ContentWritten(head, head.writer.value, e.download, e.downloadTrailers);
    }
    DoneBefore(head.state, L.EndOfMessage);
    ResponseBefore(d, e.response);
  }

  /** The next cycle starts with what was kept unread. */
  lemma CycleIsFresh(d: Conn, e: Exchange)
    requires Coupled(d) && d.role == L.Server && !d.eof
    requires ResponseSent(d, e).Sent? && StartNextCycle(ResponseSent(d, e).conn).Sent?
    ensures var next := StartNextCycle(ResponseSent(d, e).conn).conn; Fresh(next, d.limits) && next.input == d.input
  {
    hide Coupled, ResponseSent;
    AnsweredKeeps(d, e);
    StartNextCycleCoupled(ResponseSent(d, e).conn);
  }

  /** With nothing to read there is nothing to report. */
  lemma IdlePoll(x: Externals, c: Conn)
    requires Fresh(c, c.limits) && c.input == [] && x.request([], c.limits.maxHeaderCount).Partial?
    ensures var a := Emptied(x, c); a.events == [] && a.conn == c.(progress := a.conn.progress) && Coupled(a.conn)
  {
    assert Cuts.AtSection(c) && HintOk(c) && Coupled(c);
    assert Cuts.Effective(x, c).Partial? && SectionEnd([], true).None?;
    hide Coupled, Drain, Cuts.AtSection, Cuts.Effective, SectionEnd, Cuts.Told, HintOk;
    Cuts.SectionDrain(x, c);
  }

  lemma JudgesNothing(x: Externals, c: Conn, d: Conn, e: Exchange, rest: bytes)
    requires Legible(x, c, d, e, rest)
    ensures x.request([], d.limits.maxHeaderCount).Partial?
  {
    hide SendRequest, SendContent, Receivable, RequestBytes;
    var content := SendContent(SendRequest(x, c, e.request).conn, e.upload, e.uploadTrailers).out;
    var data := RequestBytes(e.request) + (content + rest);
    var parse := b => x.request(b, d.limits.maxHeaderCount);
    assert Judges(parse, data, true, d.limits.maxHeadBytes);
    assert JudgesPrefix(parse, data, true, d.limits.maxHeadBytes, 0);
    assert data[..0] == [];
    assert SectionEnd([], true).None?;
  }

  // ------------------------------------------------------------------
  // Every schedule
  // ------------------------------------------------------------------

  /** Where the server stands, with this much still to arrive: the requests reported,
      what is left of the current one, and the requests behind it make up all. */
  ghost predicate Going(x: Externals, c: Conn, d: Conn, s: Serving, rest: bytes, all: seq<Token>) {
    && Coupled(s.conn) && !s.conn.eof && s.conn.role == L.Server && s.conn.limits == d.limits && AllLegible(x, c, d, s.pending)
    && if s.pending == [] then s.conn.input == [] && rest == [] && s.heard == all
       else
         && Leads(x, s.conn, rest) && Ahead(x, s.conn, rest).conn.input == Wires(x, c, s.pending[1..])
         && (s.heard + Trace(Ahead(x, s.conn, rest).events)) + Requests(x, c, s.pending[1..]) == all
         && (rest == [] ==> Over(s.conn))
  }

  lemma PolledOn(x: Externals, c: Conn, d: Conn, s: Serving, from: Conn, pending: seq<Exchange>, rest: bytes, all: seq<Token>)
    requires pending != [] && AllLegible(x, c, d, pending) && from.role == L.Server && from.limits == d.limits
    requires Leads(x, from, rest) && Ahead(x, from, rest).conn.input == Wires(x, c, pending[1..])
    requires (s.heard + Trace(Ahead(x, from, rest).events)) + Requests(x, c, pending[1..]) == all
    ensures Going(x, c, d, Noting(x, s, from, pending), rest, all)
  {
    hide Ahead, AllLegible, Emptied, Trace, Wires, Requests, Orderly, HintOk, Over, Coupled;
    PollNow(x, from, rest);
    var a := Emptied(x, from);
    var later := Trace(Ahead(x, a.conn, rest).events);
    assert s.heard + (Trace(a.events) + later) == (s.heard + Trace(a.events)) + later;
  }

  lemma ArriveGoesOn(x: Externals, c: Conn, d: Conn, s: Serving, data: bytes, rest: bytes, all: seq<Token>)
    requires Going(x, c, d, s, data + rest, all) && data != []
    ensures Going(x, c, d, Noting(x, s, Feed(s.conn, data), s.pending), rest, all)
  {
    hide AllLegible, PlainDrain, Trace, Wires, Requests, Orderly, HintOk, Over, Coupled, Noting;
    FeedTwice(s.conn, data, rest);
    FeedCoupled(s.conn, data);
    if HintOk(s.conn) {
      FeedKeepsHint(s.conn, data);
    }
    PolledOn(x, c, d, s, Feed(s.conn, data), s.pending, rest, all);
  }

  lemma AnswerGoesOn(x: Externals, c: Conn, d: Conn, s: Serving, rest: bytes, all: seq<Token>)
    requires Ready(c) && c.role == L.Client && d.role == L.Server
    requires Going(x, c, d, s, rest, all) && s.pending != []
    requires ResponseSent(s.conn, s.pending[0]).Sent? && StartNextCycle(ResponseSent(s.conn, s.pending[0]).conn).Sent?
    ensures var next := StartNextCycle(ResponseSent(s.conn, s.pending[0]).conn).conn;
      Going(x, c, d, Noting(x, s, next, s.pending[1..]), rest, all)
  {
    hide Coupled, ResponseSent, StartNextCycle, Trace, Wires, Requests, Orderly, Legible, Ready, Emptied, Over, Fresh,
         RequestTrace, Leads, Ahead;
    var es := s.pending[1..];
    var next := StartNextCycle(ResponseSent(s.conn, s.pending[0]).conn).conn;
    AnswerFollows(s.conn, s.pending[0]);
    CycleIsFresh(s.conn, s.pending[0]);
    NothingAhead(x, s.conn, rest);
    assert s.heard + [] == s.heard;
    FreshIs(next, d.limits);
    if es == [] {
      NoRequests(x, c);
      assert s.conn.input + rest == [] && s.heard + Requests(x, c, es) == s.heard;
      JudgesNothing(x, c, d, s.pending[0], []);
      IdlePoll(x, next);
      NoTrace();
      return;
    }
    StreamLeads(x, c, d, next, es, rest);
    RequestsAre(x, c, es);
    assert s.heard + (RequestTrace(x, c, es[0]) + Requests(x, c, es[1..]))
        == (s.heard + RequestTrace(x, c, es[0])) + Requests(x, c, es[1..]);
    PolledOn(x, c, d, s, next, es, rest, all);
  }

  lemma FreshIs(d: Conn, limits: Limits)
    requires Fresh(d, limits)
    ensures Coupled(d) && !d.eof && d.role == L.Server && d.limits == limits && Fresh(d, d.limits)
  {
  }

  lemma NoRequests(x: Externals, c: Conn)
    ensures Requests(x, c, []) == [] && Wires(x, c, []) == []
  {
  }

  lemma RequestsAre(x: Externals, c: Conn, es: seq<Exchange>)
    requires es != []
    ensures Requests(x, c, es) == RequestTrace(x, c, es[0]) + Requests(x, c, es[1..])
  {
    hide RequestTrace;
  }

  lemma NothingAhead(x: Externals, c: Conn, rest: bytes)
    requires Leads(x, c, rest) && Over(c)
    ensures Trace(Ahead(x, c, rest).events) == [] && Ahead(x, c, rest).conn.input == c.input + rest
  {
    hide Coupled, PlainDrain, Orderly, HintOk;
    QuietDrain(x, Forget(Feed(c, rest)));
  }

  lemma {:induction false} EveryTurn(x: Externals, c: Conn, d: Conn, s: Serving, turns: seq<Turn>, rest: bytes, all: seq<Token>)
    requires Ready(c) && c.role == L.Client && d.role == L.Server
    requires Going(x, c, d, s, Arrived(turns) + rest, all) && Serve(x, s, turns).Some?
    ensures Going(x, c, d, Serve(x, s, turns).value, rest, all)
    decreases |turns|
  {
    hide Going, Noting, ResponseSent, StartNextCycle, Ready;
    if turns == [] {
      assert [] + rest == rest;
      return;
    }
    var later := Arrived(turns[1..]) + rest;
    if turns[0].Arrive? {
      assert Arrived(turns) + rest == turns[0].data + later;
      ArriveGoesOn(x, c, d, s, turns[0].data, later, all);
    } else {
      assert Arrived(turns) + rest == later;
      AnswerGoesOn(x, c, d, s, later, all);
    }
    EveryTurn(x, c, d, Turned(x, s, turns[0]).value, turns[1..], rest, all);
  }

  /**
   Pipelining.  Whatever the schedule of arrivals and answers, as long as no answer
   is refused: what a ready server has reported begins the list of all requests,
   and when the whole stream has arrived it has reported exactly the requests it
   has answered and the next one, and keeps exactly the bytes of the others.
   */
  lemma PipelinedRequests(x: Externals, c: Conn, d: Conn, es: seq<Exchange>, turns: seq<Turn>, rest: bytes)
    requires Ready(c) && c.role == L.Client && Ready(d) && d.role == L.Server && es != [] && AllLegible(x, c, d, es)
    requires Arrived(turns) + rest == Wires(x, c, es) && Serve(x, Serving(d, es, []), turns).Some?
    ensures var s := Serve(x, Serving(d, es, []), turns).value;
      var behind := if s.pending == [] then [] else s.pending[1..];
      && s.heard <= Requests(x, c, es)
      && (rest == [] ==> s.heard + Requests(x, c, behind) == Requests(x, c, es) && s.conn.input == Wires(x, c, behind))
      && (s.pending == [] ==> rest == [])
  {
    hide Coupled, Trace, Requests, Orderly, Legible, Ready, RequestTrace, Ahead, Leads, Serve, Wires, Arrived;
    var all := Requests(x, c, es);
    var s := Serving(d, es, []);
    ReadyIsFresh(d);
    assert d.input + (Arrived(turns) + rest) == Arrived(turns) + rest;
    StreamLeads(x, c, d, d, es, Arrived(turns) + rest);
    RequestsAre(x, c, es);
    SomethingToCome(x, c, d, es);
    FreshIs(d, d.limits);
    assert [] + RequestTrace(x, c, es[0]) == RequestTrace(x, c, es[0]);
    EveryTurn(x, c, d, s, turns, rest, all);
    NoRequests(x, c);
    var t := Serve(x, s, turns).value;
    if t.pending != [] && rest == [] {
      NothingAhead(x, t.conn, rest);
      assert t.heard + [] == t.heard && t.conn.input + [] == t.conn.input;
    }
  }

  lemma ReadyIsFresh(d: Conn)
    requires Ready(d) && d.role == L.Server
    ensures Fresh(d, d.limits) && d.input == []
  {
    ReadyAwaits(d);
  }

  lemma SomethingToCome(x: Externals, c: Conn, d: Conn, es: seq<Exchange>)
    requires es != [] && AllLegible(x, c, d, es)
    ensures Wires(x, c, es) != []
  {
    hide SendRequest, SendContent, Receivable, ReadsRequest, ValidMethod;
    RequestWritten(x, c, es[0].request);
    assert |SectionBytes([RequestLine(es[0].request)] + HeaderLines(es[0].request.headers))| >= 2;
  }
}
