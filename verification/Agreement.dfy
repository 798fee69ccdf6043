/**
 Two endpoints, one wire: every head one side emits is accepted by the other,
 selects the reader that matches the sender's writer, and takes both lifecycles
 through the same move.
 */
module Agreement {
  import opened Prelude
  import opened Bytes
  import opened Fields
  import opened Heads
  import opened ConnectionModel
  import opened LifecycleRuns
  import L = Lifecycle

  // ------------------------------------------------------------------
  // Requests
  // ------------------------------------------------------------------

  /** The receiver's reading of a request the sender accepted is the sender's own. */
  lemma PlansAgree(x: Externals, r: Request)
    requires WritePlan(x, r).RequestPlan?
    ensures ReadPlan(x, r) == WritePlan(x, r)
  {
    hide ValidTarget, ValidHeaders, ValidHost, SelectFraming, UpgradeProtocols, HasToken;
  }

  /** The move a request makes on either side. */
  function RequestMove(r: Request, plan: RequestPlan): Action
    requires plan.RequestPlan?
  {
    Move(L.Client, RequestProposals(r, plan), !Persistent(r.version, r.headers))
  }

  /** Both sides remember the same of the exchange. */
  predicate SameContext(c: Conn, d: Conn) {
    c.requestKind == d.requestKind && c.upgrades == d.upgrades && c.continueFirst == d.continueFirst
  }

  lemma RequestAgreement(x: Externals, c: Conn, d: Conn, r: Request)
    requires SendRequest(x, c, r).Sent? && d.role == L.Server
    requires Act(d.state, RequestMove(r, WritePlan(x, r))).Some?
    ensures var m := RequestMove(r, WritePlan(x, r));
      var sent, got := SendRequest(x, c, r).conn, AcceptRequest(x, d, r);
      && got.outcome == Occurred(RequestEvent(r))
      && Act(c.state, m) == Some(sent.state) && Act(d.state, m) == Some(got.conn.state)
      && sent.writer.Some? && got.conn.reader == ReaderFor(sent.writer.value)
      && SameContext(sent, got.conn) && sent.waiting == got.conn.waiting
      && got.conn.peerVersion == Some(r.version)
  {
    hide WritePlan, ReadPlan, L.Process, L.DisableKeepAlive, Persistent, ExpectsContinue, RequestBytes, ReaderFor;
    PlansAgree(x, r);
  }

  // ------------------------------------------------------------------
  // Informational responses
  // ------------------------------------------------------------------

  function InformationalMove(r: Response): Action {
    Move(L.Server, if r.status == 101 then L.ProtocolSwitch(L.Upgrade) else L.InformationalResponse, false)
  }

  lemma InformationalAgreement(c: Conn, d: Conn, r: Response)
    requires SendInformational(c, r).Sent? && d.role == L.Client && SameContext(c, d)
    requires Act(d.state, InformationalMove(r)).Some?
    ensures var m := InformationalMove(r);
      var sent, got := SendInformational(c, r).conn, AcceptResponse(d, r);
      && got.outcome == Occurred(InformationalEvent(r))
      && Act(c.state, m) == Some(sent.state) && Act(d.state, m) == Some(got.conn.state)
      && SameContext(sent, got.conn)
  {
    hide L.Process, L.DisableKeepAlive, ValidUpgrade, ValidHeaders, ValidReason, FramingFields, ResponseBytes;
  }

  // ------------------------------------------------------------------
  // Final responses
  // ------------------------------------------------------------------

  lemma NamesDiffer()
    ensures !EqIgnoreCase(CONNECTION, TRANSFER_ENCODING) && !EqIgnoreCase(CONNECTION, CONTENT_LENGTH)
    ensures EqIgnoreCase("Transfer-Encoding", TRANSFER_ENCODING)
    ensures !EqIgnoreCase("Transfer-Encoding", CONTENT_LENGTH)
  {
    assert |CONNECTION| == 10 && |TRANSFER_ENCODING| == 17 && |CONTENT_LENGTH| == 14;
  }

  /** Signalling closure leaves the framing alone. */
  lemma CloseKeepsFraming(headers: seq<Header>, version: Version)
    ensures FramingFields(SetConnectionClose(headers)) == FramingFields(headers)
    ensures SelectFraming(SetConnectionClose(headers), version) == SelectFraming(headers, version)
    ensures ResponseFraming(SetConnectionClose(headers), version) == ResponseFraming(headers, version)
  {
    hide SetConnectionClose, HeaderValues, AllMembers, TransferFraming, LengthFraming, EqIgnoreCase;
    NamesDiffer();
    CloseSignalled(headers);
  }

  /** The framing field that is added selects chunked framing and nothing else. */
  lemma AddedCoding(headers: seq<Header>)
    requires FramingFields(headers) == 0
    ensures ResponseFraming(headers + [Header("Transfer-Encoding", CHUNKED)], Http11) == Framed(Chunked)
  {
    hide HeaderValues, AllMembers, EqIgnoreCase;
    var coding := Header("Transfer-Encoding", CHUNKED);
    NamesDiffer();
    HeaderValuesConcat(headers, [coding], TRANSFER_ENCODING);
    HeaderValuesConcat(headers, [coding], CONTENT_LENGTH);
    OneHeader(coding, TRANSFER_ENCODING);
    OneHeader(coding, CONTENT_LENGTH);
    ChunkedMember();
    EqIgnoreCaseReflexive(CHUNKED);
    var all := headers + [coding];
    assert HeaderValues(all, TRANSFER_ENCODING) == [CHUNKED];
    assert HeaderValues(all, CONTENT_LENGTH) == [];
    assert Elements(all, CONTENT_LENGTH) == [] by {
      NoMembers();
    }
    FramingExact(all, Http11, 0);
  }

  lemma OneHeader(h: Header, name: bytes)
    ensures HeaderValues([h], name) == if EqIgnoreCase(h.name, name) then [h.value] else []
  {
    hide EqIgnoreCase;
  }

  lemma NoMembers()
    ensures AllMembers([]) == []
  {
  }

  lemma ChunkedMember()
    ensures AllMembers([CHUNKED]) == [CHUNKED]
  {
    MembersOfMember(CHUNKED);
  }

  /** The framing of the planned head, as its receiver will read it. */
  lemma PlanFraming(c: Conn, r: Response)
    requires PlanResponse(c, r).ResponsePlan?
    ensures var p := PlanResponse(c, r);
      if NoContent(c.requestKind, r.status) then p.framing == Fixed(0)
      else
        && ResponseFraming(p.headers, r.version) == Framed(p.framing)
        && (p.framing == CloseDelimited ==> !Persistent(r.version, p.headers))
  {
    hide SetConnectionClose, FramingFields, SelectFraming, ResponseFraming, DropCodings, ValidHeaders, ValidReason, HasToken;
    var p := FrameResponse(c, r);
    if !NoContent(c.requestKind, r.status) {
      FrameMatches(c, r);
    }
    CloseKeepsFraming(p.headers, r.version);
    CloseSignalled(p.headers);
  }

  lemma FrameMatches(c: Conn, r: Response)
    requires FrameResponse(c, r).ResponsePlan? && !NoContent(c.requestKind, r.status)
    ensures ResponseFraming(FrameResponse(c, r).headers, r.version) == Framed(FrameResponse(c, r).framing)
    ensures FrameResponse(c, r).framing == CloseDelimited ==> !BothHttp11(c, r)
  {
    hide SelectFraming, FramingFields, DropCodings;
    var headers := DropCodings(c, r);
    if FramingFields(headers) == 0 && BothHttp11(c, r) {
      AddedCoding(headers);
    } else if FramingFields(headers) != 0 {
      FramingExact(headers, r.version, 0);
    }
  }

  /** The head that goes out. */
  function EmittedHead(c: Conn, r: Response): Response
    requires PlanResponse(c, r).ResponsePlan?
  {
    r.(headers := PlanResponse(c, r).headers)
  }

  function ResponseMove(kind: Option<RequestKind>, r: Response): Action {
    Move(L.Server, FinalEvent(kind, r.status), !Persistent(r.version, r.headers))
  }

  lemma DisableTwice(j: L.Joint)
    ensures L.DisableKeepAlive(L.DisableKeepAlive(j)) == L.DisableKeepAlive(j)
  {
  }

  lemma ResponseAgreement(c: Conn, d: Conn, r: Response)
    requires SendResponse(c, r).Sent? && d.role == L.Client && c.requestKind == d.requestKind
    requires Act(d.state, ResponseMove(c.requestKind, EmittedHead(c, r))).Some?
    ensures var head := EmittedHead(c, r);
      var m := ResponseMove(c.requestKind, head);
      var sent, got := SendResponse(c, r).conn, AcceptResponse(d, head);
      && got.outcome == Occurred(ResponseEvent(head))
      && SendResponse(c, r).out == ResponseBytes(head)
      && Act(c.state, m) == Some(sent.state) && Act(d.state, m) == Some(got.conn.state)
      && sent.writer.Some? && got.conn.reader == ReaderFor(sent.writer.value)
      && SameContext(sent, got.conn) && (c.state == d.state ==> sent.state == got.conn.state)
  {
    hide PlanResponse, L.Process, L.DisableKeepAlive, Persistent, ResponseFraming, ResponseBytes, ReaderFor, FinalEvent;
    PlanFraming(c, r);
    var head := EmittedHead(c, r);
    var next := L.Process(d.state, L.Server, FinalEvent(c.requestKind, r.status));
    DisableTwice(next.value);
  }

  // ------------------------------------------------------------------
  // What goes out is well formed
  // ------------------------------------------------------------------

  /** Normalizing a response keeps its field section valid, so the head it
      prints is scanned as one section. */
  lemma EmittedHeadIsValid(c: Conn, r: Response)
    requires PlanResponse(c, r).ResponsePlan?
    ensures ValidHeaders(EmittedHead(c, r).headers) && ValidReason(r.reason)
  {
    hide SetConnectionClose, Without, FramingFields, SelectFraming, HasToken, CountHeader, ValidReason;
    WithoutKeepsValid(r.headers, TRANSFER_ENCODING);
    WithoutKeepsValid(Without(r.headers, TRANSFER_ENCODING), CONTENT_LENGTH);
    CodingIsValid();
    var p := FrameResponse(c, r);
    assert ValidHeaders(p.headers);
    CloseKeepsValid(p.headers);
  }

  lemma CodingIsValid()
    ensures ValidHeader(Header("Transfer-Encoding", CHUNKED))
  {
  }
}
