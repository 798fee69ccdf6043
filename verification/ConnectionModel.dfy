/**
 One connection as a value (crates/h11r/src/connection.rs): its fields, and the
 effect of every public operation as a function of them.  The class in
 Connection.dfy performs these operations in place; the properties of the
 protocol are proved about these functions.
 */
module ConnectionModel {
  import opened Prelude
  import opened Bytes
  import opened Numbers
  import opened Fields
  import opened Heads
  import opened Scan
  import opened ChunkLine
  import L = Lifecycle

  // ------------------------------------------------------------------
  // The external parser
  // ------------------------------------------------------------------

  datatype Parsed<+T> = Invalid(status: Option<nat>) | Partial | Complete(end: nat, value: T)

  /** The head and trailer parsers, given the input and the field limit, and the
      test of a Host value: none of them is part of this model. */
  datatype RawExternals = Externals(
    request: (bytes, nat) -> Parsed<Request>,
    response: (bytes, nat) -> Parsed<Response>,
    trailers: (bytes, nat, bool) -> Parsed<seq<Header>>,
    authority: bytes -> bool)

  /** A parser that completes has read at least one byte and no more than there are. */
  ghost predicate Consuming(x: RawExternals) {
    && (forall data, n :: x.request(data, n).Complete? ==> 0 < x.request(data, n).end <= |data|)
    && (forall data, n :: x.response(data, n).Complete? ==> 0 < x.response(data, n).end <= |data|)
    && (forall data, n, fold :: x.trailers(data, n, fold).Complete? ==> 0 < x.trailers(data, n, fold).end <= |data|)
  }

  type Externals = x: RawExternals | Consuming(x)
    ghost witness Externals((_, _) => Partial, (_, _) => Partial, (_, _, _) => Partial, _ => true)

  // ------------------------------------------------------------------
  // State
  // ------------------------------------------------------------------

  datatype Limits = Limits(maxHeadBytes: nat, maxHeaderCount: nat)

  datatype Chunk = Size(scanned: nat) | Body(remaining: nat, first: bool) | BodyEnd | Trailers

  datatype Reader = AwaitHead | ReadFixed(remaining: nat) | ReadChunked(chunk: Chunk) | ReadToClose

  datatype RequestKind = Other | HeadKind | ConnectKind

  datatype Conn = Conn(
    role: L.Role,
    limits: Limits,
    state: L.Joint,
    input: bytes,
    progress: Option<Progress>,
    reader: Reader,
    writer: Option<Framing>,
    eof: bool,
    peerVersion: Option<Version>,
    requestKind: Option<RequestKind>,
    upgrades: seq<bytes>,
    waiting: bool,
    continueFirst: bool)
  {
    function Local(): L.State {
      state.At(role)
    }

    function Peer(): L.State {
      state.At(role.Peer())
    }
  }

  datatype Event =
    | RequestEvent(request: Request)
    | InformationalEvent(response: Response)
    | ResponseEvent(response: Response)
    | DataEvent(data: bytes, chunkStart: bool, chunkEnd: bool)
    | EndEvent(trailers: seq<Header>)
    | ClosedEvent

  datatype Outcome = Occurred(event: Event) | NeedData | Paused | Failed(status: Option<nat>)

  datatype Step = Step(conn: Conn, outcome: Outcome)

  /** A refused operation has no new state: it leaves the connection as it was. */
  datatype Sent = Refused | Sent(conn: Conn, out: bytes)

  /** Interpreting a head, a body piece or an ending leaves the buffer, the
      transport and the local message alone. */
  predicate SameWire(c: Conn, d: Conn) {
    d.role == c.role && d.limits == c.limits && d.input == c.input && d.eof == c.eof && d.writer == c.writer
  }

  function New(role: L.Role, limits: Limits): Conn {
    Conn(role, limits, L.INITIAL, [], None, AwaitHead, None, false, None, None, [], false, false)
  }

  function KindOf(method_: bytes): RequestKind {
    if method_ == HEAD then HeadKind
    else if method_ == CONNECT then ConnectKind
    else Other
  }

  function ReaderFor(framing: Framing): Reader {
    match framing
    case Fixed(n) => ReadFixed(n)
    case Chunked => ReadChunked(Size(0))
    case CloseDelimited => ReadToClose
  }

  // ------------------------------------------------------------------
  // Receiving
  // ------------------------------------------------------------------

  function Receive(c: Conn, data: bytes): Option<Conn> {
    if c.eof && data != [] then None
    else if data == [] then Some(c.(eof := true))
    else Some(c.(input := c.input + data))
  }

  function AdvancePeer(c: Conn, event: L.StateEvent): Option<Conn> {
    match L.Process(c.state, c.role.Peer(), event)
    case None => None
    case Some(next) => Some(c.(state := next))
  }

  function AdvanceLocal(c: Conn, event: L.StateEvent): Option<Conn> {
    match L.Process(c.state, c.role, event)
    case None => None
    case Some(next) => Some(c.(state := next))
  }

  function ApplyPersistence(c: Conn, version: Version, headers: seq<Header>): Conn {
    if Persistent(version, headers) then c else c.(state := L.DisableKeepAlive(c.state))
  }

  function NeedDataOrEof(c: Conn): (result: Step)
    ensures SameWire(c, result.conn)
    ensures !result.outcome.Occurred?
  {
    Step(c, if c.eof then Failed(Some(400)) else NeedData)
  }

  /** Looks for the end of the section, resuming an earlier search. */
  function PollSection(c: Conn, skip: bool): Polled {
    PollFrom(if c.progress.Some? then c.progress.value else FRESH, c.input, skip)
  }

  /** Whether parsing is worth a try, and the connection with the search recorded. */
  function SectionReady(c: Conn, skip: bool): (Conn, bool) {
    if c.eof || c.progress.None? then (c, true)
    else (c.(progress := Some(PollSection(c, skip).progress)), PollSection(c, skip).end.Some?)
  }

  function WaitForSection(c: Conn, skip: bool): (result: Step)
    ensures SameWire(c, result.conn)
    ensures !result.outcome.Occurred?
  {
    if |c.input| > c.limits.maxHeadBytes then
      Step(c, Failed(if !skip then Some(400) else if c.role == L.Server then Some(431) else None))
    else NeedDataOrEof(c.(progress := Some(PollSection(c, skip).progress)))
  }

  function ParseRequest(x: Externals, data: bytes, limits: Limits): Parsed<Request> {
    match x.request(data, limits.maxHeaderCount)
    case Complete(end, _) =>
      if end > limits.maxHeadBytes then Invalid(Some(431)) else x.request(data, limits.maxHeaderCount)
    case other => other
  }

  function ParseResponse(x: Externals, data: bytes, limits: Limits): Parsed<Response> {
    match x.response(data, limits.maxHeaderCount)
    case Complete(end, _) =>
      if end > limits.maxHeadBytes then Invalid(None) else x.response(data, limits.maxHeaderCount)
    case other => other
  }

  function ParseTrailers(x: Externals, data: bytes, limits: Limits, fold: bool): Parsed<seq<Header>> {
    var end := SectionEnd(data, false);
    if (if end.Some? then end.value else |data|) > limits.maxHeadBytes then Invalid(Some(400))
    else
      match x.trailers(data, limits.maxHeaderCount, fold)
      case Complete(parsed, trailers) => Complete(if end.Some? then end.value else parsed, trailers)
      case other => other
  }

  function ProposedUpgrades(version: Version, headers: seq<Header>): seq<bytes> {
    if version == Http11 && HasToken(headers, CONNECTION, UPGRADE) then
      var protocols := UpgradeProtocols(headers);
      if protocols.Some? then protocols.value else []
    else []
  }

  /** A switch is valid when it names at least one protocol, and only offered ones. */
  predicate ValidUpgrade(upgrades: seq<bytes>, version: Version, headers: seq<Header>) {
    && version == Http11
    && HasToken(headers, CONNECTION, UPGRADE)
    && var selected := UpgradeProtocols(headers);
       && selected.Some? && selected.value != []
       && forall s <- selected.value :: exists offered <- upgrades :: ProtocolMatches(offered, s)
  }

  /** What a request head decides: how its content is framed, which protocols it offers. */
  datatype RequestPlan = BadRequest(status: nat) | RequestPlan(framing: Framing, upgrades: seq<bytes>)

  function ReadPlan(x: Externals, r: Request): RequestPlan {
    if !ValidTarget(r.target) || !ValidHost(r.version, r.headers, x.authority) then BadRequest(400)
    else
      match SelectFraming(r.headers, r.version)
      case BadFraming(status) => BadRequest(status)
      case Framed(framing) => RequestPlan(framing, ProposedUpgrades(r.version, r.headers))
  }

  function RequestProposals(r: Request, plan: RequestPlan): L.StateEvent
    requires plan.RequestPlan?
  {
    L.Request(L.Proposals(r.method_ == CONNECT, plan.upgrades != []))
  }

  /** The fields a request sets on either side of the connection. */
  function BeginRequest(c: Conn, r: Request, plan: RequestPlan): Conn
    requires plan.RequestPlan?
  {
    var waiting := ExpectsContinue(r.version, r.headers, plan.framing);
    ApplyPersistence(c, r.version, r.headers)
    .(requestKind := Some(KindOf(r.method_)),
      waiting := waiting,
      continueFirst := waiting && plan.upgrades != [],
      upgrades := plan.upgrades)
  }

  function AcceptRequest(x: Externals, c: Conn, r: Request): (result: Step)
    ensures SameWire(c, result.conn)
    ensures result.outcome.Failed? || result.outcome == Occurred(RequestEvent(r))
  {
    var plan := ReadPlan(x, r);
    if plan.BadRequest? then Step(c, Failed(Some(plan.status)))
    else
      match AdvancePeer(c, RequestProposals(r, plan))
      case None => Step(c, Failed(Some(400)))
      case Some(advanced) =>
        Step(BeginRequest(advanced, r, plan).(peerVersion := Some(r.version), reader := ReaderFor(plan.framing)),
             Occurred(RequestEvent(r)))
  }

  function HeadEvent(r: Response): Event {
    if IsInformational(r.status) then InformationalEvent(r) else ResponseEvent(r)
  }

  function AcceptInformational(c: Conn, r: Response): (result: Step)
    requires IsInformational(r.status)
    ensures SameWire(c, result.conn)
    ensures result.outcome.Failed? || result.outcome == Occurred(HeadEvent(r))
  {
    if r.status == 101 && (c.continueFirst || !ValidUpgrade(c.upgrades, r.version, r.headers)) then Step(c, Failed(None))
    else
      match AdvancePeer(c, if r.status == 101 then L.ProtocolSwitch(L.Upgrade) else L.InformationalResponse)
      case None => Step(c, Failed(Some(400)))
      case Some(advanced) =>
        Step(advanced.(waiting := advanced.waiting && r.status != 100,
                       continueFirst := advanced.continueFirst && r.status != 100,
                       peerVersion := Some(r.version)),
             Occurred(InformationalEvent(r)))
  }

  predicate Connects(kind: Option<RequestKind>, status: Status) {
    kind == Some(ConnectKind) && IsSuccess(status)
  }

  /** Responses that never have content, whatever their fields say. */
  predicate NoContent(kind: Option<RequestKind>, status: Status) {
    status == 204 || status == 304 || kind == Some(HeadKind) || Connects(kind, status)
  }

  function FinalEvent(kind: Option<RequestKind>, status: Status): L.StateEvent {
    if Connects(kind, status) then L.ProtocolSwitch(L.Connect) else L.Response
  }

  function AcceptFinal(c: Conn, r: Response): (result: Step)
    requires !IsInformational(r.status)
    ensures SameWire(c, result.conn)
    ensures result.outcome.Failed? || result.outcome == Occurred(HeadEvent(r))
  {
    match AdvancePeer(c, FinalEvent(c.requestKind, r.status))
    case None => Step(c, Failed(Some(400)))
    case Some(advanced) =>
      var next := ApplyPersistence(advanced, r.version, r.headers)
                  .(peerVersion := Some(r.version), waiting := false, continueFirst := false, upgrades := []);
      match if NoContent(c.requestKind, r.status) then Framed(Fixed(0)) else ResponseFraming(r.headers, r.version)
      case BadFraming(status) => Step(next, Failed(Some(status)))
      case Framed(framing) =>
        Step(next.(state := if framing == CloseDelimited then L.DisableKeepAlive(next.state) else next.state,
                   reader := ReaderFor(framing)),
             Occurred(ResponseEvent(r)))
  }

  function AcceptResponse(c: Conn, r: Response): (result: Step)
    ensures SameWire(c, result.conn)
    ensures result.outcome.Failed? || result.outcome == Occurred(HeadEvent(r))
  {
    if IsInformational(r.status) then AcceptInformational(c, r) else AcceptFinal(c, r)
  }

  function Consume(c: Conn, count: nat): Conn
    requires count <= |c.input|
  {
    c.(input := c.input[count..])
  }

  // What a search and a parse can do to the input.

  lemma ScannedFields(c: Conn, skip: bool)
    ensures SectionReady(c, skip).0 == c.(progress := SectionReady(c, skip).0.progress)
  {
  }

  lemma ParsedEnds(x: Externals, c: Conn)
    ensures ParseRequest(x, c.input, c.limits).Complete? ==> 0 < ParseRequest(x, c.input, c.limits).end <= |c.input|
    ensures ParseResponse(x, c.input, c.limits).Complete? ==> 0 < ParseResponse(x, c.input, c.limits).end <= |c.input|
    ensures forall fold :: ParseTrailers(x, c.input, c.limits, fold).Complete? ==>
      0 < ParseTrailers(x, c.input, c.limits, fold).end <= |c.input|
  {
    hide SectionEnd;
  }

  function ReadHead(x: Externals, c: Conn): Step {
    var (scanned, ready) := SectionReady(c, true);
    if !ready then WaitForSection(scanned, true)
    else if c.role == L.Server then
      match ParseRequest(x, c.input, c.limits)
      case Invalid(status) => Step(scanned, Failed(status))
      case Partial => WaitForSection(scanned, true)
      case Complete(end, request) => AcceptRequest(x, Consume(scanned, end).(progress := None), request)
    else
      match ParseResponse(x, c.input, c.limits)
      case Invalid(status) => Step(scanned, Failed(status))
      case Partial => WaitForSection(scanned, true)
      case Complete(end, response) => AcceptResponse(Consume(scanned, end).(progress := None), response)
  }

  function PeerData(c: Conn, data: bytes, chunkStart: bool, chunkEnd: bool): (result: Step)
    ensures SameWire(c, result.conn)
    ensures result.outcome.Failed? || result.outcome == Occurred(DataEvent(data, chunkStart, chunkEnd))
  {
    match AdvancePeer(c, L.Data)
    case None => Step(c, Failed(Some(400)))
    case Some(advanced) => Step(advanced.(waiting := false), Occurred(DataEvent(data, chunkStart, chunkEnd)))
  }

  function FinishPeer(c: Conn, trailers: seq<Header>): (result: Step)
    ensures SameWire(c, result.conn)
    ensures result.outcome.Failed? || result.outcome == Occurred(EndEvent(trailers))
  {
    match AdvancePeer(c, L.EndOfMessage)
    case None => Step(c, Failed(Some(400)))
    case Some(advanced) => Step(advanced.(reader := AwaitHead), Occurred(EndEvent(trailers)))
  }

  function PeerClosed(c: Conn): (result: Step)
    ensures SameWire(c, result.conn)
  {
    match AdvancePeer(c, L.ConnectionClosed)
    case None => Step(c, Failed(Some(400)))
    case Some(advanced) => Step(advanced, Occurred(ClosedEvent))
  }

  function Min(a: nat, b: nat): nat {
    if a <= b then a else b
  }

  function ChunkLineTooLong(c: Conn): Outcome {
    Failed(if c.role == L.Server then Some(400) else None)
  }

  function ReadSize(x: Externals, c: Conn, scanned: nat): Step
    decreases |c.input|, 0
  {
    match FindCrlf(c.input, scanned)
    case None =>
      if IncompleteLineLen(c.input) > c.limits.maxHeadBytes then Step(c, ChunkLineTooLong(c))
      else NeedDataOrEof(c.(reader := ReadChunked(Size(if c.input == [] then 0 else |c.input| - 1))))
    case Some(end) =>
      if end - 2 > c.limits.maxHeadBytes then Step(c, ChunkLineTooLong(c))
      else
        match ParseChunkHeader(c.input[..end - 2])
        case None => Step(c, Failed(Some(400)))
        case Some(size) =>
          NextInner(x, if size == 0 then Consume(c, end).(reader := ReadChunked(Trailers), progress := None)
                       else Consume(c, end).(reader := ReadChunked(Body(size, true))))
  }

  function ReadBody(c: Conn, remaining: nat, first: bool): Step {
    var count := Min(remaining, |c.input|);
    if count == 0 then NeedDataOrEof(c)
    else
      PeerData(Consume(c, count).(reader := ReadChunked(if count == remaining then BodyEnd
                                                        else Body(remaining - count, false))),
               c.input[..count], first, count == remaining)
  }

  function ReadBodyEnd(x: Externals, c: Conn): Step
    decreases |c.input|, 0
  {
    if |c.input| < 2 then NeedDataOrEof(c)
    else if c.input[..2] != CRLF then Step(c, Failed(Some(400)))
    else NextInner(x, Consume(c, 2).(reader := ReadChunked(Size(0))))
  }

  function ReadTrailers(x: Externals, c: Conn): Step {
    var (scanned, ready) := SectionReady(c, false);
    if !ready then WaitForSection(scanned, false)
    else
      match ParseTrailers(x, c.input, c.limits, c.role == L.Client)
      case Invalid(status) => Step(scanned, Failed(status))
      case Partial => WaitForSection(scanned, false)
      case Complete(end, trailers) => FinishPeer(Consume(scanned, end).(progress := None), trailers)
  }

  // Reading a section, with the bookkeeping of the search worked out.

  lemma ReadRequestIs(x: Externals, c: Conn)
    requires c.role == L.Server
    ensures var (scanned, ready) := SectionReady(c, true);
      var parsed := ParseRequest(x, c.input, c.limits);
      && (parsed.Complete? ==> 0 < parsed.end <= |c.input|)
      && ReadHead(x, c) ==
         if !ready || parsed.Partial? then WaitForSection(scanned, true)
         else if parsed.Invalid? then Step(scanned, Failed(parsed.status))
         else AcceptRequest(x, Consume(c, parsed.end).(progress := None), parsed.value)
  {
    hide SectionReady, WaitForSection, ParseRequest, AcceptRequest;
    ScannedFields(c, true);
    ParsedEnds(x, c);
  }

  lemma ReadResponseIs(x: Externals, c: Conn)
    requires c.role == L.Client
    ensures var (scanned, ready) := SectionReady(c, true);
      var parsed := ParseResponse(x, c.input, c.limits);
      && (parsed.Complete? ==> 0 < parsed.end <= |c.input|)
      && ReadHead(x, c) ==
         if !ready || parsed.Partial? then WaitForSection(scanned, true)
         else if parsed.Invalid? then Step(scanned, Failed(parsed.status))
         else AcceptResponse(Consume(c, parsed.end).(progress := None), parsed.value)
  {
    hide SectionReady, WaitForSection, ParseResponse, AcceptResponse;
    ScannedFields(c, true);
    ParsedEnds(x, c);
  }

  lemma ReadTrailersIs(x: Externals, c: Conn)
    ensures var (scanned, ready) := SectionReady(c, false);
      var parsed := ParseTrailers(x, c.input, c.limits, c.role == L.Client);
      && (parsed.Complete? ==> 0 < parsed.end <= |c.input|)
      && ReadTrailers(x, c) ==
         if !ready || parsed.Partial? then WaitForSection(scanned, false)
         else if parsed.Invalid? then Step(scanned, Failed(parsed.status))
         else FinishPeer(Consume(c, parsed.end).(progress := None), parsed.value)
  {
    hide SectionReady, WaitForSection, ParseTrailers, FinishPeer;
    ScannedFields(c, false);
    ParsedEnds(x, c);
  }

  /** What the body readers do while the peer is sending its message. */
  function ReadMessage(x: Externals, c: Conn): Step
    decreases |c.input|, 1
  {
    match c.reader
    case AwaitHead => ReadHead(x, c)
    case ReadFixed(remaining) =>
      if remaining == 0 then FinishPeer(c, [])
      else
        var count := Min(remaining, |c.input|);
        if count == 0 then NeedDataOrEof(c)
        else PeerData(Consume(c, count).(reader := ReadFixed(remaining - count)), c.input[..count], false, false)
    case ReadToClose =>
      if c.input != [] then PeerData(Consume(c, |c.input|), c.input, false, false)
      else if c.eof then FinishPeer(c, [])
      else Step(c, NeedData)
    case ReadChunked(chunk) =>
      match chunk
      case Size(scanned) => ReadSize(x, c, scanned)
      case Body(remaining, first) => ReadBody(c, remaining, first)
      case BodyEnd => ReadBodyEnd(x, c)
      case Trailers => ReadTrailers(x, c)
  }

  lemma ReadFixedIs(x: Externals, c: Conn, remaining: nat)
    requires c.reader == ReadFixed(remaining)
    ensures var count := Min(remaining, |c.input|);
      ReadMessage(x, c) ==
      if remaining == 0 then FinishPeer(c, [])
      else if count == 0 then NeedDataOrEof(c)
      else PeerData(Consume(c, count).(reader := ReadFixed(remaining - count)), c.input[..count], false, false)
  {
    hide FinishPeer, PeerData, NeedDataOrEof;
  }

  lemma ReadToCloseIs(x: Externals, c: Conn)
    requires c.reader == ReadToClose
    ensures ReadMessage(x, c) ==
      if c.input != [] then PeerData(Consume(c, |c.input|), c.input, false, false)
      else if c.eof then FinishPeer(c, [])
      else Step(c, NeedData)
  {
    hide FinishPeer, PeerData;
  }

  function NextInner(x: Externals, c: Conn): Step
    decreases |c.input|, 2
  {
    match c.Peer()
    case Closed => Step(c, Occurred(ClosedEvent))
    case MightSwitchProtocol => Step(c, Paused)
    case SwitchedProtocol => Step(c, Paused)
    case Error => Step(c, Failed(None))
    case Done => Between(c)
    case MustClose => Between(c)
    case Idle => if c.eof && c.input == [] then PeerClosed(c) else ReadMessage(x, c)
    case SendResponse => ReadMessage(x, c)
    case SendBody => ReadMessage(x, c)
  }

  /** The peer's message has ended and the next one may not start yet. */
  function Between(c: Conn): (result: Step)
    ensures SameWire(c, result.conn)
  {
    if c.input != [] then Step(c, Paused)
    else if c.eof then PeerClosed(c)
    else Step(c, NeedData)
  }

  /** Polls one event; an error poisons the peer. */
  function Next(x: Externals, c: Conn): Step {
    var r := NextInner(x, c);
    match r.outcome
    case Failed(status) =>
      Step(r.conn.(state := L.Poison(r.conn.state, c.role.Peer())),
           Failed(if c.role == L.Client then None else status))
    case _ => r
  }

  // ------------------------------------------------------------------
  // Sending
  // ------------------------------------------------------------------

  predicate ValidRequest(x: Externals, r: Request) {
    ValidTarget(r.target) && ValidHeaders(r.headers) && ValidHost(r.version, r.headers, x.authority)
  }

  /** The sender's view of its request; stricter than the receiver's. */
  function WritePlan(x: Externals, r: Request): RequestPlan {
    if !ValidRequest(x, r) then BadRequest(400)
    else
      match SelectFraming(r.headers, r.version)
      case BadFraming(status) => BadRequest(status)
      case Framed(framing) =>
        if framing == Fixed(0) && HasToken(r.headers, EXPECT, CONTINUE_100) then BadRequest(400)
        else
          match UpgradeProtocols(r.headers)
          case None => BadRequest(400)
          case Some(protocols) =>
            if HasToken(r.headers, CONNECTION, UPGRADE) == (protocols == []) then BadRequest(400)
            else RequestPlan(framing, if r.version == Http11 then protocols else [])
  }

  function SendRequest(x: Externals, c: Conn, r: Request): Sent {
    var plan := WritePlan(x, r);
    if c.role != L.Client || plan.BadRequest? then Refused
    else
      match AdvanceLocal(c, RequestProposals(r, plan))
      case None => Refused
      case Some(advanced) => Sent(BeginRequest(advanced, r, plan).(writer := Some(plan.framing)), RequestBytes(r))
  }

  function SendInformational(c: Conn, r: Response): Sent {
    if c.role != L.Server || !IsInformational(r.status) then Refused
    else if !ValidHeaders(r.headers) || !ValidReason(r.reason) || FramingFields(r.headers) > 0 then Refused
    else if r.status == 101 && (c.continueFirst || !ValidUpgrade(c.upgrades, r.version, r.headers)) then Refused
    else
      match AdvanceLocal(c, if r.status == 101 then L.ProtocolSwitch(L.Upgrade) else L.InformationalResponse)
      case None => Refused
      case Some(advanced) =>
        Sent(advanced.(waiting := advanced.waiting && r.status != 100,
                       continueFirst := advanced.continueFirst && r.status != 100),
             ResponseBytes(r))
  }

  /** The field section and framing of a final response, as they will be sent. */
  datatype ResponsePlan = NoPlan | ResponsePlan(headers: seq<Header>, framing: Framing)

  /** Transfer-Encoding is dropped towards HTTP/1.0. */
  function DropCodings(c: Conn, r: Response): seq<Header> {
    if (c.peerVersion != Some(Http11) || r.version != Http11) && CountHeader(r.headers, TRANSFER_ENCODING) > 0
    then Without(Without(r.headers, TRANSFER_ENCODING), CONTENT_LENGTH)
    else r.headers
  }

  predicate BothHttp11(c: Conn, r: Response) {
    c.peerVersion == Some(Http11) && r.version == Http11
  }

  /** The framing of a final response, adding what selects it when nothing does. */
  function FrameResponse(c: Conn, r: Response): ResponsePlan {
    var headers := DropCodings(c, r);
    if NoContent(c.requestKind, r.status) then ResponsePlan(headers, Fixed(0))
    else if FramingFields(headers) == 0 then
      if BothHttp11(c, r) then ResponsePlan(headers + [Header("Transfer-Encoding", CHUNKED)], Chunked)
      else ResponsePlan(headers, CloseDelimited)
    else
      match SelectFraming(headers, r.version)
      case BadFraming(_) => NoPlan
      case Framed(framing) => ResponsePlan(headers, framing)
  }

  /** Closure is signalled when reuse is already lost, when either side speaks
      HTTP/1.0 and when the caller asks for it, but not when this response itself
      loses reuse; a body that ends with the connection is only ever sent towards
      HTTP/1.0. */
  function PlanResponse(c: Conn, r: Response): ResponsePlan {
    if !ValidHeaders(r.headers) || !ValidReason(r.reason) then NoPlan
    else if (r.status == 204 || Connects(c.requestKind, r.status)) && FramingFields(r.headers) > 0 then NoPlan
    else
      var p := FrameResponse(c, r);
      if p.NoPlan? then NoPlan
      else if && !Connects(c.requestKind, r.status)
              && (!c.state.keepAlive || !BothHttp11(c, r) || HasToken(p.headers, CONNECTION, CLOSE))
      then p.(headers := SetConnectionClose(p.headers))
      else p
  }

  function SendResponse(c: Conn, r: Response): Sent {
    if c.role != L.Server || IsInformational(r.status) then Refused
    else
      var p := PlanResponse(c, r);
      if p.NoPlan? then Refused
      else
        match AdvanceLocal(c, FinalEvent(c.requestKind, r.status))
        case None => Refused
        case Some(advanced) =>
          Sent(ApplyPersistence(advanced, r.version, p.headers)
               .(writer := Some(p.framing), waiting := false, continueFirst := false, upgrades := []),
               ResponseBytes(r.(headers := p.headers)))
  }

  /** The framing left after `length` more bytes, `None` when they do not fit. */
  function FramingAfter(writer: Framing, length: nat): Option<Framing> {
    match writer
    case Fixed(remaining) => if length <= remaining then Some(Fixed(remaining - length)) else None
    case _ => Some(writer)
  }

  function DataPrefix(writer: Framing, length: nat): bytes {
    if writer == Chunked && length > 0 then Hex(length) + CRLF else []
  }

  function DataSuffix(writer: Framing, length: nat): bytes {
    if writer == Chunked && length > 0 then CRLF else []
  }

  function SendData(c: Conn, data: bytes): Sent {
    if c.writer.None? then Refused
    else
      match FramingAfter(c.writer.value, |data|)
      case None => Refused
      case Some(next) =>
        match AdvanceLocal(c, L.Data)
        case None => Refused
        case Some(advanced) =>
          Sent(advanced.(writer := Some(next), waiting := false),
               DataPrefix(c.writer.value, |data|) + data + DataSuffix(c.writer.value, |data|))
  }

  /** The bytes that end a message, `None` when it cannot end here. */
  function Terminator(writer: Framing, trailers: seq<Header>): Option<bytes> {
    match writer
    case Fixed(remaining) => if remaining == 0 && trailers == [] then Some([]) else None
    case CloseDelimited => if trailers == [] then Some([]) else None
    case Chunked => Some("0\r\n" + TrailerBytes(trailers))
  }

  function EndMessage(c: Conn, trailers: seq<Header>): Sent {
    if !ValidTrailers(trailers) || c.writer.None? then Refused
    else
      match Terminator(c.writer.value, trailers)
      case None => Refused
      case Some(out) =>
        match AdvanceLocal(c, L.EndOfMessage)
        case None => Refused
        case Some(advanced) => Sent(advanced.(writer := None, waiting := false), out)
  }

  function StartNextCycle(c: Conn): Sent {
    if !L.Reusable(c.state) then Refused
    else Sent(c.(state := L.INITIAL, reader := AwaitHead, writer := None, progress := None,
                 requestKind := None, upgrades := [], waiting := false, continueFirst := false), [])
  }

  function Close(c: Conn): Sent {
    match AdvanceLocal(c, L.ConnectionClosed)
    case None => Refused
    case Some(advanced) => Sent(advanced.(writer := None), [])
  }
}
