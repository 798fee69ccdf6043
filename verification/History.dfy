/**
 What a connection lets happen, over whole runs.  A history records what was
 sent and received, in order.  A book, kept from the history alone, says what
 HTTP allows next: one request and one final response per cycle, content of the
 declared length, a protocol switch only as offered, reuse only while no message
 forbade it.  Every history of every run is one the book allows.
 */
module History {
  import opened Prelude
  import opened Bytes
  import opened Fields
  import opened Heads
  import opened Scan
  import opened ChunkLine
  import opened ConnectionModel
  import opened LifecycleRuns
  import opened Coupling
  import opened Polling
  import opened Fragmentation
  import opened Agreement
  import L = Lifecycle

  // ------------------------------------------------------------------
  // Histories
  // ------------------------------------------------------------------

  /** Something one of the actors did, as sent or as received. */
  datatype Fact =
    | Requested(request: Request)
    | Informed(response: Response)
    | Responded(response: Response)
    | Conveyed(actor: L.Role, data: bytes)
    | Ended(actor: L.Role)
    | Gone(actor: L.Role)
    | Cycled

  function EventFact(actor: L.Role, e: Event): Fact {
    match e
    case RequestEvent(r) => Requested(r)
    case InformationalEvent(r) => Informed(r)
    case ResponseEvent(r) => Responded(r)
    case DataEvent(data, _, _) => Conveyed(actor, data)
    case EndEvent(_) => Ended(actor)
    case ClosedEvent => Gone(actor)
  }

  function When(sent: Sent, fact: Fact): Option<Fact> {
    if sent.Sent? then Some(fact) else None
  }

  /** What a call adds to the history. */
  function FactOf(x: Externals, c: Conn, call: Call): Option<Fact> {
    match call
    case CallReceive(_) => None
    case CallNext =>
      (var r := Next(x, c);
       if r.outcome.Occurred? then Some(EventFact(c.role.Peer(), r.outcome.event)) else None)
    case CallSendRequest(r) => When(SendRequest(x, c, r), Requested(r))
    case CallSendInformational(r) => When(SendInformational(c, r), Informed(r))
    case CallSendResponse(r) =>
      if SendResponse(c, r).Sent? then Some(Responded(EmittedHead(c, r))) else None
    case CallSendData(data) => When(SendData(c, data), Conveyed(c.role, data))
    case CallEndMessage(trailers) => When(EndMessage(c, trailers), Ended(c.role))
    case CallStartNextCycle => When(StartNextCycle(c), Cycled)
    case CallClose => When(Close(c), Gone(c.role))
  }

  function HistoryOf(x: Externals, c: Conn, calls: seq<Call>): seq<Fact>
    decreases |calls|
  {
    if calls == [] then []
    else
      var fact := FactOf(x, c, calls[0]);
      (if fact.Some? then [fact.value] else []) + HistoryOf(x, After(x, c, calls[0]), calls[1..])
  }

  // ------------------------------------------------------------------
  // The book
  // ------------------------------------------------------------------

  /** How far an actor's message of this cycle is: content of `size` bytes so far. */
  datatype Course = NotBegun | Under(framing: Framing, size: nat) | Over

  datatype Book = Book(
    client: Course,
    server: Course,
    kind: Option<RequestKind>,
    offered: seq<bytes>,
    awaiting: bool,
    owesContinue: bool,
    persistent: bool,
    switched: bool)
  {
    function Of(actor: L.Role): Course {
      if actor.Client? then client else server
    }

    function With(actor: L.Role, course: Course): Book {
      if actor.Client? then this.(client := course) else this.(server := course)
    }
  }

  const BLANK := Book(NotBegun, NotBegun, None, [], false, false, true, false)

  function FinalFraming(kind: Option<RequestKind>, r: Response): FramingResult {
    if NoContent(kind, r.status) then Framed(Fixed(0)) else ResponseFraming(r.headers, r.version)
  }

  /** Content fits what the head declared. */
  predicate Within(course: Course, more: nat) {
    course.Under? && (course.framing.Fixed? ==> course.size + more <= course.framing.length)
  }

  predicate Exact(course: Course) {
    course.Under? && (course.framing.Fixed? ==> course.size == course.framing.length)
  }

  /** What HTTP allows next. */
  predicate Allows(b: Book, f: Fact) {
    match f
    case Requested(r) =>
      b.client == NotBegun && b.server == NotBegun && !b.switched && SelectFraming(r.headers, r.version).Framed?
    case Informed(r) =>
      && IsInformational(r.status) && b.client != NotBegun && b.server == NotBegun && !b.switched
      && (r.status == 101 ==> !b.owesContinue && ValidUpgrade(b.offered, r.version, r.headers))
    case Responded(r) =>
      && !IsInformational(r.status) && b.server == NotBegun && !b.switched
      && FinalFraming(b.kind, r).Framed?
    case Conveyed(actor, data) => Within(b.Of(actor), |data|)
    case Ended(actor) => Exact(b.Of(actor))
    case Gone(actor) => !b.Of(actor).Under?
    case Cycled => b.client == Over && b.server == Over && b.persistent && !b.switched
  }

  /** The book after a fact. */
  function Enter(b: Book, f: Fact): Book {
    match f
    case Requested(r) =>
      var selected := SelectFraming(r.headers, r.version);
      var framing := if selected.Framed? then selected.framing else Fixed(0);
      var offered := ProposedUpgrades(r.version, r.headers);
      b.(client := Under(framing, 0),
         kind := Some(KindOf(r.method_)),
         offered := offered,
         awaiting := ExpectsContinue(r.version, r.headers, framing),
         owesContinue := ExpectsContinue(r.version, r.headers, framing) && offered != [],
         persistent := b.persistent && Persistent(r.version, r.headers))
    case Informed(r) =>
      b.(awaiting := b.awaiting && r.status != 100, owesContinue := b.owesContinue && r.status != 100,
         switched := b.switched || r.status == 101)
    case Responded(r) =>
      var selected := FinalFraming(b.kind, r);
      var framing := if selected.Framed? then selected.framing else Fixed(0);
      if Connects(b.kind, r.status)
      then b.(switched := true, awaiting := false, persistent := b.persistent && Persistent(r.version, r.headers))
      else b.(server := Under(framing, 0),
              awaiting := false,
              persistent :=
                && b.persistent && Persistent(r.version, r.headers)
                // An early response, a rejected CONNECT and a body that ends with the connection.
                && b.client != NotBegun && b.kind != Some(ConnectKind) && framing != CloseDelimited)
    case Conveyed(actor, data) =>
      (if b.Of(actor).Under? then b.With(actor, b.Of(actor).(size := b.Of(actor).size + |data|)) else b)
      .(awaiting := false)
    case Ended(actor) => b.With(actor, Over)
    case Gone(_) => b
    case Cycled => BLANK
  }

  function Books(b: Book, facts: seq<Fact>): Book
    decreases |facts|
  {
    if facts == [] then b else Books(Enter(b, facts[0]), facts[1..])
  }

  predicate AllowsAll(b: Book, facts: seq<Fact>)
    decreases |facts|
  {
    facts == [] || (Allows(b, facts[0]) && AllowsAll(Enter(b, facts[0]), facts[1..]))
  }

  // ------------------------------------------------------------------
  // The book and the connection
  // ------------------------------------------------------------------

  predicate ClientFits(course: Course, s: L.State) {
    match s
    case Idle => course == NotBegun
    case SendBody => course.Under?
    case Done => course == Over
    case MightSwitchProtocol => course == Over
    case SwitchedProtocol => course == Over
    case MustClose => !course.Under?
    case Closed => !course.Under?
    case _ => true
  }

  predicate ServerFits(b: Book, s: L.State) {
    match s
    case Idle => b.server == NotBegun && b.client == NotBegun && !b.switched
    case SendResponse => b.server == NotBegun && b.client != NotBegun && !b.switched
    case SendBody => b.server.Under? && !b.switched
    case Done => b.server == Over && !b.switched
    case MustClose => !b.server.Under? && !b.switched
    case Closed => !b.server.Under? && !b.switched
    case _ => true
  }

  /** What is left to write, or to read, of content under way. */
  predicate WriterFits(course: Course, writer: Option<Framing>) {
    && course.Under? && writer.Some?
    && (if course.framing.Fixed?
        then course.size <= course.framing.length && writer.value == Fixed(course.framing.length - course.size)
        else writer.value == course.framing)
  }

  predicate ReaderFits(course: Course, reader: Reader) {
    && course.Under?
    && match course.framing
       case Fixed(length) => course.size <= length && reader == ReadFixed(length - course.size)
       case Chunked => reader.ReadChunked?
       case CloseDelimited => reader == ReadToClose
  }

  predicate ContextFits(b: Book, c: Conn) {
    && c.requestKind == b.kind
    && (c.state.server == L.SendResponse ==>
          && c.upgrades == b.offered && c.continueFirst == b.owesContinue
          && c.state.proposals == L.Proposals(b.kind == Some(ConnectKind), b.offered != []))
  }

  /** The 100 (Continue) expectation stands until it is answered or content
      moves; the client alone also drops it when it ends its message. */
  predicate Awaits(b: Book, role: L.Role) {
    b.awaiting && (role.Client? ==> b.client != Over)
  }

  predicate WaitingFits(b: Book, c: Conn) {
    && (b.server != NotBegun ==> !b.awaiting)
    && (c.waiting ==> Awaits(b, c.role))
    && (c.Peer() != L.Error && Awaits(b, c.role) ==> c.waiting)
  }

  /** Reuse is possible exactly while the book says so, unless the peer failed. */
  predicate ReuseFits(b: Book, c: Conn) {
    && (c.state.keepAlive ==> b.persistent)
    && (c.Peer() != L.Error && b.persistent ==> c.state.keepAlive)
  }

  predicate Tracks(b: Book, c: Conn) {
    && ClientFits(b.client, c.state.client)
    && ServerFits(b, c.state.server)
    && (c.Local() == L.SendBody ==> WriterFits(b.Of(c.role), c.writer))
    && (c.Peer() == L.SendBody ==> ReaderFits(b.Of(c.role.Peer()), c.reader))
    && ContextFits(b, c)
    && WaitingFits(b, c)
    && ReuseFits(b, c)
  }

  // What events of either actor do to the other's entry.

  lemma ServerMovesFit(b: Book, j: L.Joint, event: L.StateEvent)
    requires Sound(j) && L.Process(j, L.Server, event).Some? && ClientFits(b.client, j.client)
    ensures ClientFits(b.client, L.Process(j, L.Server, event).value.client)
  {
  }

  lemma ClientMovesFit(b: Book, j: L.Joint, event: L.StateEvent)
    requires Sound(j) && L.Process(j, L.Client, event).Some? && !event.Request? && ServerFits(b, j.server)
    ensures var k := L.Process(j, L.Client, event).value;
      && ServerFits(b, k.server) && k.keepAlive == j.keepAlive
      && (k.server == L.SendResponse <==> j.server == L.SendResponse)
      && (k.server == L.SendResponse ==> k.proposals == j.proposals)
  {
  }

  lemma DisableFits(b: Book, j: L.Joint)
    requires Sound(j) && ClientFits(b.client, j.client) && ServerFits(b, j.server)
    ensures var k := L.DisableKeepAlive(j);
      && ClientFits(b.client, k.client) && ServerFits(b, k.server) && !k.keepAlive
      && (k.server == L.SendResponse <==> j.server == L.SendResponse)
      && (k.server == L.SendResponse ==> k.proposals == j.proposals)
  {
  }

  lemma PoisonFits(b: Book, j: L.Joint, role: L.Role)
    requires Sound(j)
    ensures var k := L.Poison(j, role);
      && (role == L.Server && ClientFits(b.client, j.client) ==> ClientFits(b.client, k.client) && ServerFits(b, k.server))
      && (role == L.Client && ServerFits(b, j.server) ==> ClientFits(b.client, k.client) && ServerFits(b, k.server))
      && k.keepAlive == j.keepAlive
      && (k.server == L.SendResponse ==> j.server == L.SendResponse && k.proposals == j.proposals)
  {
  }

  // What each kind of event makes of the lifecycle.

  lemma RequestState(j: L.Joint, p: L.Proposals)
    requires Sound(j) && L.Process(j, L.Client, L.Request(p)).Some?
    ensures j.client == L.Idle && j.server == L.Idle
    ensures var k := L.Joint(L.SendBody, L.SendResponse, j.keepAlive, p);
      L.Process(j, L.Client, L.Request(p)) == Some(k) && L.DisableKeepAlive(k) == k.(keepAlive := false)
  {
  }

  lemma SwitchState(j: L.Joint, kind: L.SwitchKind)
    requires Sound(j) && L.Process(j, L.Server, L.ProtocolSwitch(kind)).Some?
    ensures var k := L.Process(j, L.Server, L.ProtocolSwitch(kind)).value;
      j.server == L.SendResponse && k.server == L.SwitchedProtocol && k.keepAlive == j.keepAlive
  {
  }

  lemma ResponseState(j: L.Joint)
    requires Sound(j) && L.Process(j, L.Server, L.Response).Some?
    ensures var k := L.Process(j, L.Server, L.Response).value;
      && (j.server == L.Idle || j.server == L.SendResponse) && k.server == L.SendBody
      && k.keepAlive == (j.keepAlive && !j.proposals.connect && j.server != L.Idle)
  {
  }

  lemma EndState(j: L.Joint, role: L.Role)
    requires Sound(j) && L.Process(j, role, L.EndOfMessage).Some?
    ensures var k := L.Process(j, role, L.EndOfMessage).value;
      && k.keepAlive == j.keepAlive
      && (role == L.Server ==> k.server == L.Done || k.server == L.MustClose)
      && (role == L.Client ==> k.client != L.Idle && k.client != L.SendBody)
  {
  }

  lemma CloseState(j: L.Joint, role: L.Role)
    requires Sound(j) && L.Process(j, role, L.ConnectionClosed).Some?
    ensures var k := L.Process(j, role, L.ConnectionClosed).value;
      k.keepAlive == j.keepAlive && k.At(role) == L.Closed && j.At(role) != L.SendBody
      && j.At(role) != L.SendResponse && j.At(role) != L.Error && j.At(role) != L.SwitchedProtocol
      && j.At(role) != L.MightSwitchProtocol
  {
  }

  // ------------------------------------------------------------------
  // Every call keeps to the book
  // ------------------------------------------------------------------

  /** A fact the book allows, and the connection after it. */
  predicate Kept(b: Book, f: Option<Fact>, d: Conn) {
    if f.None? then Tracks(b, d) else Allows(b, f.value) && Tracks(Enter(b, f.value), d)
  }

  lemma PlanIsBooked(x: Externals, r: Request)
    ensures ReadPlan(x, r).RequestPlan? ==>
      && SelectFraming(r.headers, r.version) == Framed(ReadPlan(x, r).framing)
      && ReadPlan(x, r).upgrades == ProposedUpgrades(r.version, r.headers)
    ensures WritePlan(x, r).RequestPlan? ==> ReadPlan(x, r) == WritePlan(x, r)
  {
    hide ValidTarget, ValidHeaders, ValidHost, SelectFraming, ProposedUpgrades, UpgradeProtocols, HasToken;
    if WritePlan(x, r).RequestPlan? {
      PlansAgree(x, r);
    }
  }

  lemma KindIsConnect(r: Request)
    ensures KindOf(r.method_) == ConnectKind <==> r.method_ == CONNECT
  {
    assert |HEAD| == 4 && |CONNECT| == 7;
  }

  /** A request, seen from either side. */
  lemma RequestedKept(b: Book, c: Conn, d: Conn, r: Request, framing: Framing)
    requires Sound(c.state) && Tracks(b, c) && SelectFraming(r.headers, r.version) == Framed(framing)
    requires var offered := ProposedUpgrades(r.version, r.headers);
      var waiting := ExpectsContinue(r.version, r.headers, framing);
      var event := L.Request(L.Proposals(r.method_ == CONNECT, offered != []));
      && Act(c.state, Move(L.Client, event, !Persistent(r.version, r.headers))) == Some(d.state)
      && d.requestKind == Some(KindOf(r.method_)) && d.upgrades == offered
      && d.waiting == waiting && d.continueFirst == (waiting && offered != [])
    requires c.role == L.Client ==> d.writer == Some(framing) && d.reader == c.reader
    requires c.role == L.Server ==> d.reader == ReaderFor(framing) && d.writer == c.writer
    requires d.role == c.role
    ensures Kept(b, Some(Requested(r)), d)
  {
    hide Sound, SelectFraming, ProposedUpgrades, L.Process, L.DisableKeepAlive, Persistent, ExpectsContinue, KindOf, Enter,
         ValidUpgrade, FinalFraming;
    KindIsConnect(r);
    RequestedEntry(b, r, framing);
    RequestState(c.state, L.Proposals(r.method_ == CONNECT, ProposedUpgrades(r.version, r.headers) != []));
  }

  lemma RequestedEntry(b: Book, r: Request, framing: Framing)
    requires SelectFraming(r.headers, r.version) == Framed(framing)
    ensures var next := Enter(b, Requested(r));
      && next.client == Under(framing, 0) && next.server == b.server && next.switched == b.switched
      && next.kind == Some(KindOf(r.method_)) && next.offered == ProposedUpgrades(r.version, r.headers)
      && next.awaiting == ExpectsContinue(r.version, r.headers, framing)
      && next.owesContinue == (next.awaiting && next.offered != [])
      && next.persistent == (b.persistent && Persistent(r.version, r.headers))
  {
    hide SelectFraming, ProposedUpgrades, ExpectsContinue, Persistent, KindOf;
  }

  lemma SendRequestKept(x: Externals, b: Book, c: Conn, r: Request)
    requires Coupled(c) && Tracks(b, c) && SendRequest(x, c, r).Sent?
    ensures Kept(b, Some(Requested(r)), SendRequest(x, c, r).conn)
  {
    hide Sound, WritePlan, ReadPlan, SelectFraming, ProposedUpgrades, L.Process, L.DisableKeepAlive, Persistent,
         ExpectsContinue, KindOf, RequestBytes, PeerCoupled, LocalCoupled, Tracks, Kept;
    PlanIsBooked(x, r);
    RequestedKept(b, c, SendRequest(x, c, r).conn, r, WritePlan(x, r).framing);
  }

  lemma AcceptRequestKept(x: Externals, b: Book, c: Conn, r: Request)
    requires Coupled(c) && Tracks(b, c) && c.role == L.Server && AcceptRequest(x, c, r).outcome.Occurred?
    ensures Kept(b, Some(Requested(r)), AcceptRequest(x, c, r).conn)
  {
    hide Sound, WritePlan, ReadPlan, SelectFraming, ProposedUpgrades, L.Process, L.DisableKeepAlive, Persistent,
         ExpectsContinue, KindOf, PeerCoupled, LocalCoupled, Tracks, Kept, ReaderFor;
    PlanIsBooked(x, r);
    RequestedKept(b, c, AcceptRequest(x, c, r).conn, r, ReadPlan(x, r).framing);
  }

  lemma InformationalState(j: L.Joint)
    requires Sound(j) && L.Process(j, L.Server, L.InformationalResponse).Some?
    ensures L.Process(j, L.Server, L.InformationalResponse) == Some(j) && j.server == L.SendResponse
  {
  }

  /** An informational response, seen from either side. */
  lemma InformedKept(b: Book, c: Conn, d: Conn, r: Response)
    requires Coupled(c) && Tracks(b, c) && IsInformational(r.status)
    requires r.status == 101 ==> !c.continueFirst && ValidUpgrade(c.upgrades, r.version, r.headers)
    requires Act(c.state, InformationalMove(r)) == Some(d.state)
    requires d == c.(state := d.state, peerVersion := d.peerVersion, waiting := c.waiting && r.status != 100,
                     continueFirst := c.continueFirst && r.status != 100)
    ensures Kept(b, Some(Informed(r)), d)
  {
    hide Sound, ValidUpgrade, L.Process, PeerCoupled, LocalCoupled;
    if r.status == 101 {
      SwitchState(c.state, L.Upgrade);
      ServerMovesFit(b, c.state, L.ProtocolSwitch(L.Upgrade));
      Busyness(c.state, L.ProtocolSwitch(L.Upgrade));
    } else {
      InformationalState(c.state);
    }
  }

  /** A server event leaves a client in its body there, and brings none into it. */
  lemma Busyness(j: L.Joint, event: L.StateEvent)
    requires Sound(j) && L.Process(j, L.Server, event).Some?
    ensures Undisturbed(j.client, L.Process(j, L.Server, event).value.client)
  {
    OtherActor(j, L.Server, event);
  }

  /** A final response, seen from either side: the state after the move, with
      the reader or writer its framing selects. */
  lemma RespondedKept(b: Book, c: Conn, d: Conn, r: Response, framing: Framing)
    requires Coupled(c) && Tracks(b, c) && !IsInformational(r.status)
    requires FinalFraming(c.requestKind, r) == Framed(framing)
    requires Act(c.state, Move(L.Server, FinalEvent(c.requestKind, r.status),
                               !Persistent(r.version, r.headers) || framing == CloseDelimited)) == Some(d.state)
    requires c.role == L.Server ==> d.writer == Some(framing) && d.reader == c.reader
    requires c.role == L.Client ==> d.reader == ReaderFor(framing) && d.writer == c.writer
    requires d.role == c.role && d.requestKind == c.requestKind && !d.waiting
    ensures Kept(b, Some(Responded(r)), d)
  {
    hide Sound, L.Process, L.DisableKeepAlive, Persistent, FinalFraming, PeerCoupled, LocalCoupled;
    var event := FinalEvent(c.requestKind, r.status);
    var k := L.Process(c.state, L.Server, event).value;
    EventKeepsSound(c.state, L.Server, event);
    ServerMovesFit(b, c.state, event);
    Busyness(c.state, event);
    DisableUndisturbed(k, L.Client);
    DisableUndisturbed(k, L.Server);
    if Connects(c.requestKind, r.status) {
      SwitchState(c.state, L.Connect);
      ConnectFraming(c.requestKind, r);
      var after := Enter(b, Responded(r));
      DisableFits(after, k);
    } else {
      ResponseState(c.state);
      var after := Enter(b, Responded(r));
      DisableFits(after, k);
    }
  }

  lemma ConnectFraming(kind: Option<RequestKind>, r: Response)
    requires Connects(kind, r.status)
    ensures FinalFraming(kind, r) == Framed(Fixed(0))
  {
  }

  lemma ConveyedKept(b: Book, c: Conn, actor: L.Role, data: bytes, d: Conn)
    requires Tracks(b, c) && c.state.At(actor) == L.SendBody && d.state == c.state && d.role == c.role && !d.waiting
    requires Within(b.Of(actor), |data|)
    requires d.requestKind == c.requestKind && d.upgrades == c.upgrades && d.continueFirst == c.continueFirst
    requires actor == c.role ==> WriterFits(Enter(b, Conveyed(actor, data)).Of(actor), d.writer) && d.reader == c.reader
    requires actor != c.role ==> ReaderFits(Enter(b, Conveyed(actor, data)).Of(actor), d.reader) && d.writer == c.writer
    ensures Kept(b, Some(Conveyed(actor, data)), d)
  {
    hide Enter, WriterFits, ReaderFits, Within;
    ConveyedEntry(b, actor, data);
  }

  /** Content moves the entry of its actor, and lifts the wait for a 100. */
  lemma ConveyedEntry(b: Book, actor: L.Role, data: bytes)
    requires Within(b.Of(actor), |data|)
    ensures Allows(b, Conveyed(actor, data))
    ensures var next := Enter(b, Conveyed(actor, data));
      && next.Of(actor).Under? && next.Of(actor.Peer()) == b.Of(actor.Peer()) && b.Of(actor).Under? && !next.awaiting
      && next.kind == b.kind && next.offered == b.offered && next.owesContinue == b.owesContinue
      && next.persistent == b.persistent && next.switched == b.switched
  {
  }

  /** The end of a message, seen from either side. */
  lemma EndedKept(b: Book, c: Conn, actor: L.Role, d: Conn)
    requires Coupled(c) && Tracks(b, c) && Exact(b.Of(actor))
    requires L.Process(c.state, actor, L.EndOfMessage) == Some(d.state) && d.role == c.role
    requires d.waiting == (c.waiting && actor != c.role)
    requires d.requestKind == c.requestKind && d.upgrades == c.upgrades && d.continueFirst == c.continueFirst
    requires actor == c.role ==> d.reader == c.reader
    requires actor != c.role ==> d.writer == c.writer
    ensures Kept(b, Some(Ended(actor)), d)
  {
    hide Sound, L.Process, PeerCoupled, LocalCoupled, Enter, WriterFits, ReaderFits;
    EndedEntry(b, actor);
    EndState(c.state, actor);
    OwnActor(c.state, actor, L.EndOfMessage);
    OtherActor(c.state, actor, L.EndOfMessage);
    if actor == L.Client {
      ClientMovesFit(b, c.state, L.EndOfMessage);
    } else {
      ServerMovesFit(b, c.state, L.EndOfMessage);
    }
  }

  lemma EndedEntry(b: Book, actor: L.Role)
    ensures Enter(b, Ended(actor)) == b.With(actor, Over) && Enter(b, Gone(actor)) == b
  {
  }

  lemma GoneKept(b: Book, c: Conn, actor: L.Role, d: Conn)
    requires Coupled(c) && Tracks(b, c)
    requires L.Process(c.state, actor, L.ConnectionClosed) == Some(d.state) && d.role == c.role && d.waiting == c.waiting
    requires d.requestKind == c.requestKind && d.upgrades == c.upgrades && d.continueFirst == c.continueFirst
    requires actor == c.role ==> d.reader == c.reader
    requires actor != c.role ==> d.writer == c.writer && d.reader == c.reader
    ensures Kept(b, Some(Gone(actor)), d)
  {
    hide Sound, L.Process, PeerCoupled, LocalCoupled, Enter, WriterFits, ReaderFits;
    EndedEntry(b, actor);
    CloseState(c.state, actor);
    OtherActor(c.state, actor, L.ConnectionClosed);
    if actor == L.Client {
      ClientMovesFit(b, c.state, L.ConnectionClosed);
    } else {
      ServerMovesFit(b, c.state, L.ConnectionClosed);
    }
  }

  lemma CycledKept(b: Book, c: Conn)
    requires Tracks(b, c) && StartNextCycle(c).Sent?
    ensures Kept(b, Some(Cycled), StartNextCycle(c).conn)
  {
  }

  // Sending.

  lemma SendInformationalKept(b: Book, c: Conn, r: Response)
    requires Coupled(c) && Tracks(b, c) && SendInformational(c, r).Sent?
    ensures Kept(b, Some(Informed(r)), SendInformational(c, r).conn)
  {
    hide Coupled, Tracks, Kept, ValidUpgrade, L.Process, ValidHeaders, ValidReason, FramingFields, ResponseBytes;
    InformedKept(b, c, SendInformational(c, r).conn, r);
  }

  lemma SendResponseKept(b: Book, c: Conn, r: Response)
    requires Coupled(c) && Tracks(b, c) && SendResponse(c, r).Sent?
    ensures Kept(b, Some(Responded(EmittedHead(c, r))), SendResponse(c, r).conn)
  {
    hide Coupled, Tracks, Kept, L.Process, L.DisableKeepAlive, PlanResponse, Persistent, ResponseFraming, ResponseBytes;
    PlanFraming(c, r);
    RespondedKept(b, c, SendResponse(c, r).conn, EmittedHead(c, r), PlanResponse(c, r).framing);
  }

  lemma SendDataKept(b: Book, c: Conn, data: bytes)
    requires Coupled(c) && Tracks(b, c) && SendData(c, data).Sent?
    ensures Kept(b, Some(Conveyed(c.role, data)), SendData(c, data).conn)
  {
    hide Sound, L.Process, DataPrefix, DataSuffix, PeerCoupled, Kept;
    OwnActor(c.state, c.role, L.Data);
    var d := SendData(c, data).conn;
    assert WriterFits(b.Of(c.role), c.writer);
    ConveyedKept(b, c, c.role, data, d);
  }

  lemma EndMessageKept(b: Book, c: Conn, trailers: seq<Header>)
    requires Coupled(c) && Tracks(b, c) && EndMessage(c, trailers).Sent?
    ensures Kept(b, Some(Ended(c.role)), EndMessage(c, trailers).conn)
  {
    hide Sound, L.Process, ValidTrailers, TrailerBytes, PeerCoupled, Kept;
    OwnActor(c.state, c.role, L.EndOfMessage);
    EndedKept(b, c, c.role, EndMessage(c, trailers).conn);
  }

  lemma CloseKept(b: Book, c: Conn)
    requires Coupled(c) && Tracks(b, c) && Close(c).Sent?
    ensures Kept(b, Some(Gone(c.role)), Close(c).conn)
  {
    hide Coupled, Tracks, Kept, L.Process;
    GoneKept(b, c, c.role, Close(c).conn);
  }

  lemma ReceiveKept(b: Book, c: Conn, data: bytes)
    requires Tracks(b, c) && Receive(c, data).Some?
    ensures Tracks(b, Receive(c, data).value)
  {
  }

  // Receiving.

  /** What is left of the agreement when a poll has failed: the local half. */
  predicate Failing(b: Book, d: Conn) {
    && Sound(d.state) && d.requestKind == b.kind && (d.state.keepAlive ==> b.persistent)
    && (b.server != NotBegun ==> !b.awaiting) && (d.waiting ==> Awaits(b, d.role))
    && (d.Local() == L.SendBody ==> WriterFits(b.Of(d.role), d.writer))
    && (d.role == L.Client ==> ClientFits(b.client, d.state.client))
    && (d.role == L.Server ==> ServerFits(b, d.state.server) && ContextFits(b, d))
  }

  predicate StepKept(b: Book, r: Step) {
    match r.outcome
    case Occurred(e) => Kept(b, Some(EventFact(r.conn.role.Peer(), e)), r.conn)
    case Failed(_) => Failing(b, r.conn)
    case _ => Tracks(b, r.conn)
  }

  lemma FailingWhereItWas(b: Book, c: Conn, status: Option<nat>)
    requires Coupled(c) && Tracks(b, c)
    ensures StepKept(b, Step(c, Failed(status)))
  {
    hide Sound, WriterFits, ReaderFits;
  }

  /** Only the reader, its hints and the input differ, and the reader still fits. */
  lemma TracksElsewhere(b: Book, c: Conn, d: Conn)
    requires Tracks(b, c)
    requires d == c.(input := d.input, progress := d.progress, reader := d.reader)
    requires d.reader == c.reader || (d.reader.ReadChunked? && c.reader.ReadChunked?) || c.Peer() != L.SendBody
    ensures Tracks(b, d)
  {
    hide WriterFits;
  }

  lemma WaitKept(b: Book, c: Conn, skip: bool)
    requires Coupled(c) && Tracks(b, c) && Awaiting(c)
    ensures StepKept(b, WaitForSection(c, skip))
    ensures Tracks(b, SectionReady(c, skip).0)
  {
    hide Coupled, Tracks, PollFrom, Failing;
    ScannedFields(c, skip);
    TracksElsewhere(b, c, SectionReady(c, skip).0);
    TracksElsewhere(b, c, WaitForSection(c, skip).conn);
    WaitForSectionCoupled(c, skip);
    WaitIsSame(c, skip);
    if WaitForSection(c, skip).outcome.Failed? {
      WaitStillCoupled(c, skip);
      FailingWhereItWas(b, WaitForSection(c, skip).conn, WaitForSection(c, skip).outcome.status);
    }
  }

  lemma WaitIsSame(c: Conn, skip: bool)
    ensures WaitForSection(c, skip).conn == c.(progress := WaitForSection(c, skip).conn.progress)
  {
    hide PollFrom;
  }

  lemma WaitStillCoupled(c: Conn, skip: bool)
    requires Coupled(c) && Awaiting(c)
    ensures Coupled(WaitForSection(c, skip).conn)
  {
    hide PollFrom, Sound;
  }

  lemma AcceptInformationalKept(b: Book, c: Conn, r: Response)
    requires Coupled(c) && Tracks(b, c) && c.role == L.Client && IsInformational(r.status)
    ensures StepKept(b, AcceptInformational(c, r))
  {
    hide Coupled, Tracks, Kept, ValidUpgrade, L.Process, Failing;
    var got := AcceptInformational(c, r);
    if got.outcome.Occurred? {
      InformedKept(b, c, got.conn, r);
    } else {
      FailingWhereItWas(b, c, got.outcome.status);
    }
  }

  lemma AcceptFinalKept(b: Book, c: Conn, r: Response)
    requires Coupled(c) && Tracks(b, c) && c.role == L.Client && !IsInformational(r.status)
    ensures StepKept(b, AcceptFinal(c, r))
  {
    hide Coupled, Tracks, Kept, L.Process, L.DisableKeepAlive, Persistent, ResponseFraming, Failing, FinalEvent;
    var got := AcceptFinal(c, r);
    if got.outcome.Occurred? {
      DisableTwice(L.Process(c.state, L.Server, FinalEvent(c.requestKind, r.status)).value);
      RespondedKept(b, c, got.conn, r, FinalFraming(c.requestKind, r).framing);
    } else if AdvancePeer(c, FinalEvent(c.requestKind, r.status)).None? {
      FailingWhereItWas(b, c, got.outcome.status);
    } else {
      BadFramingFails(b, c, r);
    }
  }

  /** A response whose framing is rejected has already moved the lifecycle. */
  lemma BadFramingFails(b: Book, c: Conn, r: Response)
    requires Coupled(c) && Tracks(b, c) && c.role == L.Client && !IsInformational(r.status)
    requires AcceptFinal(c, r).outcome.Failed? && AdvancePeer(c, FinalEvent(c.requestKind, r.status)).Some?
    ensures Failing(b, AcceptFinal(c, r).conn)
  {
    hide Sound, L.Process, L.DisableKeepAlive, Persistent, ResponseFraming, PeerCoupled, LocalCoupled, FinalEvent, WriterFits;
    var event := FinalEvent(c.requestKind, r.status);
    var k := L.Process(c.state, L.Server, event).value;
    EventKeepsSound(c.state, L.Server, event);
    ServerMovesFit(b, c.state, event);
    Busyness(c.state, event);
    DisableUndisturbed(k, L.Client);
    ClientDisableFits(b, k);
    FinalKeepsReuse(c, r.status);
  }

  lemma ClientDisableFits(b: Book, j: L.Joint)
    requires Sound(j) && ClientFits(b.client, j.client)
    ensures ClientFits(b.client, L.DisableKeepAlive(j).client) && !L.DisableKeepAlive(j).keepAlive
  {
  }

  lemma FinalKeepsReuse(c: Conn, status: Status)
    requires Sound(c.state) && L.Process(c.state, L.Server, FinalEvent(c.requestKind, status)).Some?
    ensures L.Process(c.state, L.Server, FinalEvent(c.requestKind, status)).value.keepAlive ==> c.state.keepAlive
  {
    hide Sound, L.Process;
    if Connects(c.requestKind, status) {
      SwitchState(c.state, L.Connect);
    } else {
      ResponseState(c.state);
    }
  }

  lemma AcceptResponseKept(b: Book, c: Conn, r: Response)
    requires Coupled(c) && Tracks(b, c) && c.role == L.Client
    ensures StepKept(b, AcceptResponse(c, r))
  {
    hide Coupled, Tracks, StepKept, AcceptInformational, AcceptFinal;
    if IsInformational(r.status) {
      AcceptInformationalKept(b, c, r);
    } else {
      AcceptFinalKept(b, c, r);
    }
  }

  lemma AcceptRequestStepKept(x: Externals, b: Book, c: Conn, r: Request)
    requires Coupled(c) && Tracks(b, c) && c.role == L.Server
    ensures StepKept(b, AcceptRequest(x, c, r))
  {
    hide Coupled, Tracks, Kept, Failing, AdvancePeer, ReadPlan, BeginRequest;
    var got := AcceptRequest(x, c, r);
    if got.outcome.Occurred? {
      AcceptRequestKept(x, b, c, r);
    } else {
      FailingWhereItWas(b, c, got.outcome.status);
    }
  }

  lemma ReadHeadKept(x: Externals, b: Book, c: Conn)
    requires Coupled(c) && Tracks(b, c) && Active(c) && c.reader == AwaitHead
    ensures StepKept(b, ReadHead(x, c))
  {
    Busy(c);
    hide *;
    NotSending(c);
    SectionKept(b, c, true);
    var scanned := SectionReady(c, true).0;
    if c.role == L.Server {
      ReadRequestIs(x, c);
      var parsed := ParseRequest(x, c.input, c.limits);
      if parsed.Complete? {
        HeadTaken(b, c, parsed.end);
        AcceptRequestStepKept(x, b, Consume(c, parsed.end).(progress := None), parsed.value);
      } else if parsed.Invalid? {
        FailingWhereItWas(b, scanned, parsed.status);
      }
    } else {
      ReadResponseIs(x, c);
      var parsed := ParseResponse(x, c.input, c.limits);
      if parsed.Complete? {
        HeadTaken(b, c, parsed.end);
        AcceptResponseKept(b, Consume(c, parsed.end).(progress := None), parsed.value);
      } else if parsed.Invalid? {
        FailingWhereItWas(b, scanned, parsed.status);
      }
    }
  }

  lemma NotSending(c: Conn)
    requires Coupled(c) && Active(c) && c.reader == AwaitHead
    ensures c.Peer() != L.SendBody && c.Peer() != L.Closed && Awaiting(c)
  {
    hide Sound;
  }

  /** Searching and waiting for a section keep the agreement. */
  lemma SectionKept(b: Book, c: Conn, skip: bool)
    requires Coupled(c) && Tracks(b, c) && Awaiting(c)
    ensures var scanned := SectionReady(c, skip).0;
      Coupled(scanned) && Tracks(b, scanned) && StepKept(b, WaitForSection(scanned, skip))
  {
    hide Coupled, Tracks, StepKept, SectionReady, WaitForSection;
    ScannedFields(c, skip);
    WaitForSectionCoupled(c, skip);
    WaitKept(b, c, skip);
    WaitKept(b, SectionReady(c, skip).0, skip);
  }

  lemma HeadTaken(b: Book, c: Conn, end: nat)
    requires Coupled(c) && Tracks(b, c) && end <= |c.input| && c.Peer() != L.SendBody && c.Peer() != L.Closed
    ensures var d := Consume(c, end).(progress := None); Coupled(d) && Tracks(b, d) && d.role == c.role
  {
    hide Coupled, Tracks;
    ConsumeCoupled(c, end);
    TracksElsewhere(b, c, Consume(c, end).(progress := None));
  }

  lemma FinishKept(b: Book, c: Conn, trailers: seq<Header>)
    requires Coupled(c) && Tracks(b, c) && c.Peer() == L.SendBody && Exact(b.Of(c.role.Peer()))
    ensures StepKept(b, FinishPeer(c, trailers))
  {
    hide Coupled, Tracks, Kept, L.Process, Exact;
    FinishPeerCoupled(c, trailers);
    EndedKept(b, c, c.role.Peer(), FinishPeer(c, trailers).conn);
  }

  lemma TakenKept(x: Externals, b: Book, c: Conn)
    requires Coupled(c) && Tracks(b, c) && c.Peer() == L.SendBody && Taking(c.reader) && (!c.eof || c.input != [])
    ensures StepKept(b, NextInner(x, c))
  {
    hide Coupled, Kept, NextInner;
    TakenPoll(x, c);
    var r := Taken(c);
    if r.outcome.Occurred? {
      ConveyedKept(b, c, c.role.Peer(), r.outcome.event.data, r.conn);
    }
  }

  lemma ReadTrailersKept(x: Externals, b: Book, c: Conn)
    requires Coupled(c) && Tracks(b, c) && c.Peer() == L.SendBody && c.reader == ReadChunked(Trailers)
    ensures StepKept(b, ReadTrailers(x, c))
  {
    hide *;
    ChunkedExact(b, c);
    TrailersAwait(c);
    SectionKept(b, c, false);
    ReadTrailersIs(x, c);
    var parsed := ParseTrailers(x, c.input, c.limits, c.role == L.Client);
    if parsed.Complete? {
      TrailersTaken(b, c, parsed.end);
      FinishKept(b, Consume(c, parsed.end).(progress := None), parsed.value);
    } else if parsed.Invalid? {
      FailingWhereItWas(b, SectionReady(c, false).0, parsed.status);
    }
  }

  lemma TrailersAwait(c: Conn)
    requires c.reader == ReadChunked(Trailers)
    ensures Awaiting(c)
  {
  }

  lemma TrailersTaken(b: Book, c: Conn, end: nat)
    requires Coupled(c) && Tracks(b, c) && end <= |c.input| && c.Peer() == L.SendBody && c.reader == ReadChunked(Trailers)
    ensures var d := Consume(c, end).(progress := None);
      Coupled(d) && Tracks(b, d) && d.Peer() == L.SendBody && d.role == c.role
  {
    hide Coupled, Tracks;
    ReadingOn(c, c.reader, c.input[end..]);
    TracksElsewhere(b, c, Consume(c, end).(progress := None));
  }

  lemma ChunkedExact(b: Book, c: Conn)
    requires Tracks(b, c) && c.Peer() == L.SendBody
    requires c.reader.ReadChunked? || c.reader.ReadToClose? || c.reader == ReadFixed(0)
    ensures Exact(b.Of(c.role.Peer()))
  {
    hide WriterFits;
  }

  /** Chunk lines and chunk ends that cannot be read leave the state as it is. */
  lemma StuckKept(x: Externals, b: Book, c: Conn)
    requires Coupled(c) && Tracks(b, c) && c.Peer() == L.SendBody && Silent(c).None?
    requires c.reader.ReadChunked? && (c.reader.chunk.Size? || c.reader.chunk.BodyEnd?)
    ensures StepKept(b, NextInner(x, c))
  {
    hide Coupled, Tracks, NextInner, ReadMessage, FindCrlf, ParseChunkHeader, Failing;
    PollReads(x, c);
    ReadsChunk(x, c);
    var r := NextInner(x, c);
    if c.reader.chunk.Size? {
      SizeHint(c, c.reader.chunk.scanned);
      SizeHintKept(x, b, c);
    } else {
      if r.outcome.Failed? {
        FailingWhereItWas(b, c, r.outcome.status);
      }
    }
  }

  lemma SizeHintKept(x: Externals, b: Book, c: Conn)
    requires Coupled(c) && Tracks(b, c) && c.Peer() == L.SendBody && Silent(c).None?
    requires c.reader.ReadChunked? && c.reader.chunk.Size?
    requires FindCrlf(c.input, c.reader.chunk.scanned) == FindCrlf(c.input, 0)
    ensures StepKept(b, ReadSize(x, c, c.reader.chunk.scanned))
  {
    hide Coupled, Tracks, NextInner, FindCrlf, ParseChunkHeader, Failing;
    var r := ReadSize(x, c, c.reader.chunk.scanned);
    if r.conn == c {
      if r.outcome.Failed? {
        FailingWhereItWas(b, c, r.outcome.status);
      }
    } else {
      var d := r.conn;
      TracksElsewhere(b, c, d);
      HintStartsSound(c.input);
      ReadingOn(c, d.reader, c.input);
      if r.outcome.Failed? {
        FailingWhereItWas(b, d, r.outcome.status);
      }
    }
  }

  lemma InactiveKept(x: Externals, b: Book, c: Conn)
    requires Coupled(c) && Tracks(b, c)
    requires !Active(c) || (c.Peer() == L.Idle && c.eof && c.input == [])
    ensures StepKept(b, NextInner(x, c))
  {
    hide Coupled, Tracks, Kept, Failing, ReadMessage, Between, PeerClosed;
    if c.Peer() == L.Closed {
      ClosedKept(b, c);
    } else if c.Peer() == L.Error {
      FailingWhereItWas(b, c, None);
    } else if c.Peer() == L.Idle || c.Peer() == L.Done || c.Peer() == L.MustClose {
      BetweenKept(b, c);
    }
  }

  lemma ClosedKept(b: Book, c: Conn)
    requires Coupled(c) && Tracks(b, c) && c.Peer() == L.Closed
    ensures Kept(b, Some(Gone(c.role.Peer())), c)
  {
    assert Sound(c.state);
    ClosedAgain(c);
    hide Coupled, Tracks, Kept, L.Process, Sound;
    GoneKept(b, c, c.role.Peer(), c);
  }

  lemma BetweenKept(b: Book, c: Conn)
    requires Coupled(c) && Tracks(b, c) && (c.Peer() == L.Idle || c.Peer() == L.Done || c.Peer() == L.MustClose)
    ensures StepKept(b, PeerClosed(c)) && StepKept(b, Between(c))
  {
    CloseAccepted(c);
    hide Coupled, Tracks, Kept, Failing, L.Process;
    GoneKept(b, c, c.role.Peer(), PeerClosed(c).conn);
  }

  /** Reporting the end of the connection again changes nothing. */
  lemma ClosedAgain(c: Conn)
    requires Sound(c.state)
    ensures c.Peer() == L.Closed ==> L.Process(c.state, c.role.Peer(), L.ConnectionClosed) == Some(c.state)
  {
  }

  lemma {:induction false} NextInnerKept(x: Externals, b: Book, c: Conn)
    requires Coupled(c) && Tracks(b, c)
    ensures StepKept(b, NextInner(x, c))
    decreases |c.input|
  {
    hide Coupled, Tracks, StepKept, NextInner, Taking;
    if Silent(c).Some? {
      var d := Silent(c).value;
      SilentCoupled(c);
      SilentPoll(x, c);
      SilentTracks(b, c);
      NextInnerKept(x, b, d);
      return;
    }
    if !Active(c) || (c.Peer() == L.Idle && c.eof && c.input == []) {
      InactiveKept(x, b, c);
      return;
    }
    Busy(c);
    BodyRoom(c);
    PollReads(x, c);
    match c.reader {
      case AwaitHead => ReadHeadKept(x, b, c);
      case ReadFixed(remaining) => ContentKept(x, b, c);
      case ReadToClose => ContentKept(x, b, c);
      case ReadChunked(chunk) =>
        match chunk {
          case Size(scanned) => StuckKept(x, b, c);
          case Body(remaining, first) => ContentKept(x, b, c);
          case BodyEnd => StuckKept(x, b, c);
          case Trailers =>
            TrailersPoll(x, c);
            ReadTrailersKept(x, b, c);
        }
    }
  }

  lemma SilentTracks(b: Book, c: Conn)
    requires Tracks(b, c) && Silent(c).Some?
    ensures Tracks(b, Silent(c).value)
  {
    hide Tracks, FindCrlf, ParseChunkHeader;
    TracksElsewhere(b, c, Silent(c).value);
  }

  /** Body content, and the endings that need no further input. */
  lemma ContentKept(x: Externals, b: Book, c: Conn)
    requires Coupled(c) && Tracks(b, c) && c.Peer() == L.SendBody && (Taking(c.reader) || c.reader == ReadFixed(0))
    ensures StepKept(b, NextInner(x, c))
  {
    if Taking(c.reader) && (!c.eof || c.input != []) {
      hide Coupled, Tracks, StepKept, NextInner, Taking;
      TakenKept(x, b, c);
      return;
    }
    if c.reader == ReadFixed(0) || c.reader == ReadToClose {
      ChunkedExact(b, c);
      hide Coupled, Tracks, StepKept, NextInner, FinishPeer;
      PollReads(x, c);
      FinishKept(b, c, []);
      return;
    }
    hide Coupled, Tracks, Failing, NextInner;
    PollReads(x, c);
    if c.reader.ReadChunked? {
      hide ReadMessage;
      ReadsChunk(x, c);
    }
    FailingWhereItWas(b, c, Some(400));
  }

  lemma NextKept(x: Externals, b: Book, c: Conn)
    requires Coupled(c) && Tracks(b, c)
    ensures Kept(b, FactOf(x, c, CallNext), Next(x, c).conn)
  {
    hide NextInner, Coupled, Kept, Tracks, Failing, L.Poison;
    NextInnerKept(x, b, c);
    NextInnerReadsOn(x, c);
    var r := NextInner(x, c);
    if r.outcome.Failed? {
      FailedKept(b, r.conn);
      JustTracks(b, Next(x, c).conn);
    } else if !r.outcome.Occurred? {
      JustTracks(b, r.conn);
    }
  }

  lemma JustTracks(b: Book, d: Conn)
    requires Tracks(b, d)
    ensures Kept(b, None, d)
  {
  }

  lemma FailedKept(b: Book, d: Conn)
    requires Failing(b, d)
    ensures Tracks(b, d.(state := L.Poison(d.state, d.role.Peer())))
  {
    hide Sound, L.Poison, WriterFits, ReaderFits;
    PoisonFits(b, d.state, d.role.Peer());
    PoisonUndisturbed(d.state, d.role.Peer());
  }

  lemma CallKept(x: Externals, b: Book, c: Conn, call: Call)
    requires Coupled(c) && Tracks(b, c)
    ensures Kept(b, FactOf(x, c, call), After(x, c, call))
  {
    hide Coupled, Tracks, Kept, Next, SendRequest, SendInformational, SendResponse, SendData, EndMessage, StartNextCycle,
         Close, Receive;
    JustTracks(b, c);
    match call {
      case CallReceive(data) =>
        if Receive(c, data).Some? {
          ReceiveKept(b, c, data);
          JustTracks(b, Receive(c, data).value);
        }
      case CallNext => NextKept(x, b, c);
      case CallSendRequest(r) =>
        if SendRequest(x, c, r).Sent? {
          SendRequestKept(x, b, c, r);
        }
      case CallSendInformational(r) =>
        if SendInformational(c, r).Sent? {
          SendInformationalKept(b, c, r);
        }
      case CallSendResponse(r) =>
        if SendResponse(c, r).Sent? {
          SendResponseKept(b, c, r);
        }
      case CallSendData(data) =>
        if SendData(c, data).Sent? {
          SendDataKept(b, c, data);
        }
      case CallEndMessage(trailers) =>
        if EndMessage(c, trailers).Sent? {
          EndMessageKept(b, c, trailers);
        }
      case CallStartNextCycle =>
        if StartNextCycle(c).Sent? {
          CycledKept(b, c);
        }
      case CallClose =>
        if Close(c).Sent? {
          CloseKept(b, c);
        }
    }
  }

  /** Whatever the calls, the history is one the book allows, and at its end
      the book agrees with the connection. */
  lemma {:induction false} EveryRunIsAllowed(x: Externals, b: Book, c: Conn, calls: seq<Call>)
    requires Coupled(c) && Tracks(b, c)
    ensures AllowsAll(b, HistoryOf(x, c, calls))
    ensures Tracks(Books(b, HistoryOf(x, c, calls)), RunCalls(x, c, calls))
    decreases |calls|
  {
    hide Coupled, Tracks, Allows, Enter, After, FactOf;
    if calls != [] {
      var f := FactOf(x, c, calls[0]);
      var d := After(x, c, calls[0]);
      AfterCoupled(x, c, calls[0]);
      CallKept(x, b, c, calls[0]);
      var rest := HistoryOf(x, d, calls[1..]);
      if f.Some? {
        EveryRunIsAllowed(x, Enter(b, f.value), d, calls[1..]);
        assert ([f.value] + rest)[1..] == rest;
      } else {
        EveryRunIsAllowed(x, b, d, calls[1..]);
        assert [] + rest == rest;
      }
    }
  }

  lemma NewIsTracked(role: L.Role, limits: Limits)
    ensures Tracks(BLANK, New(role, limits))
  {
  }
}
