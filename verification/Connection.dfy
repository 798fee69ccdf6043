/**
 The connection object (crates/h11r/src/connection.rs): the fields, updated in
 place by the operations of the public interface.  Every method is proved to
 have the effect `ConnectionModel` gives it on the connection's value; a refused
 local operation leaves every field as it was.
 */
module Connections {
  import opened Prelude
  import opened Bytes
  import opened Numbers
  import opened Fields
  import opened Heads
  import opened Scan
  import opened ChunkLine
  import opened Buffers
  import L = Lifecycle
  import M = ConnectionModel

  class Connection {
    const role: L.Role
    const limits: M.Limits
    const externals: M.Externals
    const state: L.ConnectionState
    const input: Buffer
    var progress: SectionProgress?
    var reader: M.Reader
    var writer: Option<Framing>
    var eof: bool
    var peerVersion: Option<Version>
    var requestKind: Option<M.RequestKind>
    var upgrades: seq<bytes>
    var waiting: bool
    var continueFirst: bool

    ghost function Repr(): set<object>
      reads this
    {
      {this, state, input} + if progress == null then {} else {progress}
    }

    ghost predicate Valid()
      reads this, state, input, progress
    {
      input.Valid() && (progress != null ==> progress.Valid())
    }

    /** The connection as a value: what of the buffer is unread, how far a
        section has been searched, and the fields. */
    ghost function Value(): M.Conn
      requires Valid()
      reads this, state, input, progress
    {
      M.Conn(role, limits, state.Value(), input.Live(),
             if progress == null then None else Some(progress.Value()),
             reader, writer, eof, peerVersion, requestKind, upgrades, waiting, continueFirst)
    }

    constructor (role: L.Role, limits: M.Limits, externals: M.Externals)
      ensures Valid() && fresh(Repr())
      ensures Value() == M.New(role, limits)
      ensures this.externals == externals
    {
      this.role, this.limits, this.externals := role, limits, externals;
      state := new L.ConnectionState();
      input := new Buffer();
      progress, reader, writer, eof := null, M.AwaitHead, None, false;
      peerVersion, requestKind, upgrades := None, None, [];
      waiting, continueFirst := false, false;
    }

    // ----------------------------------------------------------------
    // Receiving
    // ----------------------------------------------------------------

    method ReceiveData(data: bytes) returns (ok: bool)
      requires Valid()
      modifies this`eof, input
      ensures Valid() && ok == M.Receive(old(Value()), data).Some?
      ensures Value() == if ok then M.Receive(old(Value()), data).value else old(Value())
    {
      if eof && data != [] {
        return false;
      }
      if data == [] {
        eof := true;
      } else {
        input.Extend(data);
      }
      return true;
    }

    method NextEvent() returns (r: M.Outcome)
      requires Valid()
      modifies Repr()
      ensures Valid() && fresh(Repr() - old(Repr()))
      ensures M.Step(Value(), r) == M.Next(externals, old(Value()))
    {
      hide M.NextInner, L.Poison;
      r := NextEventInner();
      if r.Failed? {
        if role == L.Client {
          r := M.Failed(None);
        }
        state.ProcessError(role.Peer());
      }
    }

    method NextEventInner() returns (r: M.Outcome)
      requires Valid()
      modifies Repr()
      ensures Valid() && fresh(Repr() - old(Repr()))
      ensures M.Step(Value(), r) == M.NextInner(externals, old(Value()))
      decreases |input.Live()|, 2
    {
      hide M.ReadMessage, M.PeerClosed;
      match state.Value().At(role.Peer()) {
        case Closed => r := M.Occurred(M.ClosedEvent);
        case MightSwitchProtocol => r := M.Paused;
        case SwitchedProtocol => r := M.Paused;
        case Error => r := M.Failed(None);
        case Done => r := Between();
        case MustClose => r := Between();
        case Idle =>
          if eof && input.Live() == [] {
            r := PeerClosed();
          } else {
            r := ReadMessage();
          }
        case SendResponse => r := ReadMessage();
        case SendBody => r := ReadMessage();
      }
    }

    method Between() returns (r: M.Outcome)
      requires Valid()
      modifies state
      ensures Valid() && M.Step(Value(), r) == M.Between(old(Value()))
    {
      hide M.PeerClosed;
      if input.Live() != [] {
        return M.Paused;
      }
      if eof {
        r := PeerClosed();
        return;
      }
      return M.NeedData;
    }

    method ReadMessage() returns (r: M.Outcome)
      requires Valid()
      modifies Repr()
      ensures Valid() && fresh(Repr() - old(Repr()))
      ensures M.Step(Value(), r) == M.ReadMessage(externals, old(Value()))
      decreases |input.Live()|, 1
    {
      hide M.ReadHead, M.PeerData, M.FinishPeer, M.ReadSize, M.ReadBody, M.ReadBodyEnd, M.ReadTrailers, M.NeedDataOrEof;
      match reader {
        case AwaitHead => r := ReadHead();
        case ReadFixed(remaining) => r := ReadFixedBody(remaining);
        case ReadToClose => r := ReadBodyToClose();
        case ReadChunked(_) => r := ReadChunk();
      }
    }

    method ReadFixedBody(remaining: nat) returns (r: M.Outcome)
      requires Valid() && reader == M.ReadFixed(remaining)
      modifies Repr()
      ensures Valid() && fresh(Repr() - old(Repr()))
      ensures M.Step(Value(), r) == M.ReadMessage(externals, old(Value()))
    {
      hide M.ReadMessage, M.PeerData, M.FinishPeer, M.NeedDataOrEof;
      M.ReadFixedIs(externals, Value(), remaining);
      if remaining == 0 {
        r := FinishPeer([]);
        return;
      }
      var count := M.Min(remaining, |input.Live()|);
      if count == 0 {
        r := NeedDataOrEof();
        return;
      }
      reader := M.ReadFixed(remaining - count);
      var data := TakeInput(count);
      r := PeerData(data, false, false);
    }

    method ReadBodyToClose() returns (r: M.Outcome)
      requires Valid() && reader == M.ReadToClose
      modifies Repr()
      ensures Valid() && fresh(Repr() - old(Repr()))
      ensures M.Step(Value(), r) == M.ReadMessage(externals, old(Value()))
    {
      hide M.ReadMessage, M.PeerData, M.FinishPeer;
      M.ReadToCloseIs(externals, Value());
      var count := |input.Live()|;
      if count > 0 {
        ghost var live := input.Live();
        assert live[..count] == live;
        var data := TakeInput(count);
        r := PeerData(data, false, false);
        return;
      }
      if eof {
        r := FinishPeer([]);
        return;
      }
      r := M.NeedData;
    }

    method ReadChunk() returns (r: M.Outcome)
      requires Valid() && reader.ReadChunked?
      modifies Repr()
      ensures Valid() && fresh(Repr() - old(Repr()))
      ensures M.Step(Value(), r) == M.ReadMessage(externals, old(Value()))
      decreases |input.Live()|, 1, 0
    {
      hide M.ReadSize, M.ReadBody, M.ReadBodyEnd, M.ReadTrailers;
      match reader.chunk {
        case Size(scanned) => r := ReadSize(scanned);
        case Body(remaining, first) => r := ReadBody(remaining, first);
        case BodyEnd => r := ReadBodyEnd();
        case Trailers => r := ReadTrailers();
      }
    }

    method AdvancePeer(event: L.StateEvent) returns (ok: bool)
      requires Valid()
      modifies state
      ensures Valid() && ok == M.AdvancePeer(old(Value()), event).Some?
      ensures Value() == if ok then M.AdvancePeer(old(Value()), event).value else old(Value())
    {
      hide L.Process;
      ok := state.ProcessEvent(role.Peer(), event);
    }

    method AdvanceLocal(event: L.StateEvent) returns (ok: bool)
      requires Valid()
      modifies state
      ensures Valid() && ok == M.AdvanceLocal(old(Value()), event).Some?
      ensures Value() == if ok then M.AdvanceLocal(old(Value()), event).value else old(Value())
    {
      hide L.Process;
      ok := state.ProcessEvent(role, event);
    }

    method ApplyPersistence(version: Version, headers: seq<Header>)
      requires Valid()
      modifies state
      ensures Valid() && Value() == M.ApplyPersistence(old(Value()), version, headers)
    {
      hide L.DisableKeepAlive, HasToken;
      var persistent := version == Http11 && !HasToken(headers, CONNECTION, CLOSE);
      if !persistent {
        state.Disable();
      }
    }

    method NeedDataOrEof() returns (r: M.Outcome)
      requires Valid()
      ensures M.Step(Value(), r) == M.NeedDataOrEof(Value())
    {
      return if eof then M.Failed(Some(400)) else M.NeedData;
    }

    method SectionReady(skip: bool) returns (ready: bool)
      requires Valid()
      modifies progress
      ensures Valid() && (Value(), ready) == M.SectionReady(old(Value()), skip)
    {
      hide PollFrom;
      if eof || progress == null {
        return true;
      }
      var end := progress.Poll(input.Live(), skip);
      return end.Some?;
    }

    method WaitForSection(skip: bool) returns (r: M.Outcome)
      requires Valid()
      modifies this`progress, progress
      ensures Valid() && (progress == old(progress) || fresh(progress))
      ensures M.Step(Value(), r) == M.WaitForSection(old(Value()), skip)
    {
      hide PollFrom;
      if |input.Live()| > limits.maxHeadBytes {
        return M.Failed(if !skip then Some(400) else if role == L.Server then Some(431) else None);
      }
      if progress == null {
        progress := new SectionProgress();
      }
      var end := progress.Poll(input.Live(), skip);
      r := NeedDataOrEof();
    }

    method ReadHead() returns (r: M.Outcome)
      requires Valid()
      modifies Repr()
      ensures Valid() && fresh(Repr() - old(Repr()))
      ensures M.Step(Value(), r) == M.ReadHead(externals, old(Value()))
    {
      hide M.SectionReady, M.WaitForSection, M.AcceptRequest, M.AcceptResponse, M.ParseRequest, M.ParseResponse;
      ghost var before := Value();
      var ready := SectionReady(true);
      M.ScannedFields(before, true);
      if !ready {
        r := WaitForSection(true);
        return;
      }
      M.ParsedEnds(externals, before);
      if role == L.Server {
        var parsed := M.ParseRequest(externals, input.Live(), limits);
        if parsed.Invalid? {
          return M.Failed(parsed.status);
        }
        if parsed.Partial? {
          r := WaitForSection(true);
          return;
        }
        TakeSection(parsed.end);
        r := AcceptRequest(parsed.value);
        return;
      }
      var parsed := M.ParseResponse(externals, input.Live(), limits);
      if parsed.Invalid? {
        return M.Failed(parsed.status);
      }
      if parsed.Partial? {
        r := WaitForSection(true);
        return;
      }
      TakeSection(parsed.end);
      r := AcceptResponse(parsed.value);
    }

    /** Drops a parsed section and the search for it. */
    method TakeSection(end: nat)
      requires Valid() && end <= |input.Live()|
      modifies this, input
      ensures Valid() && progress == null
      ensures Value() == M.Consume(old(Value()), end).(progress := None)
    {
      Drop(end);
      progress := null;
    }

    method AcceptRequest(r: Request) returns (outcome: M.Outcome)
      requires Valid()
      modifies this, state
      ensures Valid() && progress == old(progress)
      ensures M.Step(Value(), outcome) == M.AcceptRequest(externals, old(Value()), r)
    {
      hide ValidTarget, ValidHost, SelectFraming, M.ProposedUpgrades, M.AdvancePeer, M.BeginRequest;
      if !ValidTarget(r.target) {
        return M.Failed(Some(400));
      }
      if !ValidHost(r.version, r.headers, externals.authority) {
        return M.Failed(Some(400));
      }
      var selected := SelectFraming(r.headers, r.version);
      if selected.BadFraming? {
        return M.Failed(Some(selected.status));
      }
      var plan := M.RequestPlan(selected.framing, M.ProposedUpgrades(r.version, r.headers));
      var ok := AdvancePeer(M.RequestProposals(r, plan));
      if !ok {
        return M.Failed(Some(400));
      }
      BeginRequest(r, plan);
      peerVersion := Some(r.version);
      reader := M.ReaderFor(plan.framing);
      return M.Occurred(M.RequestEvent(r));
    }

    method BeginRequest(r: Request, plan: M.RequestPlan)
      requires Valid() && plan.RequestPlan?
      modifies this, state
      ensures Valid() && progress == old(progress)
      ensures Value() == M.BeginRequest(old(Value()), r, plan)
    {
      hide M.ApplyPersistence, ExpectsContinue;
      ApplyPersistence(r.version, r.headers);
      requestKind := Some(M.KindOf(r.method_));
      waiting := ExpectsContinue(r.version, r.headers, plan.framing);
      continueFirst := waiting && plan.upgrades != [];
      upgrades := plan.upgrades;
    }

    method AcceptResponse(r: Response) returns (outcome: M.Outcome)
      requires Valid()
      modifies this, state
      ensures Valid() && progress == old(progress)
      ensures M.Step(Value(), outcome) == M.AcceptResponse(old(Value()), r)
    {
      hide M.AcceptInformational, M.AcceptFinal;
      if IsInformational(r.status) {
        outcome := AcceptInformational(r);
      } else {
        outcome := AcceptFinal(r);
      }
    }

    method AcceptInformational(r: Response) returns (outcome: M.Outcome)
      requires Valid() && IsInformational(r.status)
      modifies this, state
      ensures Valid() && progress == old(progress)
      ensures M.Step(Value(), outcome) == M.AcceptInformational(old(Value()), r)
    {
      hide M.ValidUpgrade, M.AdvancePeer, L.Process;
      if r.status == 101 && (continueFirst || !M.ValidUpgrade(upgrades, r.version, r.headers)) {
        return M.Failed(None);
      }
      var event := if r.status == 101 then L.ProtocolSwitch(L.Upgrade) else L.InformationalResponse;
      var ok := AdvancePeer(event);
      if !ok {
        return M.Failed(Some(400));
      }
      if r.status == 100 {
        waiting := false;
        continueFirst := false;
      }
      peerVersion := Some(r.version);
      return M.Occurred(M.InformationalEvent(r));
    }

    method AcceptFinal(r: Response) returns (outcome: M.Outcome)
      requires Valid() && !IsInformational(r.status)
      modifies this, state
      ensures Valid() && progress == old(progress)
      ensures M.Step(Value(), outcome) == M.AcceptFinal(old(Value()), r)
    {
      hide M.AdvancePeer, M.ApplyPersistence, ResponseFraming, L.DisableKeepAlive, M.NoContent, M.FinalEvent;
      var event := M.FinalEvent(requestKind, r.status);
      var noContent := M.NoContent(requestKind, r.status);
      var ok := AdvancePeer(event);
      if !ok {
        return M.Failed(Some(400));
      }
      ApplyPersistence(r.version, r.headers);
      peerVersion := Some(r.version);
      waiting := false;
      continueFirst := false;
      upgrades := [];
      var selected := if noContent then Framed(Fixed(0)) else ResponseFraming(r.headers, r.version);
      if selected.BadFraming? {
        return M.Failed(Some(selected.status));
      }
      if selected.framing == CloseDelimited {
        state.Disable();
      }
      reader := M.ReaderFor(selected.framing);
      return M.Occurred(M.ResponseEvent(r));
    }

    method ReadSize(scanned: nat) returns (r: M.Outcome)
      requires Valid()
      modifies Repr()
      ensures Valid() && fresh(Repr() - old(Repr()))
      ensures M.Step(Value(), r) == M.ReadSize(externals, old(Value()), scanned)
      decreases |input.Live()|, 0
    {
      hide FindCrlf, ParseChunkHeader, M.NextInner;
      var tooLong := M.Failed(if role == L.Server then Some(400) else None);
      var found := FindCrlf(input.Live(), scanned);
      if found.None? {
        if IncompleteLineLen(input.Live()) > limits.maxHeadBytes {
          return tooLong;
        }
        reader := M.ReadChunked(M.Size(if |input.Live()| == 0 then 0 else |input.Live()| - 1));
        r := NeedDataOrEof();
        return;
      }
      var end := found.value;
      if end - 2 > limits.maxHeadBytes {
        return tooLong;
      }
      var size := ParseChunkLine(input.Live()[..end - 2]);
      if size.None? {
        return M.Failed(Some(400));
      }
      Drop(end);
      BeginChunk(size.value);
      r := NextEventInner();
    }

    /** Takes input that is being read. */
    method TakeInput(count: nat) returns (data: bytes)
      requires Valid() && count <= |input.Live()|
      modifies input
      ensures Valid() && Value() == M.Consume(old(Value()), count) && data == old(input.Live())[..count]
    {
      data := input.Take(count);
    }

    /** Drops input that has been read. */
    method Drop(count: nat)
      requires Valid() && count <= |input.Live()|
      modifies input
      ensures Valid() && Value() == M.Consume(old(Value()), count)
    {
      input.Consume(count);
      assert input.Live() == old(input.Live())[count..];
    }

    /** Turns to what a chunk line has announced. */
    method BeginChunk(size: nat)
      requires Valid()
      modifies this
      ensures Valid() && Repr() <= old(Repr())
      ensures Value() == if size == 0 then old(Value()).(reader := M.ReadChunked(M.Trailers), progress := None)
                         else old(Value()).(reader := M.ReadChunked(M.Body(size, true)))
    {
      if size == 0 {
        reader := M.ReadChunked(M.Trailers);
        progress := null;
      } else {
        reader := M.ReadChunked(M.Body(size, true));
      }
    }

    method ReadBody(remaining: nat, first: bool) returns (r: M.Outcome)
      requires Valid()
      modifies this, state, input
      ensures Valid() && progress == old(progress)
      ensures M.Step(Value(), r) == M.ReadBody(old(Value()), remaining, first)
    {
      hide M.PeerData;
      var count := M.Min(remaining, |input.Live()|);
      if count == 0 {
        r := NeedDataOrEof();
        return;
      }
      var last := count == remaining;
      reader := M.ReadChunked(if last then M.BodyEnd else M.Body(remaining - count, false));
      var data := TakeInput(count);
      r := PeerData(data, first, last);
    }

    method ReadBodyEnd() returns (r: M.Outcome)
      requires Valid()
      modifies Repr()
      ensures Valid() && fresh(Repr() - old(Repr()))
      ensures M.Step(Value(), r) == M.ReadBodyEnd(externals, old(Value()))
      decreases |input.Live()|, 0
    {
      hide M.NextInner;
      if |input.Live()| < 2 {
        r := NeedDataOrEof();
        return;
      }
      if input.Live()[..2] != CRLF {
        return M.Failed(Some(400));
      }
      Drop(2);
      reader := M.ReadChunked(M.Size(0));
      r := NextEventInner();
    }

    method ReadTrailers() returns (r: M.Outcome)
      requires Valid()
      modifies Repr()
      ensures Valid() && fresh(Repr() - old(Repr()))
      ensures M.Step(Value(), r) == M.ReadTrailers(externals, old(Value()))
    {
      hide M.SectionReady, M.WaitForSection, M.FinishPeer, SectionEnd;
      ghost var before := Value();
      var ready := SectionReady(false);
      M.ScannedFields(before, false);
      if !ready {
        r := WaitForSection(false);
        return;
      }
      match M.ParseTrailers(externals, input.Live(), limits, role == L.Client) {
        case Invalid(status) => r := M.Failed(status);
        case Partial => r := WaitForSection(false);
        case Complete(end, trailers) =>
          TakeSection(end);
          r := FinishPeer(trailers);
      }
    }

    method PeerData(data: bytes, chunkStart: bool, chunkEnd: bool) returns (r: M.Outcome)
      requires Valid()
      modifies this`waiting, state
      ensures Valid() && M.Step(Value(), r) == M.PeerData(old(Value()), data, chunkStart, chunkEnd)
    {
      hide L.Process;
      var ok := AdvancePeer(L.Data);
      if !ok {
        return M.Failed(Some(400));
      }
      waiting := false;
      return M.Occurred(M.DataEvent(data, chunkStart, chunkEnd));
    }

    method FinishPeer(trailers: seq<Header>) returns (r: M.Outcome)
      requires Valid()
      modifies this`reader, state
      ensures Valid() && M.Step(Value(), r) == M.FinishPeer(old(Value()), trailers)
    {
      hide L.Process;
      var ok := AdvancePeer(L.EndOfMessage);
      if !ok {
        return M.Failed(Some(400));
      }
      reader := M.AwaitHead;
      return M.Occurred(M.EndEvent(trailers));
    }

    method PeerClosed() returns (r: M.Outcome)
      requires Valid()
      modifies state
      ensures Valid() && M.Step(Value(), r) == M.PeerClosed(old(Value()))
    {
      hide L.Process;
      var ok := AdvancePeer(L.ConnectionClosed);
      if !ok {
        return M.Failed(Some(400));
      }
      return M.Occurred(M.ClosedEvent);
    }

    // ----------------------------------------------------------------
    // Sending
    // ----------------------------------------------------------------

    /** What a send operation promises: the model's new state and bytes, or no
        change at all. */
    static ghost predicate Did(before: M.Conn, after: M.Conn, sent: M.Sent, result: Option<bytes>) {
      match sent
      case Refused => result == None && after == before
      case Sent(conn, out) => result == Some(out) && after == conn
    }

    /** The checks a request has to pass before it may change anything. */
    method CheckRequest(r: Request) returns (plan: M.RequestPlan)
      ensures plan == M.WritePlan(externals, r)
    {
      hide M.ValidRequest, SelectFraming, UpgradeProtocols, HasToken;
      if !M.ValidRequest(externals, r) {
        return M.BadRequest(400);
      }
      var selected := SelectFraming(r.headers, r.version);
      if selected.BadFraming? {
        return M.BadRequest(selected.status);
      }
      if selected.framing == Fixed(0) && HasToken(r.headers, EXPECT, CONTINUE_100) {
        return M.BadRequest(400);
      }
      var protocols := UpgradeProtocols(r.headers);
      if protocols.None? {
        return M.BadRequest(400);
      }
      if HasToken(r.headers, CONNECTION, UPGRADE) == (protocols.value == []) {
        return M.BadRequest(400);
      }
      return M.RequestPlan(selected.framing, if r.version == Http11 then protocols.value else []);
    }

    method SendRequest(r: Request) returns (result: Option<bytes>)
      requires Valid()
      modifies this, state
      ensures Valid() && progress == old(progress)
      ensures Did(old(Value()), Value(), M.SendRequest(externals, old(Value()), r), result)
    {
      hide M.WritePlan, M.AdvanceLocal, M.BeginRequest, RequestBytes;
      if role != L.Client {
        return None;
      }
      var plan := CheckRequest(r);
      if plan.BadRequest? {
        return None;
      }
      var ok := AdvanceLocal(M.RequestProposals(r, plan));
      if !ok {
        return None;
      }
      BeginRequest(r, plan);
      writer := Some(plan.framing);
      var out := SerializeRequest(r);
      return Some(out);
    }

    method SendInformationalResponse(r: Response) returns (result: Option<bytes>)
      requires Valid()
      modifies this, state
      ensures Valid() && progress == old(progress)
      ensures Did(old(Value()), Value(), M.SendInformational(old(Value()), r), result)
    {
      hide ValidHeaders, ValidReason, FramingFields, M.ValidUpgrade, M.AdvanceLocal, ResponseBytes;
      if role != L.Server || !IsInformational(r.status) {
        return None;
      }
      if !ValidHeaders(r.headers) || !ValidReason(r.reason) {
        return None;
      }
      if FramingFields(r.headers) > 0 {
        return None;
      }
      if r.status == 101 && (continueFirst || !M.ValidUpgrade(upgrades, r.version, r.headers)) {
        return None;
      }
      var ok := AdvanceLocal(if r.status == 101 then L.ProtocolSwitch(L.Upgrade) else L.InformationalResponse);
      if !ok {
        return None;
      }
      if r.status == 100 {
        waiting := false;
        continueFirst := false;
      }
      var out := SerializeResponse(r);
      return Some(out);
    }

    /** Normalizes the field section of a final response and selects its framing. */
    method FrameResponse(r: Response) returns (p: M.ResponsePlan)
      requires Valid()
      ensures p == M.FrameResponse(Value(), r)
    {
      hide CountHeader, Without, SelectFraming, M.NoContent;
      var headers := r.headers;
      if (peerVersion != Some(Http11) || r.version != Http11) && CountHeader(headers, TRANSFER_ENCODING) > 0 {
        headers := Without(Without(headers, TRANSFER_ENCODING), CONTENT_LENGTH);
      }
      if M.NoContent(requestKind, r.status) {
        return M.ResponsePlan(headers, Fixed(0));
      }
      if CountHeader(headers, TRANSFER_ENCODING) + CountHeader(headers, CONTENT_LENGTH) == 0 {
        if peerVersion == Some(Http11) && r.version == Http11 {
          headers := headers + [Header("Transfer-Encoding", CHUNKED)];
          return M.ResponsePlan(headers, Chunked);
        }
        return M.ResponsePlan(headers, CloseDelimited);
      }
      var selected := SelectFraming(headers, r.version);
      if selected.BadFraming? {
        return M.NoPlan;
      }
      return M.ResponsePlan(headers, selected.framing);
    }

    /** The checks a final response has to pass, and the head that will be sent. */
    method PlanResponse(r: Response) returns (p: M.ResponsePlan)
      requires Valid()
      ensures p == M.PlanResponse(Value(), r)
    {
      hide ValidHeaders, ValidReason, FramingFields, M.FrameResponse, SetConnectionClose, HasToken;
      if !ValidHeaders(r.headers) || !ValidReason(r.reason) {
        return M.NoPlan;
      }
      var connect := M.Connects(requestKind, r.status);
      if (r.status == 204 || connect) && FramingFields(r.headers) > 0 {
        return M.NoPlan;
      }
      p := FrameResponse(r);
      if p.NoPlan? {
        return;
      }
      if && !connect
         && (|| !state.keepAlive || peerVersion != Some(Http11) || r.version != Http11
             || HasToken(p.headers, CONNECTION, CLOSE))
      {
        p := p.(headers := SetConnectionClose(p.headers));
      }
    }

    method SendResponse(r: Response) returns (result: Option<bytes>)
      requires Valid()
      modifies this, state
      ensures Valid() && progress == old(progress)
      ensures Did(old(Value()), Value(), M.SendResponse(old(Value()), r), result)
    {
      hide M.PlanResponse, M.AdvanceLocal, M.ApplyPersistence, M.FinalEvent, ResponseBytes;
      if role != L.Server || IsInformational(r.status) {
        return None;
      }
      var p := PlanResponse(r);
      if p.NoPlan? {
        return None;
      }
      var ok := AdvanceLocal(M.FinalEvent(requestKind, r.status));
      if !ok {
        return None;
      }
      ApplyPersistence(r.version, p.headers);
      writer := Some(p.framing);
      waiting := false;
      continueFirst := false;
      upgrades := [];
      var out := SerializeResponse(r.(headers := p.headers));
      return Some(out);
    }

    /** The bytes to write before and after a body object of this length. */
    method SendDataFraming(length: nat) returns (parts: Option<(bytes, bytes)>)
      requires Valid()
      modifies this`writer, this`waiting, state
      ensures Valid()
      ensures forall data: bytes | |data| == length ::
        Did(old(Value()), Value(), M.SendData(old(Value()), data),
             if parts.Some? then Some(parts.value.0 + data + parts.value.1) else None)
    {
      hide M.AdvanceLocal, Hex;
      if writer.None? {
        return None;
      }
      var next, prefix, suffix := writer.value, [], [];
      match writer.value {
        case Fixed(remaining) =>
          if length > remaining {
            return None;
          }
          next := Fixed(remaining - length);
        case CloseDelimited =>
        case Chunked =>
          if length > 0 {
            prefix, suffix := Hex(length) + CRLF, CRLF;
          }
      }
      var ok := AdvanceLocal(L.Data);
      if !ok {
        return None;
      }
      writer := Some(next);
      waiting := false;
      return Some((prefix, suffix));
    }

    method SendData(data: bytes) returns (result: Option<bytes>)
      requires Valid()
      modifies this`writer, this`waiting, state
      ensures Valid()
      ensures Did(old(Value()), Value(), M.SendData(old(Value()), data), result)
    {
      hide M.SendData;
      var parts := SendDataFraming(|data|);
      if parts.None? {
        return None;
      }
      return Some(parts.value.0 + data + parts.value.1);
    }

    method EndOfMessage(trailers: seq<Header>) returns (result: Option<bytes>)
      requires Valid()
      modifies this`writer, this`waiting, state
      ensures Valid()
      ensures Did(old(Value()), Value(), M.EndMessage(old(Value()), trailers), result)
    {
      hide M.AdvanceLocal, ValidTrailers, LinesBytes;
      if !ValidTrailers(trailers) || writer.None? {
        return None;
      }
      var out := [];
      match writer.value {
        case Fixed(remaining) =>
          if remaining != 0 || trailers != [] {
            return None;
          }
        case CloseDelimited =>
          if trailers != [] {
            return None;
          }
        case Chunked =>
          out := WriteHeaders("0\r\n", trailers);
          out := out + CRLF;
          assert out == "0\r\n" + TrailerBytes(trailers);
      }
      var ok := AdvanceLocal(L.EndOfMessage);
      if !ok {
        return None;
      }
      writer := None;
      waiting := false;
      return Some(out);
    }

    method StartNextCycle() returns (result: Option<bytes>)
      requires Valid()
      modifies this, state
      ensures Valid() && fresh(Repr() - old(Repr()))
      ensures Did(old(Value()), Value(), M.StartNextCycle(old(Value())), result)
    {
      var ok := state.StartNextCycle();
      if !ok {
        return None;
      }
      reader := M.AwaitHead;
      writer := None;
      progress := null;
      requestKind := None;
      upgrades := [];
      waiting := false;
      continueFirst := false;
      return Some([]);
    }

    method Close() returns (result: Option<bytes>)
      requires Valid()
      modifies this`writer, state
      ensures Valid()
      ensures Did(old(Value()), Value(), M.Close(old(Value())), result)
    {
      hide M.AdvanceLocal;
      var ok := AdvanceLocal(L.ConnectionClosed);
      if !ok {
        return None;
      }
      writer := None;
      return Some([]);
    }
  }
}
