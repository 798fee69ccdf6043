/**
 Fragmentation invariance: how the peer's bytes are cut into `receive_data`
 calls does not show.  A stream fed in any pieces, polling in between, yields the
 same body bytes, the same chunk boundaries, the same other events, the same
 error, the same unread bytes and the same state as the stream fed at once.
 */
module Fragmentation {
  import opened Prelude
  import opened Bytes
  import opened Fields
  import opened Heads
  import opened Scan
  import opened ChunkLine
  import opened ConnectionModel
  import opened LifecycleRuns
  import opened Coupling
  import opened Polling
  import L = Lifecycle

  // ------------------------------------------------------------------
  // What fragmentation must not change
  // ------------------------------------------------------------------

  function Feed(c: Conn, more: bytes): Conn {
    c.(input := c.input + more)
  }

  /** A connection without its search hints. */
  function ForgetReader(r: Reader): Reader {
    if r.ReadChunked? && r.chunk.Size? then ReadChunked(Size(0)) else r
  }

  function Forget(c: Conn): Conn {
    c.(progress := None, reader := ForgetReader(c.reader))
  }

  function Plainly(r: Step): Step {
    Step(Forget(r.conn), r.outcome)
  }

  /** The observable content of events: body bytes one by one, chunk boundaries
      where they are, everything else as it is. */
  datatype Token = Open | Octet(b: byte) | Shut | Mark(event: Event)

  function Octets(data: bytes): (tokens: seq<Token>)
    ensures |tokens| == |data|
    ensures forall i :: 0 <= i < |data| ==> tokens[i] == Octet(data[i])
  {
    seq(|data|, i requires 0 <= i < |data| => Octet(data[i]))
  }

  function Tokens(e: Event): seq<Token> {
    match e
    case DataEvent(data, chunkStart, chunkEnd) =>
      (if chunkStart then [Open] else []) + Octets(data) + (if chunkEnd then [Shut] else [])
    case _ => [Mark(e)]
  }

  function Trace(events: seq<Event>): seq<Token> {
    if events == [] then [] else Tokens(events[0]) + Trace(events[1..])
  }

  // ------------------------------------------------------------------
  // What the external parser has to be like on this stream
  // ------------------------------------------------------------------

  /** The parser judges no section before it is complete, and then by the bytes
      of the section alone; a section it rejects is not also too long. */
  ghost predicate JudgesPrefix<T>(parse: bytes -> Parsed<T>, data: bytes, skip: bool, limit: nat, k: nat)
    requires k <= |data|
  {
    match SectionEnd(data[..k], skip)
    case None => parse(data[..k]).Partial?
    case Some(e) =>
      && parse(data[..k]) == parse(data[..e])
      && !parse(data[..k]).Partial?
      && (parse(data[..k]).Complete? ==> parse(data[..k]).end == e)
      && (e > limit ==> parse(data[..k]).Complete?)
  }

  ghost predicate Judges<T>(parse: bytes -> Parsed<T>, data: bytes, skip: bool, limit: nat) {
    forall k :: 0 <= k <= |data| ==> JudgesPrefix(parse, data, skip, limit, k)
  }

  /** The next section the connection will parse, if any, is judged so. */
  ghost predicate Clear(x: Externals, c: Conn) {
    var n, limit := c.limits.maxHeaderCount, c.limits.maxHeadBytes;
    Active(c) ==>
      && (c.reader == AwaitHead && c.role == L.Server ==> Judges(d => x.request(d, n), c.input, true, limit))
      && (c.reader == AwaitHead && c.role == L.Client ==> Judges(d => x.response(d, n), c.input, true, limit))
      && (c.reader == ReadChunked(Trailers) ==>
            Judges(d => x.trailers(d, n, c.role == L.Client), c.input, false, limit))
  }

  // ------------------------------------------------------------------
  // Silent steps: chunk lines and chunk ends produce no event
  // ------------------------------------------------------------------

  function Silent(c: Conn): Option<Conn> {
    if c.Peer() != L.SendBody || !c.reader.ReadChunked? then None
    else
      match c.reader.chunk
      case Size(_) =>
        (match FindCrlf(c.input, 0)
         case None => None
         case Some(end) =>
           if end - 2 > c.limits.maxHeadBytes then None
           else
             match ParseChunkHeader(c.input[..end - 2])
             case None => None
             case Some(size) =>
               Some(if size == 0 then Consume(c, end).(reader := ReadChunked(Trailers), progress := None)
                    else Consume(c, end).(reader := ReadChunked(Body(size, true)))))
      case BodyEnd =>
        if |c.input| >= 2 && c.input[..2] == CRLF then Some(Consume(c, 2).(reader := ReadChunked(Size(0)))) else None
      case _ => None
  }

  lemma SilentCoupled(c: Conn)
    requires Coupled(c) && Silent(c).Some?
    ensures Coupled(Silent(c).value) && |Silent(c).value.input| < |c.input|
    ensures Silent(c).value.Peer() == L.SendBody && Silent(c).value.eof == c.eof
    ensures Forget(c) == c ==> Forget(Silent(c).value) == Silent(c).value
  {
    hide Coupled, FindCrlf, ParseChunkHeader, ChunkCoupled;
    if c.reader.chunk.Size? {
      var end := FindCrlf(c.input, 0).value;
      var size := ParseChunkHeader(c.input[..end - 2]).value;
      NextChunkCoupled(c.input[end..], size);
      ReadingOn(c, ReadChunked(if size == 0 then Trailers else Body(size, true)), c.input[end..]);
    } else {
      HintStartsSound(c.input[2..]);
      ReadingOn(c, ReadChunked(Size(0)), c.input[2..]);
    }
  }

  // One unfolding of the reader at a time.

  lemma PollReads(x: Externals, c: Conn)
    requires c.Peer() == L.SendBody || c.Peer() == L.SendResponse || (c.Peer() == L.Idle && !(c.eof && c.input == []))
    ensures NextInner(x, c) == ReadMessage(x, c)
  {
    hide ReadMessage;
  }

  lemma ReadsHead(x: Externals, c: Conn)
    requires c.reader == AwaitHead
    ensures ReadMessage(x, c) == ReadHead(x, c)
  {
    hide ReadHead;
  }

  lemma ReadsChunk(x: Externals, c: Conn)
    requires c.reader.ReadChunked?
    ensures c.reader.chunk.Size? ==> ReadMessage(x, c) == ReadSize(x, c, c.reader.chunk.scanned)
    ensures c.reader.chunk.Body? ==> ReadMessage(x, c) == ReadBody(c, c.reader.chunk.remaining, c.reader.chunk.first)
    ensures c.reader.chunk.BodyEnd? ==> ReadMessage(x, c) == ReadBodyEnd(x, c)
    ensures c.reader.chunk.Trailers? ==> ReadMessage(x, c) == ReadTrailers(x, c)
  {
    hide ReadSize, ReadBody, ReadBodyEnd, ReadTrailers;
  }

  lemma SilentSize(x: Externals, c: Conn, scanned: nat)
    requires FindCrlf(c.input, scanned) == FindCrlf(c.input, 0)
    requires c.reader == ReadChunked(Size(scanned)) && Silent(c).Some?
    ensures ReadSize(x, c, scanned) == NextInner(x, Silent(c).value)
  {
    hide NextInner, FindCrlf, ParseChunkHeader;
  }

  lemma SilentBodyEnd(x: Externals, c: Conn)
    requires c.reader == ReadChunked(BodyEnd) && Silent(c).Some?
    ensures ReadBodyEnd(x, c) == NextInner(x, Silent(c).value)
  {
    hide NextInner;
  }

  /** A silent step is part of the same poll. */
  lemma SilentPoll(x: Externals, c: Conn)
    requires Coupled(c) && Silent(c).Some?
    ensures NextInner(x, c) == NextInner(x, Silent(c).value)
  {
    hide NextInner, ReadMessage, ReadSize, ReadBodyEnd, Coupled, FindCrlf, ParseChunkHeader;
    PollReads(x, c);
    ReadsChunk(x, c);
    if c.reader.chunk.Size? {
      SizeHint(c, c.reader.chunk.scanned);
      SilentSize(x, c, c.reader.chunk.scanned);
    } else {
      SilentBodyEnd(x, c);
    }
  }

  lemma SliceFeeds(c: Conn, more: bytes, end: nat)
    requires end <= |c.input|
    ensures Feed(c, more).input[..end] == c.input[..end]
    ensures Consume(Feed(c, more), end) == Feed(Consume(c, end), more)
  {
    assert (c.input + more)[end..] == c.input[end..] + more;
  }

  lemma SilentSizeFeeds(c: Conn, more: bytes)
    requires Silent(c).Some? && c.reader.chunk.Size?
    ensures Silent(Feed(c, more)) == Some(Feed(Silent(c).value, more))
  {
    hide ParseChunkHeader, FindCrlf, Consume;
    var end := FindCrlf(c.input, 0).value;
    FoundStays(c.input, more);
    SliceFeeds(c, more, end - 2);
    SliceFeeds(c, more, end);
    var size := ParseChunkHeader(c.input[..end - 2]).value;
    var reader := ReadChunked(if size == 0 then Trailers else Body(size, true));
    assert Feed(Consume(c, end), more).(reader := reader) == Feed(Consume(c, end).(reader := reader), more);
  }

  /** More input does not disturb a silent step. */
  lemma SilentFeeds(c: Conn, more: bytes)
    requires Silent(c).Some?
    ensures Silent(Feed(c, more)) == Some(Feed(Silent(c).value, more))
  {
    if c.reader.chunk.Size? {
      hide Silent, Feed;
      SilentSizeFeeds(c, more);
      return;
    }
    SliceFeeds(c, more, 2);
  }

  lemma FoundStays(data: bytes, more: bytes)
    requires FindCrlf(data, 0).Some?
    ensures FindCrlf(data + more, 0) == FindCrlf(data, 0)
  {
    var end := FindCrlf(data, 0).value;
    FindCrlfIsFirst(data, 0);
    forall i | 0 <= i < end - 2
      ensures !CrlfAt(data + more, i)
    {
      assert !CrlfAt(data, i);
    }
    assert CrlfAt(data + more, end - 2);
    FindCrlfUnique(data + more, 0, end);
  }

  /** The parser is well behaved on whatever section one poll comes to. */
  ghost predicate OrderlyPoll(x: Externals, c: Conn)
    requires Coupled(c)
    decreases |c.input|
  {
    if Silent(c).Some? then
      SilentCoupled(c);
      OrderlyPoll(x, Silent(c).value)
    else Clear(x, c)
  }

  // ------------------------------------------------------------------
  // Polls without silent steps
  // ------------------------------------------------------------------

  /** How the poll `w` of a connection with more input continues the poll `r` of
      the connection without it. */
  ghost predicate Continues(x: Externals, r: Step, more: bytes, w: Step) {
    match r.outcome
    case NeedData => w == Plainly(NextInner(x, Feed(r.conn, more)))
    case Paused => w == Plainly(NextInner(x, Feed(r.conn, more)))
    case Failed(_) => w == Step(Feed(r.conn, more), r.outcome)
    case Occurred(e) => w == Step(Feed(r.conn, more), r.outcome) || Grows(x, r, more, w)
  }

  /** A body event that took all there was is taken further. */
  ghost predicate Grows(x: Externals, r: Step, more: bytes, w: Step)
    requires r.outcome.Occurred?
  {
    var v := Plainly(NextInner(x, Feed(r.conn, more)));
    var e := r.outcome.event;
    && e.DataEvent? && !e.chunkEnd && r.conn.input == [] && Taking(r.conn.reader) && r.conn.Peer() == L.SendBody
    && v.outcome.Occurred? && v.outcome.event.DataEvent? && !v.outcome.event.chunkStart
    && w == Step(v.conn, Occurred(DataEvent(e.data + v.outcome.event.data, e.chunkStart, v.outcome.event.chunkEnd)))
  }

  lemma FedForgets(c: Conn, more: bytes)
    ensures Forget(Feed(c, more)) == Feed(Forget(c), more)
  {
  }

  // Body content: as much as there is room for is taken.

  /** A reader that is taking body content. */
  predicate Taking(r: Reader) {
    || (r.ReadFixed? && r.remaining > 0) || r.ReadToClose?
    || (r.ReadChunked? && r.chunk.Body? && r.chunk.remaining > 0)
  }

  function Room(r: Reader): Option<nat>
    requires Taking(r)
  {
    match r
    case ReadFixed(remaining) => Some(remaining)
    case ReadToClose => None
    case ReadChunked(chunk) => Some(chunk.remaining)
  }

  function Rest(r: Reader, count: nat): Reader
    requires Taking(r) && (Room(r).Some? ==> count <= Room(r).value)
  {
    match r
    case ReadFixed(remaining) => ReadFixed(remaining - count)
    case ReadToClose => ReadToClose
    case ReadChunked(chunk) =>
      ReadChunked(if count == chunk.remaining then BodyEnd else Body(chunk.remaining - count, false))
  }

  function Take(c: Conn, count: nat): Step
    requires Taking(c.reader) && 0 < count <= |c.input| && (Room(c.reader).Some? ==> count <= Room(c.reader).value)
  {
    Step(c.(reader := Rest(c.reader, count), input := c.input[count..], waiting := false),
         Occurred(DataEvent(c.input[..count], c.reader.ReadChunked? && c.reader.chunk.first,
                            c.reader.ReadChunked? && count == c.reader.chunk.remaining)))
  }

  function Taken(c: Conn): Step
    requires Taking(c.reader)
  {
    var count := if Room(c.reader).Some? then Min(Room(c.reader).value, |c.input|) else |c.input|;
    if count == 0 then Step(c, NeedData) else Take(c, count)
  }

  lemma TakeDelivers(c: Conn, count: nat)
    requires Coupled(c) && c.Peer() == L.SendBody && Taking(c.reader)
    requires 0 < count <= |c.input| && (Room(c.reader).Some? ==> count <= Room(c.reader).value)
    ensures var e := Take(c, count).outcome.event;
      PeerData(c.(reader := Rest(c.reader, count), input := c.input[count..]), e.data, e.chunkStart, e.chunkEnd)
        == Take(c, count)
  {
    hide PeerData, Coupled, ChunkCoupled;
    var e := Take(c, count).outcome.event;
    RestCoupled(c.reader, count, c.input[count..]);
    ReadingOn(c, Rest(c.reader, count), c.input[count..]);
    PeerDataCoupled(c.(reader := Rest(c.reader, count), input := c.input[count..]), e.data, e.chunkStart, e.chunkEnd);
  }

  lemma TakenPoll(x: Externals, c: Conn)
    requires Coupled(c) && c.Peer() == L.SendBody && Taking(c.reader) && (!c.eof || c.input != [])
    ensures NextInner(x, c) == Taken(c)
  {
    hide NextInner, PeerData, Coupled, ChunkCoupled, Take;
    PollReads(x, c);
    var count := if Room(c.reader).Some? then Min(Room(c.reader).value, |c.input|) else |c.input|;
    if count > 0 {
      TakeDelivers(c, count);
      TakeEvent(c, count);
    }
    if c.reader.ReadChunked? {
      hide ReadMessage;
      ReadsChunk(x, c);
      return;
    }
    assert c.input[..|c.input|] == c.input;
  }

  lemma TakeEvent(c: Conn, count: nat)
    requires Taking(c.reader) && 0 < count <= |c.input| && (Room(c.reader).Some? ==> count <= Room(c.reader).value)
    ensures Take(c, count).outcome
         == Occurred(DataEvent(c.input[..count], c.reader.ReadChunked? && c.reader.chunk.first,
                               c.reader.ReadChunked? && count == c.reader.chunk.remaining))
  {
  }

  lemma RestCoupled(r: Reader, count: nat, input: bytes)
    requires Taking(r) && 0 < count && (Room(r).Some? ==> count <= Room(r).value)
    ensures Rest(r, count) != AwaitHead
    ensures Rest(r, count).ReadChunked? ==> ChunkCoupled(Rest(r, count).chunk, input)
  {
  }

  /** More input does not change an event that fills the room there was. */
  lemma TakenWhole(c: Conn, more: bytes)
    requires Taking(c.reader) && Room(c.reader).Some? && |c.input| >= Room(c.reader).value
    ensures Taken(Feed(c, more)) == Step(Feed(Taken(c).conn, more), Taken(c).outcome)
  {
    var room := Room(c.reader).value;
    assert Feed(c, more).input[..room] == c.input[..room];
    assert Feed(c, more).input[room..] == c.input[room..] + more;
  }

  /** Otherwise the event is what it was followed by what there is now. */
  lemma TakenMore(c: Conn, more: bytes, count: nat)
    requires Taking(c.reader) && c.input != [] && 0 < count <= |more|
    requires Room(c.reader).Some? ==> |c.input| + count <= Room(c.reader).value
    ensures var r, w := Take(c, |c.input|), Take(Feed(c, more), |c.input| + count);
      && Taking(r.conn.reader) && r.conn.input == [] && !r.outcome.event.chunkEnd
      && (Room(r.conn.reader).Some? ==> count <= Room(r.conn.reader).value == Room(c.reader).value - |c.input|)
      && (Room(r.conn.reader).None? <==> Room(c.reader).None?)
      && var v := Take(Feed(r.conn, more), count);
         && !v.outcome.event.chunkStart
         && w == Step(v.conn, Occurred(DataEvent(r.outcome.event.data + v.outcome.event.data,
                                                 r.outcome.event.chunkStart, v.outcome.event.chunkEnd)))
  {
    var have := |c.input|;
    var w := Feed(c, more);
    RestSplits(c.reader, have, count);
    SlicesMeet(c.input, more, count);
    hide Rest, Room, Taking;
    assert [] + more == more;
  }

  /** Taking in two steps what could be taken in one. */
  lemma RestSplits(r: Reader, have: nat, count: nat)
    requires Taking(r) && 0 < have && 0 < count && (Room(r).Some? ==> have + count <= Room(r).value)
    ensures var s := Rest(r, have);
      && Taking(s) && (Room(s).Some? <==> Room(r).Some?) && (Room(s).Some? ==> Room(s).value == Room(r).value - have)
      && Rest(s, count) == Rest(r, have + count)
      && (r.ReadChunked? <==> s.ReadChunked?) && (s.ReadChunked? ==> !s.chunk.first && have != r.chunk.remaining)
      && (s.ReadChunked? ==> (count == s.chunk.remaining <==> have + count == r.chunk.remaining))
  {
  }

  lemma SlicesMeet(data: bytes, more: bytes, count: nat)
    requires count <= |more|
    ensures data[..|data|] == data && data[|data|..] == []
    ensures (data + more)[..|data| + count] == data + more[..count] && (data + more)[|data| + count..] == more[count..]
  {
  }

  lemma TakenGrows(c: Conn, more: bytes)
    requires Taking(c.reader) && c.input != [] && more != []
    requires Room(c.reader).Some? ==> |c.input| < Room(c.reader).value
    ensures var r, w := Taken(c), Taken(Feed(c, more));
      && Taking(r.conn.reader) && r.conn.input == [] && r.outcome.Occurred? && r.outcome.event.DataEvent?
      && !r.outcome.event.chunkEnd
      && var v := Taken(Feed(r.conn, more));
         && v.outcome.Occurred? && v.outcome.event.DataEvent? && !v.outcome.event.chunkStart
         && w == Step(v.conn, Occurred(DataEvent(r.outcome.event.data + v.outcome.event.data,
                                                 r.outcome.event.chunkStart, v.outcome.event.chunkEnd)))
  {
    var count := if Room(c.reader).Some? then Min(Room(c.reader).value - |c.input|, |more|) else |more|;
    TakenMore(c, more, count);
    TakeEvent(c, |c.input|);
    TakeEvent(Feed(Take(c, |c.input|).conn, more), count);
    assert [] + more == more;
    hide Take, Rest;
  }

  lemma TakingContinues(x: Externals, c: Conn, more: bytes)
    requires Coupled(c) && c.Peer() == L.SendBody && Taking(c.reader) && !c.eof
    requires Coupled(Feed(c, more)) && Forget(c) == c && more != []
    ensures Continues(x, Plainly(NextInner(x, c)), more, Plainly(NextInner(x, Feed(c, more))))
  {
    hide NextInner, Coupled, ChunkCoupled;
    TakenPoll(x, c);
    TakenPoll(x, Feed(c, more));
    if c.input != [] {
      var r := Taken(c);
      if Room(c.reader).Some? && |c.input| >= Room(c.reader).value {
        TakenWhole(c, more);
        assert Forget(r.conn) == r.conn;
      } else {
        TakenGrows(c, more);
        RestCoupled(c.reader, |c.input|, more);
        ReadingOn(c, r.conn.reader, more);
        StopWaiting(c.(reader := r.conn.reader, input := more));
        assert Feed(r.conn, more).input == more;
        TakenPoll(x, Feed(r.conn, more));
      }
    }
  }

  lemma StopWaiting(c: Conn)
    requires Coupled(c)
    ensures Coupled(c.(waiting := false))
  {
  }

  // Endings and heads: what they do does not depend on the bytes behind them.

  function FeedStep(r: Step, more: bytes): Step {
    Step(Feed(r.conn, more), r.outcome)
  }

  lemma AdvanceFeeds(c: Conn, event: L.StateEvent, more: bytes)
    ensures AdvancePeer(Feed(c, more), event).Some? == AdvancePeer(c, event).Some?
    ensures AdvancePeer(c, event).Some? ==>
      AdvancePeer(Feed(c, more), event).value == Feed(AdvancePeer(c, event).value, more)
  {
    hide L.Process;
  }

  lemma FinishFeeds(c: Conn, trailers: seq<Header>, more: bytes)
    ensures FinishPeer(Feed(c, more), trailers) == FeedStep(FinishPeer(c, trailers), more)
  {
    hide AdvancePeer;
    AdvanceFeeds(c, L.EndOfMessage, more);
  }

  lemma AcceptRequestFeeds(x: Externals, c: Conn, r: Request, more: bytes)
    ensures AcceptRequest(x, Feed(c, more), r) == FeedStep(AcceptRequest(x, c, r), more)
  {
    hide AdvancePeer, ReadPlan, Persistent, ExpectsContinue, L.DisableKeepAlive;
    var plan := ReadPlan(x, r);
    if plan.RequestPlan? {
      AdvanceFeeds(c, RequestProposals(r, plan), more);
    }
  }

  lemma AcceptResponseFeeds(c: Conn, r: Response, more: bytes)
    ensures AcceptResponse(Feed(c, more), r) == FeedStep(AcceptResponse(c, r), more)
  {
    hide AdvancePeer, ValidUpgrade, Persistent, ResponseFraming, L.DisableKeepAlive;
    AdvanceFeeds(c, L.ProtocolSwitch(L.Upgrade), more);
    AdvanceFeeds(c, L.InformationalResponse, more);
    AdvanceFeeds(c, FinalEvent(c.requestKind, r.status), more);
  }

  lemma FeedPlainly(r: Step, more: bytes)
    ensures Plainly(FeedStep(r, more)) == FeedStep(Plainly(r), more)
  {
  }

  // Chunk lines and chunk ends that cannot be read, or not yet.

  lemma SizeStuck(x: Externals, c: Conn)
    requires c.Peer() == L.SendBody && c.reader == ReadChunked(Size(0)) && Silent(c).None? && !c.eof
    ensures Plainly(NextInner(x, c))
         == Step(Forget(c), match FindCrlf(c.input, 0)
                            case None =>
                              if IncompleteLineLen(c.input) > c.limits.maxHeadBytes then ChunkLineTooLong(c) else NeedData
                            case Some(end) =>
                              if end - 2 > c.limits.maxHeadBytes then ChunkLineTooLong(c) else Failed(Some(400)))
  {
    hide NextInner, ReadMessage, FindCrlf, ParseChunkHeader;
    PollReads(x, c);
    ReadsChunk(x, c);
  }

  /** A line that is too long already does not become shorter. */
  lemma TooLongStays(data: bytes, more: bytes)
    requires FindCrlf(data, 0).None?
    ensures match FindCrlf(data + more, 0)
      case None => IncompleteLineLen(data + more) >= IncompleteLineLen(data)
      case Some(end) => end - 2 >= IncompleteLineLen(data)
  {
    FindCrlfIsFirst(data, 0);
    FindCrlfIsFirst(data + more, 0);
    if FindCrlf(data + more, 0).Some? {
      var end := FindCrlf(data + more, 0).value;
      if end - 2 < IncompleteLineLen(data) && end <= |data| {
        assert CrlfAt(data, end - 2);
      }
    }
  }

  lemma SizeContinues(x: Externals, c: Conn, more: bytes)
    requires c.Peer() == L.SendBody && c.reader == ReadChunked(Size(0)) && Silent(c).None? && !c.eof && Forget(c) == c
    ensures Continues(x, Plainly(NextInner(x, c)), more, Plainly(NextInner(x, Feed(c, more))))
  {
    hide NextInner, FindCrlf, ParseChunkHeader;
    var w := Feed(c, more);
    SizeStuck(x, c);
    if FindCrlf(c.input, 0).Some? {
      var end := FindCrlf(c.input, 0).value;
      FoundStays(c.input, more);
      assert w.input[..end - 2] == c.input[..end - 2];
      SizeStuck(x, w);
    } else if IncompleteLineLen(c.input) > c.limits.maxHeadBytes {
      TooLongStays(c.input, more);
      SizeStuck(x, w);
    }
  }

  lemma BodyEndStuck(x: Externals, c: Conn)
    requires c.Peer() == L.SendBody && c.reader == ReadChunked(BodyEnd) && Silent(c).None? && !c.eof
    ensures NextInner(x, c) == Step(c, if |c.input| < 2 then NeedData else Failed(Some(400)))
  {
    hide NextInner, ReadMessage;
    PollReads(x, c);
    ReadsChunk(x, c);
  }

  lemma BodyEndContinues(x: Externals, c: Conn, more: bytes)
    requires c.Peer() == L.SendBody && c.reader == ReadChunked(BodyEnd) && Silent(c).None? && !c.eof && Forget(c) == c
    ensures Continues(x, Plainly(NextInner(x, c)), more, Plainly(NextInner(x, Feed(c, more))))
  {
    hide NextInner;
    BodyEndStuck(x, c);
    if |c.input| >= 2 {
      assert Feed(c, more).input[..2] == c.input[..2];
      BodyEndStuck(x, Feed(c, more));
    }
  }

  lemma EmptyFixedContinues(x: Externals, c: Conn, more: bytes)
    requires c.Peer() == L.SendBody && c.reader == ReadFixed(0) && !c.eof && Forget(c) == c
    requires Coupled(c)
    ensures Continues(x, Plainly(NextInner(x, c)), more, Plainly(NextInner(x, Feed(c, more))))
  {
    hide NextInner, FinishPeer, Coupled;
    PollReads(x, c);
    PollReads(x, Feed(c, more));
    FinishFeeds(c, [], more);
    FinishPeerCoupled(c, []);
    FeedPlainly(FinishPeer(c, []), more);
  }

  lemma InactiveContinues(x: Externals, c: Conn, more: bytes)
    requires Coupled(c) && !Active(c) && !c.eof && Forget(c) == c && more != []
    ensures Continues(x, Plainly(NextInner(x, c)), more, Plainly(NextInner(x, Feed(c, more))))
  {
    hide Sound, ReadMessage;
    FedForgets(c, more);
  }

  // Sections.

  /** What the parser says of a buffer, and of the same buffer with more input. */
  lemma Verdicts<T>(parse: bytes -> Parsed<T>, data: bytes, more: bytes, skip: bool, limit: nat)
    requires Judges(parse, data + more, skip, limit)
    ensures SectionEnd(data, skip).None? ==>
      && parse(data).Partial?
      && match SectionEnd(data + more, skip)
         case None => parse(data + more).Partial?
         case Some(e) =>
           e > |data| && (e > limit ==> parse(data + more).Complete? && parse(data + more).end == e)
    ensures SectionEnd(data, skip).Some? ==>
      && parse(data + more) == parse(data) && !parse(data).Partial?
      && (parse(data).Complete? ==> parse(data).end == SectionEnd(data, skip).value)
  {
    var whole := data + more;
    assert whole[..|data|] == data && whole[..|whole|] == whole;
    assert JudgesPrefix(parse, whole, skip, limit, |data|);
    assert JudgesPrefix(parse, whole, skip, limit, |whole|);
    if SectionEnd(data, skip).Some? {
      SectionEndStable(data, more, skip);
    } else {
      SectionEndLater(data, more, skip);
    }
  }

  lemma SectionEndLater(data: bytes, more: bytes, skip: bool)
    requires SectionEnd(data, skip).None?
    ensures SectionEnd(data + more, skip).Some? ==> SectionEnd(data + more, skip).value > |data|
  {
    SectionEndIsFirst(data, skip);
    SectionEndIsFirst(data + more, skip);
    if SectionEnd(data + more, skip).Some? {
      var e := SectionEnd(data + more, skip).value;
      if e <= |data| {
        SectionPrefix(data, more, e, skip);
      }
    }
  }

  lemma HeadPoll(x: Externals, c: Conn)
    requires Coupled(c) && Active(c) && c.reader == AwaitHead && !c.eof
    ensures NextInner(x, c) == ReadHead(x, c)
  {
    Busy(c);
    hide NextInner, Coupled, ReadHead;
    PollReads(x, c);
  }

  lemma WaitPlainly(c: Conn, skip: bool)
    requires !c.eof && Forget(c) == c
    ensures Plainly(WaitForSection(c, skip))
         == Step(c, if |c.input| <= c.limits.maxHeadBytes then NeedData
                    else Failed(if !skip then Some(400) else if c.role == L.Server then Some(431) else None))
  {
    hide PollFrom;
  }

  lemma ConsumeFeeds(c: Conn, count: nat, more: bytes)
    requires count <= |c.input|
    ensures Consume(Feed(c, more), count).(progress := None) == Feed(Consume(c, count).(progress := None), more)
  {
    assert (c.input + more)[count..] == c.input[count..] + more;
  }

  lemma RequestContinues(x: Externals, c: Conn, more: bytes)
    requires Coupled(c) && Active(c) && c.reader == AwaitHead && c.role == L.Server && !c.eof && Forget(c) == c
    requires Coupled(Feed(c, more)) && Clear(x, Feed(c, more))
    ensures Continues(x, Plainly(NextInner(x, c)), more, Plainly(NextInner(x, Feed(c, more))))
  {
    hide NextInner, Coupled, WaitForSection, AcceptRequest, SectionEnd, Judges;
    var w := Feed(c, more);
    var parse := d => x.request(d, c.limits.maxHeaderCount);
    HeadPoll(x, c);
    HeadPoll(x, w);
    WaitPlainly(c, true);
    WaitPlainly(w, true);
    Verdicts(parse, c.input, more, true, c.limits.maxHeadBytes);
    var parsed := ParseRequest(x, c.input, c.limits);
    if parsed.Complete? {
      ConsumeFeeds(c, parsed.end, more);
      var d := Consume(c, parsed.end).(progress := None);
      AcceptRequestFeeds(x, d, parsed.value, more);
      FeedPlainly(AcceptRequest(x, d, parsed.value), more);
    }
  }

  lemma ResponseContinues(x: Externals, c: Conn, more: bytes)
    requires Coupled(c) && Active(c) && c.reader == AwaitHead && c.role == L.Client && !c.eof && Forget(c) == c
    requires Coupled(Feed(c, more)) && Clear(x, Feed(c, more))
    ensures Continues(x, Plainly(NextInner(x, c)), more, Plainly(NextInner(x, Feed(c, more))))
  {
    hide NextInner, Coupled, WaitForSection, AcceptResponse, SectionEnd, Judges;
    var w := Feed(c, more);
    var parse := d => x.response(d, c.limits.maxHeaderCount);
    HeadPoll(x, c);
    HeadPoll(x, w);
    WaitPlainly(c, true);
    WaitPlainly(w, true);
    Verdicts(parse, c.input, more, true, c.limits.maxHeadBytes);
    var parsed := ParseResponse(x, c.input, c.limits);
    if parsed.Complete? {
      ConsumeFeeds(c, parsed.end, more);
      var d := Consume(c, parsed.end).(progress := None);
      AcceptResponseFeeds(d, parsed.value, more);
      FeedPlainly(AcceptResponse(d, parsed.value), more);
    }
  }

  lemma TrailersPoll(x: Externals, c: Conn)
    requires c.Peer() == L.SendBody && c.reader == ReadChunked(Trailers)
    ensures NextInner(x, c) == ReadTrailers(x, c)
  {
    hide NextInner, ReadMessage, ReadTrailers;
    PollReads(x, c);
    ReadsChunk(x, c);
  }

  lemma TrailersContinues(x: Externals, c: Conn, more: bytes)
    requires Coupled(c) && c.Peer() == L.SendBody && c.reader == ReadChunked(Trailers) && !c.eof && Forget(c) == c
    requires Coupled(Feed(c, more)) && Clear(x, Feed(c, more))
    ensures Continues(x, Plainly(NextInner(x, c)), more, Plainly(NextInner(x, Feed(c, more))))
  {
    hide NextInner, Coupled, WaitForSection, FinishPeer, SectionEnd, Judges;
    var w := Feed(c, more);
    var parse := d => x.trailers(d, c.limits.maxHeaderCount, c.role == L.Client);
    TrailersPoll(x, c);
    TrailersPoll(x, w);
    WaitPlainly(c, false);
    WaitPlainly(w, false);
    Verdicts(parse, c.input, more, false, c.limits.maxHeadBytes);
    if SectionEnd(c.input, false).Some? {
      SectionEndStable(c.input, more, false);
    }
    var parsed := ParseTrailers(x, c.input, c.limits, c.role == L.Client);
    if parsed.Complete? {
      ConsumeFeeds(c, parsed.end, more);
      var d := Consume(c, parsed.end).(progress := None);
      FinishFeeds(d, parsed.value, more);
      FeedPlainly(FinishPeer(d, parsed.value), more);
    }
  }

  // ------------------------------------------------------------------
  // One poll
  // ------------------------------------------------------------------

  lemma FeedCoupled(c: Conn, more: bytes)
    requires Coupled(c) && !c.eof && more != []
    ensures Coupled(Feed(c, more))
  {
    hide Coupled;
    ReceiveCoupled(c, more);
  }

  /** Polling with more input continues polling without it. */
  lemma {:induction false} PollContinues(x: Externals, c: Conn, more: bytes)
    requires Coupled(c) && !c.eof && Forget(c) == c && more != []
    requires Coupled(Feed(c, more)) && OrderlyPoll(x, Feed(c, more))
    ensures Continues(x, Plainly(NextInner(x, c)), more, Plainly(NextInner(x, Feed(c, more))))
    decreases |c.input|
  {
    hide NextInner, Coupled, Continues, Clear, Taking;
    if Silent(c).Some? {
      var d := Silent(c).value;
      hide Silent;
      SilentCoupled(c);
      SilentFeeds(c, more);
      FeedCoupled(d, more);
      SilentPoll(x, c);
      SilentPoll(x, Feed(c, more));
      PollContinues(x, d, more);
      return;
    }
    if !Active(c) {
      InactiveContinues(x, c, more);
      return;
    }
    Busy(c);
    BodyRoom(c);
    match c.reader {
      case AwaitHead =>
        if c.role == L.Server {
          RequestContinues(x, c, more);
        } else {
          ResponseContinues(x, c, more);
        }
      case ReadFixed(remaining) =>
        if remaining == 0 {
          EmptyFixedContinues(x, c, more);
        } else {
          TakingContinues(x, c, more);
        }
      case ReadToClose => TakingContinues(x, c, more);
      case ReadChunked(chunk) =>
        match chunk {
          case Size(scanned) => SizeContinues(x, c, more);
          case Body(remaining, first) => TakingContinues(x, c, more);
          case BodyEnd => BodyEndContinues(x, c, more);
          case Trailers => TrailersContinues(x, c, more);
        }
    }
  }

  lemma BodyRoom(c: Conn)
    requires Coupled(c) && Active(c)
    ensures || c.reader == AwaitHead || Taking(c.reader) || c.reader == ReadFixed(0)
            || (c.reader.ReadChunked? && !c.reader.chunk.Body?)
  {
    Busy(c);
  }

  /** A poll that wants more input has made nothing but silent steps. */
  lemma {:induction false} WaitingPoll(x: Externals, c: Conn, more: bytes)
    requires Coupled(c) && !c.eof && Forget(c) == c && more != []
    requires Coupled(Feed(c, more)) && OrderlyPoll(x, Feed(c, more))
    requires NextInner(x, c).outcome.NeedData? || NextInner(x, c).outcome.Paused?
    ensures var d := Forget(NextInner(x, c).conn);
      Coupled(Feed(d, more)) && OrderlyPoll(x, Feed(d, more)) && !d.eof
    decreases |c.input|
  {
    if Silent(c).Some? {
      var d := Silent(c).value;
      hide NextInner, Coupled, Silent;
      SilentCoupled(c);
      SilentFeeds(c, more);
      FeedCoupled(d, more);
      SilentPoll(x, c);
      WaitingPoll(x, d, more);
    } else {
      hide NextInner, Coupled, OrderlyPoll;
      StuckWaits(x, c);
    }
  }

  /** Without a silent step, a poll that wants more input changes nothing but hints. */
  lemma StuckWaits(x: Externals, c: Conn)
    requires Coupled(c) && !c.eof && Forget(c) == c && Silent(c).None?
    requires NextInner(x, c).outcome.NeedData? || NextInner(x, c).outcome.Paused?
    ensures Forget(NextInner(x, c).conn) == c
  {
    if !Active(c) {
      hide Sound, ReadMessage;
      return;
    }
    Busy(c);
    BodyRoom(c);
    hide NextInner, Coupled, Silent, Taking;
    match c.reader {
      case AwaitHead =>
        HeadPoll(x, c);
        HeadWaits(x, c);
      case ReadFixed(remaining) =>
        if remaining == 0 {
          PollReads(x, c);
          FinishPeerCoupled(c, []);
        } else {
          TakenPoll(x, c);
        }
      case ReadToClose => TakenPoll(x, c);
      case ReadChunked(chunk) =>
        match chunk {
          case Size(scanned) => SizeStuck(x, c);
          case Body(remaining, first) => TakenPoll(x, c);
          case BodyEnd => BodyEndStuck(x, c);
          case Trailers =>
            TrailersPoll(x, c);
            TrailersWait(x, c);
        }
    }
  }

  lemma HeadWaits(x: Externals, c: Conn)
    requires !c.eof && Forget(c) == c
    requires ReadHead(x, c).outcome.NeedData? || ReadHead(x, c).outcome.Paused?
    ensures Forget(ReadHead(x, c).conn) == c
  {
    hide WaitForSection, AcceptRequest, AcceptResponse, ParseRequest, ParseResponse;
    WaitPlainly(c, true);
    ParsedEnds(x, c);
  }

  lemma TrailersWait(x: Externals, c: Conn)
    requires !c.eof && Forget(c) == c
    requires ReadTrailers(x, c).outcome.NeedData? || ReadTrailers(x, c).outcome.Paused?
    ensures Forget(ReadTrailers(x, c).conn) == c
  {
    hide WaitForSection, FinishPeer, ParseTrailers;
    WaitPlainly(c, false);
    ParsedEnds(x, c);
  }

  // ------------------------------------------------------------------
  // Polls with the error rule, without hints
  // ------------------------------------------------------------------

  /** One poll of a connection that keeps no hints. */
  function PlainNext(x: Externals, c: Conn): Step {
    Plainly(Next(x, c))
  }

  lemma ForgetCoupled(c: Conn)
    requires Coupled(c)
    ensures Coupled(Forget(c)) && Potential(Forget(c)) == Potential(c)
  {
    hide Sound;
  }

  lemma PlainNextAdvances(x: Externals, c: Conn)
    requires Coupled(c)
    ensures var r := PlainNext(x, c);
      && Coupled(r.conn) && Forget(r.conn) == r.conn && r.conn.eof == c.eof
      && Potential(r.conn) <= Potential(c)
      && (Reports(r.outcome) ==> Potential(r.conn) < Potential(c))
  {
    hide Next, Coupled, Potential;
    NextAdvances(x, c);
    NextReadsOn(x, c);
    ForgetCoupled(Next(x, c).conn);
  }

  /** The same relation as `Continues`, for polls that poison a failed peer. */
  ghost predicate NextContinues(x: Externals, r: Step, more: bytes, w: Step) {
    match r.outcome
    case NeedData => w == PlainNext(x, Feed(r.conn, more))
    case Paused => w == PlainNext(x, Feed(r.conn, more))
    case Failed(_) => w == FeedStep(r, more)
    case Occurred(e) => w == FeedStep(r, more) || NextGrows(x, r, more, w)
  }

  ghost predicate NextGrows(x: Externals, r: Step, more: bytes, w: Step)
    requires r.outcome.Occurred?
  {
    var v := PlainNext(x, Feed(r.conn, more));
    var e := r.outcome.event;
    && e.DataEvent? && !e.chunkEnd && r.conn.input == [] && Taking(r.conn.reader) && r.conn.Peer() == L.SendBody
    && v.outcome.Occurred? && v.outcome.event.DataEvent? && !v.outcome.event.chunkStart
    && w == Step(v.conn, Occurred(DataEvent(e.data + v.outcome.event.data, e.chunkStart, v.outcome.event.chunkEnd)))
  }

  /** A poll is decided by its inner result. */
  function Poisoned(role: L.Role, r: Step): Step {
    if r.outcome.Failed?
    then Step(r.conn.(state := L.Poison(r.conn.state, role.Peer())),
              Failed(if role == L.Client then None else r.outcome.status))
    else r
  }

  lemma PlainNextIs(x: Externals, c: Conn)
    ensures PlainNext(x, c) == Poisoned(c.role, Plainly(NextInner(x, c)))
  {
    hide NextInner, L.Poison;
  }

  lemma NextStepContinues(x: Externals, c: Conn, more: bytes)
    requires Coupled(c) && !c.eof && Forget(c) == c && more != []
    requires Coupled(Feed(c, more)) && OrderlyPoll(x, Feed(c, more))
    ensures NextContinues(x, PlainNext(x, c), more, PlainNext(x, Feed(c, more)))
  {
    hide NextInner, PlainNext, Coupled, OrderlyPoll, L.Poison, Taking;
    PollContinues(x, c, more);
    PlainNextIs(x, c);
    PlainNextIs(x, Feed(c, more));
    NextInnerReadsOn(x, c);
    var r := Plainly(NextInner(x, c));
    PlainNextIs(x, Feed(r.conn, more));
  }

  // ------------------------------------------------------------------
  // Polling to the end, without hints
  // ------------------------------------------------------------------

  function PlainDrain(x: Externals, c: Conn): (d: Drained)
    requires Coupled(c)
    ensures Coupled(d.conn) && Forget(d.conn) == d.conn && d.conn.eof == c.eof && !Reports(d.outcome)
    decreases Potential(c)
  {
    hide Coupled, PlainNext, Potential;
    PlainNextAdvances(x, c);
    var r := PlainNext(x, c);
    if Reports(r.outcome) then
      var rest := PlainDrain(x, r.conn);
      rest.(events := [r.outcome.event] + rest.events)
    else Drained(r.conn, [], r.outcome)
  }

  /** The parser is well behaved on every section of this input. */
  ghost predicate Orderly(x: Externals, c: Conn)
    requires Coupled(c)
    decreases Potential(c)
  {
    hide Coupled, PlainNext, Potential, OrderlyPoll;
    PlainNextAdvances(x, c);
    OrderlyPoll(x, c) && (Reports(PlainNext(x, c).outcome) ==> Orderly(x, PlainNext(x, c).conn))
  }

  lemma TraceConcat(u: seq<Event>, v: seq<Event>)
    ensures Trace(u + v) == Trace(u) + Trace(v)
    decreases |u|
  {
    if u == [] {
      assert u + v == v;
    } else {
      assert (u + v)[1..] == u[1..] + v;
      TraceConcat(u[1..], v);
    }
  }

  /** Two body events in a row read like one. */
  lemma MergedTokens(data: bytes, more: bytes, chunkStart: bool, chunkEnd: bool)
    ensures Tokens(DataEvent(data + more, chunkStart, chunkEnd))
         == Tokens(DataEvent(data, chunkStart, false)) + Tokens(DataEvent(more, false, chunkEnd))
  {
    var u, v := Octets(data), Octets(more);
    MergedOctets(data, more);
    hide Octets;
    var opening, closing := if chunkStart then [Open] else [], if chunkEnd then [Shut] else [];
    assert Tokens(DataEvent(data + more, chunkStart, chunkEnd)) == opening + (u + v) + closing;
    assert Tokens(DataEvent(data, chunkStart, false)) == opening + u + [];
    assert Tokens(DataEvent(more, false, chunkEnd)) == [] + v + closing;
    Regrouped(opening, u, v, closing);
  }

  lemma MergedOctets(data: bytes, more: bytes)
    ensures Octets(data + more) == Octets(data) + Octets(more)
  {
  }

  lemma Regrouped<T>(opening: seq<T>, u: seq<T>, v: seq<T>, closing: seq<T>)
    ensures opening + (u + v) + closing == (opening + u + []) + ([] + v + closing)
  {
  }

  /** The result of feeding `more` after having drained. */
  function Resume(x: Externals, a: Drained, more: bytes): Drained
    requires Coupled(a.conn) && Coupled(Feed(a.conn, more))
  {
    if a.outcome.Failed? then a.(conn := Feed(a.conn, more))
    else
      var b := PlainDrain(x, Feed(a.conn, more));
      b.(events := a.events + b.events)
  }

  predicate SameOutcome(a: Drained, b: Drained) {
    Trace(a.events) == Trace(b.events) && a.conn == b.conn && a.outcome == b.outcome
  }
}
