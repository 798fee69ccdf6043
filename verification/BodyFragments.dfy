/**
 Fragmentation invariance of bodies, with nothing assumed of the external parser.
 Body bytes and chunk boundaries never depend on how the stream was cut, and
 neither does anything else unless the stream reaches a trailer section.
 */
module BodyFragments {
  import opened Prelude
  import opened Bytes
  import opened Fields
  import opened Scan
  import opened ChunkLine
  import opened ConnectionModel
  import opened LifecycleRuns
  import opened Coupling
  import opened Polling
  import opened Fragmentation
  import opened FragmentedRuns
  import L = Lifecycle

  // ------------------------------------------------------------------
  // Reaching the trailer section
  // ------------------------------------------------------------------

  predicate AtTrailers(c: Conn) {
    c.Peer() == L.SendBody && c.reader == ReadChunked(Trailers)
  }

  /** One poll comes to the trailer section. */
  predicate Enters(c: Conn)
    requires Coupled(c)
    decreases |c.input|
  {
    AtTrailers(c) || (Silent(c).Some? && (SilentCoupled(c); Enters(Silent(c).value)))
  }

  /** No body content can come any more before the next message. */
  predicate Past(c: Conn) {
    AtTrailers(c) || !Active(c)
  }

  /** Polls that do not come to the trailer section do not consult the parser. */
  lemma {:induction false} SamePoll(x: Externals, y: Externals, c: Conn)
    requires Coupled(c) && c.Peer() == L.SendBody && !c.eof && !Enters(c)
    ensures NextInner(x, c) == NextInner(y, c)
    decreases |c.input|
  {
    hide NextInner, Coupled, Silent, Taking;
    if Silent(c).Some? {
      SilentCoupled(c);
      SilentPoll(x, c);
      SilentPoll(y, c);
      SamePoll(x, y, Silent(c).value);
      return;
    }
    if Taking(c.reader) {
      TakenPoll(x, c);
      TakenPoll(y, c);
      return;
    }
    StuckOrEnded(x, y, c);
  }

  lemma StuckOrEnded(x: Externals, y: Externals, c: Conn)
    requires Coupled(c) && c.Peer() == L.SendBody && Silent(c).None? && !Taking(c.reader) && !AtTrailers(c)
    ensures NextInner(x, c) == NextInner(y, c)
  {
    Busy(c);
    assert c.reader == ReadFixed(0) || (c.reader.ReadChunked? && (c.reader.chunk.Size? || c.reader.chunk.BodyEnd?)) by {
      hide Sound;
    }
    hide *;
    PollReads(x, c);
    PollReads(y, c);
    if c.reader == ReadFixed(0) {
      ReadFixedIs(x, c, 0);
      ReadFixedIs(y, c, 0);
      return;
    }
    ReadsChunk(x, c);
    ReadsChunk(y, c);
    if c.reader.chunk.Size? {
      var scanned := c.reader.chunk.scanned;
      SizeHint(c, scanned);
      SizeUnread(x, c, scanned);
      SizeUnread(y, c, scanned);
    } else {
      ChunkEndStuck(x, c);
      ChunkEndStuck(y, c);
    }
  }

  function There(c: Conn): (d: Conn)
    requires Coupled(c) && Enters(c)
    ensures Coupled(d) && AtTrailers(d) && d.eof == c.eof
    decreases |c.input|
  {
    if AtTrailers(c) then c
    else
      SilentCoupled(c);
      There(Silent(c).value)
  }

  lemma {:induction false} EnteringPoll(x: Externals, c: Conn)
    requires Coupled(c) && Enters(c)
    ensures NextInner(x, c) == NextInner(x, There(c))
    decreases |c.input|
  {
    hide NextInner, Coupled, Silent, AtTrailers;
    if !AtTrailers(c) {
      SilentCoupled(c);
      SilentPoll(x, c);
      EnteringPoll(x, Silent(c).value);
    }
  }

  // ------------------------------------------------------------------
  // Past the content
  // ------------------------------------------------------------------

  lemma FinishedIsInactive(c: Conn, trailers: seq<Header>)
    requires Sound(c.state) && FinishPeer(c, trailers).outcome.Occurred?
    ensures !Active(FinishPeer(c, trailers).conn)
  {
    hide Sound, L.Process;
    OwnActor(c.state, c.role.Peer(), L.EndOfMessage);
  }

  lemma ReadTrailersPast(x: Externals, c: Conn)
    requires Sound(c.state) && AtTrailers(c)
    ensures var r := ReadTrailers(x, c);
      && Past(r.conn)
      && (r.outcome.Occurred? ==> r.outcome.event.EndEvent? && !Active(r.conn))
  {
    hide Sound, FinishPeer, ParseTrailers, PollFrom, Active;
    ParsedEnds(x, c);
    var parsed := ParseTrailers(x, c.input, c.limits, c.role == L.Client);
    var scanned := SectionReady(c, false).0;
    if parsed.Complete? {
      var d := Consume(scanned, parsed.end).(progress := None);
      var f := FinishPeer(d, parsed.value);
      if f.outcome.Occurred? {
        FinishedIsInactive(d, parsed.value);
      } else {
        RefusedFinish(d, parsed.value);
      }
    }
  }

  lemma TrailersPast(x: Externals, c: Conn)
    requires Coupled(c) && AtTrailers(c)
    ensures var r := NextInner(x, c);
      && Past(r.conn)
      && (r.outcome.Occurred? ==> r.outcome.event.EndEvent? && !Active(r.conn))
  {
    assert Sound(c.state);
    hide NextInner, ReadTrailers, Sound, Coupled, Past;
    TrailersPoll(x, c);
    ReadTrailersPast(x, c);
  }

  lemma RefusedFinish(c: Conn, trailers: seq<Header>)
    requires !FinishPeer(c, trailers).outcome.Occurred?
    ensures FinishPeer(c, trailers).conn == c
  {
    hide L.Process;
  }

  lemma InactiveKeepsQuiet(x: Externals, c: Conn)
    requires Coupled(c) && !Active(c)
    ensures var r := NextInner(x, c);
      !Active(r.conn) && (r.outcome.Occurred? ==> r.outcome.event.ClosedEvent?)
  {
    hide ReadMessage;
    if L.Process(c.state, c.role.Peer(), L.ConnectionClosed).Some? {
      OwnActor(c.state, c.role.Peer(), L.ConnectionClosed);
    }
  }

  lemma PastPoll(x: Externals, c: Conn)
    requires Coupled(c) && Past(c)
    ensures Past(Next(x, c).conn)
    ensures Next(x, c).outcome.Occurred? ==> !Next(x, c).outcome.event.DataEvent?
  {
    assert Sound(c.state);
    NextInnerCoupled(x, c);
    assert Sound(NextInner(x, c).conn.state) && NextInner(x, c).conn.role == c.role by {
      NextInnerReadsOn(x, c);
    }
    hide NextInner, Coupled, Sound, L.Poison;
    if AtTrailers(c) {
      TrailersPast(x, c);
    } else {
      InactiveKeepsQuiet(x, c);
    }
    if NextInner(x, c).outcome.Failed? {
      PoisonUndisturbed(NextInner(x, c).conn.state, c.role.Peer());
    }
  }

  // Body content alone.

  function Content(tokens: seq<Token>): seq<Token> {
    if tokens == [] then []
    else (if tokens[0].Mark? then [] else [tokens[0]]) + Content(tokens[1..])
  }

  lemma {:induction false} ContentConcat(u: seq<Token>, v: seq<Token>)
    ensures Content(u + v) == Content(u) + Content(v)
    decreases |u|
  {
    if u == [] {
      assert u + v == v;
    } else {
      assert (u + v)[1..] == u[1..] + v;
      ContentConcat(u[1..], v);
    }
  }

  lemma ContentCons(e: Event, events: seq<Event>)
    ensures Content(Trace([e] + events)) == Content(Tokens(e)) + Content(Trace(events))
    ensures !e.DataEvent? ==> Content(Tokens(e)) == []
  {
    TraceCons(e, events);
    ContentConcat(Tokens(e), Trace(events));
    if !e.DataEvent? {
      assert Tokens(e) == [Mark(e)];
    }
  }

  lemma DrainStep(x: Externals, c: Conn)
    requires Coupled(c)
    ensures var r := Next(x, c);
      && Coupled(r.conn) && r.conn.eof == c.eof
      && (if Reports(r.outcome)
          then Potential(r.conn) < Potential(c)
               && Drain(x, c) == Drain(x, r.conn).(events := [r.outcome.event] + Drain(x, r.conn).events)
          else Drain(x, c) == Drained(r.conn, [], r.outcome))
  {
    hide Coupled, Next, Potential;
    NextAdvances(x, c);
    NextReadsOn(x, c);
  }

  lemma {:induction false} PastDrain(x: Externals, c: Conn)
    requires Coupled(c) && Past(c)
    ensures Past(Drain(x, c).conn) && Content(Trace(Drain(x, c).events)) == []
    decreases Potential(c)
  {
    hide Coupled, Next, Potential, Past, Drain, Content, Trace;
    PastPoll(x, c);
    DrainStep(x, c);
    var r := Next(x, c);
    if Reports(r.outcome) {
      PastDrain(x, r.conn);
      ContentCons(r.outcome.event, Drain(x, r.conn).events);
    } else {
      NoContentAtAll();
    }
  }

  lemma NoContentAtAll()
    ensures Trace([]) == [] && Content([]) == []
  {
  }

  // ------------------------------------------------------------------
  // While content is being read
  // ------------------------------------------------------------------

  /** A poll that reports something while a body is being read reports a piece
      of it, or its end. */
  lemma {:induction false} BodyStep(x: Externals, c: Conn)
    requires Coupled(c) && c.Peer() == L.SendBody && !c.eof
    ensures var r := NextInner(x, c);
      r.outcome.Occurred? ==>
        (r.outcome.event.DataEvent? && r.conn.Peer() == L.SendBody) || (r.outcome.event.EndEvent? && !Active(r.conn))
    ensures NextInner(x, c).outcome.Occurred? || NextInner(x, c).outcome.Failed? || NextInner(x, c).conn.Peer() == L.SendBody
    decreases |c.input|
  {
    assert Sound(c.state);
    hide NextInner, Coupled, Silent, Taking, Sound, Past;
    if Silent(c).Some? {
      SilentCoupled(c);
      SilentPoll(x, c);
      BodyStep(x, Silent(c).value);
      return;
    }
    if AtTrailers(c) {
      TrailersPast(x, c);
      TrailersNeed(x, c);
      return;
    }
    if Taking(c.reader) {
      TakenPoll(x, c);
      TakenSendsOn(c);
      return;
    }
    StuckStep(x, c);
  }

  lemma TrailersNeed(x: Externals, c: Conn)
    requires AtTrailers(c)
    ensures NextInner(x, c).outcome.Occurred? || NextInner(x, c).outcome.Failed? || NextInner(x, c).conn.Peer() == L.SendBody
  {
    hide NextInner, FinishPeer, ParseTrailers, PollFrom;
    TrailersPoll(x, c);
    ParsedEnds(x, c);
  }

  lemma TakenSendsOn(c: Conn)
    requires c.Peer() == L.SendBody && Taking(c.reader)
    ensures Taken(c).conn.Peer() == L.SendBody
    ensures Taken(c).outcome.Occurred? ==> Taken(c).outcome.event.DataEvent?
  {
  }

  lemma StuckStep(x: Externals, c: Conn)
    requires Coupled(c) && c.Peer() == L.SendBody && Silent(c).None? && !Taking(c.reader) && !AtTrailers(c)
    ensures var r := NextInner(x, c);
      && (r.outcome.Occurred? ==> r.outcome.event.EndEvent? && !Active(r.conn))
      && (r.outcome.Occurred? || r.outcome.Failed? || r.conn.Peer() == L.SendBody)
  {
    assert Sound(c.state);
    Busy(c);
    if c.reader.ReadChunked? {
      assert c.reader.chunk.Size? || c.reader.chunk.BodyEnd?;
      hide NextInner, Coupled, Silent, Sound;
      if c.reader.chunk.Size? {
        SizeHint(c, c.reader.chunk.scanned);
      }
      ChunkStuck(x, c);
      return;
    }
    assert c.reader == ReadFixed(0);
    hide NextInner, ReadMessage, Coupled, Silent, FinishPeer, Sound;
    PollReads(x, c);
    ReadFixedIs(x, c, 0);
    if FinishPeer(c, []).outcome.Occurred? {
      FinishedIsInactive(c, []);
    }
  }

  lemma ChunkStuck(x: Externals, c: Conn)
    requires c.Peer() == L.SendBody && c.reader.ReadChunked? && Silent(c).None?
    requires c.reader.chunk.BodyEnd? ||
      (c.reader.chunk.Size? && FindCrlf(c.input, c.reader.chunk.scanned) == FindCrlf(c.input, 0))
    ensures !NextInner(x, c).outcome.Occurred? && NextInner(x, c).conn.Peer() == L.SendBody
  {
    hide NextInner, ReadMessage, FindCrlf, ParseChunkHeader;
    PollReads(x, c);
    ReadsChunk(x, c);
  }

  // ------------------------------------------------------------------
  // A parser that judges trailer sections properly
  // ------------------------------------------------------------------

  /** A parser that takes any complete section for this value. */
  function SectionAs<T>(data: bytes, skip: bool, value: T): (p: Parsed<T>)
    ensures p.Complete? ==> 0 < p.end <= |data|
  {
    SectionEndIsFirst(data, skip);
    match SectionEnd(data, skip)
    case None => Partial
    case Some(end) => Complete(end, value)
  }

  function NoTrailers(data: bytes): Parsed<seq<Header>> {
    SectionAs(data, false, [])
  }

  /** The same heads, with trailer sections taken for granted. */
  function Ideal(x: Externals): Externals {
    var y := x.(trailers := (data, _, _) => NoTrailers(data));
    assert Consuming(y);
    y
  }

  lemma SectionJudged<T>(data: bytes, skip: bool, value: T, limit: nat)
    ensures Judges(d => SectionAs(d, skip, value), data, skip, limit)
  {
    var parse := d => SectionAs(d, skip, value);
    forall k | 0 <= k <= |data|
      ensures JudgesPrefix(parse, data, skip, limit, k)
    {
      hide SectionEnd;
      var part := data[..k];
      if SectionEnd(part, skip).Some? {
        var e := SectionEnd(part, skip).value;
        SectionEndIsFirst(part, skip);
        assert data[..e] == part[..e];
        SectionEndOfItself(part, skip);
      }
    }
  }

  /** A section ends where it did when nothing follows it. */
  lemma SectionEndOfItself(data: bytes, skip: bool)
    requires SectionEnd(data, skip).Some?
    ensures SectionEnd(data, skip).value <= |data|
    ensures SectionEnd(data[..SectionEnd(data, skip).value], skip) == SectionEnd(data, skip)
  {
    hide SectionEnd, SectionEndsAt;
    SectionEndIsFirst(data, skip);
    var e := SectionEnd(data, skip).value;
    assert e <= |data| by {
      EndIsWithin(data, e, skip);
    }
    var head, more := data[..e], data[e..];
    assert data == head + more;
    SectionPrefix(head, more, e, skip);
    forall f | 0 < f <= e - 1
      ensures !SectionEndsAt(head, f, skip)
    {
      SectionPrefix(head, more, f, skip);
    }
    SectionEndUnique(head, skip, e);
  }

  lemma EndIsWithin(data: bytes, e: nat, skip: bool)
    requires SectionEndsAt(data, e, skip)
    ensures 0 < e <= |data|
  {
  }

  lemma SameJudgement<T>(parse: bytes -> Parsed<T>, other: bytes -> Parsed<T>, data: bytes, skip: bool, limit: nat)
    requires Judges(parse, data, skip, limit) && forall d :: parse(d) == other(d)
    ensures Judges(other, data, skip, limit)
  {
    hide SectionEnd;
    forall k | 0 <= k <= |data|
      ensures JudgesPrefix(other, data, skip, limit, k)
    {
      assert JudgesPrefix(parse, data, skip, limit, k);
    }
  }

  lemma IdealIs(x: Externals, data: bytes, n: nat, fold: bool)
    ensures Ideal(x).trailers(data, n, fold) == SectionAs(data, false, [])
  {
  }

  lemma IdealIsClear(x: Externals, c: Conn)
    requires Coupled(c) && c.Peer() == L.SendBody
    ensures Clear(Ideal(x), c)
  {
    hide Judges, Sound, SectionAs, Ideal;
    if AtTrailers(c) {
      var n := c.limits.maxHeaderCount;
      var none: seq<Header> := [];
      var plain, parse := d => SectionAs(d, false, none), d => Ideal(x).trailers(d, n, c.role == L.Client);
      SectionJudged(c.input, false, none, c.limits.maxHeadBytes);
      forall d: bytes
        ensures plain(d) == parse(d)
      {
        IdealIs(x, d, n, c.role == L.Client);
      }
      SameJudgement(plain, parse, c.input, false, c.limits.maxHeadBytes);
    }
  }

  lemma {:induction false} PollIsJudged(x: Externals, c: Conn)
    requires Coupled(c) && c.Peer() == L.SendBody
    ensures OrderlyPoll(Ideal(x), c)
    decreases |c.input|
  {
    hide Coupled, Silent, Clear, Ideal;
    if Silent(c).Some? {
      SilentCoupled(c);
      PollIsJudged(x, Silent(c).value);
    } else {
      IdealIsClear(x, c);
    }
  }

  /** A poll that does not come to the trailer section asks nothing of the parser. */
  lemma {:induction false} PollAsksNothing(x: Externals, c: Conn)
    requires Coupled(c) && c.Peer() == L.SendBody && !Enters(c)
    ensures OrderlyPoll(x, c)
    decreases |c.input|
  {
    if Silent(c).Some? {
      hide Coupled, Silent, Clear;
      SilentCoupled(c);
      PollAsksNothing(x, Silent(c).value);
    } else {
      hide Sound;
      assert c.reader != AwaitHead && c.reader != ReadChunked(Trailers);
    }
  }

  lemma InactiveIsOrderly(x: Externals, c: Conn)
    requires Coupled(c) && !Active(c)
    ensures Orderly(x, c)
  {
    hide Coupled, Orderly, OrderlyPoll, PlainNext, Potential;
    PlainNextAdvances(x, c);
    InactivePollOrderly(x, c);
    InactiveReportsNothing(x, c);
    OrderlyIs(x, c);
  }

  lemma PlainStep(x: Externals, c: Conn)
    requires Coupled(c) && c.Peer() == L.SendBody && !c.eof && Reports(PlainNext(x, c).outcome)
    ensures PlainNext(x, c).conn.Peer() == L.SendBody || !Active(PlainNext(x, c).conn)
  {
    hide NextInner, Coupled, L.Poison;
    PlainNextIs(x, c);
    BodyStep(x, c);
  }

  lemma {:induction false} BodyIsJudged(x: Externals, c: Conn)
    requires Coupled(c) && c.Peer() == L.SendBody && !c.eof
    ensures Orderly(Ideal(x), c)
    decreases Potential(c)
  {
    hide Coupled, Orderly, OrderlyPoll, PlainNext, Potential, Ideal;
    var y := Ideal(x);
    PollIsJudged(x, c);
    PlainNextAdvances(y, c);
    var r := PlainNext(y, c);
    if Reports(r.outcome) {
      PlainStep(y, c);
      if r.conn.Peer() == L.SendBody {
        BodyIsJudged(x, r.conn);
      } else {
        InactiveIsOrderly(y, r.conn);
      }
    }
    OrderlyIs(y, c);
  }

  /** Polling comes to the trailer section. */
  predicate Reaches(x: Externals, c: Conn)
    requires Coupled(c)
    decreases Potential(c)
  {
    hide Coupled, PlainNext, Potential, Enters;
    PlainNextAdvances(x, c);
    var r := PlainNext(x, c);
    Enters(c) || (Reports(r.outcome) && Reaches(x, r.conn))
  }

  lemma {:induction false} OtherBodiesAreOrderly(x: Externals, c: Conn)
    requires Coupled(c) && c.Peer() == L.SendBody && !c.eof && !Reaches(x, c)
    ensures Orderly(x, c)
    decreases Potential(c)
  {
    hide Coupled, Orderly, OrderlyPoll, PlainNext, Potential, Enters;
    PollAsksNothing(x, c);
    PlainNextAdvances(x, c);
    var r := PlainNext(x, c);
    if Reports(r.outcome) {
      PlainStep(x, c);
      if r.conn.Peer() == L.SendBody {
        OtherBodiesAreOrderly(x, r.conn);
      } else {
        InactiveIsOrderly(x, r.conn);
      }
    }
    OrderlyIs(x, c);
  }

  // ------------------------------------------------------------------
  // One parser against another
  // ------------------------------------------------------------------

  /** A poll either does not depend on the parser or leaves the content behind. */
  lemma NextSameOrPast(x: Externals, y: Externals, c: Conn)
    requires Coupled(c) && c.Peer() == L.SendBody && !c.eof
    ensures Next(x, c) == Next(y, c) ||
      forall z: Externals <- {x, y} ::
        Past(Next(z, c).conn) && (Reports(Next(z, c).outcome) ==> !Next(z, c).outcome.event.DataEvent?)
  {
    hide NextInner, Coupled, Enters, Past, There, L.Poison;
    if Enters(c) {
      forall z: Externals | z in {x, y}
        ensures Past(Next(z, c).conn) && (Reports(Next(z, c).outcome) ==> !Next(z, c).outcome.event.DataEvent?)
      {
        EntersPast(z, c);
      }
    } else {
      SamePoll(x, y, c);
    }
  }

  lemma EntersPast(x: Externals, c: Conn)
    requires Coupled(c) && Enters(c)
    ensures Past(Next(x, c).conn) && (Next(x, c).outcome.Occurred? ==> !Next(x, c).outcome.event.DataEvent?)
  {
    hide NextInner, Coupled, Enters, Past, L.Poison;
    EnteringPoll(x, c);
    ThereKeepsRole(c);
    PastThere(c);
    PastPoll(x, There(c));
  }

  lemma PastThere(c: Conn)
    requires Coupled(c) && Enters(c)
    ensures Past(There(c))
  {
    hide Coupled, Enters, There;
  }

  lemma {:induction false} ThereKeepsRole(c: Conn)
    requires Coupled(c) && Enters(c)
    ensures There(c).role == c.role
    decreases |c.input|
  {
    if !AtTrailers(c) {
      hide Coupled, AtTrailers;
      SilentCoupled(c);
      assert Silent(c).value.role == c.role by {
        hide FindCrlf, ParseChunkHeader;
      }
      ThereKeepsRole(Silent(c).value);
    }
  }

  lemma SendingOn(x: Externals, c: Conn)
    requires Coupled(c) && c.Peer() == L.SendBody && !c.eof
    ensures var r := Next(x, c); if Reports(r.outcome) then r.conn.Peer() == L.SendBody || Past(r.conn)
                                 else r.outcome == NeedData || r.outcome == Paused ==> r.conn.Peer() == L.SendBody
    ensures Next(x, c).outcome.Failed? ==> Past(Next(x, c).conn)
    ensures Next(x, c).outcome.Occurred? ==> Reports(Next(x, c).outcome)
  {
    NextInnerCoupled(x, c);
    assert Sound(NextInner(x, c).conn.state) && NextInner(x, c).conn.role == c.role by {
      NextInnerReadsOn(x, c);
    }
    hide NextInner, Coupled, Sound, L.Poison, AtTrailers;
    BodyStep(x, c);
    if NextInner(x, c).outcome.Failed? {
      PoisonUndisturbed(NextInner(x, c).conn.state, c.role.Peer());
    }
  }

  /** The drains of two parsers. */
  predicate Together(a: Drained, b: Drained) {
    && Content(Trace(a.events)) == Content(Trace(b.events))
    && ((a == b && a.conn.Peer() == L.SendBody && !a.outcome.Failed?) || (Past(a.conn) && Past(b.conn)))
  }

  lemma PastTogether(x: Externals, y: Externals, c: Conn)
    requires Coupled(c) && Past(c)
    ensures Together(Drain(x, c), Drain(y, c))
  {
    hide Coupled, Past, Drain, Content, Trace;
    PastDrain(x, c);
    PastDrain(y, c);
  }

  lemma PastNext(x: Externals, c: Conn)
    requires Coupled(c) && Past(Next(x, c).conn) && (Reports(Next(x, c).outcome) ==> !Next(x, c).outcome.event.DataEvent?)
    ensures Past(Drain(x, c).conn) && Content(Trace(Drain(x, c).events)) == []
  {
    hide Coupled, Next, Potential, Past, Drain, Content, Trace;
    DrainStep(x, c);
    var r := Next(x, c);
    if Reports(r.outcome) {
      PastDrain(x, r.conn);
      ContentCons(r.outcome.event, Drain(x, r.conn).events);
    } else {
      NoContentAtAll();
    }
  }

  lemma {:induction false} DrainTogether(x: Externals, y: Externals, c: Conn)
    requires Coupled(c) && c.Peer() == L.SendBody && !c.eof
    ensures Together(Drain(x, c), Drain(y, c))
    decreases Potential(c)
  {
    hide Coupled, Next, Potential, Past, Drain, Content, Trace;
    NextSameOrPast(x, y, c);
    if Next(x, c) != Next(y, c) {
      assert x in {x, y} && y in {x, y};
      PastNext(x, c);
      PastNext(y, c);
      return;
    }
    DrainStep(x, c);
    DrainStep(y, c);
    SendingOn(x, c);
    var r := Next(x, c);
    if Reports(r.outcome) {
      if r.conn.Peer() == L.SendBody {
        DrainTogether(x, y, r.conn);
      } else {
        PastTogether(x, y, r.conn);
      }
      ContentCons(r.outcome.event, Drain(x, r.conn).events);
      ContentCons(r.outcome.event, Drain(y, r.conn).events);
    }
  }

  lemma PastFed(c: Conn, more: bytes)
    requires Past(c)
    ensures Past(Feed(c, more))
  {
  }

  lemma ContentOf(u: seq<Event>, v: seq<Event>)
    ensures Content(Trace(u + v)) == Content(Trace(u)) + Content(Trace(v))
  {
    TraceConcat(u, v);
    ContentConcat(Trace(u), Trace(v));
  }

  lemma {:induction false} FeedPast(x: Externals, c: Conn, fragments: seq<bytes>)
    requires Coupled(c) && Past(c) && !c.eof && Fragments(fragments)
    ensures Content(Trace(FeedAll(x, c, fragments).events)) == []
    decreases |fragments|
  {
    hide Coupled, Potential, Past, Drain, Content, Trace;
    FeedCoupled(c, fragments[0]);
    PastFed(c, fragments[0]);
    PastDrain(x, Feed(c, fragments[0]));
    var a := Drain(x, Feed(c, fragments[0]));
    if |fragments| > 1 && !a.outcome.Failed? {
      FeedPast(x, a.conn, fragments[1..]);
      ContentOf(a.events, FeedAll(x, a.conn, fragments[1..]).events);
    }
  }

  /** Whatever the parser, the same fragments carry the same content. */
  lemma {:induction false} SameContent(x: Externals, y: Externals, c: Conn, fragments: seq<bytes>)
    requires Coupled(c) && c.Peer() == L.SendBody && !c.eof && Fragments(fragments)
    ensures Content(Trace(FeedAll(x, c, fragments).events)) == Content(Trace(FeedAll(y, c, fragments).events))
    decreases |fragments|
  {
    hide Coupled, Potential, Past, Drain, Content, Trace;
    FeedCoupled(c, fragments[0]);
    var d := Feed(c, fragments[0]);
    DrainTogether(x, y, d);
    var a, b := Drain(x, d), Drain(y, d);
    if |fragments| == 1 {
      return;
    }
    if a.conn.Peer() == L.SendBody && a == b && !a.outcome.Failed? {
      SameContent(x, y, a.conn, fragments[1..]);
      ContentOf(a.events, FeedAll(x, a.conn, fragments[1..]).events);
      ContentOf(b.events, FeedAll(y, b.conn, fragments[1..]).events);
      return;
    }
    RestIsSilent(x, a, fragments[1..]);
    RestIsSilent(y, b, fragments[1..]);
  }

  /** After the content, the rest of the stream carries none. */
  lemma RestIsSilent(x: Externals, a: Drained, rest: seq<bytes>)
    requires Coupled(a.conn) && Past(a.conn) && !a.conn.eof && Fragments(rest)
    ensures !a.outcome.Failed? ==>
      Content(Trace(a.events + FeedAll(x, a.conn, rest).events)) == Content(Trace(a.events))
  {
    hide Coupled, Past, Content, Trace, FeedAll;
    if !a.outcome.Failed? {
      FeedPast(x, a.conn, rest);
      ContentOf(a.events, FeedAll(x, a.conn, rest).events);
    }
  }

  // ------------------------------------------------------------------
  // The theorems
  // ------------------------------------------------------------------

  /** Short of its trailer section, a body being read has no hints but sound ones. */
  lemma NothingSearched(c: Conn)
    requires Coupled(c) && c.Peer() == L.SendBody && !AtTrailers(c)
    ensures HintOk(c)
  {
    hide Sound;
  }

  /**
   Whatever the parser does, a body read in any fragments has the same bytes and
   the same chunk boundaries.
   */
  lemma BodyFragmentation(x: Externals, c: Conn, fragments: seq<bytes>, others: seq<bytes>)
    requires Coupled(c) && c.Peer() == L.SendBody && !c.eof
    requires Fragments(fragments) && Fragments(others) && Concat(fragments) == Concat(others)
    ensures Content(Trace(FeedAll(x, c, fragments).events)) == Content(Trace(FeedAll(x, c, others).events))
  {
    hide Coupled, Orderly, HintOk, Potential, FeedAll, Trace, Content, Ideal, Concat, Fragments;
    if AtTrailers(c) {
      FeedPast(x, c, fragments);
      FeedPast(x, c, others);
      return;
    }
    var y := Ideal(x);
    NothingSearched(c);
    WholeBody(c, fragments);
    BodyIsJudged(x, Forget(Feed(c, Concat(fragments))));
    FragmentationInvariance(y, c, fragments, others);
    SameContent(x, y, c, fragments);
    SameContent(x, y, c, others);
  }

  lemma WholeBody(c: Conn, fragments: seq<bytes>)
    requires Coupled(c) && c.Peer() == L.SendBody && !c.eof && Fragments(fragments)
    ensures var whole := Forget(Feed(c, Concat(fragments)));
      Coupled(whole) && whole.Peer() == L.SendBody && !whole.eof
  {
    hide Coupled, Concat;
    ConcatNonEmpty(fragments);
    FeedCoupled(c, Concat(fragments));
    ForgetCoupled(Feed(c, Concat(fragments)));
  }

  /**
   And when the stream does not come to a trailer section, nothing depends on the
   fragments: not the error, not the reader, not the unread bytes.
   */
  lemma BodyFragmentationExactly(x: Externals, c: Conn, fragments: seq<bytes>, others: seq<bytes>)
    requires Coupled(c) && c.Peer() == L.SendBody && !c.eof
    requires Fragments(fragments) && Fragments(others) && Concat(fragments) == Concat(others)
    requires Coupled(Forget(Feed(c, Concat(fragments)))) && !Reaches(x, Forget(Feed(c, Concat(fragments))))
    ensures Alike(FeedAll(x, c, fragments), FeedAll(x, c, others))
  {
    hide Coupled, Orderly, HintOk, Potential, FeedAll, Reaches, Concat, Fragments;
    var whole := Forget(Feed(c, Concat(fragments)));
    if AtTrailers(c) {
      assert AtTrailers(whole);
      ReachesFrom(x, whole);
    }
    NothingSearched(c);
    WholeBody(c, fragments);
    OtherBodiesAreOrderly(x, Forget(Feed(c, Concat(fragments))));
    FragmentationInvariance(x, c, fragments, others);
  }

  lemma ReachesFrom(x: Externals, c: Conn)
    requires Coupled(c) && AtTrailers(c)
    ensures Reaches(x, c)
  {
    hide Coupled, PlainNext, Potential;
  }
}
