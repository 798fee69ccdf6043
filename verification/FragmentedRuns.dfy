/**
 Fragmentation invariance of whole runs: draining after every fragment against
 draining once, first without search hints, then for the connection as it is.
 */
module FragmentedRuns {
  import opened Prelude
  import opened Bytes
  import opened Fields
  import opened Heads
  import opened Scan
  import opened ChunkLine
  import opened ConnectionModel
  import opened LifecycleRuns
  import opened Coupling
  import opened Polling
  import opened Fragmentation
  import L = Lifecycle

  // ------------------------------------------------------------------
  // Two drains against one, without hints
  // ------------------------------------------------------------------

  lemma DrainStops(x: Externals, c: Conn)
    requires Coupled(c) && !Reports(PlainNext(x, c).outcome)
    ensures PlainDrain(x, c) == Drained(PlainNext(x, c).conn, [], PlainNext(x, c).outcome)
  {
    hide PlainNext, Coupled;
  }

  lemma DrainGoesOn(x: Externals, c: Conn)
    requires Coupled(c) && Reports(PlainNext(x, c).outcome)
    ensures Coupled(PlainNext(x, c).conn)
    ensures var rest := PlainDrain(x, PlainNext(x, c).conn);
      PlainDrain(x, c) == rest.(events := [PlainNext(x, c).outcome.event] + rest.events)
  {
    hide PlainNext, Coupled, Potential;
    PlainNextAdvances(x, c);
  }

  /** Connections whose next polls agree drain alike. */
  lemma SameDrain(x: Externals, c: Conn, d: Conn)
    requires Coupled(c) && Coupled(d) && PlainNext(x, c) == PlainNext(x, d)
    ensures PlainDrain(x, c) == PlainDrain(x, d)
  {
    hide PlainNext, Coupled, PlainDrain;
    if Reports(PlainNext(x, c).outcome) {
      DrainGoesOn(x, c);
      DrainGoesOn(x, d);
    } else {
      DrainStops(x, c);
      DrainStops(x, d);
    }
  }

  lemma OrderlyNext(x: Externals, c: Conn)
    requires Coupled(c) && Orderly(x, c)
    ensures OrderlyPoll(x, c)
    ensures Coupled(PlainNext(x, c).conn)
    ensures Reports(PlainNext(x, c).outcome) ==> Orderly(x, PlainNext(x, c).conn)
  {
    hide PlainNext, Coupled, Potential, OrderlyPoll;
    PlainNextAdvances(x, c);
  }

  lemma OrderlyIs(x: Externals, c: Conn)
    requires Coupled(c) && OrderlyPoll(x, c) && Coupled(PlainNext(x, c).conn)
    requires Reports(PlainNext(x, c).outcome) ==> Orderly(x, PlainNext(x, c).conn)
    ensures Orderly(x, c)
  {
    hide PlainNext, Coupled, Potential, OrderlyPoll;
  }

  /** With nothing to take, a body reader asks for more. */
  lemma NothingToTake(x: Externals, c: Conn)
    requires Coupled(c) && c.Peer() == L.SendBody && Taking(c.reader) && !c.eof && c.input == [] && Forget(c) == c
    ensures PlainNext(x, c) == Step(c, NeedData)
  {
    hide NextInner, Coupled;
    TakenPoll(x, c);
  }

  lemma TakingIsOrderly(x: Externals, c: Conn)
    requires Coupled(c) && c.Peer() == L.SendBody && Taking(c.reader)
    ensures OrderlyPoll(x, c)
  {
    hide Coupled;
  }

  lemma WaitingNext(x: Externals, c: Conn, more: bytes)
    requires Coupled(c) && !c.eof && Forget(c) == c && more != []
    requires Coupled(Feed(c, more)) && OrderlyPoll(x, Feed(c, more))
    requires PlainNext(x, c).outcome.NeedData? || PlainNext(x, c).outcome.Paused?
    ensures var d := PlainNext(x, c).conn;
      Coupled(Feed(d, more)) && OrderlyPoll(x, Feed(d, more))
  {
    hide NextInner, Coupled, OrderlyPoll;
    WaitingPoll(x, c, more);
  }

  lemma ResumeCons(x: Externals, e: Event, a: Drained, more: bytes)
    requires Coupled(a.conn) && Coupled(Feed(a.conn, more))
    ensures var b := a.(events := [e] + a.events);
      && Resume(x, b, more).conn == Resume(x, a, more).conn
      && Resume(x, b, more).outcome == Resume(x, a, more).outcome
      && Trace(Resume(x, b, more).events) == Tokens(e) + Trace(Resume(x, a, more).events)
  {
    hide Coupled, PlainDrain;
    var b := a.(events := [e] + a.events);
    var all := Resume(x, a, more).events;
    assert Resume(x, b, more).events == [e] + all by {
      if !a.outcome.Failed? {
        assert ([e] + a.events) + PlainDrain(x, Feed(a.conn, more)).events
            == [e] + (a.events + PlainDrain(x, Feed(a.conn, more)).events);
      }
    }
    assert ([e] + all)[1..] == all;
  }

  /** Draining before more input arrives makes no difference in the end. */
  lemma {:induction false} DrainSplit(x: Externals, c: Conn, more: bytes)
    requires Coupled(c) && !c.eof && Forget(c) == c && more != []
    requires Coupled(Feed(c, more)) && Orderly(x, Feed(c, more))
    ensures Coupled(Feed(PlainDrain(x, c).conn, more))
    ensures SameOutcome(PlainDrain(x, Feed(c, more)), Resume(x, PlainDrain(x, c), more))
    ensures !PlainDrain(x, c).outcome.Failed? ==> Orderly(x, Feed(PlainDrain(x, c).conn, more))
    decreases Potential(c)
  {
    hide Next, PlainNext, PlainDrain, Coupled, Orderly, OrderlyPoll, Potential, Taking;
    var w := Feed(c, more);
    var r, s := PlainNext(x, c), PlainNext(x, w);
    OrderlyNext(x, w);
    NextStepContinues(x, c, more);
    PlainNextAdvances(x, c);
    FeedCoupled(r.conn, more);
    if r.outcome.Failed? {
      DrainStops(x, c);
      DrainStops(x, w);
    } else if !Reports(r.outcome) && !r.outcome.Occurred? {
      DrainStops(x, c);
      WaitingNext(x, c, more);
      SameDrain(x, w, Feed(r.conn, more));
      OrderlyIs(x, Feed(r.conn, more));
      assert [] + PlainDrain(x, w).events == PlainDrain(x, w).events;
    } else if r.outcome == Occurred(ClosedEvent) {
      NotClosed(x, c);
    } else if s == FeedStep(r, more) {
      DrainGoesOn(x, c);
      DrainGoesOn(x, w);
      DrainSplit(x, r.conn, more);
      SplitEvent(x, c, more);
    } else {
      SplitGrowing(x, c, more);
    }
  }

  lemma NotClosed(x: Externals, c: Conn)
    requires Coupled(c) && !c.eof
    ensures PlainNext(x, c).outcome != Occurred(ClosedEvent)
  {
    hide Next, Coupled;
    if PlainNext(x, c).outcome == Occurred(ClosedEvent) {
      CleanClose(x, c);
    }
  }

  /** An event that more input does not touch. */
  lemma SplitEvent(x: Externals, c: Conn, more: bytes)
    requires Coupled(c) && Coupled(Feed(c, more))
    requires Reports(PlainNext(x, c).outcome) && PlainNext(x, Feed(c, more)) == FeedStep(PlainNext(x, c), more)
    requires Coupled(PlainNext(x, c).conn) && Coupled(Feed(PlainNext(x, c).conn, more))
    requires Coupled(Feed(PlainDrain(x, PlainNext(x, c).conn).conn, more))
    requires SameOutcome(PlainDrain(x, Feed(PlainNext(x, c).conn, more)),
                         Resume(x, PlainDrain(x, PlainNext(x, c).conn), more))
    ensures Coupled(Feed(PlainDrain(x, c).conn, more))
    ensures SameOutcome(PlainDrain(x, Feed(c, more)), Resume(x, PlainDrain(x, c), more))
  {
    hide PlainNext, PlainDrain, Coupled, Resume;
    var r := PlainNext(x, c);
    DrainGoesOn(x, c);
    DrainGoesOn(x, Feed(c, more));
    var e := r.outcome.event;
    ResumeCons(x, e, PlainDrain(x, r.conn), more);
    TraceCons(e, PlainDrain(x, Feed(r.conn, more)).events);
  }

  lemma TraceCons(e: Event, events: seq<Event>)
    ensures Trace([e] + events) == Tokens(e) + Trace(events)
  {
    assert ([e] + events)[1..] == events;
  }

  /** A body event that more input makes longer: what the three drains are. */
  lemma GrowingDrains(x: Externals, c: Conn, more: bytes)
    requires Coupled(c) && !c.eof && Coupled(Feed(c, more)) && more != []
    requires Reports(PlainNext(x, c).outcome)
    requires NextGrows(x, PlainNext(x, c), more, PlainNext(x, Feed(c, more)))
    ensures var r := PlainNext(x, c);
      var f := Feed(r.conn, more);
      && PlainDrain(x, c) == Drained(r.conn, [r.outcome.event], NeedData)
      && Coupled(f)
      && var v := PlainNext(x, f);
         && Coupled(v.conn)
         && var rest := PlainDrain(x, v.conn);
            && PlainDrain(x, f) == rest.(events := [v.outcome.event] + rest.events)
            && PlainDrain(x, Feed(c, more)) == rest.(events := [PlainNext(x, Feed(c, more)).outcome.event] + rest.events)
  {
    hide PlainNext, PlainDrain, Coupled, Potential, Taking;
    var r := PlainNext(x, c);
    PlainNextAdvances(x, c);
    FeedCoupled(r.conn, more);
    NothingToTake(x, r.conn);
    DrainStops(x, r.conn);
    DrainGoesOn(x, c);
    DrainGoesOn(x, Feed(r.conn, more));
    DrainGoesOn(x, Feed(c, more));
    assert [r.outcome.event] + [] == [r.outcome.event];
  }

  /** The two halves read the same as the whole. */
  lemma SplitGrowing(x: Externals, c: Conn, more: bytes)
    requires Coupled(c) && !c.eof && Coupled(Feed(c, more)) && Orderly(x, Feed(c, more)) && more != []
    requires Reports(PlainNext(x, c).outcome)
    requires NextGrows(x, PlainNext(x, c), more, PlainNext(x, Feed(c, more)))
    ensures Coupled(Feed(PlainDrain(x, c).conn, more))
    ensures SameOutcome(PlainDrain(x, Feed(c, more)), Resume(x, PlainDrain(x, c), more))
    ensures Orderly(x, Feed(PlainDrain(x, c).conn, more))
  {
    hide PlainNext, PlainDrain, Coupled, Orderly, OrderlyPoll, Taking, Trace, Tokens, Potential;
    GrowingDrains(x, c, more);
    var r := PlainNext(x, c);
    var f := Feed(r.conn, more);
    var v := PlainNext(x, f);
    var rest := PlainDrain(x, v.conn).events;
    var e, g := r.outcome.event, v.outcome.event;
    var merged := PlainNext(x, Feed(c, more)).outcome.event;
    MergedTokens(e.data, g.data, e.chunkStart, g.chunkEnd);
    TraceCons(merged, rest);
    TraceCons(e, [g] + rest);
    TraceCons(g, rest);
    assert Trace([merged] + rest) == Trace([e] + ([g] + rest)) by {
      assert (Tokens(e) + Tokens(g)) + Trace(rest) == Tokens(e) + (Tokens(g) + Trace(rest));
    }
    OrderlyNext(x, Feed(c, more));
    TakingIsOrderly(x, f);
    OrderlyIs(x, f);
  }

  // ------------------------------------------------------------------
  // Hints are only hints
  // ------------------------------------------------------------------

  /** The saved search, if any, is a search of the section being awaited, and
      has found no end so far. */
  ghost predicate HintOk(c: Conn) {
    c.progress.Some? ==>
      && (c.reader == AwaitHead || c.reader == ReadChunked(Trailers))
      && InStep(c.progress.value, c.input, c.reader == AwaitHead)
  }

  lemma FeedKeepsHint(c: Conn, more: bytes)
    requires HintOk(c)
    ensures HintOk(Feed(c, more))
  {
    hide InStep;
    if c.progress.Some? {
      ExtendProgress(c.progress.value, c.input, more, c.reader == AwaitHead);
    }
  }

  /** Looking for the end with the hint or without comes to the same. */
  lemma HintedSearch(c: Conn, skip: bool)
    requires c.progress.Some? ==> InStep(c.progress.value, c.input, skip)
    ensures PollSection(c, skip).end == SectionEnd(c.input, skip)
    ensures SectionEnd(c.input, skip).None? ==> InStep(PollSection(c, skip).progress, c.input, skip)
  {
    hide InStep, PollFrom, SectionEnd;
    FreshInStep(c.input, skip);
    ResumedPoll(if c.progress.Some? then c.progress.value else FRESH, c.input, skip, []);
    assert c.input + [] == c.input;
  }

  /** Without a complete section the parser has nothing to say. */
  lemma PartialVerdict<T>(parse: bytes -> Parsed<T>, data: bytes, skip: bool, limit: nat)
    requires Judges(parse, data, skip, limit)
    ensures SectionEnd(data, skip).None? <==> parse(data).Partial?
  {
    assert JudgesPrefix(parse, data, skip, limit, |data|);
    assert data[..|data|] == data;
  }

  /** A connection that keeps waiting for the end of a section. */
  lemma WaitHint(c: Conn, skip: bool)
    requires c.progress.Some? ==> InStep(c.progress.value, c.input, skip)
    requires SectionEnd(c.input, skip).None? && skip == (c.reader == AwaitHead)
    requires skip || c.reader == ReadChunked(Trailers)
    ensures var scanned := SectionReady(c, skip).0;
      && (!WaitForSection(c, skip).outcome.Failed? ==> HintOk(WaitForSection(c, skip).conn))
      && (!WaitForSection(scanned, skip).outcome.Failed? ==> HintOk(WaitForSection(scanned, skip).conn))
      && Plainly(WaitForSection(scanned, skip)) == Plainly(WaitForSection(Forget(c), skip))
  {
    hide InStep, PollFrom, SectionEnd;
    HintedSearch(c, skip);
    HintedSearch(SectionReady(c, skip).0, skip);
  }

  /** The parser is consulted with the hint exactly when it would have been without. */
  lemma ReadyHint(c: Conn, skip: bool)
    requires c.progress.Some? ==> InStep(c.progress.value, c.input, skip)
    ensures var (scanned, ready) := SectionReady(c, skip);
      && scanned == c.(progress := scanned.progress)
      && (!ready ==> SectionEnd(c.input, skip).None?)
  {
    hide InStep, PollFrom, SectionEnd;
    HintedSearch(c, skip);
  }

  lemma RequestHint(x: Externals, c: Conn)
    requires Active(c) && c.reader == AwaitHead && HintOk(c) && Clear(x, Forget(c)) && c.role == L.Server
    ensures Plainly(ReadHead(x, c)) == Plainly(ReadHead(x, Forget(c)))
    ensures !ReadHead(x, c).outcome.Failed? ==> HintOk(ReadHead(x, c).conn)
  {
    hide InStep, SectionEnd, Judges, AcceptRequest, SectionReady, WaitForSection;
    ReadyHint(c, true);
    ReadyHint(Forget(c), true);
    FreshReady(Forget(c), true);
    ParsedEnds(x, c);
    PartialVerdict(d => x.request(d, c.limits.maxHeaderCount), c.input, true, c.limits.maxHeadBytes);
    var parsed := ParseRequest(x, c.input, c.limits);
    if SectionEnd(c.input, true).None? {
      WaitHint(c, true);
    } else if parsed.Complete? {
      AcceptClearsHint(x, Consume(c, parsed.end).(progress := None), parsed.value);
    }
  }

  lemma ResponseHint(x: Externals, c: Conn)
    requires Active(c) && c.reader == AwaitHead && HintOk(c) && Clear(x, Forget(c)) && c.role == L.Client
    ensures Plainly(ReadHead(x, c)) == Plainly(ReadHead(x, Forget(c)))
    ensures !ReadHead(x, c).outcome.Failed? ==> HintOk(ReadHead(x, c).conn)
  {
    hide InStep, SectionEnd, Judges, AcceptResponse, SectionReady, WaitForSection;
    ReadyHint(c, true);
    ReadyHint(Forget(c), true);
    FreshReady(Forget(c), true);
    ParsedEnds(x, c);
    PartialVerdict(d => x.response(d, c.limits.maxHeaderCount), c.input, true, c.limits.maxHeadBytes);
    var parsed := ParseResponse(x, c.input, c.limits);
    if SectionEnd(c.input, true).None? {
      WaitHint(c, true);
    } else if parsed.Complete? {
      AcceptResponseClearsHint(Consume(c, parsed.end).(progress := None), parsed.value);
    }
  }

  lemma FreshReady(c: Conn, skip: bool)
    requires c.progress.None?
    ensures SectionReady(c, skip) == (c, true)
  {
  }

  lemma AcceptClearsHint(x: Externals, c: Conn, r: Request)
    ensures AcceptRequest(x, c, r).conn.progress == c.progress
  {
    hide L.Process, L.DisableKeepAlive, ReadPlan, Persistent, ExpectsContinue;
  }

  lemma AcceptResponseClearsHint(c: Conn, r: Response)
    ensures AcceptResponse(c, r).conn.progress == c.progress
  {
    hide L.Process, L.DisableKeepAlive, ValidUpgrade, Persistent, ResponseFraming;
  }

  lemma FinishClearsHint(c: Conn, trailers: seq<Header>)
    ensures FinishPeer(c, trailers).conn.progress == c.progress
  {
    hide L.Process;
  }

  lemma LongTrailers(c: Conn)
    requires |c.input| > c.limits.maxHeadBytes
    ensures WaitForSection(c, false) == Step(c, Failed(Some(400)))
  {
  }

  lemma TrailersHint(x: Externals, c: Conn)
    requires c.Peer() == L.SendBody && c.reader == ReadChunked(Trailers) && HintOk(c) && Clear(x, Forget(c))
    ensures Plainly(ReadTrailers(x, c)) == Plainly(ReadTrailers(x, Forget(c)))
    ensures !ReadTrailers(x, c).outcome.Failed? ==> HintOk(ReadTrailers(x, c).conn)
  {
    hide InStep, SectionEnd, Judges, FinishPeer, SectionReady, WaitForSection;
    ReadyHint(c, false);
    FreshReady(Forget(c), false);
    ParsedEnds(x, c);
    PartialVerdict(d => x.trailers(d, c.limits.maxHeaderCount, c.role == L.Client), c.input, false, c.limits.maxHeadBytes);
    var parsed := ParseTrailers(x, c.input, c.limits, c.role == L.Client);
    if SectionEnd(c.input, false).None? {
      WaitHint(c, false);
      if |c.input| > c.limits.maxHeadBytes {
        LongTrailers(SectionReady(c, false).0);
      }
    } else if parsed.Complete? {
      FinishClearsHint(Consume(c, parsed.end).(progress := None), parsed.value);
    }
  }

  /** A chunk line that cannot be read, whatever the hint. */
  lemma SizeHintStuck(x: Externals, c: Conn)
    requires Coupled(c) && c.Peer() == L.SendBody && c.reader.ReadChunked? && c.reader.chunk.Size? && Silent(c).None?
    ensures Plainly(NextInner(x, c)) == Plainly(NextInner(x, Forget(c)))
    ensures NextInner(x, c).conn.progress == c.progress && NextInner(x, c).conn.reader != AwaitHead
    ensures NextInner(x, c).conn.reader != ReadChunked(Trailers)
  {
    assert c.progress.None? by {
      hide Sound;
    }
    hide NextInner, ReadMessage, Coupled, ReadSize, Silent;
    var scanned := c.reader.chunk.scanned;
    SizeHint(c, scanned);
    PollReads(x, c);
    ReadsChunk(x, c);
    PollReads(x, Forget(c));
    ReadsChunk(x, Forget(c));
    SizeUnread(x, c, scanned);
    SilentForgets(c);
    SizeUnread(x, Forget(c), 0);
  }

  /** A chunk line that cannot be read yet, or at all. */
  lemma SizeUnread(x: Externals, c: Conn, scanned: nat)
    requires c.Peer() == L.SendBody && c.reader.ReadChunked? && c.reader.chunk.Size? && Silent(c).None?
    requires FindCrlf(c.input, scanned) == FindCrlf(c.input, 0)
    ensures var end := FindCrlf(c.input, 0);
      ReadSize(x, c, scanned) ==
      if end.None? then
        if IncompleteLineLen(c.input) > c.limits.maxHeadBytes then Step(c, ChunkLineTooLong(c))
        else NeedDataOrEof(c.(reader := ReadChunked(Size(if c.input == [] then 0 else |c.input| - 1))))
      else if end.value - 2 > c.limits.maxHeadBytes then Step(c, ChunkLineTooLong(c))
      else Step(c, Failed(Some(400)))
  {
    hide NextInner, FindCrlf, ParseChunkHeader;
  }

  lemma SilentForgets(c: Conn)
    requires c.progress.None?
    ensures Silent(Forget(c)) == Silent(c)
    ensures Silent(c).Some? ==> Silent(c).value.progress.None?
  {
    hide FindCrlf, ParseChunkHeader;
  }

  lemma {:induction false} HintsIrrelevant(x: Externals, c: Conn)
    requires Coupled(c) && HintOk(c) && Coupled(Forget(c)) && OrderlyPoll(x, Forget(c))
    ensures Plainly(NextInner(x, c)) == Plainly(NextInner(x, Forget(c)))
    ensures !NextInner(x, c).outcome.Failed? ==> HintOk(NextInner(x, c).conn)
    decreases |c.input|
  {
    hide NextInner, Coupled, Clear, InStep;
    if Silent(c).Some? {
      var d := Silent(c).value;
      SilentForgets(c);
      hide Silent;
      SilentCoupled(c);
      SilentCoupled(Forget(c));
      SilentPoll(x, c);
      SilentPoll(x, Forget(c));
      assert OrderlyPoll(x, d);
      AlreadyPlain(x, c, d);
      HintsIrrelevant(x, d);
      return;
    }
    if !Active(c) {
      InactiveHint(x, c);
      return;
    }
    Busy(c);
    match c.reader {
      case AwaitHead =>
        SilentNeeds(Forget(c));
        HeadHint(x, c);
      case ReadFixed(remaining) => BodyHint(x, c);
      case ReadToClose => BodyHint(x, c);
      case ReadChunked(chunk) =>
        match chunk {
          case Size(scanned) => SizeHintStuck(x, c);
          case Body(remaining, first) => BodyHint(x, c);
          case BodyEnd => BodyHint(x, c);
          case Trailers =>
            SilentNeeds(Forget(c));
            TrailersPoll(x, c);
            TrailersPoll(x, Forget(c));
            TrailersHint(x, c);
        }
    }
  }

  lemma SilentNeeds(c: Conn)
    requires c.reader == AwaitHead || c.reader == ReadChunked(Trailers)
    ensures Silent(c).None?
  {
  }

  lemma AlreadyPlain(x: Externals, c: Conn, d: Conn)
    requires Silent(c) == Some(d) && d.progress.None? && Coupled(d)
    ensures Forget(d) == d && HintOk(d)
  {
    hide FindCrlf, ParseChunkHeader, Coupled;
  }

  lemma InactiveHint(x: Externals, c: Conn)
    requires Coupled(c) && HintOk(c) && !Active(c)
    ensures Plainly(NextInner(x, c)) == Plainly(NextInner(x, Forget(c)))
    ensures !NextInner(x, c).outcome.Failed? ==> HintOk(NextInner(x, c).conn)
  {
    hide ReadMessage, Between, Coupled, HintOk;
    BetweenHint(c);
  }

  lemma BetweenHint(c: Conn)
    ensures Plainly(Between(c)) == Plainly(Between(Forget(c)))
    ensures HintOk(c) ==> HintOk(Between(c).conn)
  {
    hide L.Process, InStep;
  }

  lemma HeadHint(x: Externals, c: Conn)
    requires Coupled(c) && Coupled(Forget(c)) && HintOk(c) && Active(c) && c.reader == AwaitHead && Clear(x, Forget(c))
    ensures Plainly(NextInner(x, c)) == Plainly(NextInner(x, Forget(c)))
    ensures !NextInner(x, c).outcome.Failed? ==> HintOk(NextInner(x, c).conn)
  {
    hide NextInner, ReadHead, Clear, InStep;
    if c.Peer() == L.Idle && c.eof && c.input == [] {
      ClosingHint(x, c);
      return;
    }
    Busy(c);
    hide Coupled;
    PollReads(x, c);
    PollReads(x, Forget(c));
    ReadsHead(x, c);
    ReadsHead(x, Forget(c));
    if c.role == L.Server {
      RequestHint(x, c);
    } else {
      ResponseHint(x, c);
    }
  }

  lemma ClosingHint(x: Externals, c: Conn)
    requires c.Peer() == L.Idle && c.eof && c.input == [] && HintOk(c) && c.reader == AwaitHead
    ensures Plainly(NextInner(x, c)) == Plainly(NextInner(x, Forget(c)))
    ensures !NextInner(x, c).outcome.Failed? ==> HintOk(NextInner(x, c).conn)
  {
    hide L.Process, ReadMessage, InStep;
  }

  /** While body content is read there is no saved search. */
  lemma BodyHint(x: Externals, c: Conn)
    requires Coupled(c) && HintOk(c) && c.Peer() == L.SendBody && Silent(c).None?
    requires c.reader != AwaitHead && c.reader != ReadChunked(Trailers) && !(c.reader.ReadChunked? && c.reader.chunk.Size?)
    ensures Forget(c) == c
    ensures !NextInner(x, c).outcome.Failed? ==> HintOk(NextInner(x, c).conn)
  {
    hide NextInner, InStep, PeerData, FinishPeer, Coupled, L.Process;
    PollReads(x, c);
    BodyKeepsProgress(x, c);
  }

  lemma BodyKeepsProgress(x: Externals, c: Conn)
    requires Silent(c).None? && c.Peer() == L.SendBody
    requires c.reader != AwaitHead && c.reader != ReadChunked(Trailers) && !(c.reader.ReadChunked? && c.reader.chunk.Size?)
    ensures ReadMessage(x, c).conn.progress == c.progress
  {
    hide ReadMessage, ReadBody, ReadBodyEnd, PeerData, FinishPeer, NeedDataOrEof;
    match c.reader {
      case AwaitHead =>
      case ReadFixed(remaining) =>
        ReadFixedIs(x, c, remaining);
        var count := Min(remaining, |c.input|);
        EventsKeepProgress(Consume(c, count).(reader := ReadFixed(remaining - count)), c.input[..count], false, false);
        EventsKeepProgress(c, [], false, false);
      case ReadToClose =>
        ReadToCloseIs(x, c);
        EventsKeepProgress(Consume(c, |c.input|), c.input, false, false);
        EventsKeepProgress(c, [], false, false);
      case ReadChunked(chunk) =>
        ReadsChunk(x, c);
        if chunk.Body? {
          ChunkKeepsProgress(c, chunk.remaining, chunk.first);
        } else {
          ChunkEndStuck(x, c);
        }
    }
  }

  lemma ChunkKeepsProgress(c: Conn, remaining: nat, first: bool)
    ensures ReadBody(c, remaining, first).conn.progress == c.progress
  {
    hide PeerData, NeedDataOrEof;
    var count := Min(remaining, |c.input|);
    var d := Consume(c, count).(reader := ReadChunked(if count == remaining then BodyEnd else Body(remaining - count, false)));
    EventsKeepProgress(d, c.input[..count], first, count == remaining);
    EventsKeepProgress(c, [], false, false);
  }

  lemma ChunkEndStuck(x: Externals, c: Conn)
    requires Silent(c).None? && c.Peer() == L.SendBody && c.reader == ReadChunked(BodyEnd)
    ensures ReadBodyEnd(x, c) == if |c.input| < 2 then NeedDataOrEof(c) else Step(c, Failed(Some(400)))
    ensures ReadBodyEnd(x, c).conn == c
  {
    hide NextInner;
  }

  lemma EventsKeepProgress(c: Conn, data: bytes, chunkStart: bool, chunkEnd: bool)
    ensures PeerData(c, data, chunkStart, chunkEnd).conn.progress == c.progress
    ensures FinishPeer(c, []).conn.progress == c.progress && NeedDataOrEof(c).conn.progress == c.progress
  {
    hide L.Process;
  }

  // ------------------------------------------------------------------
  // Heads under any parser
  // ------------------------------------------------------------------

  /** What a search makes of a head it has not found the end of. */
  lemma SearchedHead(x: Externals, c: Conn)
    requires c.reader == AwaitHead && c.progress.Some? && HintOk(c) && !c.eof && SectionEnd(c.input, true).None?
    ensures Plainly(ReadHead(x, c)) == Plainly(WaitForSection(Forget(c), true))
  {
    hide InStep, PollFrom, SectionEnd, ParseRequest, ParseResponse, AcceptRequest, AcceptResponse;
    HintedSearch(c, true);
    HintedSearch(SectionReady(c, true).0, true);
  }

  lemma SearchedWhole(x: Externals, c: Conn)
    requires c.reader == AwaitHead && c.progress.Some? && HintOk(c) && !c.eof && SectionEnd(c.input, true).Some?
    ensures Plainly(ReadHead(x, c)) == Plainly(ReadHead(x, Forget(c)))
  {
    hide InStep, PollFrom, SectionEnd, ParseRequest, ParseResponse, AcceptRequest, AcceptResponse;
    HintedSearch(c, true);
    ParsedEnds(x, c);
    PlainWait(SectionReady(c, true).0, Forget(c), true);
  }

  lemma PlainWait(c: Conn, d: Conn, skip: bool)
    requires Forget(c) == Forget(d)
    ensures Plainly(WaitForSection(c, skip)) == Plainly(WaitForSection(d, skip))
  {
    hide PollFrom;
  }

  /** What reading a head without a hint does, case by case. */
  lemma UnsearchedHead(x: Externals, c: Conn)
    requires c.reader == AwaitHead && Forget(c) == c
    ensures var verdict := HeadVerdict(x, c);
      && (verdict.Partial? ==> ReadHead(x, c) == WaitForSection(c, true))
      && (verdict.Invalid? ==> ReadHead(x, c) == Step(c, Failed(verdict.status)))
      && (verdict.Complete? ==> |ReadHead(x, c).conn.input| < |c.input|)
  {
    hide WaitForSection, ParseRequest, ParseResponse, AcceptRequest, AcceptResponse;
    ParsedEnds(x, c);
  }

  /** The parser's verdict on the head, limits included. */
  function HeadVerdict(x: Externals, c: Conn): Parsed<()> {
    if c.role == L.Server then
      match ParseRequest(x, c.input, c.limits)
      case Invalid(status) => Invalid(status)
      case Partial => Partial
      case Complete(end, _) => Complete(end, ())
    else
      match ParseResponse(x, c.input, c.limits)
      case Invalid(status) => Invalid(status)
      case Partial => Partial
      case Complete(end, _) => Complete(end, ())
  }

  /** The head is complete, or not judged, or judged as a head too long would be. */
  predicate Undisturbing(x: Externals, c: Conn) {
    || SectionEnd(c.input, true).Some?
    || HeadVerdict(x, c).Partial?
    || (|c.input| > c.limits.maxHeadBytes && HeadVerdict(x, c).Invalid?
        && (c.role == L.Client || HeadVerdict(x, c).status == Some(431)))
  }

  /**
   When a saved search shows, for any parser: a poll for a head reports the same
   with it as without it if and only if the head is complete, or the parser does
   not judge it yet, or its verdict is the one for a head that is too long.
   */
  lemma HeadHintExactly(x: Externals, c: Conn)
    requires Coupled(c) && Active(c) && c.reader == AwaitHead && c.progress.Some? && HintOk(c) && !c.eof
    ensures PlainNext(x, c) == PlainNext(x, Forget(c)) <==> Undisturbing(x, c)
  {
    hide NextInner, Coupled, HintOk, SectionEnd, HeadVerdict, ReadHead, L.Poison;
    var d := Forget(c);
    ForgetCoupled(c);
    PlainNextIs(x, c);
    PlainNextIs(x, d);
    HeadPoll(x, c);
    HeadPoll(x, d);
    if SectionEnd(c.input, true).Some? {
      SearchedWhole(x, c);
      return;
    }
    SameVerdict(x, c);
    SearchedHead(x, c);
    UnsearchedHead(x, d);
    WaitPlainly(d, true);
  }

  lemma SameVerdict(x: Externals, c: Conn)
    ensures HeadVerdict(x, Forget(c)) == HeadVerdict(x, c)
  {
    hide ParseRequest, ParseResponse;
  }

  // ------------------------------------------------------------------
  // A well-behaved parser is well behaved on every prefix
  // ------------------------------------------------------------------

  lemma JudgesShorter<T>(parse: bytes -> Parsed<T>, data: bytes, more: bytes, skip: bool, limit: nat)
    requires Judges(parse, data + more, skip, limit)
    ensures Judges(parse, data, skip, limit)
  {
    forall k | 0 <= k <= |data|
      ensures JudgesPrefix(parse, data, skip, limit, k)
    {
      assert JudgesPrefix(parse, data + more, skip, limit, k);
      assert (data + more)[..k] == data[..k];
      if SectionEnd(data[..k], skip).Some? {
        var e := SectionEnd(data[..k], skip).value;
        assert (data + more)[..e] == data[..e];
      }
    }
  }

  lemma ClearShorter(x: Externals, c: Conn, more: bytes)
    requires Clear(x, Feed(c, more))
    ensures Clear(x, c)
  {
    hide Judges;
    var n, limit := c.limits.maxHeaderCount, c.limits.maxHeadBytes;
    if Active(c) && c.reader == AwaitHead && c.role == L.Server {
      JudgesShorter(d => x.request(d, n), c.input, more, true, limit);
    }
    if Active(c) && c.reader == AwaitHead && c.role == L.Client {
      JudgesShorter(d => x.response(d, n), c.input, more, true, limit);
    }
    if Active(c) && c.reader == ReadChunked(Trailers) {
      JudgesShorter(d => x.trailers(d, n, c.role == L.Client), c.input, more, false, limit);
    }
  }

  lemma {:induction false} OrderlyPollShorter(x: Externals, c: Conn, more: bytes)
    requires Coupled(c) && Coupled(Feed(c, more)) && OrderlyPoll(x, Feed(c, more)) && !c.eof && more != []
    ensures OrderlyPoll(x, c)
    decreases |c.input|
  {
    hide Coupled;
    if Silent(c).Some? {
      hide Clear, Silent;
      SilentCoupled(c);
      SilentFeeds(c, more);
      FeedCoupled(Silent(c).value, more);
      OrderlyPollShorter(x, Silent(c).value, more);
    } else if c.reader == AwaitHead || c.reader == ReadChunked(Trailers) {
      SilentNeeds(c);
      SilentNeeds(Feed(c, more));
      hide Clear, Silent;
      ClearShorter(x, c, more);
    }
  }

  lemma {:induction false} OrderlyShorter(x: Externals, c: Conn, more: bytes)
    requires Coupled(c) && !c.eof && Forget(c) == c && more != []
    requires Coupled(Feed(c, more)) && Orderly(x, Feed(c, more))
    ensures Orderly(x, c)
    decreases Potential(c)
  {
    hide PlainNext, Coupled, Orderly, OrderlyPoll, Potential, Taking;
    var r := PlainNext(x, c);
    OrderlyNext(x, Feed(c, more));
    OrderlyPollShorter(x, c, more);
    NextStepContinues(x, c, more);
    PlainNextAdvances(x, c);
    FeedCoupled(r.conn, more);
    if Reports(r.outcome) {
      if PlainNext(x, Feed(c, more)) == FeedStep(r, more) {
        OrderlyShorter(x, r.conn, more);
      } else {
        NothingToTake(x, r.conn);
        TakingIsOrderly(x, r.conn);
        OrderlyIs(x, r.conn);
      }
    }
    OrderlyIs(x, c);
  }

  // ------------------------------------------------------------------
  // The connection as it is
  // ------------------------------------------------------------------

  /** Equal up to how body bytes were grouped and what has been searched. */
  predicate Alike(a: Drained, b: Drained) {
    Trace(a.events) == Trace(b.events) && Forget(a.conn) == Forget(b.conn) && a.outcome == b.outcome
  }

  lemma NextHint(x: Externals, c: Conn)
    requires Coupled(c) && HintOk(c) && Coupled(Forget(c)) && OrderlyPoll(x, Forget(c))
    ensures PlainNext(x, c) == PlainNext(x, Forget(c))
    ensures !Next(x, c).outcome.Failed? ==> HintOk(Next(x, c).conn)
  {
    hide NextInner, PlainNext, Coupled, OrderlyPoll, HintOk, L.Poison;
    HintsIrrelevant(x, c);
    PlainNextIs(x, c);
    PlainNextIs(x, Forget(c));
  }

  /** The connection reports what a connection without hints would. */
  lemma {:induction false} DrainPlainly(x: Externals, c: Conn)
    requires Coupled(c) && HintOk(c) && Coupled(Forget(c)) && Orderly(x, Forget(c))
    ensures var a, p := Drain(x, c), PlainDrain(x, Forget(c));
      && a.events == p.events && a.outcome == p.outcome && Forget(a.conn) == p.conn
      && (!a.outcome.Failed? ==> HintOk(a.conn))
    decreases Potential(c)
  {
    hide Next, PlainDrain, Coupled, Orderly, OrderlyPoll, HintOk, Potential;
    OrderlyNext(x, Forget(c));
    NextHint(x, c);
    var r := Next(x, c);
    assert PlainNext(x, c) == Step(Forget(r.conn), r.outcome);
    NextAdvances(x, c);
    if Reports(r.outcome) {
      DrainGoesOn(x, Forget(c));
      DrainPlainly(x, r.conn);
    } else {
      DrainStops(x, Forget(c));
    }
  }

  function Concat(fragments: seq<bytes>): bytes {
    if fragments == [] then [] else fragments[0] + Concat(fragments[1..])
  }

  /** `receive_data` takes an empty fragment for the end of the stream. */
  predicate Fragments(fragments: seq<bytes>) {
    fragments != [] && forall i :: 0 <= i < |fragments| ==> fragments[i] != []
  }

  /** Feeds a stream in fragments, polling to the end after each; after an
      error the rest of the stream is received but not looked at. */
  function FeedAll(x: Externals, c: Conn, fragments: seq<bytes>): Drained
    requires Coupled(c) && !c.eof && Fragments(fragments)
    decreases |fragments|
  {
    hide Coupled, Potential;
    FeedCoupled(c, fragments[0]);
    var a := Drain(x, Feed(c, fragments[0]));
    if |fragments| == 1 then a
    else if a.outcome.Failed? then a.(conn := Feed(a.conn, Concat(fragments[1..])))
    else
      var b := FeedAll(x, a.conn, fragments[1..]);
      b.(events := a.events + b.events)
  }

  lemma {:induction false} FeedAllCoupled(x: Externals, c: Conn, fragments: seq<bytes>)
    requires Coupled(c) && !c.eof && Fragments(fragments)
    ensures Coupled(FeedAll(x, c, fragments).conn) && !FeedAll(x, c, fragments).conn.eof
    decreases |fragments|
  {
    hide Coupled, Potential, Drain;
    FeedCoupled(c, fragments[0]);
    var a := Drain(x, Feed(c, fragments[0]));
    if |fragments| > 1 {
      if a.outcome.Failed? {
        ConcatNonEmpty(fragments[1..]);
        FeedCoupled(a.conn, Concat(fragments[1..]));
      } else {
        FeedAllCoupled(x, a.conn, fragments[1..]);
      }
    }
  }

  lemma FeedTwice(c: Conn, u: bytes, v: bytes)
    ensures Feed(Feed(c, u), v) == Feed(c, u + v)
  {
    assert (c.input + u) + v == c.input + (u + v);
  }

  lemma ConcatNonEmpty(fragments: seq<bytes>)
    requires Fragments(fragments)
    ensures Concat(fragments) != []
  {
  }

  /** The first fragment against the rest of the stream. */
  lemma FirstFragment(x: Externals, c: Conn, first: bytes, rest: bytes)
    requires Coupled(c) && HintOk(c) && !c.eof && first != [] && rest != []
    requires Coupled(Forget(Feed(c, first + rest))) && Orderly(x, Forget(Feed(c, first + rest)))
    ensures Coupled(Feed(c, first)) && Coupled(Feed(c, first + rest))
    ensures var a := Drain(x, Feed(c, first));
      var w := Drain(x, Feed(c, first + rest));
      && Coupled(Feed(a.conn, rest)) && Coupled(Forget(Feed(a.conn, rest)))
      && (a.outcome.Failed? ==> Alike(w, a.(conn := Feed(a.conn, rest))))
      && (!a.outcome.Failed? ==>
            && HintOk(a.conn) && Orderly(x, Forget(Feed(a.conn, rest)))
            && var b := Drain(x, Feed(a.conn, rest));
               Alike(w, b.(events := a.events + b.events)))
  {
    hide Drain, PlainDrain, Coupled, Orderly, HintOk, Potential, Forget, Trace;
    var c1, c2 := Feed(c, first), Feed(c, first + rest);
    FeedCoupled(c, first);
    FeedCoupled(c, first + rest);
    FeedTwice(c, first, rest);
    ForgetCoupled(c1);
    FedForgets(c1, rest);
    FeedKeepsHint(c, first);
    FeedKeepsHint(c, first + rest);
    ForgetTwice(c1);
    OrderlyShorter(x, Forget(c1), rest);
    DrainPlainly(x, c1);
    DrainPlainly(x, c2);
    DrainSplit(x, Forget(c1), rest);
    var a := Drain(x, c1);
    FeedCoupled(a.conn, rest);
    ForgetCoupled(Feed(a.conn, rest));
    FedForgets(a.conn, rest);
    if !a.outcome.Failed? {
      FeedKeepsHint(a.conn, rest);
      DrainPlainly(x, Feed(a.conn, rest));
    }
  }

  lemma ForgetTwice(c: Conn)
    ensures Forget(Forget(c)) == Forget(c) && Forget(c).eof == c.eof
  {
  }

  /** Fed in fragments or at once, a stream reads the same. */
  lemma {:induction false} FragmentsAtOnce(x: Externals, c: Conn, fragments: seq<bytes>)
    requires Coupled(c) && HintOk(c) && !c.eof && Fragments(fragments)
    requires Coupled(Forget(Feed(c, Concat(fragments)))) && Orderly(x, Forget(Feed(c, Concat(fragments))))
    ensures Coupled(Feed(c, Concat(fragments)))
    ensures Alike(FeedAll(x, c, fragments), Drain(x, Feed(c, Concat(fragments))))
    decreases |fragments|
  {
    hide Drain, Coupled, Orderly, HintOk, Forget, Potential;
    var first, rest := fragments[0], Concat(fragments[1..]);
    ConcatNonEmpty(fragments);
    FeedCoupled(c, Concat(fragments));
    if |fragments| == 1 {
      assert first + [] == first;
    } else {
      ConcatNonEmpty(fragments[1..]);
      FirstFragment(x, c, first, rest);
      var a := Drain(x, Feed(c, first));
      if !a.outcome.Failed? {
        FragmentsAtOnce(x, a.conn, fragments[1..]);
        TraceConcat(a.events, FeedAll(x, a.conn, fragments[1..]).events);
        TraceConcat(a.events, Drain(x, Feed(a.conn, rest)).events);
      }
    }
  }

  /**
   Fragmentation invariance.  However a stream is cut, a connection reports the
   same body bytes, chunk boundaries and other events in the same order, ends
   with the same outcome, and is left in the same state with the same unread
   bytes.
   */
  lemma FragmentationInvariance(x: Externals, c: Conn, fragments: seq<bytes>, others: seq<bytes>)
    requires Coupled(c) && HintOk(c) && !c.eof && Fragments(fragments) && Fragments(others)
    requires Concat(fragments) == Concat(others)
    requires Coupled(Forget(Feed(c, Concat(fragments)))) && Orderly(x, Forget(Feed(c, Concat(fragments))))
    ensures Alike(FeedAll(x, c, fragments), FeedAll(x, c, others))
  {
    hide Drain, Coupled, Orderly, HintOk, Forget, Potential, FeedAll, Trace;
    FragmentsAtOnce(x, c, fragments);
    FragmentsAtOnce(x, c, others);
  }

  /** While a body of known length, or one that ends with the connection, is
      being read, nothing is assumed of the parser: it is not consulted. */
  lemma {:induction false} PlainBodiesAreOrderly(x: Externals, c: Conn)
    requires Coupled(c) && !c.eof && c.Peer() == L.SendBody && (c.reader.ReadFixed? || c.reader.ReadToClose?)
    requires Forget(c) == c
    ensures Orderly(x, c)
    decreases Potential(c)
  {
    hide PlainNext, Coupled, Orderly, Potential, OrderlyPoll;
    PlainNextAdvances(x, c);
    var r := PlainNext(x, c);
    BodyPollOrderly(x, c);
    if Reports(r.outcome) {
      if c.reader == ReadFixed(0) {
        EndedIsOrderly(x, c);
      } else {
        TakenStays(x, c);
        PlainBodiesAreOrderly(x, r.conn);
      }
    }
    OrderlyIs(x, c);
  }

  lemma BodyPollOrderly(x: Externals, c: Conn)
    requires Coupled(c) && c.Peer() == L.SendBody && (c.reader.ReadFixed? || c.reader.ReadToClose?)
    ensures OrderlyPoll(x, c)
  {
    hide Coupled;
  }

  lemma TakenStays(x: Externals, c: Conn)
    requires Coupled(c) && !c.eof && c.Peer() == L.SendBody && (c.reader.ReadFixed? || c.reader.ReadToClose?)
    requires c.reader != ReadFixed(0) && Forget(c) == c && Reports(PlainNext(x, c).outcome)
    ensures var d := PlainNext(x, c).conn;
      d.Peer() == L.SendBody && (d.reader.ReadFixed? || d.reader.ReadToClose?) && Forget(d) == d
  {
    hide NextInner, Coupled;
    TakenPoll(x, c);
  }

  lemma EndedIsOrderly(x: Externals, c: Conn)
    requires Coupled(c) && c.Peer() == L.SendBody && c.reader == ReadFixed(0) && !c.eof && Forget(c) == c
    ensures Coupled(PlainNext(x, c).conn) && Orderly(x, PlainNext(x, c).conn)
  {
    hide NextInner, FinishPeer, Orderly, OrderlyPoll, PlainNext, Potential;
    PlainNextAdvances(x, c);
    var d := PlainNext(x, c).conn;
    EndedInactive(x, c);
    hide Coupled;
    PlainNextAdvances(x, d);
    InactivePollOrderly(x, d);
    InactiveReportsNothing(x, d);
    OrderlyIs(x, d);
  }

  lemma EndedInactive(x: Externals, c: Conn)
    requires Coupled(c) && c.Peer() == L.SendBody && c.reader == ReadFixed(0) && !c.eof && Forget(c) == c
    ensures !Active(PlainNext(x, c).conn)
  {
    hide NextInner, Sound, L.Process, AdvancePeer, ChunkCoupled;
    PollReads(x, c);
    FinishPeerCoupled(c, []);
    PeerMoves(c, L.EndOfMessage);
    OwnActor(c.state, c.role.Peer(), L.EndOfMessage);
  }

  lemma InactivePollOrderly(x: Externals, c: Conn)
    requires Coupled(c) && !Active(c)
    ensures OrderlyPoll(x, c)
  {
    hide Coupled;
  }

  lemma InactiveReportsNothing(x: Externals, c: Conn)
    requires Coupled(c) && !Active(c)
    ensures !Reports(PlainNext(x, c).outcome)
  {
    hide NextInner, Coupled;
    NextInnerAdvances(x, c);
  }
}
