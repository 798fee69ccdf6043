/**
 Saved searches over whole runs.  As long as the parser settles every section whose
 end has been found, whatever the calls, the search saved in a connection is one
 of the section it awaits and has missed no end.
 */
module Hints {
  import opened Prelude
  import opened ChunkLine
  import opened Scan
  import opened Fields
  import opened Heads
  import opened ConnectionModel
  import opened LifecycleRuns
  import opened Coupling
  import opened Polling
  import opened Fragmentation
  import opened FragmentedRuns
  import opened Cuts
  import L = Lifecycle

  /** The parser never asks for more than a whole section. */
  ghost predicate Decisive(x: Externals) {
    && (forall data, n :: SectionEnd(data, true).Some? ==> !x.request(data, n).Partial? && !x.response(data, n).Partial?)
    && (forall data, n, fold :: SectionEnd(data, false).Some? ==> !x.trailers(data, n, fold).Partial?)
  }

  ghost predicate Hinted(c: Conn) {
    c.Peer() == L.Error || HintOk(c)
  }

  lemma Decides(x: Externals, c: Conn)
    requires Decisive(x) && (c.reader == AwaitHead || c.reader == ReadChunked(Trailers))
    ensures Verdict(x, c).Partial? ==> SectionEnd(c.input, c.reader == AwaitHead).None?
  {
    hide SectionEnd;
  }

  /** A poll for a section. */
  lemma SectionKeepsHint(x: Externals, c: Conn)
    requires Decisive(x) && HintOk(c) && (c.reader == AwaitHead || c.reader == ReadChunked(Trailers))
    ensures var r := if c.reader == AwaitHead then ReadHead(x, c) else ReadTrailers(x, c);
      !r.outcome.Failed? ==> HintOk(r.conn)
  {
    hide InStep, SectionEnd, Decisive, SectionReady, WaitForSection, ReadHead, ReadTrailers,
         ParseRequest, ParseResponse, ParseTrailers, AcceptRequest, AcceptResponse, FinishPeer;
    var skip := c.reader == AwaitHead;
    Decides(x, c);
    ReadyHint(c, skip);
    if SectionEnd(c.input, skip).None? {
      WaitHint(c, skip);
    }
    if !skip {
      ReadTrailersIs(x, c);
      var parsed := ParseTrailers(x, c.input, c.limits, c.role == L.Client);
      if parsed.Complete? {
        FinishClearsHint(Consume(c, parsed.end).(progress := None), parsed.value);
      }
    } else if c.role == L.Server {
      ReadRequestIs(x, c);
      var parsed := ParseRequest(x, c.input, c.limits);
      if parsed.Complete? {
        AcceptClearsHint(x, Consume(c, parsed.end).(progress := None), parsed.value);
      }
    } else {
      ReadResponseIs(x, c);
      var parsed := ParseResponse(x, c.input, c.limits);
      if parsed.Complete? {
        AcceptResponseClearsHint(Consume(c, parsed.end).(progress := None), parsed.value);
      }
    }
  }

  lemma {:induction false} PollKeepsHint(x: Externals, c: Conn)
    requires Decisive(x) && Coupled(c) && HintOk(c)
    ensures !NextInner(x, c).outcome.Failed? ==> HintOk(NextInner(x, c).conn)
    decreases |c.input|
  {
    hide NextInner, Coupled, InStep, Silent, Decisive, ReadHead, ReadTrailers;
    if Silent(c).Some? {
      SilentCoupled(c);
      SilentPoll(x, c);
      SilentIsPlain(c);
      PollKeepsHint(x, Silent(c).value);
      return;
    }
    if !Active(c) {
      InactiveHint(x, c);
      return;
    }
    Busy(c);
    if c.reader == AwaitHead && c.Peer() == L.Idle && c.eof && c.input == [] {
      ClosingHint(x, c);
    } else if c.reader == AwaitHead || c.reader == ReadChunked(Trailers) {
      SectionKeepsHint(x, c);
      if c.reader == AwaitHead {
        PollReads(x, c);
        ReadsHead(x, c);
      } else {
        TrailersPoll(x, c);
      }
    } else if c.reader.ReadChunked? && c.reader.chunk.Size? {
      SizeHintStuck(x, c);
    } else {
      BodyHint(x, c);
    }
  }

  lemma SilentIsPlain(c: Conn)
    requires Coupled(c) && Silent(c).Some?
    ensures HintOk(Silent(c).value)
  {
    assert c.progress.None? by {
      hide Sound;
    }
    hide Coupled, FindCrlf, ParseChunkHeader;
    SilentForgets(c);
  }

  // ------------------------------------------------------------------
  // Calls
  // ------------------------------------------------------------------

  /** The search, what is searched, and whether the peer has failed. */
  predicate SameSearch(c: Conn, d: Conn) {
    && d.role == c.role && d.reader == c.reader && d.progress == c.progress && d.input == c.input
    && (d.Peer() == L.Error <==> c.Peer() == L.Error)
  }

  lemma MovesKeep(c: Conn, event: L.StateEvent)
    requires Sound(c.state) && AdvanceLocal(c, event).Some?
    ensures Sound(AdvanceLocal(c, event).value.state) && SameSearch(c, AdvanceLocal(c, event).value)
  {
    hide Sound, L.Process;
    OtherActor(c.state, c.role, event);
  }

  lemma PersistenceKeepsSearch(c: Conn, version: Version, headers: seq<Header>)
    requires Sound(c.state)
    ensures SameSearch(c, ApplyPersistence(c, version, headers))
  {
    hide Sound, L.DisableKeepAlive, Persistent;
    DisableUndisturbed(c.state, c.role.Peer());
  }

  /** Sending touches none of it. */
  lemma HeadKeepsSearch(x: Externals, c: Conn, call: Call)
    requires Sound(c.state) && (call.CallSendRequest? || call.CallSendInformational? || call.CallSendResponse?)
    ensures SameSearch(c, After(x, c, call))
  {
    hide Sound, WritePlan, AdvanceLocal, ApplyPersistence, ExpectsContinue, KindOf, RequestBytes, ResponseBytes, PlanResponse,
         ValidHeaders, ValidReason, FramingFields, ValidUpgrade;
    if call.CallSendRequest? {
      var plan := WritePlan(x, call.request);
      if plan.RequestPlan? && AdvanceLocal(c, RequestProposals(call.request, plan)).Some? {
        MovesKeep(c, RequestProposals(call.request, plan));
        PersistenceKeepsSearch(AdvanceLocal(c, RequestProposals(call.request, plan)).value, call.request.version,
                               call.request.headers);
      }
    } else if call.CallSendInformational? {
      var event := if call.response.status == 101 then L.ProtocolSwitch(L.Upgrade) else L.InformationalResponse;
      if AdvanceLocal(c, event).Some? {
        MovesKeep(c, event);
      }
    } else {
      var event := FinalEvent(c.requestKind, call.response.status);
      if AdvanceLocal(c, event).Some? && PlanResponse(c, call.response).ResponsePlan? {
        MovesKeep(c, event);
        PersistenceKeepsSearch(AdvanceLocal(c, event).value, call.response.version, PlanResponse(c, call.response).headers);
      }
    }
  }

  lemma BodyKeepsSearch(x: Externals, c: Conn, call: Call)
    requires Sound(c.state) && (call.CallSendData? || call.CallEndMessage? || call.CallClose?)
    ensures SameSearch(c, After(x, c, call))
  {
    hide Sound, AdvanceLocal, DataPrefix, DataSuffix, ValidTrailers, TrailerBytes;
    var event := if call.CallSendData? then L.Data else if call.CallEndMessage? then L.EndOfMessage else L.ConnectionClosed;
    if AdvanceLocal(c, event).Some? {
      MovesKeep(c, event);
    }
  }

  lemma CallKeepsHint(x: Externals, c: Conn, call: Call)
    requires Decisive(x) && Coupled(c) && Hinted(c)
    ensures Hinted(After(x, c, call))
  {
    CoupledIsSound(c);
    hide InStep, Coupled, Sound, NextInner, Decisive, L.Reusable, L.Poison, L.Process, L.DisableKeepAlive, SendRequest,
         SendInformational, SendResponse, SendData, EndMessage, Close;
    match call {
      case CallReceive(data) =>
        if HintOk(c) {
          FeedKeepsHint(c, data);
        }
      case CallNext => NextKeepsHint(x, c);
      case CallStartNextCycle =>
      case CallSendRequest(_) => HeadKeepsSearch(x, c, call);
      case CallSendInformational(_) => HeadKeepsSearch(x, c, call);
      case CallSendResponse(_) => HeadKeepsSearch(x, c, call);
      case CallSendData(_) => BodyKeepsSearch(x, c, call);
      case CallEndMessage(_) => BodyKeepsSearch(x, c, call);
      case CallClose => BodyKeepsSearch(x, c, call);
    }
  }

  lemma NextKeepsHint(x: Externals, c: Conn)
    requires Decisive(x) && Coupled(c) && Hinted(c)
    ensures Hinted(Next(x, c).conn)
  {
    hide NextInner, InStep, Coupled, Decisive;
    NextOf(x, c);
    NextInnerReadsOn(x, c);
    if c.Peer() == L.Error {
      FailedStaysFailed(x, c);
    } else {
      PollKeepsHint(x, c);
    }
  }

  lemma FailedStaysFailed(x: Externals, c: Conn)
    requires c.Peer() == L.Error
    ensures Next(x, c).conn.Peer() == L.Error
  {
  }

  /**
   Whatever the calls on a new connection: unless the peer has failed, a search it
   has saved is in step with the section it awaits.
   */
  lemma {:induction false} EveryRunKeepsHints(x: Externals, c: Conn, calls: seq<Call>)
    requires Decisive(x) && Coupled(c) && Hinted(c)
    ensures Coupled(RunCalls(x, c, calls)) && Hinted(RunCalls(x, c, calls))
    decreases |calls|
  {
    hide Coupled, After, Hinted, Decisive;
    if calls != [] {
      AfterCoupled(x, c, calls[0]);
      CallKeepsHint(x, c, calls[0]);
      EveryRunKeepsHints(x, After(x, c, calls[0]), calls[1..]);
    }
  }
}
