/**
 Where fragments show.  A saved search postpones parsing, so a parser that judges
 a head or a trailer section before its end is consulted only on what is there
 at the first look, and again when the end has come.  For sections that are
 incomplete or rejected, this says exactly what any cut of them reports.
 */
module Cuts {
  import opened Prelude
  import opened Bytes
  import opened Scan
  import opened ConnectionModel
  import opened Coupling
  import opened Polling
  import opened Fragmentation
  import opened FragmentedRuns
  import opened BodyFragments
  import L = Lifecycle

  // ------------------------------------------------------------------
  // One poll for a section
  // ------------------------------------------------------------------

  /** A head or a trailer section is being awaited. */
  predicate AtSection(c: Conn) {
    Coupled(c) && Active(c) && !c.eof && (c.reader == AwaitHead || c.reader == ReadChunked(Trailers))
  }

  /** The parser's verdict on the section, limits included. */
  function Verdict(x: Externals, c: Conn): Parsed<()> {
    if c.reader == AwaitHead then HeadVerdict(x, c)
    else
      match ParseTrailers(x, c.input, c.limits, c.role == L.Client)
      case Invalid(status) => Invalid(status)
      case Partial => Partial
      case Complete(end, _) => Complete(end, ())
  }

  /** The verdict a poll goes by: with a saved search, none before the end. */
  function Effective(x: Externals, c: Conn): Parsed<()> {
    if c.progress.Some? && SectionEnd(c.input, c.reader == AwaitHead).None? then Partial else Verdict(x, c)
  }

  function Overlong(c: Conn): Outcome {
    Failed(if c.reader != AwaitHead then Some(400) else if c.role == L.Server then Some(431) else None)
  }

  /** What a caller is told: a client hears of no status. */
  function Told(role: L.Role, o: Outcome): Outcome {
    if o.Failed? && role == L.Client then Failed(None) else o
  }

  function Poisoning(c: Conn): Conn {
    c.(state := L.Poison(c.state, c.role.Peer()))
  }

  lemma SectionPoll(x: Externals, c: Conn)
    requires AtSection(c)
    ensures NextInner(x, c) == if c.reader == AwaitHead then ReadHead(x, c) else ReadTrailers(x, c)
  {
    Busy(c);
    hide NextInner, Coupled, ReadHead, ReadTrailers;
    if c.reader == AwaitHead {
      HeadPoll(x, c);
    } else {
      TrailersPoll(x, c);
    }
  }

  /** A section that is not judged is waited for, with a sound hint. */
  lemma Awaited(c: Conn, skip: bool)
    requires c.progress.Some? ==> InStep(c.progress.value, c.input, skip)
    requires SectionEnd(c.input, skip).None? && skip == (c.reader == AwaitHead)
    requires (skip || c.reader == ReadChunked(Trailers)) && !c.eof
    ensures var r := WaitForSection(SectionReady(c, skip).0, skip);
      && Forget(r.conn) == Forget(c)
      && r.outcome == (if |c.input| > c.limits.maxHeadBytes then Overlong(c) else NeedData)
      && (r.outcome == NeedData ==> HintOk(r.conn) && r.conn == c.(progress := r.conn.progress) && r.conn.progress.Some?)
  {
    ScannedFields(c, skip);
    WaitHint(c, skip);
    hide InStep, PollFrom, SectionEnd, SectionReady, HintOk;
  }

  lemma ReadyWhen(c: Conn, skip: bool)
    requires c.progress.Some? ==> InStep(c.progress.value, c.input, skip)
    requires !c.eof
    ensures SectionReady(c, skip).1 <==> c.progress.None? || SectionEnd(c.input, skip).Some?
  {
    hide InStep, PollFrom, SectionEnd;
    HintedSearch(c, skip);
  }

  /** A head that the poll does not accept. */
  lemma HeadUnread(x: Externals, c: Conn)
    requires c.reader == AwaitHead && HintOk(c) && !c.eof && !Effective(x, c).Complete?
    ensures Effective(x, c).Invalid? ==> ReadHead(x, c).conn == SectionReady(c, true).0
    ensures Effective(x, c).Invalid? ==> ReadHead(x, c).outcome == Failed(Effective(x, c).status)
    ensures Effective(x, c).Partial? ==> ReadHead(x, c) == WaitForSection(SectionReady(c, true).0, true)
  {
    hide SectionReady, WaitForSection, ParseRequest, ParseResponse, AcceptRequest, AcceptResponse, SectionEnd, ReadHead, InStep;
    ReadyWhen(c, true);
    if c.role == L.Server {
      ReadRequestIs(x, c);
    } else {
      ReadResponseIs(x, c);
    }
  }

  lemma TrailersUnread(x: Externals, c: Conn)
    requires c.reader == ReadChunked(Trailers) && HintOk(c) && !c.eof && !Effective(x, c).Complete?
    ensures Effective(x, c).Invalid? ==> ReadTrailers(x, c).conn == SectionReady(c, false).0
    ensures Effective(x, c).Invalid? ==> ReadTrailers(x, c).outcome == Failed(Effective(x, c).status)
    ensures Effective(x, c).Partial? ==> ReadTrailers(x, c) == WaitForSection(SectionReady(c, false).0, false)
  {
    hide SectionReady, WaitForSection, ParseTrailers, FinishPeer, SectionEnd, ReadTrailers, InStep;
    ReadyWhen(c, false);
    ReadTrailersIs(x, c);
  }

  /** One poll for a section that it does not accept. */
  lemma SectionStep(x: Externals, c: Conn)
    requires AtSection(c) && HintOk(c)
    requires !Effective(x, c).Complete? && (Effective(x, c).Partial? ==> SectionEnd(c.input, c.reader == AwaitHead).None?)
    ensures var r := NextInner(x, c);
      && r.outcome == Diagnosis(x, c) && Forget(r.conn) == Forget(c) && r.conn.role == c.role
      && (r.outcome == NeedData ==> HintOk(r.conn) && r.conn == c.(progress := r.conn.progress) && r.conn.progress.Some?)
  {
    hide NextInner, ReadHead, ReadTrailers, Coupled, WaitForSection, SectionReady, SectionEnd, InStep, Verdict, Active;
    SectionPoll(x, c);
    var skip := c.reader == AwaitHead;
    ScannedFields(c, skip);
    if skip {
      HeadUnread(x, c);
    } else {
      TrailersUnread(x, c);
    }
    if Effective(x, c).Partial? {
      Awaited(c, skip);
    }
  }

  /** What such a poll comes to. */
  function Diagnosis(x: Externals, c: Conn): Outcome {
    match Effective(x, c)
    case Invalid(status) => Failed(status)
    case _ => if |c.input| > c.limits.maxHeadBytes then Overlong(c) else NeedData
  }

  /** And the drain. */
  lemma SectionDrain(x: Externals, c: Conn)
    requires AtSection(c) && HintOk(c)
    requires !Effective(x, c).Complete? && (Effective(x, c).Partial? ==> SectionEnd(c.input, c.reader == AwaitHead).None?)
    ensures var a := Drain(x, c);
      var o := Diagnosis(x, c);
      && a.events == [] && a.outcome == Told(c.role, o)
      && Forget(a.conn) == (if o.Failed? then Poisoning(Forget(c)) else Forget(c))
      && (!o.Failed? ==>
            HintOk(a.conn) && a.conn == c.(progress := a.conn.progress) && a.conn.progress.Some? && AtSection(a.conn))
  {
    assert Coupled(c) && Active(c) && !c.eof;
    hide *;
    SectionStep(x, c);
    DrainStep(x, c);
    NextOf(x, c);
    SectionDiagnosis(x, c);
    if !Diagnosis(x, c).Failed? {
      StillThere(c, NextInner(x, c).conn);
    } else {
      PoisonForgets(NextInner(x, c).conn, c);
    }
  }

  lemma SectionDiagnosis(x: Externals, c: Conn)
    ensures Diagnosis(x, c).Failed? || Diagnosis(x, c) == NeedData
  {
    hide Effective;
  }

  lemma NextOf(x: Externals, c: Conn)
    ensures var r := NextInner(x, c);
      && Next(x, c).outcome == Told(c.role, r.outcome)
      && Next(x, c).conn == if r.outcome.Failed? then r.conn.(state := L.Poison(r.conn.state, c.role.Peer())) else r.conn
    ensures NextInner(x, c).outcome.Failed? ==> !Reports(Next(x, c).outcome)
    ensures NextInner(x, c).outcome == NeedData ==>
      Next(x, c).outcome == NeedData && !Reports(NeedData) && Told(c.role, NeedData) == NeedData
  {
    hide NextInner, L.Poison;
  }

  lemma PoisonForgets(d: Conn, c: Conn)
    requires Forget(d) == Forget(c)
    ensures Forget(d.(state := L.Poison(d.state, c.role.Peer()))) == Poisoning(Forget(c))
  {
    hide L.Poison;
  }

  lemma StillThere(c: Conn, d: Conn)
    requires AtSection(c) && Coupled(d) && d == c.(progress := d.progress)
    ensures AtSection(d)
  {
    hide Coupled;
  }

  // ------------------------------------------------------------------
  // What a cut reports
  // ------------------------------------------------------------------

  /** Some fragment leaves the section incomplete and too long. */
  predicate Overruns(limit: nat, skip: bool, now: bytes, rest: seq<bytes>)
    decreases |rest|
  {
    && SectionEnd(now, skip).None?
    && (|now| > limit || (rest != [] && Overruns(limit, skip, now + rest[0], rest[1..])))
  }

  /** What is reported of a section when its first look is `c.input` and the rest
      arrives in these fragments. */
  function Report(x: Externals, c: Conn, rest: seq<bytes>): Outcome {
    var skip := c.reader == AwaitHead;
    if Effective(x, c).Invalid? then Failed(Effective(x, c).status)
    else if Overruns(c.limits.maxHeadBytes, skip, c.input, rest) then Overlong(c)
    else
      var whole := Feed(c, Concat(rest));
      if SectionEnd(whole.input, skip).Some? && Verdict(x, whole).Invalid? then Failed(Verdict(x, whole).status) else NeedData
  }

  /** The section is not accepted: no look before its end completes it, and from
      its end on it is rejected, always alike. */
  ghost predicate Unaccepted(x: Externals, c: Conn, rest: bytes) {
    var skip := c.reader == AwaitHead;
    forall k :: 0 <= k <= |rest| ==>
      var p := Feed(c, rest[..k]);
      if SectionEnd(p.input, skip).None? then !Verdict(x, p).Complete?
      else Verdict(x, p).Invalid? && Verdict(x, p) == Verdict(x, Feed(c, rest))
  }

  /** Going on after a drain, as feeding does. */
  function Onward(x: Externals, a: Drained, rest: seq<bytes>): Drained
    requires Coupled(a.conn) && !a.conn.eof && (rest != [] ==> Fragments(rest))
  {
    if rest == [] then a
    else if a.outcome.Failed? then a.(conn := Feed(a.conn, Concat(rest)))
    else
      var b := FeedAll(x, a.conn, rest);
      b.(events := a.events + b.events)
  }

  lemma FeedingOn(x: Externals, c: Conn, fragments: seq<bytes>)
    requires Coupled(c) && !c.eof && Fragments(fragments)
    ensures Coupled(Feed(c, fragments[0])) && (fragments[1..] != [] ==> Fragments(fragments[1..]))
    ensures FeedAll(x, c, fragments) == Onward(x, Drain(x, Feed(c, fragments[0])), fragments[1..])
  {
    hide Coupled, Drain, Potential;
    FeedCoupled(c, fragments[0]);
  }

  lemma UnacceptedNow(x: Externals, c: Conn, rest: bytes)
    requires Unaccepted(x, c, rest)
    ensures if SectionEnd(c.input, c.reader == AwaitHead).None? then !Verdict(x, c).Complete?
            else Verdict(x, c).Invalid? && Verdict(x, c) == Verdict(x, Feed(c, rest))
  {
    hide Verdict, SectionEnd;
    assert rest[..0] == [];
    assert Feed(c, rest[..0]) == c;
  }

  lemma UnacceptedLater(x: Externals, c: Conn, first: bytes, rest: bytes, d: Conn)
    requires Unaccepted(x, c, first + rest)
    requires d.role == c.role && d.limits == c.limits && d.reader == c.reader && d.input == c.input + first
    ensures Unaccepted(x, d, rest)
  {
    hide SectionEnd;
    VerdictOf(x, Feed(c, first + rest), Feed(d, rest));
    forall k | 0 <= k <= |rest|
      ensures var p := Feed(d, rest[..k]);
        if SectionEnd(p.input, d.reader == AwaitHead).None? then !Verdict(x, p).Complete?
        else Verdict(x, p).Invalid? && Verdict(x, p) == Verdict(x, Feed(d, rest))
    {
      hide Verdict;
      var n := |first| + k;
      assert (first + rest)[..n] == first + rest[..k];
      assert Feed(c, (first + rest)[..n]).input == Feed(d, rest[..k]).input;
      VerdictOf(x, Feed(c, (first + rest)[..n]), Feed(d, rest[..k]));
    }
  }

  /** The verdict is on the bytes, at this end, within these limits. */
  lemma VerdictOf(x: Externals, c: Conn, d: Conn)
    requires d.role == c.role && d.limits == c.limits && d.reader == c.reader && d.input == c.input
    ensures Verdict(x, d) == Verdict(x, c)
  {
    hide ParseRequest, ParseResponse, ParseTrailers;
  }

  /** The state after a report. */
  function Reported(c: Conn, o: Outcome): Conn {
    if o.Failed? then Poisoning(c) else c
  }

  lemma ConcatTail(rest: seq<bytes>)
    requires rest != []
    ensures Concat(rest) == rest[0] + Concat(rest[1..])
  {
  }

  lemma FeedsAlike(c: Conn, o: Outcome, more: bytes)
    ensures Feed(Reported(c, o), more) == Reported(Feed(c, more), o)
    ensures Forget(Feed(c, more)) == Feed(Forget(c), more)
  {
    hide L.Poison;
  }

  /** A failing first look decides the report. */
  lemma ReportAtOnce(x: Externals, c: Conn, rest: seq<bytes>)
    requires Effective(x, c).Partial? ==> SectionEnd(c.input, c.reader == AwaitHead).None?
    requires !Effective(x, c).Complete?
    ensures Diagnosis(x, c).Failed? ==> Report(x, c, rest) == Diagnosis(x, c)
    ensures rest == [] ==> Report(x, c, rest) == Diagnosis(x, c)
  {
    hide Effective, SectionEnd, Verdict;
    assert rest == [] ==> Feed(c, Concat(rest)) == c;
  }

  lemma EndStays(data: bytes, more: bytes, skip: bool)
    ensures SectionEnd(data, skip).Some? ==> SectionEnd(data + more, skip).Some?
  {
    hide SectionEnd;
    if SectionEnd(data, skip).Some? {
      SectionEndStable(data, more, skip);
    }
  }

  /** Otherwise the next fragment does, or a later one. */
  lemma ReportLater(x: Externals, c: Conn, d: Conn, rest: seq<bytes>)
    requires rest != [] && Diagnosis(x, c) == NeedData && SectionEnd(c.input, c.reader == AwaitHead).None?
    requires d == Feed(c, rest[0]).(progress := d.progress) && d.progress.Some?
    requires Unaccepted(x, d, Concat(rest[1..]))
    ensures Report(x, c, rest) == Report(x, d, rest[1..])
  {
    hide SectionEnd, Verdict, Unaccepted;
    var skip := c.reader == AwaitHead;
    ConcatTail(rest);
    var more := Concat(rest[1..]);
    assert c.input + (rest[0] + more) == d.input + more;
    VerdictOf(x, Feed(c, Concat(rest)), Feed(d, more));
    UnacceptedNow(x, d, more);
    EndStays(d.input, more, skip);
    var limit := c.limits.maxHeadBytes;
    assert Overruns(limit, skip, c.input, rest) <==> Overruns(limit, skip, d.input, rest[1..]);
    assert Feed(c, Concat(rest)).input == Feed(d, more).input;
    if SectionEnd(d.input, skip).Some? {
      assert !Overruns(limit, skip, d.input, rest[1..]);
      assert SectionEnd(Feed(c, Concat(rest)).input, skip).Some?;
    }
  }

  lemma EffectiveNow(x: Externals, c: Conn)
    requires if SectionEnd(c.input, c.reader == AwaitHead).None? then !Verdict(x, c).Complete? else Verdict(x, c).Invalid?
    ensures !Effective(x, c).Complete? && (Effective(x, c).Partial? ==> SectionEnd(c.input, c.reader == AwaitHead).None?)
    ensures Diagnosis(x, c) == NeedData ==> SectionEnd(c.input, c.reader == AwaitHead).None?
  {
    hide SectionEnd, Verdict;
  }

  lemma ToldFails(role: L.Role, o: Outcome)
    ensures Told(role, o).Failed? <==> o.Failed?
  {
  }

  lemma NothingFed(c: Conn)
    ensures Feed(c, Concat([])) == c
  {
  }

  lemma FeedIs(c: Conn, more: bytes)
    ensures Feed(c, more) == c.(input := c.input + more)
  {
  }

  lemma ReportedIs(c: Conn, o: Outcome)
    ensures Reported(c, o) == if o.Failed? then Poisoning(c) else c
  {
    hide Poisoning;
  }

  lemma OnwardIs(x: Externals, a: Drained, rest: seq<bytes>)
    requires Coupled(a.conn) && !a.conn.eof && (rest != [] ==> Fragments(rest))
    ensures rest == [] ==> Onward(x, a, rest) == a
    ensures rest != [] && a.outcome.Failed? ==> Onward(x, a, rest) == a.(conn := Feed(a.conn, Concat(rest)))
    ensures rest != [] && !a.outcome.Failed? && a.events == [] ==> Onward(x, a, rest) == FeedAll(x, a.conn, rest)
  {
    hide FeedAll, Feed, Concat, Coupled, Fragments;
    if rest != [] && !a.outcome.Failed? && a.events == [] {
      assert [] + FeedAll(x, a.conn, rest).events == FeedAll(x, a.conn, rest).events;
    }
  }

  lemma AtSectionFed(c: Conn, more: bytes)
    requires AtSection(c) && more != []
    ensures AtSection(Feed(c, more)) && Feed(c, more).progress == c.progress
  {
    hide Coupled;
    FeedCoupled(c, more);
  }

  lemma FedOnForgets(c: Conn, a: Conn, first: bytes, rest: bytes)
    requires a == c.(progress := a.progress)
    ensures Forget(Feed(Feed(a, first), rest)) == Forget(Feed(c, first + rest))
  {
    assert (c.input + first) + rest == c.input + (first + rest);
  }

  /** Any cut of a section that is not accepted, from any first look. */
  lemma {:induction false} SectionReported(x: Externals, c: Conn, rest: seq<bytes>)
    requires AtSection(c) && HintOk(c) && Unaccepted(x, c, Concat(rest)) && (rest != [] ==> Fragments(rest))
    ensures var o := Report(x, c, rest);
      var b := Onward(x, Drain(x, c), rest);
      && b.events == [] && b.outcome == Told(c.role, o)
      && Forget(b.conn) == Reported(Forget(Feed(c, Concat(rest))), o)
    decreases |rest|
  {
    assert Coupled(c) && !c.eof;
    hide *;
    UnacceptedNow(x, c, Concat(rest));
    EffectiveNow(x, c);
    SectionDrain(x, c);
    SectionDiagnosis(x, c);
    ReportAtOnce(x, c, rest);
    var a := Drain(x, c);
    var o := Diagnosis(x, c);
    ToldFails(c.role, o);
    if rest == [] {
      NothingFed(c);
      OnwardIs(x, a, rest);
      ReportedIs(Forget(c), o);
      return;
    }
    if o.Failed? {
      OnwardIs(x, a, rest);
      ReportedIs(Forget(c), o);
      FeedsAlike(c, o, Concat(rest));
      FeedsAlike(Forget(c), o, Concat(rest));
      FeedsAlike(a.conn, o, Concat(rest));
      return;
    }
    var d := Feed(a.conn, rest[0]);
    OnwardIs(x, a, rest);
    AtSectionFed(a.conn, rest[0]);
    FeedingOn(x, a.conn, rest);
    FeedKeepsHint(a.conn, rest[0]);
    FeedIs(a.conn, rest[0]);
    FeedIs(c, rest[0]);
    ConcatTail(rest);
    UnacceptedLater(x, c, rest[0], Concat(rest[1..]), d);
    ReportLater(x, c, d, rest);
    SectionReported(x, d, rest[1..]);
    FedOnForgets(c, a.conn, rest[0], Concat(rest[1..]));
  }

  // ------------------------------------------------------------------
  // Heads
  // ------------------------------------------------------------------

  /** A connection that has seen nothing of the next head. */
  predicate BeforeHead(c: Conn) {
    AtSection(c) && c.reader == AwaitHead && c.progress.None? && c.input == []
  }

  /** What this cut of a head reports: the first fragment is what the parser sees
      before the end. */
  function HeadReport(x: Externals, c: Conn, fragments: seq<bytes>): Outcome
    requires fragments != []
  {
    Told(c.role, Report(x, Feed(c, fragments[0]), fragments[1..]))
  }

  lemma HeadReported(x: Externals, c: Conn, fragments: seq<bytes>)
    requires BeforeHead(c) && Fragments(fragments) && Unaccepted(x, c, Concat(fragments))
    ensures var o := HeadReport(x, c, fragments);
      var a := FeedAll(x, c, fragments);
      a.events == [] && a.outcome == o && Forget(a.conn) == Reported(Forget(Feed(c, Concat(fragments))), o)
  {
    assert Coupled(c) && !c.eof && HintOk(c) && AtSection(c);
    hide *;
    var d := Feed(c, fragments[0]);
    FragmentsAre(fragments);
    ConcatTail(fragments);
    FeedingOn(x, c, fragments);
    AtSectionFed(c, fragments[0]);
    FeedKeepsHint(c, fragments[0]);
    FeedIs(c, fragments[0]);
    UnacceptedLater(x, c, fragments[0], Concat(fragments[1..]), d);
    SectionReported(x, d, fragments[1..]);
    FeedTwice(c, fragments[0], Concat(fragments[1..]));
    HeadReportIs(x, c, fragments);
    ToldReported(Forget(Feed(c, Concat(fragments))), d.role, Report(x, d, fragments[1..]));
  }

  lemma FragmentsAre(fragments: seq<bytes>)
    requires Fragments(fragments)
    ensures fragments != [] && fragments[0] != [] && (fragments[1..] != [] ==> Fragments(fragments[1..]))
  {
  }

  lemma HeadReportIs(x: Externals, c: Conn, fragments: seq<bytes>)
    requires fragments != []
    ensures HeadReport(x, c, fragments) == Told(c.role, Report(x, Feed(c, fragments[0]), fragments[1..]))
  {
    hide Report;
  }

  lemma ToldReported(c: Conn, role: L.Role, o: Outcome)
    ensures Reported(c, Told(role, o)) == Reported(c, o)
  {
    hide Poisoning;
  }

  /**
   Heads and their fragments, exactly.  Whatever the parser, two cuts of a head
   that is incomplete or rejected come to the same if and only if they report the
   same, and what a cut reports is told by the verdict on its first fragment, by
   whether it leaves the head incomplete and too long, and by the verdict on the
   complete head.
   */
  lemma HeadCutsExactly(x: Externals, c: Conn, fragments: seq<bytes>, others: seq<bytes>)
    requires BeforeHead(c) && Fragments(fragments) && Fragments(others) && Concat(fragments) == Concat(others)
    requires Unaccepted(x, c, Concat(fragments))
    ensures FeedAll(x, c, fragments).outcome == HeadReport(x, c, fragments)
    ensures Alike(FeedAll(x, c, fragments), FeedAll(x, c, others)) <==>
      HeadReport(x, c, fragments) == HeadReport(x, c, others)
  {
    assert Coupled(c) && !c.eof;
    hide BeforeHead, Coupled, FeedAll, Fragments, Concat, Unaccepted, HeadReport, Reported, Trace, Forget;
    HeadReported(x, c, fragments);
    HeadReported(x, c, others);
  }

  /** A section that is not judged: awaited, or too long. */
  function Waiting(c: Conn): Outcome {
    if |c.input| > c.limits.maxHeadBytes then Overlong(c) else NeedData
  }

  lemma Unjudged(x: Externals, c: Conn)
    requires SectionEnd(c.input, c.reader == AwaitHead).None? && (c.progress.Some? || Verdict(x, c).Partial?)
    ensures Effective(x, c).Partial? && Diagnosis(x, c) == Waiting(c)
  {
    hide SectionEnd, Verdict;
  }

  lemma WaitingIs(c: Conn)
    ensures Waiting(c) == (if |c.input| > c.limits.maxHeadBytes then Overlong(c) else NeedData)
    ensures Waiting(c).Failed? || Waiting(c) == NeedData
  {
  }

  lemma WaitingOf(c: Conn, d: Conn)
    requires d == c.(progress := d.progress)
    ensures Waiting(d) == Waiting(c)
  {
  }

  lemma WaitingGrows(c: Conn, more: bytes)
    ensures Waiting(c).Failed? ==> Waiting(Feed(c, more)) == Waiting(c)
  {
  }

  /** An unjudged first piece keeps the whole unjudged until its end. */
  lemma AwaitedInPieces(x: Externals, c: Conn, v: bytes)
    requires AtSection(c) && HintOk(c) && v != [] && SectionEnd(c.input, c.reader == AwaitHead).None?
    requires SectionEnd(c.input + v, c.reader == AwaitHead).None? && (c.progress.Some? || Verdict(x, c).Partial?)
    ensures Fragments([v])
    ensures var a := Onward(x, Drain(x, c), [v]);
      var o := Waiting(Feed(c, v));
      a.events == [] && a.outcome == Told(c.role, o) && Forget(a.conn) == Reported(Forget(Feed(c, v)), o)
  {
    assert Coupled(c) && !c.eof;
    hide *;
    InTwo(v, v);
    Unjudged(x, c);
    SectionDrain(x, c);
    WaitingIs(c);
    var a := Drain(x, c);
    ToldFails(c.role, Waiting(c));
    OnwardIs(x, a, [v]);
    if Waiting(c).Failed? {
      WaitingGrows(c, v);
      ReportedIs(Forget(c), Waiting(c));
      FeedsAlike(c, Waiting(c), v);
      FeedsAlike(Forget(c), Waiting(c), v);
      FeedsAlike(a.conn, Waiting(c), v);
      return;
    }
    AtSectionFed(a.conn, v);
    FeedKeepsHint(a.conn, v);
    FeedingOn(x, a.conn, [v]);
    FeedIs(a.conn, v);
    FeedIs(c, v);
    LookedAtOnce(x, Feed(a.conn, v));
    Unjudged(x, Feed(a.conn, v));
    WaitingOf(Feed(c, v), Feed(a.conn, v));
    FedOnForgets(c, a.conn, v, []);
    NothingMore(Feed(a.conn, v), Feed(c, v), v);
  }

  lemma NothingMore(c: Conn, d: Conn, v: bytes)
    ensures Feed(c, []) == c && Feed(d, []) == d && v + [] == v
  {
  }

  /** What is not accepted at one look. */
  lemma LookedAtOnce(x: Externals, c: Conn)
    requires AtSection(c) && HintOk(c) && SectionEnd(c.input, c.reader == AwaitHead).None? && !Effective(x, c).Complete?
    ensures var a := Onward(x, Drain(x, c), []);
      var o := Diagnosis(x, c);
      a.events == [] && a.outcome == Told(c.role, o) && Forget(a.conn) == Reported(Forget(c), o)
  {
    assert Coupled(c) && !c.eof;
    hide *;
    SectionDrain(x, c);
    OnwardIs(x, Drain(x, c), []);
    ReportedIs(Forget(c), Diagnosis(x, c));
  }

  /** The section is complete, or not judged, or judged as one too long would be. */
  predicate SectionUndisturbing(x: Externals, c: Conn) {
    || SectionEnd(c.input, c.reader == AwaitHead).Some?
    || Verdict(x, c).Partial?
    || (|c.input| > c.limits.maxHeadBytes && Verdict(x, c).Invalid?
        && Told(c.role, Failed(Verdict(x, c).status)) == Told(c.role, Overlong(c)))
  }

  /** A section awaited after its first piece, against the same bytes at once. */
  lemma SectionCutInTwo(x: Externals, c: Conn, v: bytes)
    requires AtSection(c) && c.progress.None? && v != []
    requires SectionEnd(c.input + v, c.reader == AwaitHead).None? && Verdict(x, c).Partial?
    ensures Coupled(Drain(x, c).conn) && !Drain(x, c).conn.eof && Fragments([v])
    ensures Alike(Onward(x, Drain(x, c), [v]), Drain(x, Feed(c, v))) <==> SectionUndisturbing(x, Feed(c, v))
    ensures |c.input + v| <= c.limits.maxHeadBytes ==> Onward(x, Drain(x, c), [v]).outcome == NeedData
    ensures var verdict := Verdict(x, Feed(c, v));
      verdict.Invalid? ==> Drain(x, Feed(c, v)).outcome == Told(c.role, Failed(verdict.status))
  {
    assert HintOk(c) && Coupled(c) && !c.eof;
    hide *;
    var w := Feed(c, v);
    FeedIs(c, v);
    AtSectionFed(c, v);
    FeedKeepsHint(c, v);
    EndStays(c.input, v, c.reader == AwaitHead);
    AwaitedInPieces(x, c, v);
    UnhintedVerdict(x, w);
    WaitingIs(w);
    NeedDataTold(c.role);
    if Verdict(x, w).Complete? {
      CompletedSection(x, w);
      Disturbed(x, w, Onward(x, Drain(x, c), [v]), Drain(x, w));
    } else {
      LookedAtOnce(x, w);
      OnwardIs(x, Drain(x, w), []);
      ToldApart(x, w, Onward(x, Drain(x, c), [v]), Drain(x, w));
      DiagnosisIs(x, w);
    }
  }

  lemma DiagnosisIs(x: Externals, c: Conn)
    ensures Effective(x, c).Invalid? ==> Diagnosis(x, c) == Failed(Effective(x, c).status)
  {
    hide Effective;
  }

  lemma NeedDataTold(role: L.Role)
    ensures Told(role, NeedData) == NeedData
  {
  }

  lemma UnhintedVerdict(x: Externals, c: Conn)
    requires c.progress.None?
    ensures Effective(x, c) == Verdict(x, c)
  {
    hide Verdict, SectionEnd;
  }

  lemma Disturbed(x: Externals, c: Conn, a: Drained, b: Drained)
    requires Verdict(x, c).Complete? && SectionEnd(c.input, c.reader == AwaitHead).None?
    requires Forget(a.conn) == Reported(Forget(c), Waiting(c)) && |b.conn.input| < |c.input|
    ensures !SectionUndisturbing(x, c) && !Alike(a, b)
  {
    hide Verdict, SectionEnd, Waiting, L.Poison;
  }

  lemma ToldApart(x: Externals, c: Conn, a: Drained, b: Drained)
    requires c.progress.None? && !Verdict(x, c).Complete? && SectionEnd(c.input, c.reader == AwaitHead).None?
    requires a.events == [] && a.outcome == Told(c.role, Waiting(c)) && Forget(a.conn) == Reported(Forget(c), Waiting(c))
    requires b.events == [] && b.outcome == Told(c.role, Diagnosis(x, c))
    requires Forget(b.conn) == Reported(Forget(c), Diagnosis(x, c))
    ensures Alike(a, b) <==> SectionUndisturbing(x, c)
  {
    hide Verdict, SectionEnd, Poisoning, Forget, Trace;
  }

  /** In particular: a head awaited after its first piece, against the same bytes at once. */
  lemma HeadCutInTwo(x: Externals, c: Conn, u: bytes, v: bytes)
    requires BeforeHead(c) && u != [] && v != [] && SectionEnd(u + v, true).None? && HeadVerdict(x, Feed(c, u)).Partial?
    ensures Fragments([u, v]) && Fragments([u + v])
    ensures Alike(FeedAll(x, c, [u, v]), FeedAll(x, c, [u + v])) <==> Undisturbing(x, Feed(c, u + v))
    ensures |u + v| <= c.limits.maxHeadBytes ==> FeedAll(x, c, [u, v]).outcome == NeedData
    ensures var verdict := HeadVerdict(x, Feed(c, u + v));
      verdict.Invalid? ==> FeedAll(x, c, [u + v]).outcome == Told(c.role, Failed(verdict.status))
  {
    assert AtSection(c) && Coupled(c) && !c.eof && c.reader == AwaitHead && c.progress.None? && c.input == [];
    hide *;
    InTwo(u, v);
    FeedIs(c, u);
    FeedIs(c, u + v);
    assert c.input + u == u && c.input + (u + v) == u + v;
    AtSectionFed(c, u);
    FeedingOn(x, c, [u, v]);
    FeedingOn(x, c, [u + v]);
    HeadUndisturbed(x, Feed(c, u));
    HeadUndisturbed(x, Feed(c, u + v));
    FeedTwice(c, u, v);
    SectionCutInTwo(x, Feed(c, u), v);
    NothingOnward(x, Feed(c, u + v));
  }

  lemma HeadUndisturbed(x: Externals, c: Conn)
    requires c.reader == AwaitHead
    ensures Verdict(x, c) == HeadVerdict(x, c) && (SectionUndisturbing(x, c) <==> Undisturbing(x, c))
  {
    hide HeadVerdict, SectionEnd;
  }

  /** A single fragment is drained and nothing more. */
  lemma NothingOnward(x: Externals, c: Conn)
    requires Coupled(c) && !c.eof
    ensures Coupled(Drain(x, c).conn) && !Drain(x, c).conn.eof && Onward(x, Drain(x, c), []) == Drain(x, c)
  {
    hide Coupled, Drain;
  }

  lemma InTwo(u: bytes, v: bytes)
    requires u != [] && v != []
    ensures Fragments([u, v]) && Fragments([u + v]) && Fragments([v])
    ensures [u, v][1..] == [v] && [v][1..] == [] && [u + v][1..] == [] && Concat([v]) == v
  {
    assert [v][1..] == [] && v + [] == v;
  }

  /** A section the parser completes is consumed, or at least not left whole. */
  lemma CompletedSection(x: Externals, c: Conn)
    requires AtSection(c) && c.progress.None? && Verdict(x, c).Complete?
    ensures |Drain(x, c).conn.input| < |c.input|
  {
    assert Coupled(c);
    hide Coupled, NextInner, ReadHead, ReadTrailers, HeadVerdict, Drain, Potential, L.Poison, ParseTrailers, AtSection,
         FinishPeer;
    SectionPoll(x, c);
    if c.reader == AwaitHead {
      UnsearchedHead(x, c);
    } else {
      ReadTrailersIs(x, c);
    }
    DrainStep(x, c);
    if Reports(Next(x, c).outcome) {
      DrainReadsOn(x, Next(x, c).conn);
    }
  }

  lemma {:induction false} DrainReadsOn(x: Externals, c: Conn)
    requires Coupled(c)
    ensures ReadsOn(c, Drain(x, c).conn)
    decreases Potential(c)
  {
    hide Coupled, Next, Drain, Potential, ReadsOn;
    DrainStep(x, c);
    NextReadsOn(x, c);
    if Reports(Next(x, c).outcome) {
      DrainReadsOn(x, Next(x, c).conn);
      ReadsOnTransitive(c, Next(x, c).conn, Drain(x, Next(x, c).conn).conn);
    }
  }
}
