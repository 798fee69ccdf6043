/**
 Incremental scans over the receive buffer (crates/h11r/src/wire.rs `find_crlf`,
 `incomplete_line_len`, `SectionProgress`).  Each scan may resume from a saved
 hint; resuming is proved to find exactly what a scan from the start finds.
 */
module Scan {
  import opened Prelude
  import opened Bytes

  // ------------------------------------------------------------------
  // Chunk lines
  // ------------------------------------------------------------------

  predicate CrlfAt(data: bytes, i: nat) {
    i + 1 < |data| && data[i] == '\r' && data[i + 1] == '\n'
  }

  /** The position just after the first CRLF at or after `start`. */
  function FindCrlf(data: bytes, start: nat): (end: Option<nat>)
    ensures end.Some? ==> start + 2 <= end.value <= |data|
    decreases |data| - start
  {
    if start + 2 > |data| then None
    else if CrlfAt(data, start) then Some(start + 2)
    else FindCrlf(data, start + 1)
  }

  /** Bytes of an unfinished line, not counting a CR that may begin its CRLF. */
  function IncompleteLineLen(data: bytes): nat {
    if data != [] && data[|data| - 1] == '\r' then |data| - 1 else |data|
  }

  lemma {:induction false} FindCrlfIsFirst(data: bytes, start: nat)
    ensures FindCrlf(data, start).None? ==> forall i :: start <= i ==> !CrlfAt(data, i)
    ensures FindCrlf(data, start).Some? ==>
      var end := FindCrlf(data, start).value;
      CrlfAt(data, end - 2) && forall i :: start <= i < end - 2 ==> !CrlfAt(data, i)
    decreases |data| - start
  {
    if start + 2 <= |data| && !CrlfAt(data, start) {
      FindCrlfIsFirst(data, start + 1);
    }
  }

  /** The first CRLF is found at `end` exactly when it is there and none is earlier. */
  lemma FindCrlfUnique(data: bytes, start: nat, end: nat)
    requires start + 2 <= end && CrlfAt(data, end - 2)
    requires forall i :: start <= i < end - 2 ==> !CrlfAt(data, i)
    ensures FindCrlf(data, start) == Some(end)
  {
    FindCrlfIsFirst(data, start);
    assert CrlfAt(data, end - 2);
  }

  /** A hint that skips no CRLF does not change what is found. */
  predicate HintSound(data: bytes, scanned: nat) {
    forall i :: 0 <= i < scanned ==> !CrlfAt(data, i)
  }

  lemma ResumedSearch(data: bytes, scanned: nat)
    requires HintSound(data, scanned)
    ensures FindCrlf(data, scanned) == FindCrlf(data, 0)
  {
    FindCrlfIsFirst(data, scanned);
    FindCrlfIsFirst(data, 0);
  }

  /** The hint saved by a failed search survives any further input. */
  lemma SavedHintIsSound(data: bytes, more: bytes)
    requires FindCrlf(data, 0).None?
    ensures HintSound(data + more, if |data| == 0 then 0 else |data| - 1)
  {
    FindCrlfIsFirst(data, 0);
    forall i | 0 <= i < |data| - 1
      ensures !CrlfAt(data + more, i)
    {
      assert !CrlfAt(data, i);
    }
  }

  // ------------------------------------------------------------------
  // Field sections
  // ------------------------------------------------------------------

  /** How far an incomplete field section has been searched. */
  datatype RawProgress = Progress(at: nat, lineStart: nat, started: bool)

  type Progress = p: RawProgress | p.lineStart <= p.at witness Progress(0, 0, false)

  const FRESH: Progress := Progress(0, 0, false)

  predicate BlankLine(line: bytes) {
    line == [] || line == "\r"
  }

  datatype Polled = Polled(progress: Progress, end: Option<nat>)

  /** Resumes the search; reports the end of the first field section it completes. */
  function PollFrom(p: Progress, data: bytes, skipLeadingEmpty: bool): (r: Polled)
    ensures p.at <= |data| ==> r.progress.at <= |data|
    ensures r.end.Some? ==> p.at < r.end.value <= |data|
    decreases |data| - p.at
  {
    if p.at >= |data| then Polled(p, None)
    else
      var at := p.at + 1;
      if data[at - 1] != '\n' then PollFrom(p.(at := at), data, skipLeadingEmpty)
      else if !BlankLine(data[p.lineStart..at - 1]) then PollFrom(Progress(at, at, true), data, skipLeadingEmpty)
      else if p.started || !skipLeadingEmpty then Polled(Progress(at, at, p.started), Some(at))
      else PollFrom(Progress(at, at, p.started), data, skipLeadingEmpty)
  }

  /** The scanner object: its state advances with every poll. */
  class SectionProgress {
    var at: nat
    var lineStart: nat
    var started: bool

    ghost predicate Valid()
      reads this
    {
      lineStart <= at
    }

    function Value(): Progress
      requires Valid()
      reads this
    {
      Progress(at, lineStart, started)
    }

    constructor ()
      ensures Valid() && Value() == FRESH
    {
      at, lineStart, started := 0, 0, false;
    }

    method Poll(data: bytes, skipLeadingEmpty: bool) returns (end: Option<nat>)
      requires Valid()
      modifies this
      ensures Valid()
      ensures Polled(Value(), end) == PollFrom(old(Value()), data, skipLeadingEmpty)
    {
      while at < |data|
        invariant Valid()
        invariant PollFrom(Value(), data, skipLeadingEmpty) == PollFrom(old(Value()), data, skipLeadingEmpty)
        decreases |data| - at
      {
        at := at + 1;
        if data[at - 1] == '\n' {
          var line := data[lineStart..at - 1];
          var empty := BlankLine(line);
          lineStart := at;
          if empty {
            if started || !skipLeadingEmpty {
              return Some(at);
            }
          } else {
            started := true;
          }
        }
      }
      return None;
    }
  }

  // What a section end is, without reference to a scan.

  /** The line terminated at `e` is empty, or a lone CR. */
  predicate BlankEndsAt(data: bytes, e: nat) {
    && 0 < e <= |data| && data[e - 1] == '\n'
    && (|| e == 1 || data[e - 2] == '\n'
        || (data[e - 2] == '\r' && (e == 2 || data[e - 3] == '\n')))
  }

  predicate FieldEndsAt(data: bytes, e: nat) {
    0 < e <= |data| && data[e - 1] == '\n' && !BlankEndsAt(data, e)
  }

  /** Some non-empty line is complete within the first `n` bytes. */
  ghost predicate Begun(data: bytes, n: nat) {
    exists k :: 0 < k <= n && FieldEndsAt(data, k)
  }

  ghost predicate SectionEndsAt(data: bytes, e: nat, skipLeadingEmpty: bool) {
    BlankEndsAt(data, e) && (skipLeadingEmpty ==> Begun(data, e - 1))
  }

  ghost predicate NoEndUpTo(data: bytes, n: nat, skipLeadingEmpty: bool) {
    forall e :: 0 < e <= n ==> !SectionEndsAt(data, e, skipLeadingEmpty)
  }

  /** A progress value reached by scanning a prefix of `data` without success. */
  ghost predicate InStep(p: Progress, data: bytes, skipLeadingEmpty: bool) {
    && p.at <= |data|
    && (p.lineStart == 0 || data[p.lineStart - 1] == '\n')
    && (forall i :: p.lineStart <= i < p.at ==> data[i] != '\n')
    && (p.started <==> Begun(data, p.at))
    && NoEndUpTo(data, p.at, skipLeadingEmpty)
  }

  lemma LineIsBlank(p: Progress, data: bytes, skipLeadingEmpty: bool)
    requires InStep(p, data, skipLeadingEmpty) && p.at < |data| && data[p.at] == '\n'
    ensures BlankLine(data[p.lineStart..p.at]) <==> BlankEndsAt(data, p.at + 1)
  {
    var line := data[p.lineStart..p.at];
    if |line| >= 2 {
      assert data[p.at - 1] != '\n' && data[p.at - 2] != '\n';
    } else if |line| == 1 {
      assert data[p.at - 1] == line[0];
      assert line == [line[0]];
    }
  }

  lemma BegunStep(data: bytes, n: nat)
    ensures Begun(data, n + 1) <==> Begun(data, n) || FieldEndsAt(data, n + 1)
  {
    if Begun(data, n + 1) && !FieldEndsAt(data, n + 1) {
      var k :| 0 < k <= n + 1 && FieldEndsAt(data, k);
      assert k <= n;
    }
  }

  /** Reading one more byte keeps the scan in step. */
  lemma StepWithinLine(p: Progress, data: bytes, skip: bool)
    requires InStep(p, data, skip) && p.at < |data| && data[p.at] != '\n'
    ensures InStep(p.(at := p.at + 1), data, skip)
  {
    BegunStep(data, p.at);
  }

  lemma StepOverLine(p: Progress, data: bytes, skip: bool)
    requires InStep(p, data, skip) && p.at < |data| && data[p.at] == '\n'
    ensures var at := p.at + 1;
      var blank := BlankLine(data[p.lineStart..p.at]);
      if blank && (p.started || !skip) then SectionEndsAt(data, at, skip)
      else InStep(Progress(at, at, p.started || !blank), data, skip)
  {
    LineIsBlank(p, data, skip);
    BegunStep(data, p.at);
  }

  lemma {:induction false} PollFindsFirst(p: Progress, data: bytes, skip: bool)
    requires InStep(p, data, skip)
    ensures var r := PollFrom(p, data, skip);
      match r.end
      case None => r.progress.at == |data| && InStep(r.progress, data, skip)
      case Some(e) => SectionEndsAt(data, e, skip) && NoEndUpTo(data, e - 1, skip)
    decreases |data| - p.at
  {
    hide *;
    StepBounds(p, data, skip);
    PollIs(p, data, skip);
    if p.at == |data| {
      return;
    }
    var at := p.at + 1;
    if data[p.at] != '\n' {
      StepWithinLine(p, data, skip);
      PollFindsFirst(p.(at := at), data, skip);
      return;
    }
    StepOverLine(p, data, skip);
    var blank := BlankLine(data[p.lineStart..p.at]);
    if !(blank && (p.started || !skip)) {
      PollFindsFirst(Progress(at, at, p.started || !blank), data, skip);
    }
  }

  /** One byte of the search. */
  lemma PollIs(p: Progress, data: bytes, skip: bool)
    requires p.at <= |data|
    ensures p.at == |data| ==> PollFrom(p, data, skip) == Polled(p, None)
    ensures p.at < |data| && data[p.at] != '\n' ==> PollFrom(p, data, skip) == PollFrom(p.(at := p.at + 1), data, skip)
    ensures p.at < |data| && data[p.at] == '\n' ==>
      var at := p.at + 1;
      var blank := BlankLine(data[p.lineStart..p.at]);
      PollFrom(p, data, skip) ==
      if blank && (p.started || !skip) then Polled(Progress(at, at, p.started), Some(at))
      else PollFrom(Progress(at, at, p.started || !blank), data, skip)
  {
    hide BlankLine;
  }

  lemma StepBounds(p: Progress, data: bytes, skip: bool)
    requires InStep(p, data, skip)
    ensures p.at <= |data| && NoEndUpTo(data, p.at, skip)
  {
  }

  lemma ExtendProgress(p: Progress, data: bytes, more: bytes, skip: bool)
    requires InStep(p, data, skip)
    ensures InStep(p, data + more, skip)
  {
    forall e | 0 < e <= p.at
      ensures BlankEndsAt(data + more, e) == BlankEndsAt(data, e)
      ensures FieldEndsAt(data + more, e) == FieldEndsAt(data, e)
    {
    }
    assert Begun(data + more, p.at) <==> Begun(data, p.at);
    forall e | 0 < e <= p.at
      ensures !SectionEndsAt(data + more, e, skip)
    {
      assert !SectionEndsAt(data, e, skip);
      if Begun(data + more, e - 1) {
        var k :| 0 < k <= e - 1 && FieldEndsAt(data + more, k);
        assert FieldEndsAt(data, k);
      }
    }
  }

  /** The end of the first field section, found by a scan from the start. */
  function SectionEnd(data: bytes, skipLeadingEmpty: bool): (end: Option<nat>)
    ensures end.Some? ==> 0 < end.value <= |data|
  {
    PollFrom(FRESH, data, skipLeadingEmpty).end
  }

  lemma FreshInStep(data: bytes, skip: bool)
    ensures InStep(FRESH, data, skip)
  {
  }

  /** The scan from the start finds the least section end, if there is one. */
  lemma SectionEndIsFirst(data: bytes, skip: bool)
    ensures SectionEnd(data, skip).None? ==> NoEndUpTo(data, |data|, skip)
    ensures SectionEnd(data, skip).Some? ==>
      SectionEndsAt(data, SectionEnd(data, skip).value, skip) && NoEndUpTo(data, SectionEnd(data, skip).value - 1, skip)
  {
    FreshInStep(data, skip);
    PollFindsFirst(FRESH, data, skip);
  }

  lemma SectionEndUnique(data: bytes, skip: bool, e: nat)
    requires SectionEndsAt(data, e, skip) && NoEndUpTo(data, e - 1, skip)
    ensures SectionEnd(data, skip) == Some(e)
  {
    SectionEndIsFirst(data, skip);
  }

  /**
   Resuming refines starting over.  When every earlier poll, over shorter
   buffers, found nothing, the resumed poll reports an end exactly when, and
   where, a fresh poll of the whole buffer does; when it reports none it is
   again ready to be resumed on any longer buffer.
   */
  lemma ResumedPoll(p: Progress, data: bytes, skip: bool, more: bytes)
    requires InStep(p, data, skip)
    ensures PollFrom(p, data, skip).end == SectionEnd(data, skip)
    ensures PollFrom(p, data, skip).end.None? ==> InStep(PollFrom(p, data, skip).progress, data + more, skip)
  {
    PollFindsFirst(p, data, skip);
    SectionEndIsFirst(data, skip);
    var r := PollFrom(p, data, skip);
    match r.end {
      case None =>
        ExtendProgress(r.progress, data, more, skip);
      case Some(e) => SectionEndUnique(data, skip, e);
    }
  }

  /** More input does not move a section end that has been found. */
  lemma SectionEndStable(data: bytes, more: bytes, skip: bool)
    requires SectionEnd(data, skip).Some?
    ensures SectionEnd(data + more, skip) == SectionEnd(data, skip)
  {
    SectionEndIsFirst(data, skip);
    var e := SectionEnd(data, skip).value;
    SectionPrefix(data, more, e, skip);
    forall f | 0 < f <= e - 1
      ensures !SectionEndsAt(data + more, f, skip)
    {
      SectionPrefix(data, more, f, skip);
    }
    SectionEndUnique(data + more, skip, e);
  }

  lemma SectionPrefix(data: bytes, more: bytes, e: nat, skip: bool)
    requires e <= |data|
    ensures SectionEndsAt(data + more, e, skip) <==> SectionEndsAt(data, e, skip)
  {
    assert forall k :: 0 < k <= e ==> (BlankEndsAt(data + more, k) <==> BlankEndsAt(data, k));
    assert forall k :: 0 < k <= e ==> (FieldEndsAt(data + more, k) <==> FieldEndsAt(data, k));
    assert e > 0 ==> (Begun(data + more, e - 1) <==> Begun(data, e - 1));
  }
}
