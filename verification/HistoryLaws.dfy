/**
 What the book means for every run: how requests are separated, when a
 connection is no longer reused, how much content a declared length allows, and
 in which order a protocol switch comes about.
 */
module HistoryLaws {
  import opened Prelude
  import opened Bytes
  import opened Fields
  import opened Heads
  import opened ConnectionModel
  import opened Coupling
  import opened History
  import L = Lifecycle

  /** The history of a run of calls on a new connection. */
  function RunHistory(x: Externals, role: L.Role, limits: Limits, calls: seq<Call>): seq<Fact> {
    HistoryOf(x, New(role, limits), calls)
  }

  lemma RunIsAllowed(x: Externals, role: L.Role, limits: Limits, calls: seq<Call>)
    ensures AllowsAll(BLANK, RunHistory(x, role, limits, calls))
  {
    NewIsCoupled(role, limits);
    NewIsTracked(role, limits);
    hide Coupled, Tracks, HistoryOf;
    EveryRunIsAllowed(x, BLANK, New(role, limits), calls);
  }

  lemma {:induction false} AllowedSuffix(b: Book, h: seq<Fact>, i: nat)
    requires AllowsAll(b, h) && i <= |h|
    ensures AllowsAll(Books(b, h[..i]), h[i..])
    decreases i
  {
    hide Allows, Enter;
    if i > 0 {
      AllowedSuffix(Enter(b, h[0]), h[1..], i - 1);
      assert h[..i][1..] == h[1..][..i - 1];
      assert h[i..] == h[1..][i - 1..];
    } else {
      assert h[0..] == h;
    }
  }

  predicate NoCycle(h: seq<Fact>) {
    forall i :: 0 <= i < |h| ==> h[i] != Cycled
  }

  lemma NoCycleTail(h: seq<Fact>, j: nat)
    requires 0 < j <= |h| && NoCycle(h[..j])
    ensures NoCycle(h[1..][..j - 1])
  {
    var tail := h[1..][..j - 1];
    forall i | 0 <= i < |tail|
      ensures tail[i] != Cycled
    {
      assert h[..j][i + 1] == h[i + 1];
    }
  }

  // ------------------------------------------------------------------
  // Requests are separated by complete exchanges
  // ------------------------------------------------------------------

  // One fact against the book.

  lemma AllowsHead(b: Book, h: seq<Fact>)
    requires AllowsAll(b, h) && h != []
    ensures Allows(b, h[0]) && AllowsAll(Enter(b, h[0]), h[1..])
  {
    hide Allows, Enter;
  }

  lemma RequestNeedsCycle(b: Book, f: Fact)
    requires Allows(b, f) && b.client != NotBegun && f != Cycled
    ensures !f.Requested? && Enter(b, f).client != NotBegun
  {
    hide SelectFraming, FinalFraming, ProposedUpgrades, ExpectsContinue, Persistent, ValidUpgrade;
  }

  lemma UnderUntilEnded(b: Book, f: Fact, actor: L.Role)
    requires Allows(b, f) && b.Of(actor).Under? && f != Ended(actor)
    ensures f != Cycled && Enter(b, f).Of(actor).Under?
  {
    hide SelectFraming, FinalFraming, ProposedUpgrades, ExpectsContinue, Persistent, ValidUpgrade;
  }

  lemma ServerBegins(b: Book, f: Fact)
    requires Allows(b, f) && b.server == NotBegun
    ensures f != Cycled
    ensures Enter(b, f).server == NotBegun || (f.Responded? && Enter(b, f).server.Under?)
  {
    hide SelectFraming, FinalFraming, ProposedUpgrades, ExpectsContinue, Persistent, ValidUpgrade;
  }

  /** Once a request has begun, another one needs a new cycle first. */
  lemma {:induction false} CycleBeforeRequest(b: Book, h: seq<Fact>, k: nat) returns (j: nat)
    requires AllowsAll(b, h) && b.client != NotBegun && k < |h| && h[k].Requested?
    ensures j < k && h[j] == Cycled && NoCycle(h[..j])
    decreases k
  {
    hide Allows, Enter, AllowsAll;
    AllowsHead(b, h);
    if h[0] == Cycled {
      j := 0;
    } else {
      RequestNeedsCycle(b, h[0]);
      var i := CycleBeforeRequest(Enter(b, h[0]), h[1..], k - 1);
      j := i + 1;
      assert h[..j] == [h[0]] + h[1..][..i];
    }
  }

  /** A cycle ends only when the actor has ended the message under way. */
  lemma {:induction false} EndBeforeCycle(b: Book, h: seq<Fact>, j: nat, actor: L.Role) returns (e: nat)
    requires AllowsAll(b, h) && b.Of(actor).Under? && j < |h| && h[j] == Cycled && NoCycle(h[..j])
    ensures e < j && h[e] == Ended(actor)
    decreases j
  {
    hide Allows, Enter, AllowsAll;
    AllowsHead(b, h);
    if h[0] == Ended(actor) {
      e := 0;
    } else {
      UnderUntilEnded(b, h[0], actor);
      NoCycleTail(h, j);
      e := EndBeforeCycle(Enter(b, h[0]), h[1..], j - 1, actor);
      e := e + 1;
    }
  }

  /** A cycle ends only when the server has responded and ended its response. */
  lemma {:induction false} ResponseBeforeCycle(b: Book, h: seq<Fact>, j: nat) returns (r: nat, e: nat)
    requires AllowsAll(b, h) && b.server == NotBegun && j < |h| && h[j] == Cycled && NoCycle(h[..j])
    ensures r < e < j && h[r].Responded? && h[e] == Ended(L.Server)
    decreases j
  {
    hide Allows, Enter, AllowsAll;
    AllowsHead(b, h);
    ServerBegins(b, h[0]);
    NoCycleTail(h, j);
    var next := Enter(b, h[0]);
    if next.server != NotBegun {
      r := 0;
      e := EndBeforeCycle(next, h[1..], j - 1, L.Server);
      e := e + 1;
    } else {
      r, e := ResponseBeforeCycle(next, h[1..], j - 1);
      r, e := r + 1, e + 1;
    }
  }

  lemma RequestBegins(b: Book, f: Fact)
    requires Allows(b, f) && f.Requested?
    ensures Enter(b, f).client.Under? && Enter(b, f).server == NotBegun
  {
    hide SelectFraming, ProposedUpgrades, ExpectsContinue, Persistent;
  }

  /** Between two requests lie the end of the first, its final response, the
      end of that response and an explicit new cycle. */
  lemma RequestsSeparated(x: Externals, role: L.Role, limits: Limits, calls: seq<Call>, i: nat, k: nat)
      returns (clientEnd: nat, response: nat, serverEnd: nat, cycle: nat)
    requires var h := RunHistory(x, role, limits, calls);
      i < k < |h| && h[i].Requested? && h[k].Requested?
    ensures var h := RunHistory(x, role, limits, calls);
      && i < clientEnd < cycle < k && i < response < serverEnd < cycle
      && h[clientEnd] == Ended(L.Client) && h[response].Responded? && h[serverEnd] == Ended(L.Server)
      && h[cycle] == Cycled
  {
    hide RunHistory, Books, AllowsAll, Allows, Enter;
    var h := RunHistory(x, role, limits, calls);
    RunIsAllowed(x, role, limits, calls);
    AllowedSuffix(BLANK, h, i);
    var b, g := Books(BLANK, h[..i]), h[i..];
    assert g[0] == h[i] && g[k - i] == h[k];
    var after, rest := Enter(b, g[0]), g[1..];
    assert rest[k - i - 1] == h[k];
    AllowsHead(b, g);
    RequestBegins(b, g[0]);
    var j := CycleBeforeRequest(after, rest, k - i - 1);
    var e := EndBeforeCycle(after, rest, j, L.Client);
    var r, s := ResponseBeforeCycle(after, rest, j);
    clientEnd, response, serverEnd, cycle := e + i + 1, r + i + 1, s + i + 1, j + i + 1;
    assert forall n :: 0 <= n < |rest| ==> rest[n] == h[n + i + 1];
  }

  // ------------------------------------------------------------------
  // No reuse once a message forbids it
  // ------------------------------------------------------------------

  /** A message that gives up the connection: HTTP/1.0, a close option, a
      response before its request, a rejected CONNECT, a body that ends with
      the connection. */
  predicate GivesUp(b: Book, f: Fact) {
    match f
    case Requested(r) => !Persistent(r.version, r.headers)
    case Responded(r) =>
      || !Persistent(r.version, r.headers)
      || b.client == NotBegun
      || (b.kind == Some(ConnectKind) && !IsSuccess(r.status))
      || FinalFraming(b.kind, r) == Framed(CloseDelimited)
    case _ => false
  }

  /** After such a message no new cycle starts, however the run goes on. */
  lemma NoReuseAfterLoss(x: Externals, role: L.Role, limits: Limits, calls: seq<Call>, i: nat)
    requires var h := RunHistory(x, role, limits, calls);
      i < |h| && GivesUp(Books(BLANK, h[..i]), h[i])
    ensures NoCycle(RunHistory(x, role, limits, calls)[i + 1..])
  {
    hide RunHistory, SelectFraming, ResponseFraming, ProposedUpgrades, ExpectsContinue, Persistent;
    var h := RunHistory(x, role, limits, calls);
    RunIsAllowed(x, role, limits, calls);
    AllowedSuffix(BLANK, h, i);
    AllowedSuffix(BLANK, h, i + 1);
    assert h[i..][0] == h[i];
    BooksSnoc(BLANK, h, i);
    SwitchLeavesNoCycle(Books(BLANK, h[..i + 1]), h[i + 1..]);
  }

  /** No book that gave up reuse, or switched, allows a cycle. */
  lemma {:induction false} SwitchLeavesNoCycle(b: Book, h: seq<Fact>)
    requires AllowsAll(b, h) && (!b.persistent || b.switched)
    ensures NoCycle(h)
    decreases |h|
  {
    if h != [] {
      SwitchLeavesNoCycle(Enter(b, h[0]), h[1..]);
      assert forall i :: 0 < i < |h| ==> h[i] == h[1..][i - 1];
    }
  }

  /** Facts that switch protocols: a 101, or a successful answer to a CONNECT. */
  predicate Switches(b: Book, f: Fact) {
    || (f.Informed? && f.response.status == 101)
    || (f.Responded? && Connects(b.kind, f.response.status))
  }

  /** After a protocol switch no new cycle starts, however the run goes on. */
  lemma NoReuseAfterSwitch(x: Externals, role: L.Role, limits: Limits, calls: seq<Call>, i: nat)
    requires var h := RunHistory(x, role, limits, calls);
      i < |h| && Switches(Books(BLANK, h[..i]), h[i])
    ensures NoCycle(RunHistory(x, role, limits, calls)[i + 1..])
  {
    hide RunHistory, SelectFraming, ResponseFraming, ProposedUpgrades, ExpectsContinue, Persistent;
    var h := RunHistory(x, role, limits, calls);
    RunIsAllowed(x, role, limits, calls);
    AllowedSuffix(BLANK, h, i + 1);
    BooksSnoc(BLANK, h, i);
    SwitchLeavesNoCycle(Books(BLANK, h[..i + 1]), h[i + 1..]);
  }

  lemma {:induction false} BooksSnoc(b: Book, h: seq<Fact>, i: nat)
    requires i < |h|
    ensures Books(b, h[..i + 1]) == Enter(Books(b, h[..i]), h[i])
    decreases i
  {
    hide Enter;
    if i == 0 {
      assert h[..1][1..] == [];
      assert h[..0] == [];
    } else {
      BooksSnoc(Enter(b, h[0]), h[1..], i - 1);
      assert h[..i + 1][1..] == h[1..][..i];
      assert h[..i][1..] == h[1..][..i - 1];
    }
  }

  // ------------------------------------------------------------------
  // Content of declared length
  // ------------------------------------------------------------------

  /** The content an actor conveyed. */
  function ContentBytesOf(actor: L.Role, h: seq<Fact>): bytes {
    if h == [] then []
    else (if h[0].Conveyed? && h[0].actor == actor then h[0].data else []) + ContentBytesOf(actor, h[1..])
  }

  /** The length a head declares for its sender's content, if it does. */
  function Declared(b: Book, f: Fact): Option<nat> {
    match f
    case Requested(r) =>
      (var s := SelectFraming(r.headers, r.version);
       if s.Framed? && s.framing.Fixed? then Some(s.framing.length) else None)
    case Responded(r) =>
      (var s := FinalFraming(b.kind, r);
       if !Connects(b.kind, r.status) && s.Framed? && s.framing.Fixed? then Some(s.framing.length) else None)
    case _ => None
  }

  lemma EndIsExact(b: Book, actor: L.Role)
    requires Allows(b, Ended(actor)) && b.Of(actor).Under? && b.Of(actor).framing.Fixed?
    ensures b.Of(actor).size == b.Of(actor).framing.length
  {
  }

  /** What one fact adds to the content of a message under way. */
  lemma EntryAccounted(b: Book, f: Fact, actor: L.Role)
    requires Allows(b, f) && b.Of(actor).Under? && f != Ended(actor) && f != Cycled
    ensures Enter(b, f).Of(actor).Under? && Enter(b, f).Of(actor).framing == b.Of(actor).framing
    ensures Enter(b, f).Of(actor).size == b.Of(actor).size + if f.Conveyed? && f.actor == actor then |f.data| else 0
  {
    hide SelectFraming, FinalFraming, ProposedUpgrades, ExpectsContinue, Persistent, ValidUpgrade;
  }

  lemma {:induction false} ContentAccounted(b: Book, h: seq<Fact>, k: nat, actor: L.Role)
    requires AllowsAll(b, h) && k < |h| && h[k] == Ended(actor) && NoCycle(h[..k])
    requires b.Of(actor).Under? && b.Of(actor).framing.Fixed?
    requires forall i :: 0 <= i < k ==> h[i] != Ended(actor)
    ensures b.Of(actor).size + |ContentBytesOf(actor, h[..k])| == b.Of(actor).framing.length
    decreases k
  {
    hide Enter, Allows;
    if k == 0 {
      assert Allows(b, h[0]);
      EndIsExact(b, actor);
    } else {
      assert h[..k][0] == h[0] != Cycled;
      assert h[..k][1..] == h[1..][..k - 1];
      NoCycleTail(h, k);
      EntryAccounted(b, h[0], actor);
      ContentAccounted(Enter(b, h[0]), h[1..], k - 1, actor);
    }
  }

  /** A message with a declared length ends only after exactly that much
      content, whether it is sent or received. */
  lemma DeclaredLengthExact(x: Externals, role: L.Role, limits: Limits, calls: seq<Call>, i: nat, k: nat)
    requires var h := RunHistory(x, role, limits, calls);
      && i < k < |h| && Declared(Books(BLANK, h[..i]), h[i]).Some?
      && h[k] == Ended(if h[i].Requested? then L.Client else L.Server)
      && (forall n :: i < n < k ==> h[n] != h[k] && h[n] != Cycled)
    ensures var h := RunHistory(x, role, limits, calls);
      |ContentBytesOf(h[k].actor, h[i + 1..k])| == Declared(Books(BLANK, h[..i]), h[i]).value
  {
    hide RunHistory, SelectFraming, FinalFraming, ProposedUpgrades, ExpectsContinue, Persistent, ValidUpgrade;
    var h := RunHistory(x, role, limits, calls);
    RunIsAllowed(x, role, limits, calls);
    AllowedSuffix(BLANK, h, i);
    var b, g := Books(BLANK, h[..i]), h[i..];
    var after, rest := Enter(b, g[0]), g[1..];
    assert forall n :: 0 <= n < |rest| ==> rest[n] == h[n + i + 1];
    assert rest[..k - i - 1] == h[i + 1..k];
    ContentAccounted(after, rest, k - i - 1, h[k].actor);
  }

  // ------------------------------------------------------------------
  // Protocol switches
  // ------------------------------------------------------------------

  /** What one fact does to an offer that stands. */
  lemma OfferKept(b: Book, f: Fact)
    requires Allows(b, f) && f != Cycled && b.client != NotBegun && b.server == NotBegun && !b.switched
    ensures var next := Enter(b, f);
      && next.client != NotBegun
      && (f.Responded? ==> next.server != NotBegun || next.switched)
      && (!f.Responded? ==> next.server == NotBegun && next.offered == b.offered)
      && (b.owesContinue && !next.owesContinue && !f.Responded? ==> f.Informed? && f.response.status == 100)
      && (next.switched && !f.Responded? ==> f.Informed?)
  {
    hide SelectFraming, FinalFraming, ProposedUpgrades, ExpectsContinue, Persistent, ValidUpgrade;
  }

  lemma SwitchAllowed(b: Book, f: Fact)
    requires Allows(b, f) && f.Informed? && f.response.status == 101
    ensures ValidUpgrade(b.offered, f.response.version, f.response.headers) && !b.owesContinue
    ensures b.server == NotBegun && !b.switched
  {
    hide ValidUpgrade;
  }

  lemma NoneInformed(b: Book, f: Fact)
    requires Allows(b, f) && f != Cycled && (b.server != NotBegun || b.switched)
    ensures !f.Informed? && (Enter(b, f).server != NotBegun || Enter(b, f).switched)
  {
    hide SelectFraming, FinalFraming, ProposedUpgrades, ExpectsContinue, Persistent, ValidUpgrade;
  }

  lemma {:induction false} OfferStands(b: Book, h: seq<Fact>, k: nat) returns (m: nat)
    requires AllowsAll(b, h) && k < |h| && h[k].Informed? && h[k].response.status == 101
    requires NoCycle(h[..k]) && b.client != NotBegun
    ensures ValidUpgrade(b.offered, h[k].response.version, h[k].response.headers)
    ensures b.owesContinue ==> m < k && h[m].Informed? && h[m].response.status == 100
    decreases k
  {
    hide Allows, Enter, AllowsAll, ValidUpgrade;
    AllowsHead(b, h);
    if k == 0 {
      SwitchAllowed(b, h[0]);
      m := 0;
      return;
    }
    assert h[..k][0] == h[0] != Cycled;
    NoCycleTail(h, k);
    if b.server != NotBegun || b.switched {
      NoSwitchAfterResponse(b, h, k);
      return;
    }
    OfferKept(b, h[0]);
    if h[0].Responded? {
      NoSwitchAfterResponse(Enter(b, h[0]), h[1..], k - 1);
      return;
    }
    var n := OfferStands(Enter(b, h[0]), h[1..], k - 1);
    m := if b.owesContinue && !Enter(b, h[0]).owesContinue then 0 else n + 1;
  }

  lemma {:induction false} NoSwitchAfterResponse(b: Book, h: seq<Fact>, k: nat)
    requires AllowsAll(b, h) && k < |h| && NoCycle(h[..k]) && (b.server != NotBegun || b.switched)
    ensures !h[k].Informed?
    decreases k
  {
    hide Allows, Enter, AllowsAll;
    AllowsHead(b, h);
    if k == 0 {
      if h[0] != Cycled {
        NoneInformed(b, h[0]);
      }
      return;
    }
    assert h[..k][0] == h[0] != Cycled;
    NoneInformed(b, h[0]);
    NoCycleTail(h, k);
    NoSwitchAfterResponse(Enter(b, h[0]), h[1..], k - 1);
  }

  /** A 101 names only protocols its request offered, and when the request also
      expected a 100 before its content, a 100 has come first. */
  lemma SwitchAsOffered(x: Externals, role: L.Role, limits: Limits, calls: seq<Call>, i: nat, k: nat) returns (m: nat)
    requires var h := RunHistory(x, role, limits, calls);
      && i < k < |h| && h[i].Requested? && h[k].Informed? && h[k].response.status == 101
      && (forall n :: i < n < k ==> h[n] != Cycled)
    ensures var h := RunHistory(x, role, limits, calls);
      var r := h[i].request;
      && ValidUpgrade(ProposedUpgrades(r.version, r.headers), h[k].response.version, h[k].response.headers)
      && (SelectFraming(r.headers, r.version).Framed?
          && ExpectsContinue(r.version, r.headers, SelectFraming(r.headers, r.version).framing)
          && ProposedUpgrades(r.version, r.headers) != [] ==>
            i < m < k && h[m].Informed? && h[m].response.status == 100)
  {
    hide RunHistory, SelectFraming, FinalFraming, ProposedUpgrades, ExpectsContinue, Persistent, ValidUpgrade;
    var h := RunHistory(x, role, limits, calls);
    RunIsAllowed(x, role, limits, calls);
    AllowedSuffix(BLANK, h, i);
    var b, g := Books(BLANK, h[..i]), h[i..];
    var after, rest := Enter(b, g[0]), g[1..];
    assert forall n :: 0 <= n < |rest| ==> rest[n] == h[n + i + 1];
    m := OfferStands(after, rest, k - i - 1);
    m := m + i + 1;
  }

  // ------------------------------------------------------------------
  // Expecting 100 (Continue)
  // ------------------------------------------------------------------

  /** What ends the wait of an endpoint: the answer, content from either side, a
      new message cycle, and for the client alone the end of its own message. */
  predicate Lifts(role: L.Role, f: Fact) {
    || f.Requested? || f.Responded? || f.Conveyed? || f.Cycled?
    || (f.Informed? && f.response.status == 100)
    || (role.Client? && f == Ended(L.Client))
  }

  predicate Expects(f: Fact) {
    f.Requested? &&
    var selected := SelectFraming(f.request.headers, f.request.version);
    ExpectsContinue(f.request.version, f.request.headers, if selected.Framed? then selected.framing else Fixed(0))
  }

  /** The request at `i` expects a 100, and nothing has lifted that since. */
  predicate Stands(role: L.Role, h: seq<Fact>, i: nat) {
    i < |h| && Expects(h[i]) && forall k :: i < k < |h| ==> !Lifts(role, h[k])
  }

  predicate Quiet(role: L.Role, h: seq<Fact>) {
    forall k :: 0 <= k < |h| ==> !Lifts(role, h[k])
  }

  lemma EntryAwaits(b: Book, f: Fact, role: L.Role)
    ensures Awaits(Enter(b, f), role) <==> Expects(f) || (Awaits(b, role) && !Lifts(role, f))
  {
    hide SelectFraming, FinalFraming, ProposedUpgrades, ExpectsContinue, Persistent;
  }

  lemma StandsTail(role: L.Role, h: seq<Fact>, i: nat)
    requires h != []
    ensures Stands(role, h, i + 1) <==> Stands(role, h[1..], i)
  {
    hide Expects, Lifts;
    var t := h[1..];
    assert forall k :: 0 <= k < |t| ==> t[k] == h[k + 1];
    if Stands(role, t, i) {
      forall k | i + 1 < k < |h|
        ensures !Lifts(role, h[k])
      {
        assert !Lifts(role, t[k - 1]);
      }
    }
  }

  lemma QuietTail(role: L.Role, h: seq<Fact>)
    requires h != []
    ensures Quiet(role, h) <==> !Lifts(role, h[0]) && Quiet(role, h[1..])
    ensures Stands(role, h, 0) <==> Expects(h[0]) && Quiet(role, h[1..])
  {
    hide Expects, Lifts;
    var t := h[1..];
    assert forall k :: 0 <= k < |t| ==> t[k] == h[k + 1];
    if Quiet(role, t) {
      forall k | 0 < k < |h|
        ensures !Lifts(role, h[k])
      {
        assert !Lifts(role, t[k - 1]);
      }
    }
  }

  lemma {:induction false} AwaitsExactly(b: Book, h: seq<Fact>, role: L.Role)
    ensures Awaits(Books(b, h), role) <==> (Awaits(b, role) && Quiet(role, h)) || exists i: nat :: Stands(role, h, i)
    decreases |h|
  {
    hide Awaits, Enter, Expects, Lifts, Quiet, Stands;
    if h == [] {
      NothingStands(role);
      return;
    }
    var t := h[1..];
    EntryAwaits(b, h[0], role);
    AwaitsExactly(Enter(b, h[0]), t, role);
    QuietTail(role, h);
    if i: nat :| Stands(role, t, i) {
      StandsTail(role, h, i);
    }
    if i: nat :| Stands(role, h, i) {
      if i > 0 {
        StandsTail(role, h, i - 1);
        assert Stands(role, t, i - 1);
      }
    }
  }

  lemma NothingStands(role: L.Role)
    ensures Quiet(role, []) && forall i: nat :: !Stands(role, [], i)
  {
  }

  /**
   `client_is_waiting_for_100_continue`, exactly: unless the peer has failed, it
   says that some request expected a 100 and nothing has lifted that since.
   */
  lemma WaitingExactly(x: Externals, role: L.Role, limits: Limits, calls: seq<Call>)
    requires RunCalls(x, New(role, limits), calls).Peer() != L.Error
    ensures RunCalls(x, New(role, limits), calls).waiting <==>
      exists i: nat :: Stands(role, RunHistory(x, role, limits, calls), i)
  {
    hide Coupled, RunCalls, Awaits, Stands;
    var c, h := RunCalls(x, New(role, limits), calls), RunHistory(x, role, limits, calls);
    NewIsCoupled(role, limits);
    NewIsTracked(role, limits);
    EveryRunIsAllowed(x, BLANK, New(role, limits), calls);
    AwaitsExactly(BLANK, h, role);
    assert !Awaits(BLANK, role) by {
      BlankAwaitsNothing(role);
    }
    FitsWaiting(Books(BLANK, h), c);
    RunKeepsRole(x, New(role, limits), calls);
  }

  lemma BlankAwaitsNothing(role: L.Role)
    ensures !Awaits(BLANK, role)
  {
  }

  lemma FitsWaiting(b: Book, c: Conn)
    requires Tracks(b, c) && c.Peer() != L.Error
    ensures c.waiting <==> Awaits(b, c.role)
  {
  }

  lemma {:induction false} RunKeepsRole(x: Externals, c: Conn, calls: seq<Call>)
    ensures RunCalls(x, c, calls).role == c.role
    decreases |calls|
  {
    hide After;
    if calls != [] {
      AfterKeepsRole(x, c, calls[0]);
      RunKeepsRole(x, After(x, c, calls[0]), calls[1..]);
    }
  }

  lemma AfterKeepsRole(x: Externals, c: Conn, call: Call)
    ensures After(x, c, call).role == c.role
  {
    hide Next, WritePlan, PlanResponse, L.Process, L.DisableKeepAlive, Persistent, ExpectsContinue, KindOf, RequestBytes,
         ResponseBytes, ValidUpgrade, ValidHeaders, ValidReason, FramingFields, ValidTrailers, Terminator, DataPrefix, DataSuffix,
         FinalEvent;
    NextReadsOn(x, c);
  }
}
