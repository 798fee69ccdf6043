/**
 Whole runs of the joint lifecycle: what every reachable configuration
 satisfies, and why the two endpoints, which see client and server events
 interleaved differently, end up in the same configuration.
 */
module LifecycleRuns {
  import opened Prelude
  import opened Lifecycle

  /** What a connection does to its lifecycle: a semantic event, followed by
      `close` when the message forbids reuse; a protocol error; a new cycle. */
  datatype Action =
    | Move(role: Role, event: StateEvent, close: bool)
    | Fault(role: Role)
    | Cycle

  function Act(j: Joint, a: Action): Option<Joint> {
    match a
    case Move(role, event, close) =>
      (match Process(j, role, event)
       case None => None
       case Some(next) => Some(if close then DisableKeepAlive(next) else next))
    case Fault(role) => Some(Poison(j, role))
    case Cycle => if Reusable(j) then Some(INITIAL) else None
  }

  /** A run: refused actions leave the configuration as it was. */
  function Run(j: Joint, actions: seq<Action>): Joint
    decreases |actions|
  {
    if actions == [] then j
    else
      var next := Act(j, actions[0]);
      Run(if next.Some? then next.value else j, actions[1..])
  }

  /** A run in which every action has to be accepted. */
  function Accept(j: Joint, actions: seq<Action>): Option<Joint>
    decreases |actions|
  {
    if actions == [] then Some(j)
    else
      match Act(j, actions[0])
      case None => None
      case Some(next) => Accept(next, actions[1..])
  }

  // ------------------------------------------------------------------
  // Reachable configurations
  // ------------------------------------------------------------------

  /** No joint rule is left to apply. */
  predicate Stable(j: Joint) {
    Settle(j) == j
  }

  /** What holds in every reachable configuration. */
  predicate Sound(j: Joint) {
    && Stable(j)
    && j.client != SendResponse
    && j.server != MightSwitchProtocol
       // A pending proposal is one the server has still to answer or has just accepted.
    && (j.proposals.Pending() ==> (j.server.SendResponse? || j.server.SwitchedProtocol? || j.server.Error?))
    && (j.client == MightSwitchProtocol ==> j.proposals.Pending())
       // Switching beats closing: next to a switched server the client never closes.
    && (j.server == SwitchedProtocol ==> (j.client.SendBody? || j.client.SwitchedProtocol? || j.client.Error?))
    && (j.server == SwitchedProtocol && j.client == SendBody ==> j.proposals.Pending())
    && (j.client == SwitchedProtocol ==> (j.server.SwitchedProtocol? || j.server.Error?))
       // A finished, reusable actor means the connection is still persistent.
    && (j.client.Done? || j.server.Done? ==> j.keepAlive)
       // Nothing but the request starts the response obligation.
    && (j.server == Idle ==> (j.client.Idle? || j.client.Error?))
    && (j.server == SendResponse ==> j.client != Idle)
    && (j.server == SendResponse && j.proposals.Pending() ==>
          (j.client.SendBody? || j.client.MightSwitchProtocol? || j.client.Error?))
       // A response sent before any request is a close-only path.
    && (j.client == Idle && j.server != Idle ==> !j.keepAlive || j.server == Error)
  }

  lemma SettleIsStable(j: Joint)
    ensures Stable(Settle(j))
  {
  }

  lemma ClientEventKeepsSound(j: Joint, event: StateEvent)
    requires Sound(j)
    ensures Process(j, Client, event).Some? ==> Sound(Process(j, Client, event).value)
  {
  }

  lemma ServerEventKeepsSound(j: Joint, event: StateEvent)
    requires Sound(j)
    ensures Process(j, Server, event).Some? ==> Sound(Process(j, Server, event).value)
  {
  }

  lemma DisableKeepsSound(j: Joint)
    requires Sound(j)
    ensures Sound(DisableKeepAlive(j))
  {
  }

  lemma PoisonKeepsSound(j: Joint, role: Role)
    requires Sound(j)
    ensures Sound(Poison(j, role))
  {
  }

  lemma EventKeepsSound(j: Joint, role: Role, event: StateEvent)
    requires Sound(j)
    ensures Process(j, role, event).Some? ==> Sound(Process(j, role, event).value)
  {
    hide Process, Sound;
    if role.Client? {
      ClientEventKeepsSound(j, event);
      return;
    }
    ServerEventKeepsSound(j, event);
  }

  lemma ActKeepsSound(j: Joint, a: Action)
    requires Sound(j)
    ensures Act(j, a).Some? ==> Sound(Act(j, a).value)
  {
    if a.Cycle? {
      return;
    }
    hide Process, Poison, DisableKeepAlive, Sound;
    if a.Fault? {
      PoisonKeepsSound(j, a.role);
      return;
    }
    EventKeepsSound(j, a.role, a.event);
    var next := Process(j, a.role, a.event);
    if next.Some? && a.close {
      DisableKeepsSound(next.value);
      return;
    }
  }

  lemma {:induction false} EveryRunIsSound(j: Joint, actions: seq<Action>)
    requires Sound(j)
    ensures Sound(Run(j, actions))
    decreases |actions|
  {
    hide Act, Sound;
    if actions != [] {
      ActKeepsSound(j, actions[0]);
      var next := Act(j, actions[0]);
      EveryRunIsSound(if next.Some? then next.value else j, actions[1..]);
    }
  }

  lemma {:induction false} AcceptKeepsSound(j: Joint, actions: seq<Action>)
    requires Sound(j) && Accept(j, actions).Some?
    ensures Sound(Accept(j, actions).value)
    ensures actions != [] && !actions[|actions| - 1].Cycle? && !actions[|actions| - 1].Fault? ==>
      !Race(Accept(j, actions).value)
    decreases |actions|
  {
    hide Act, Sound, Race;
    if actions != [] {
      ActKeepsSound(j, actions[0]);
      if actions[0].Move? {
        MoveLeavesRace(j, actions[0]);
      }
      AcceptKeepsSound(Act(j, actions[0]).value, actions[1..]);
    }
  }

  /** Once reuse is lost it never comes back. */
  lemma {:induction false} LostReuseStaysLost(j: Joint, actions: seq<Action>)
    requires !j.keepAlive
    ensures !Run(j, actions).keepAlive
    ensures forall i :: 0 <= i < |actions| && actions[i] == Cycle ==> Act(Run(j, actions[..i]), Cycle) == None
    decreases |actions|
  {
    if actions != [] {
      var next := Act(j, actions[0]);
      var k := if next.Some? then next.value else j;
      LostReuseStaysLost(k, actions[1..]);
      forall i | 0 <= i < |actions| && actions[i] == Cycle
        ensures Act(Run(j, actions[..i]), Cycle) == None
      {
        if i > 0 {
          assert actions[1..][i - 1] == Cycle;
          assert actions[..i][1..] == actions[1..][..i - 1];
        }
      }
    }
  }

  // ------------------------------------------------------------------
  // Order independence
  // ------------------------------------------------------------------

  /** The actions one actor takes part in; a new cycle involves both. */
  function Project(role: Role, actions: seq<Action>): seq<Action> {
    if actions == [] then []
    else
      var rest := Project(role, actions[1..]);
      if actions[0].Cycle? || actions[0].role == role then [actions[0]] + rest else rest
  }

  /** Messages and cycles only: the errors of one endpoint never reach the other. */
  predicate FaultFree(actions: seq<Action>) {
    forall a <- actions :: !a.Fault?
  }

  /** The one place where the order of events matters: a fresh connection on
      which the server speaks before it has seen a request. */
  predicate Race(j: Joint) {
    j.client == Idle && j.server == Idle
  }

  /** Events of different actors that do not decide such a race. */
  predicate Independent(j: Joint, e: StateEvent, f: StateEvent) {
    !Race(j) || (e.ConnectionClosed? && f.ConnectionClosed?)
  }

  /** What the joint rules have settled, settles the same once reuse is lost. */
  lemma DisableSettled(j: Joint)
    ensures DisableKeepAlive(Settle(j)) == Settle(j.(keepAlive := false))
  {
  }

  /** Losing reuse keeps an actor's events enabled, with the same result. */
  lemma DisableKeepsEnabled(j: Joint, role: Role, event: StateEvent)
    requires Sound(j) && Process(j, role, event).Some?
    ensures Direct(role, DisableKeepAlive(j).At(role), event) == Direct(role, j.At(role), event)
    ensures Effect(DisableKeepAlive(j), role, event).Some? && Effect(j, role, event).Some?
  {
  }

  lemma DisableThenEffect(j: Joint, role: Role, event: StateEvent)
    requires Sound(j) && Process(j, role, event).Some?
    requires Effect(DisableKeepAlive(j), role, event).Some?
    ensures var next := Direct(role, j.At(role), event).value;
      Settle(Effect(DisableKeepAlive(j), role, event).value.With(role, next))
      == Settle(Effect(j, role, event).value.With(role, next).(keepAlive := false))
  {
  }

  /** Losing reuse commutes with every enabled event. */
  lemma DisableCommutes(j: Joint, role: Role, event: StateEvent)
    requires Sound(j) && Process(j, role, event).Some?
    ensures Process(DisableKeepAlive(j), role, event) == Some(DisableKeepAlive(Process(j, role, event).value))
  {
    hide Direct, Effect, DisableKeepAlive, Sound, Settle;
    DisableKeepsEnabled(j, role, event);
    DisableThenEffect(j, role, event);
    DisableSettled(Effect(j, role, event).value.With(role, Direct(role, j.At(role), event).value));
  }

  // What the events that change anything lead to from a reachable configuration,
  // with the joint rules worked out.

  function AfterEnd(j: Joint, role: Role): Joint {
    if role.Server? then j.(server := if !j.keepAlive || j.client.Closed? || j.client.Error? then MustClose else Done)
    else if j.proposals.Pending() then
      if j.server.SwitchedProtocol? then j.(client := SwitchedProtocol, proposals := NO_PROPOSALS)
      else j.(client := MightSwitchProtocol)
    else j.(client := if !j.keepAlive || j.server.Closed? || j.server.Error? then MustClose else Done)
  }

  predicate MayClose(s: State) {
    s.Idle? || s.Done? || s.MustClose? || s.Closed?
  }

  function AfterClose(j: Joint, role: Role): Joint {
    var other := j.At(role.Peer());
    j.With(role, Closed).With(role.Peer(), if other.Idle? || other.Done? then MustClose else other)
  }

  function AfterResponse(j: Joint): Joint {
    var keep := j.keepAlive && !j.proposals.connect && j.server != Idle;
    var client := if !(j.client.MightSwitchProtocol? || j.client.Done?) then j.client
                  else if keep then Done else MustClose;
    Joint(client, SendBody, keep, NO_PROPOSALS)
  }

  function AfterSwitch(j: Joint): Joint {
    if j.client.MightSwitchProtocol? then j.(client := SwitchedProtocol, server := SwitchedProtocol, proposals := NO_PROPOSALS)
    else j.(server := SwitchedProtocol)
  }

  lemma EndForm(j: Joint, role: Role)
    requires Sound(j)
    ensures Process(j, role, EndOfMessage) == if j.At(role).SendBody? then Some(AfterEnd(j, role)) else None
  {
  }

  lemma CloseForm(j: Joint, role: Role)
    requires Sound(j)
    ensures Process(j, role, ConnectionClosed) ==
      if MayClose(j.At(role)) then Some(AfterClose(j, role)) else None
  {
  }

  lemma ResponseForm(j: Joint)
    requires Sound(j)
    ensures Process(j, Server, Response) ==
      if j.server.Idle? || j.server.SendResponse? then Some(AfterResponse(j)) else None
  {
  }

  lemma SwitchForm(j: Joint, kind: SwitchKind)
    requires Sound(j)
    ensures Process(j, Server, ProtocolSwitch(kind)) ==
      if j.server.SendResponse? && j.proposals.Contains(kind) then Some(AfterSwitch(j)) else None
  {
  }

  /** The client's end of message or close against an event of the server. */
  lemma EndingDiamond(j: Joint, e: StateEvent, f: StateEvent)
    requires Sound(j) && Independent(j, e, f) && (e.EndOfMessage? || e.ConnectionClosed?)
    requires f.Response? || f.ProtocolSwitch? || f.EndOfMessage? || f.ConnectionClosed?
    requires Process(j, Client, e).Some? && Process(j, Server, f).Some?
    ensures Process(Process(j, Client, e).value, Server, f).Some?
    ensures Process(Process(j, Client, e).value, Server, f) == Process(Process(j, Server, f).value, Client, e)
  {
    hide Process, Sound, ClientForm, ServerForm;
    EventKeepsSound(j, Client, e);
    EventKeepsSound(j, Server, f);
    Forms(j, e, f);
    Forms(Process(j, Client, e).value, e, f);
    Forms(Process(j, Server, f).value, e, f);
    if e.EndOfMessage? {
      EndFormsCommute(j, f);
    } else {
      CloseFormsCommute(j, f);
    }
  }

  lemma EndFormsCommute(j: Joint, f: StateEvent)
    requires Sound(j)
    requires f.Response? || f.ProtocolSwitch? || f.EndOfMessage? || f.ConnectionClosed?
    requires Independent(j, EndOfMessage, f) && ClientForm(j, EndOfMessage).Some? && ServerForm(j, f).Some?
    ensures ServerForm(ClientForm(j, EndOfMessage).value, f).Some?
    ensures ServerForm(ClientForm(j, EndOfMessage).value, f) == ClientForm(ServerForm(j, f).value, EndOfMessage)
  {
  }

  lemma CloseFormsCommute(j: Joint, f: StateEvent)
    requires Sound(j)
    requires f.Response? || f.ProtocolSwitch? || f.EndOfMessage? || f.ConnectionClosed?
    requires Independent(j, ConnectionClosed, f) && ClientForm(j, ConnectionClosed).Some? && ServerForm(j, f).Some?
    ensures ServerForm(ClientForm(j, ConnectionClosed).value, f).Some?
    ensures ServerForm(ClientForm(j, ConnectionClosed).value, f) == ClientForm(ServerForm(j, f).value, ConnectionClosed)
  {
  }

  lemma Forms(j: Joint, e: StateEvent, f: StateEvent)
    requires Sound(j) && (e.EndOfMessage? || e.ConnectionClosed?)
    requires f.Response? || f.ProtocolSwitch? || f.EndOfMessage? || f.ConnectionClosed?
    ensures Process(j, Client, e) == ClientForm(j, e) && Process(j, Server, f) == ServerForm(j, f)
  {
    hide Process, Sound;
    EndForm(j, Client);
    EndForm(j, Server);
    CloseForm(j, Client);
    CloseForm(j, Server);
    ResponseForm(j);
    if f.ProtocolSwitch? {
      SwitchForm(j, f.kind);
    }
  }

  function ClientForm(j: Joint, e: StateEvent): Option<Joint>
    requires e.EndOfMessage? || e.ConnectionClosed?
  {
    if e.EndOfMessage? then if j.client.SendBody? then Some(AfterEnd(j, Client)) else None
    else if MayClose(j.client) then Some(AfterClose(j, Client)) else None
  }

  function ServerForm(j: Joint, f: StateEvent): Option<Joint>
    requires f.Response? || f.ProtocolSwitch? || f.EndOfMessage? || f.ConnectionClosed?
  {
    match f
    case Response => if j.server.Idle? || j.server.SendResponse? then Some(AfterResponse(j)) else None
    case ProtocolSwitch(kind) => if j.server.SendResponse? && j.proposals.Contains(kind) then Some(AfterSwitch(j)) else None
    case EndOfMessage => if j.server.SendBody? then Some(AfterEnd(j, Server)) else None
    case _ => if MayClose(j.server) then Some(AfterClose(j, Server)) else None
  }

  /** Content and informational responses leave the configuration alone, and
      stay possible whatever the client does. */
  lemma DiamondWithContent(j: Joint, e: StateEvent, f: StateEvent)
    requires Sound(j) && (f.Data? || f.InformationalResponse?)
    requires Process(j, Client, e).Some? && Process(j, Server, f).Some?
    ensures Process(j, Server, f) == Some(j)
    ensures Process(Process(j, Client, e).value, Server, f) == Process(j, Client, e)
  {
  }

  lemma ContentWithDiamond(j: Joint, f: StateEvent)
    requires Sound(j) && Process(j, Client, Data).Some? && Process(j, Server, f).Some?
    ensures Process(j, Client, Data) == Some(j)
    ensures Process(Process(j, Server, f).value, Client, Data) == Process(j, Server, f)
  {
  }

  /** A request needs a fresh connection, and of the client's other events only
      these two change anything. */
  lemma ClientEvents(j: Joint, e: StateEvent)
    requires Sound(j) && Process(j, Client, e).Some?
    ensures e.Data? || e.EndOfMessage? || e.ConnectionClosed? || (e.Request? && Race(j))
  {
  }

  lemma ServerEvents(j: Joint, f: StateEvent)
    requires Sound(j) && Process(j, Server, f).Some?
    ensures !f.Request?
  {
  }

  lemma EventDiamond(j: Joint, e: StateEvent, f: StateEvent)
    requires Sound(j) && Independent(j, e, f)
    requires Process(j, Client, e).Some? && Process(j, Server, f).Some?
    ensures Process(Process(j, Client, e).value, Server, f).Some?
    ensures Process(Process(j, Client, e).value, Server, f) == Process(Process(j, Server, f).value, Client, e)
  {
    hide Process, Sound;
    ClientEvents(j, e);
    ServerEvents(j, f);
    if e.Data? {
      ContentWithDiamond(j, f);
      return;
    }
    if f.Data? || f.InformationalResponse? {
      DiamondWithContent(j, e, f);
      return;
    }
    EndingDiamond(j, e, f);
  }

  /** Local confluence: enabled moves of different actors commute. */
  lemma Diamond(j: Joint, a: Action, b: Action)
    requires Sound(j)
    requires a.Move? && b.Move? && a.role == Client && b.role == Server
    requires Independent(j, a.event, b.event)
    requires Act(j, a).Some? && Act(j, b).Some?
    ensures Act(Act(j, a).value, b).Some?
    ensures Act(Act(j, b).value, a).Some?
    ensures Act(Act(j, a).value, b) == Act(Act(j, b).value, a)
  {
    EventDiamond(j, a.event, b.event);
    var ja := Process(j, Client, a.event).value;
    var jb := Process(j, Server, b.event).value;
    ClientEventKeepsSound(j, a.event);
    ServerEventKeepsSound(j, b.event);
    DisableCommutes(ja, Server, b.event);
    DisableCommutes(jb, Client, a.event);
  }

  lemma RaceIsLost(j: Joint, a: Action, b: Action)
    requires Sound(j) && Race(j)
    requires a.Move? && b.Move? && a.role == Client && b.role == Server
    requires !(a.event.ConnectionClosed? && b.event.ConnectionClosed?)
    requires Act(j, a).Some? && Act(j, b).Some?
    ensures Act(Act(j, a).value, b).None? || Act(Act(j, b).value, a).None?
  {
  }

  /** Local confluence, exactly: two enabled moves of different actors commute if
      and only if they do not race on a fresh connection. */
  lemma DiamondExactly(j: Joint, a: Action, b: Action)
    requires Sound(j)
    requires a.Move? && b.Move? && a.role == Client && b.role == Server
    requires Act(j, a).Some? && Act(j, b).Some?
    ensures Independent(j, a.event, b.event) <==>
      && Act(Act(j, a).value, b).Some? && Act(Act(j, b).value, a).Some?
      && Act(Act(j, a).value, b) == Act(Act(j, b).value, a)
  {
    hide Act, Sound;
    if Independent(j, a.event, b.event) {
      Diamond(j, a, b);
    } else {
      RaceIsLost(j, a, b);
    }
  }

  /** Such a race exists: a server that answers before it has read the request
      that is on its way. */
  lemma EarlyAnswerRaces()
    ensures var request, answer := Move(Client, Request(Proposals(false, false)), false), Move(Server, Response, false);
      && Accept(INITIAL, [request, answer]).Some?
      && Accept(INITIAL, [answer]).Some? && Accept(INITIAL, [answer, request]).None?
  {
    var request, answer := Move(Client, Request(Proposals(false, false)), false), Move(Server, Response, false);
    AcceptTwo(INITIAL, request, answer);
    AcceptTwo(INITIAL, answer, request);
    assert [answer][1..] == [];
  }

  lemma AcceptTwo(j: Joint, a: Action, b: Action)
    ensures Accept(j, [a, b]) == if Act(j, a).None? then None else Act(Act(j, a).value, b)
  {
    hide Act;
    assert [a, b][1..] == [b] && [b][1..] == [];
    if Act(j, a).Some? {
      assert Accept(Act(j, a).value, [b]) == Act(Act(j, a).value, b);
    }
  }

  // Moves of one actor, taken one after the other.

  predicate OnlyMovesOf(role: Role, actions: seq<Action>) {
    forall a <- actions :: a.Move? && a.role == role
  }

  lemma {:induction false} AcceptConcat(j: Joint, u: seq<Action>, v: seq<Action>)
    ensures Accept(j, u + v)
         == if Accept(j, u).Some? then Accept(Accept(j, u).value, v) else None
    decreases |u|
  {
    if u == [] {
      assert u + v == v;
    } else {
      assert (u + v)[1..] == u[1..] + v;
      if Act(j, u[0]).Some? {
        AcceptConcat(Act(j, u[0]).value, u[1..], v);
      }
    }
  }

  lemma MoveLeavesRace(j: Joint, a: Action)
    requires Sound(j) && a.Move? && Act(j, a).Some?
    ensures !Race(Act(j, a).value)
  {
  }

  /** A move that is enabled now stays enabled while the other actor moves, and
      it does not matter how many of those moves come first. */
  lemma {:induction false} Advance(j: Joint, s: seq<Action>, a: Action)
    requires Sound(j) && a.Move? && OnlyMovesOf(a.role.Peer(), s)
    requires Act(j, a).Some? && Accept(j, s).Some?
    requires s == [] || Independent(j, a.event, s[0].event)
    ensures Act(Accept(j, s).value, a).Some?
    ensures Accept(Act(j, a).value, s) == Act(Accept(j, s).value, a)
    decreases |s|
  {
    hide Act, Sound;
    if s != [] {
      assert s[0] in s;
      if a.role == Client {
        Diamond(j, a, s[0]);
      } else {
        Diamond(j, s[0], a);
      }
      ActKeepsSound(j, s[0]);
      MoveLeavesRace(j, s[0]);
      Advance(Act(j, s[0]).value, s[1..], a);
    }
  }

  /** A request is accepted on a fresh connection and nowhere else. */
  lemma {:induction false} NoRequestLater(j: Joint, s: seq<Action>, a: Action)
    requires Sound(j) && !Race(j) && OnlyMovesOf(Server, s)
    requires a.Move? && a.role == Client && a.event.Request?
    ensures Accept(j, s).Some? ==> Act(Accept(j, s).value, a).None?
    decreases |s|
  {
    if s != [] && Act(j, s[0]).Some? {
      assert s[0] in s;
      ActKeepsSound(j, s[0]);
      MoveLeavesRace(j, s[0]);
      NoRequestLater(Act(j, s[0]).value, s[1..], a);
    }
  }

  /** A response is accepted from a server that is idle or owes one, and client
      moves other than a request do not make it either. */
  lemma {:induction false} NoResponseLater(j: Joint, s: seq<Action>, a: Action)
    requires Sound(j) && !j.server.Idle? && !j.server.SendResponse? && OnlyMovesOf(Client, s)
    requires a.Move? && a.role == Server && a.event.Response?
    ensures Accept(j, s).Some? ==> Act(Accept(j, s).value, a).None?
    decreases |s|
  {
    if s != [] && Act(j, s[0]).Some? {
      assert s[0] in s;
      ActKeepsSound(j, s[0]);
      NoResponseLater(Act(j, s[0]).value, s[1..], a);
    }
  }

  lemma {:induction false} ProjectConcat(role: Role, u: seq<Action>, v: seq<Action>)
    ensures Project(role, u + v) == Project(role, u) + Project(role, v)
    decreases |u|
  {
    if u == [] {
      assert u + v == v;
    } else {
      assert (u + v)[1..] == u[1..] + v;
      ProjectConcat(role, u[1..], v);
    }
  }

  lemma {:induction false} ProjectOnly(role: Role, s: seq<Action>)
    requires OnlyMovesOf(role, s)
    ensures Project(role, s) == s
    ensures Project(role.Peer(), s) == []
    decreases |s|
  {
    if s != [] {
      assert s[0] in s;
      ProjectOnly(role, s[1..]);
    }
  }

  /** Splits a word at the first action `role` takes part in. */
  lemma {:induction false} FirstOf(role: Role, w: seq<Action>) returns (s: seq<Action>, v: seq<Action>)
    requires FaultFree(w) && Project(role, w) != []
    ensures w == s + [Project(role, w)[0]] + v
    ensures OnlyMovesOf(role.Peer(), s) && FaultFree(v)
    decreases |w|
  {
    assert w[0] in w;
    if w[0].Cycle? || w[0].role == role {
      s, v := [], w[1..];
    } else {
      s, v := FirstOf(role, w[1..]);
      s := [w[0]] + s;
    }
  }

  lemma SplitProjections(s: seq<Action>, a: Action, v: seq<Action>)
    requires a.Move? && OnlyMovesOf(a.role.Peer(), s)
    ensures Project(a.role, s + [a] + v) == [a] + Project(a.role, v)
    ensures Project(a.role, s + v) == Project(a.role, v)
    ensures Project(a.role.Peer(), s + [a] + v) == Project(a.role.Peer(), s + v)
  {
    assert s + [a] + v == s + ([a] + v);
    ProjectConcat(a.role, s, [a] + v);
    ProjectConcat(a.role.Peer(), s, [a] + v);
    ProjectConcat(a.role, s, v);
    ProjectConcat(a.role.Peer(), s, v);
    ProjectOnly(a.role.Peer(), s);
    assert ([a] + v)[1..] == v;
  }

  /** An accepted word may start with any move that was enabled all along. */
  lemma MoveToFront(j: Joint, s: seq<Action>, a: Action, v: seq<Action>)
    requires Sound(j) && a.Move? && OnlyMovesOf(a.role.Peer(), s)
    requires Act(j, a).Some? && Accept(j, s + [a] + v).Some?
    requires s == [] || Independent(j, a.event, s[0].event)
    ensures Accept(Act(j, a).value, s + v) == Accept(j, s + [a] + v)
  {
    hide Act, Sound;
    AcceptConcat(j, s + [a], v);
    AcceptConcat(j, s, [a]);
    AcceptConcat(Act(j, a).value, s, v);
    Advance(j, s, a);
  }

  /** The first action of one actor in an accepted word is reached by moves of the other. */
  lemma Reached(j: Joint, role: Role, w: seq<Action>) returns (s: seq<Action>)
    requires FaultFree(w) && Project(role, w) != [] && Accept(j, w).Some?
    ensures OnlyMovesOf(role.Peer(), s) && Accept(j, s).Some?
    ensures Act(Accept(j, s).value, Project(role, w)[0]).Some?
  {
    hide Act;
    var v;
    s, v := FirstOf(role, w);
    AcceptConcat(j, s + [Project(role, w)[0]], v);
    AcceptConcat(j, s, [Project(role, w)[0]]);
  }

  lemma ServerFirstForbidsRequest(j: Joint, b: Action, w: seq<Action>)
    requires Sound(j) && b.Move? && Act(j, b).Some? && FaultFree(w)
    requires Accept(Act(j, b).value, w).Some?
    requires Project(Client, w) != [] && Project(Client, w)[0].Move?
    ensures !Project(Client, w)[0].event.Request?
  {
    var s := Reached(Act(j, b).value, Client, w);
    ActKeepsSound(j, b);
    MoveLeavesRace(j, b);
    if Project(Client, w)[0].event.Request? {
      assert Project(Client, w)[0].role == Client by {
        ProjectRole(Client, w);
      }
      NoRequestLater(Act(j, b).value, s, Project(Client, w)[0]);
    }
  }

  lemma ClientCloseForbidsResponse(j: Joint, a: Action, u: seq<Action>)
    requires Sound(j) && Race(j) && FaultFree(u)
    requires a.Move? && a.role == Client && a.event.ConnectionClosed?
    requires Act(j, a).Some? && Accept(Act(j, a).value, u).Some?
    requires Project(Server, u) != [] && Project(Server, u)[0].Move?
    ensures !Project(Server, u)[0].event.Response?
  {
    var s := Reached(Act(j, a).value, Server, u);
    ActKeepsSound(j, a);
    if Project(Server, u)[0].event.Response? {
      assert Project(Server, u)[0].role == Server by {
        ProjectRole(Server, u);
      }
      NoResponseLater(Act(j, a).value, s, Project(Server, u)[0]);
    }
  }

  lemma {:induction false} ProjectRole(role: Role, w: seq<Action>)
    ensures forall a <- Project(role, w) :: a.Cycle? || a.role == role
    decreases |w|
  {
    if w != [] {
      ProjectRole(role, w[1..]);
    }
  }

  /** On a fresh connection, two words that agree on each actor and start with
      different actors can both be accepted only if both actors just close. */
  lemma RaceIsDecided(j: Joint, a: Action, u: seq<Action>, b: Action, w: seq<Action>)
    requires Sound(j) && Race(j) && FaultFree(u) && FaultFree(w)
    requires a.Move? && b.Move? && a.role == Client && b.role == Server
    requires Act(j, a).Some? && Accept(Act(j, a).value, u).Some?
    requires Act(j, b).Some? && Accept(Act(j, b).value, w).Some?
    requires Project(Server, u) != [] && Project(Server, u)[0] == b
    requires Project(Client, w) != [] && Project(Client, w)[0] == a
    ensures a.event.ConnectionClosed? && b.event.ConnectionClosed?
  {
    hide Sound;
    ServerFirstForbidsRequest(j, b, w);
    assert a.event.ConnectionClosed?;
    ClientCloseForbidsResponse(j, a, u);
  }

  /** Brings the next action of `w1` to the front of `w2`. */
  lemma SwapIn(j: Joint, a: Action, u: seq<Action>, w2: seq<Action>) returns (rest: seq<Action>)
    requires Sound(j) && a.Move? && FaultFree(u) && FaultFree(w2)
    requires Act(j, a).Some? && Accept(Act(j, a).value, u).Some? && Accept(j, w2).Some?
    requires w2 != [] && w2[0].Move? && w2[0].role == a.role.Peer()
    requires Project(a.role, w2) != [] && Project(a.role, w2)[0] == a
    requires Project(a.role, w2)[1..] == Project(a.role, u)
    requires Project(a.role.Peer(), w2) == Project(a.role.Peer(), u)
    ensures FaultFree(rest)
    ensures Accept(Act(j, a).value, rest) == Accept(j, w2)
    ensures Project(a.role, rest) == Project(a.role, u)
    ensures Project(a.role.Peer(), rest) == Project(a.role.Peer(), u)
  {
    hide Act, Sound;
    var s, v := FirstOf(a.role, w2);
    SplitProjections(s, a, v);
    assert s != [] && s[0] == w2[0];
    if Race(j) {
      if a.role == Client {
        RaceIsDecided(j, a, u, w2[0], w2[1..]);
      } else {
        RaceIsDecided(j, w2[0], w2[1..], a, u);
      }
    }
    MoveToFront(j, s, a, v);
    rest := s + v;
  }

  /**
   Order independence.  Two accepted words in which each actor does the same
   things in the same order end in the same configuration, however the actors'
   events were interleaved and however many cycles the words span.
   */
  lemma {:induction false} OrderIndependence(j: Joint, w1: seq<Action>, w2: seq<Action>)
    requires Sound(j) && FaultFree(w1) && FaultFree(w2)
    requires Accept(j, w1).Some? && Accept(j, w2).Some?
    requires forall role :: Project(role, w1) == Project(role, w2)
    ensures Accept(j, w1) == Accept(j, w2)
    decreases |w1|
  {
    hide Act, Sound;
    if w1 == [] {
      assert w2 == [] by {
        assert Project(Client, w1) == Project(Server, w1) == [];
      }
      return;
    }
    var a := w1[0];
    assert a in w1;
    assert Project(if a.Cycle? then Client else a.role, w1)[0] == a;
    assert w2 != [];
    assert w2[0] in w2;
    ActKeepsSound(j, a);
    if w2[0] == a || a.Cycle? {
      assert w2[0] == a by {
        if a.Cycle? {
          assert Project(Client, w2)[0] == Project(Server, w2)[0] == Cycle;
        }
      }
      assert forall role :: Project(role, w1[1..]) == Project(role, w2[1..]) by {
        forall role: Role
          ensures Project(role, w1[1..]) == Project(role, w2[1..])
        {
          assert a.Cycle? || a.role == role ==> Project(role, w1)[1..] == Project(role, w2)[1..];
        }
      }
      OrderIndependence(Act(j, a).value, w1[1..], w2[1..]);
      return;
    }
    assert a.Move?;
    assert Project(a.role, w1)[1..] == Project(a.role, w1[1..]);
    var rest := SwapIn(j, a, w1[1..], w2);
    forall role: Role
      ensures Project(role, w1[1..]) == Project(role, rest)
    {
      assert role == a.role || role == a.role.Peer();
    }
    OrderIndependence(Act(j, a).value, w1[1..], rest);
  }

  // ------------------------------------------------------------------
  // Delivery
  // ------------------------------------------------------------------

  /** An accepted word of one cycle in which the server waits for a request. */
  predicate Polite(j: Joint, w: seq<Action>)
    decreases |w|
  {
    w == [] ||
    (&& w[0].Move?
     && (Race(j) ==> w[0].role == Client)
     && Act(j, w[0]).Some?
     && Polite(Act(j, w[0]).value, w[1..]))
  }

  lemma {:induction false} PoliteWord(j: Joint, w: seq<Action>)
    requires Polite(j, w)
    ensures Accept(j, w).Some? && FaultFree(w)
    ensures forall a <- w :: a.Move?
    decreases |w|
  {
    hide Act;
    if w != [] {
      PoliteWord(Act(j, w[0]).value, w[1..]);
    }
  }

  lemma {:induction false} PolitePrefix(j: Joint, w: seq<Action>, a: Action)
    requires Polite(j, w + [a])
    ensures Polite(j, w)
    decreases |w|
  {
    hide Act;
    if w != [] {
      assert (w + [a])[1..] == w[1..] + [a];
      PolitePrefix(Act(j, w[0]).value, w[1..], a);
    }
  }

  lemma {:induction false} OnlyOneActor(role: Role, w: seq<Action>)
    requires FaultFree(w) && Project(role.Peer(), w) == []
    ensures OnlyMovesOf(role, w) && Project(role, w) == w
    decreases |w|
  {
    if w != [] {
      assert w[0] in w;
      OnlyOneActor(role, w[1..]);
    }
  }

  /** Away from a race, being polite is no more than being accepted move by move. */
  lemma {:induction false} AcceptedIsPolite(j: Joint, w: seq<Action>)
    requires Sound(j) && !Race(j) && Accept(j, w).Some? && forall a <- w :: a.Move?
    ensures Polite(j, w)
    decreases |w|
  {
    if w != [] {
      hide Act, Sound, Race;
      assert w[0] in w;
      ActKeepsSound(j, w[0]);
      MoveLeavesRace(j, w[0]);
      AcceptedIsPolite(Act(j, w[0]).value, w[1..]);
    }
  }

  /** The first move of `u` is brought to the front of `w`. */
  lemma CatchUpOnce(j: Joint, role: Role, u: seq<Action>, w: seq<Action>) returns (rest: seq<Action>)
    requires Sound(j) && Polite(j, u) && Polite(j, w) && u != []
    requires Project(role, u) == Project(role, w)
    requires Project(role.Peer(), u) <= Project(role.Peer(), w)
    ensures Act(j, u[0]).Some? && Sound(Act(j, u[0]).value)
    ensures Polite(Act(j, u[0]).value, u[1..]) && Polite(Act(j, u[0]).value, rest)
    ensures Accept(Act(j, u[0]).value, rest) == Accept(j, w)
    ensures Project(u[0].role, w) == [u[0]] + Project(u[0].role, rest)
    ensures Project(u[0].role.Peer(), w) == Project(u[0].role.Peer(), rest)
  {
    hide Act, Sound, Race, Accept;
    PoliteWord(j, u);
    PoliteWord(j, w);
    var a := u[0];
    assert a in u;
    FirstProjected(u);
    assert Project(a.role, w)[0] == a;
    ActKeepsSound(j, a);
    MoveLeavesRace(j, a);
    var s, v := FirstOf(a.role, w);
    SplitProjections(s, a, v);
    assert Project(a.role, w)[1..] == Project(a.role, s + v);
    assert s == [] || s[0] == w[0];
    assert s == [] || Independent(j, a.event, s[0].event);
    MoveToFront(j, s, a, v);
    AcceptedIsPolite(Act(j, a).value, s + v);
    rest := s + v;
  }

  lemma FirstProjected(u: seq<Action>)
    requires u != [] && u[0].Move?
    ensures Project(u[0].role, u) == [u[0]] + Project(u[0].role, u[1..])
    ensures Project(u[0].role.Peer(), u) == Project(u[0].role.Peer(), u[1..])
  {
  }

  /** A polite word can be rebuilt on top of one that has seen all of `role`'s
      moves but only the first few of the other actor's. */
  lemma {:induction false} CatchUp(j: Joint, role: Role, u: seq<Action>, w: seq<Action>) returns (late: seq<Action>)
    requires Sound(j) && Polite(j, u) && Polite(j, w)
    requires Project(role, u) == Project(role, w)
    requires Project(role.Peer(), u) <= Project(role.Peer(), w)
    ensures OnlyMovesOf(role.Peer(), late)
    ensures late == Project(role.Peer(), w)[|Project(role.Peer(), u)|..]
    ensures Accept(j, u + late) == Accept(j, w)
    decreases |u|
  {
    hide Act, Sound, Race, Accept, Polite, Project;
    PoliteWord(j, u);
    PoliteWord(j, w);
    if u == [] {
      NothingProjected(role);
      assert role.Peer().Peer() == role;
      OnlyOneActor(role.Peer(), w);
      assert u + w == w;
      return w;
    }
    assert u[0] in u;
    FirstProjected(u);
    var rest := CatchUpOnce(j, role, u, w);
    var own, other := Project(u[0].role, u[1..]), Project(u[0].role, rest);
    assert ([u[0]] + own)[1..] == own && ([u[0]] + other)[1..] == other;
    assert u[0].role == role || (u[0].role == role.Peer() && role == u[0].role.Peer());
    late := CatchUp(Act(j, u[0]).value, role, u[1..], rest);
    assert (u + late)[1..] == u[1..] + late;
    AcceptFirst(j, u + late);
  }

  lemma NothingProjected(role: Role)
    ensures Project(role, []) == [] && Project(role.Peer(), []) == []
  {
  }

  lemma AcceptFirst(j: Joint, w: seq<Action>)
    requires w != [] && Act(j, w[0]).Some?
    ensures Accept(j, w) == Accept(Act(j, w[0]).value, w[1..])
  {
    hide Act;
  }

  /** Delivery within one cycle. */
  lemma DeliveryInCycle(j: Joint, sent: seq<Action>, a: Action, seen: seq<Action>)
    requires Sound(j) && a.Move? && Polite(j, sent + [a]) && Polite(j, seen)
    requires Project(a.role, sent) == Project(a.role, seen)
    requires Project(a.role.Peer(), sent) <= Project(a.role.Peer(), seen)
    ensures Accept(j, seen + [a]).Some?
  {
    hide Act, Sound, Race;
    PolitePrefix(j, sent, a);
    PoliteWord(j, sent + [a]);
    PoliteWord(j, sent);
    PoliteWord(j, seen);
    AcceptConcat(j, sent, [a]);
    AcceptConcat(j, seen, [a]);
    var late := CatchUp(j, a.role, sent, seen);
    AcceptConcat(j, sent, late);
    var k := Accept(j, sent).value;
    AcceptKeepsSound(j, sent);
    assert sent == [] || !Race(k) by {
      if sent != [] {
        assert sent[|sent| - 1] in sent;
      }
    }
    assert Race(j) && seen != [] ==> Project(Client, seen) != [];
    Advance(k, late, a);
  }

  // Over any number of cycles.

  /** An accepted word in which, in every cycle, the server waits for a request. */
  predicate Courteous(j: Joint, w: seq<Action>)
    decreases |w|
  {
    w == [] ||
    (&& !w[0].Fault?
     && (Race(j) && w[0].Move? ==> w[0].role == Client)
     && Act(j, w[0]).Some?
     && Courteous(Act(j, w[0]).value, w[1..]))
  }

  lemma {:induction false} CourteousIsPolite(j: Joint, w: seq<Action>)
    requires Courteous(j, w) && Cycle !in w
    ensures Polite(j, w)
    decreases |w|
  {
    hide Act, Race;
    if w != [] {
      assert w[0] in w;
      CourteousIsPolite(Act(j, w[0]).value, w[1..]);
    }
  }

  lemma {:induction false} SplitAtCycle(w: seq<Action>) returns (u: seq<Action>, v: seq<Action>)
    requires Cycle in w
    ensures w == u + [Cycle] + v && Cycle !in u
    decreases |w|
  {
    if w[0] == Cycle {
      u, v := [], w[1..];
    } else {
      u, v := SplitAtCycle(w[1..]);
      u := [w[0]] + u;
    }
  }

  /** A cycle forgets what came before it. */
  lemma {:induction false} CycleForgets(j: Joint, u: seq<Action>, v: seq<Action>, more: seq<Action>)
    requires Courteous(j, u + [Cycle] + v)
    ensures Courteous(INITIAL, v)
    ensures Accept(j, u + [Cycle] + more) == Accept(INITIAL, more)
    decreases |u|
  {
    if u == [] {
      assert ([] + [Cycle] + v)[1..] == v && ([] + [Cycle] + more)[1..] == more;
    } else {
      hide Act, Race;
      assert (u + [Cycle] + v)[1..] == u[1..] + [Cycle] + v;
      assert (u + [Cycle] + more)[1..] == u[1..] + [Cycle] + more;
      CycleForgets(Act(j, u[0]).value, u[1..], v, more);
    }
  }

  lemma {:induction false} CycleProjected(role: Role, w: seq<Action>)
    requires FaultFree(w)
    ensures Cycle in w <==> Cycle in Project(role, w)
    decreases |w|
  {
    if w != [] {
      assert w[0] in w;
      CycleProjected(role, w[1..]);
      assert w == [w[0]] + w[1..];
    }
  }

  lemma {:induction false} CourteousIsFaultFree(j: Joint, w: seq<Action>)
    requires Courteous(j, w)
    ensures FaultFree(w)
    decreases |w|
  {
    hide Act, Race;
    if w != [] {
      CourteousIsFaultFree(Act(j, w[0]).value, w[1..]);
    }
  }

  /** The first cycles of two words of which one begins the other. */
  lemma FirstCyclesMeet(p: seq<Action>, q: seq<Action>, r: seq<Action>, s: seq<Action>)
    requires p + [Cycle] + q <= r + [Cycle] + s && Cycle !in p && Cycle !in r
    ensures p == r && q <= s
  {
    var u, v := p + [Cycle] + q, r + [Cycle] + s;
    assert v[|p|] == u[|p|] == Cycle;
    assert v[|r|] == Cycle && |r| < |u|;
    assert |p| == |r|;
    assert u[..|p|] == p && v[..|r|] == r;
    assert u[|p| + 1..] == q && v[|r| + 1..] == s;
  }

  lemma CycleSplits(role: Role, u: seq<Action>, v: seq<Action>)
    requires FaultFree(u + [Cycle] + v) && Cycle !in u
    ensures Project(role, u + [Cycle] + v) == Project(role, u) + [Cycle] + Project(role, v)
    ensures Cycle !in Project(role, u)
  {
    assert u + [Cycle] + v == u + ([Cycle] + v);
    assert FaultFree(u) by {
      forall a <- u
        ensures !a.Fault?
      {
        assert a in u + [Cycle] + v;
      }
    }
    ProjectConcat(role, u, [Cycle] + v);
    assert ([Cycle] + v)[1..] == v;
    CycleProjected(role, u);
  }

  /**
   Delivery.  `sent` is what the sending endpoint has seen when it makes the
   move `a`, `seen` what the receiving endpoint has seen when the move arrives:
   the same moves of the sender and the same cycles, and of the receiver's own
   moves at least those the sender knew of.  The receiver accepts the move.
   */
  lemma {:induction false} Delivery(j: Joint, sent: seq<Action>, a: Action, seen: seq<Action>)
    requires Sound(j) && a.Move? && Courteous(j, sent + [a]) && Courteous(j, seen)
    requires Project(a.role, sent) == Project(a.role, seen)
    requires Project(a.role.Peer(), sent) <= Project(a.role.Peer(), seen)
    ensures Accept(j, seen + [a]).Some?
    decreases |sent|
  {
    hide Act, Sound, Race, Accept, Polite, Courteous, Project;
    CourteousIsFaultFree(j, sent + [a]);
    CourteousIsFaultFree(j, seen);
    assert FaultFree(sent) by {
      forall b <- sent
        ensures !b.Fault?
      {
        assert b in sent + [a];
      }
    }
    CycleProjected(a.role, sent);
    CycleProjected(a.role, seen);
    if Cycle !in sent {
      CourteousIsPolite(j, sent + [a]);
      CourteousIsPolite(j, seen);
      DeliveryInCycle(j, sent, a, seen);
      return;
    }
    var u, v := SplitAtCycle(sent);
    var p, q := SplitAtCycle(seen);
    assert sent + [a] == u + [Cycle] + (v + [a]) && seen + [a] == p + [Cycle] + (q + [a]);
    CycleForgets(j, u, v + [a], []);
    CycleForgets(j, p, q, q + [a]);
    CycleSplits(a.role, u, v);
    CycleSplits(a.role, p, q);
    CycleSplits(a.role.Peer(), u, v);
    CycleSplits(a.role.Peer(), p, q);
    FirstCyclesMeet(Project(a.role, u), Project(a.role, v), Project(a.role, p), Project(a.role, q));
    FirstCyclesMeet(Project(a.role, p), Project(a.role, q), Project(a.role, u), Project(a.role, v));
    FirstCyclesMeet(Project(a.role.Peer(), u), Project(a.role.Peer(), v), Project(a.role.Peer(), p), Project(a.role.Peer(), q));
    InitialIsSound();
    Delivery(INITIAL, v, a, q);
  }

  lemma InitialIsSound()
    ensures Sound(INITIAL)
  {
  }
}
