/**
 The joint client/server lifecycle (crates/h11r/src/state.rs).

 `Joint` is the value of the machine.  `Settle` is a loop-free description of
 the configuration the joint-state rules converge to, and `Process` the effect
 of one semantic event.  The class `ConnectionState` is the mutable machine:
 it runs the rules in a loop, and every method is proved to have the effect the
 value-level functions describe.
 */
module Lifecycle {
  import opened Prelude

  datatype Role = Client | Server {
    function Peer(): Role {
      if Client? then Server else Client
    }
  }

  datatype State =
    | Idle
    | SendResponse
    | SendBody
    | Done
    | MightSwitchProtocol
    | SwitchedProtocol
    | MustClose
    | Closed
    | Error

  datatype SwitchKind = Connect | Upgrade

  datatype Proposals = Proposals(connect: bool, upgrade: bool) {
    predicate Contains(kind: SwitchKind) {
      match kind
      case Connect => connect
      case Upgrade => upgrade
    }

    predicate Pending() {
      connect || upgrade
    }
  }

  const NO_PROPOSALS := Proposals(false, false)

  datatype StateEvent =
    | Request(proposals: Proposals)
    | InformationalResponse
    | Response
    | Data
    | EndOfMessage
    | ProtocolSwitch(kind: SwitchKind)
    | ConnectionClosed

  /** Both actors, the reuse flag and the pending switch proposals. */
  datatype Joint = Joint(client: State, server: State, keepAlive: bool, proposals: Proposals) {
    function At(role: Role): State {
      if role.Client? then client else server
    }

    function With(role: Role, state: State): Joint {
      if role.Client? then this.(client := state) else this.(server := state)
    }
  }

  const INITIAL := Joint(Idle, Idle, true, NO_PROPOSALS)

  /** The event-triggered transition of one actor, `None` when the event is refused. */
  function Direct(role: Role, state: State, event: StateEvent): Option<State> {
    match (role, state, event)
    case (Client, Idle, Request(_)) => Some(SendBody)
    case (Server, Idle, Response) => Some(SendBody)
    case (Server, SendResponse, InformationalResponse) => Some(SendResponse)
    case (Server, SendResponse, Response) => Some(SendBody)
    case (Server, SendResponse, ProtocolSwitch(_)) => Some(SwitchedProtocol)
    case (_, SendBody, Data) => Some(SendBody)
    case (_, SendBody, EndOfMessage) => Some(Done)
    case (_, Idle, ConnectionClosed) => Some(Closed)
    case (_, Done, ConnectionClosed) => Some(Closed)
    case (_, MustClose, ConnectionClosed) => Some(Closed)
    case (_, Closed, ConnectionClosed) => Some(Closed)
    case _ => None
  }

  /** The part of an event that reaches beyond the actor it belongs to. */
  function Effect(j: Joint, role: Role, event: StateEvent): Option<Joint> {
    match (role, event)
    case (Client, Request(proposals)) =>
      if j.server != Idle then None
      else Some(j.(proposals := proposals, server := SendResponse))
    case (Server, ProtocolSwitch(kind)) =>
      if j.proposals.Contains(kind) then Some(j) else None
    case (Server, Response) =>
      Some(j.(keepAlive := j.keepAlive && !j.proposals.connect && j.server != Idle,
              proposals := NO_PROPOSALS))
    case _ => Some(j)
  }

  /** One event: the direct transition, its cross effect, then the joint rules. */
  function Process(j: Joint, role: Role, event: StateEvent): Option<Joint> {
    match Direct(role, j.At(role), event)
    case None => None
    case Some(next) =>
      match Effect(j, role, event)
      case None => None
      case Some(e) => Some(Settle(e.With(role, next)))
  }

  function DisableKeepAlive(j: Joint): Joint {
    Settle(j.(keepAlive := false))
  }

  function Poison(j: Joint, role: Role): Joint {
    Settle(j.With(role, Error))
  }

  predicate Reusable(j: Joint) {
    j.client == Done && j.server == Done && j.keepAlive && !j.proposals.Pending()
  }

  // ------------------------------------------------------------------
  // The joint rules
  // ------------------------------------------------------------------

  /** The client after the switch rules: a finished request waits for the
      server's decision while a proposal is pending, and follows an accepted one. */
  function SwitchRule(j: Joint): State {
    if j.client == MightSwitchProtocol && j.server == SwitchedProtocol then SwitchedProtocol
    else if (j.client.Done? || j.client.MightSwitchProtocol?) then
      if !j.proposals.Pending() then Done
      else if j.server == SwitchedProtocol then SwitchedProtocol
      else MightSwitchProtocol
    else j.client
  }

  /** Whether an actor in `mine` may no longer start a message. */
  predicate CloseRule(mine: State, other: State, keepAlive: bool) {
    || (mine == Done && (!keepAlive || (other.Closed? || other.Error?)))
    || (mine == Idle && other == Closed)
  }

  /** What the joint rules converge to: switching first, then closing. */
  function Settle(j: Joint): Joint {
    var client := SwitchRule(j);
    Joint(if CloseRule(client, j.server, j.keepAlive) then MustClose else client,
          if CloseRule(j.server, client, j.keepAlive) then MustClose else j.server,
          j.keepAlive,
          if client == SwitchedProtocol && j.server == SwitchedProtocol then NO_PROPOSALS else j.proposals)
  }

  // One round of the rule loop, rule group by rule group.

  function SwitchStep(j: Joint): Joint {
    var client := SwitchRule(j);
    j.(client := client,
       proposals := if client.SwitchedProtocol? && j.server.SwitchedProtocol? then NO_PROPOSALS else j.proposals)
  }

  function ReuseStep(j: Joint): Joint {
    if j.keepAlive then j
    else j.(client := if j.client.Done? then MustClose else j.client,
            server := if j.server.Done? then MustClose else j.server)
  }

  function PeerStep(j: Joint): Joint {
    match (j.client, j.server)
    case (Closed, Done) => j.(server := MustClose)
    case (Closed, Idle) => j.(server := MustClose)
    case (Error, Done) => j.(server := MustClose)
    case (Done, Closed) => j.(client := MustClose)
    case (Idle, Closed) => j.(client := MustClose)
    case (Done, Error) => j.(client := MustClose)
    case _ => j
  }

  function Round(j: Joint): Joint {
    PeerStep(ReuseStep(SwitchStep(j)))
  }

  /** Termination measure of the rule loop: proposals are dropped at most once,
      and while they stay as they are each actor only moves down its own rank. */
  function Rank(j: Joint): nat {
    (if j.proposals.Pending() then 8 else 0)
    + (match j.client
       case Done => if j.proposals.Pending() then 2 else 1
       case MightSwitchProtocol => if j.proposals.Pending() then 1 else 2
       case Idle => 1
       case _ => 0)
    + (if (j.server.Idle? || j.server.Done?) then 1 else 0)
  }

  lemma SwitchStepConverges(j: Joint)
    ensures Settle(SwitchStep(j)) == Settle(j)
    ensures SwitchStep(j) == j || Rank(SwitchStep(j)) < Rank(j)
  {
  }

  lemma ReuseStepConverges(j: Joint)
    requires SwitchStep(j) == j
    ensures Settle(ReuseStep(j)) == Settle(j)
    ensures SwitchStep(ReuseStep(j)) == ReuseStep(j)
    ensures ReuseStep(j) == j || Rank(ReuseStep(j)) < Rank(j)
  {
  }

  lemma PeerStepConverges(j: Joint)
    requires SwitchStep(j) == j && ReuseStep(j) == j
    ensures Settle(j) == PeerStep(j)
    ensures PeerStep(j) == j || Rank(PeerStep(j)) < Rank(j)
  {
  }

  /** From every configuration a round keeps the limit and strictly descends,
      until it changes nothing; the limit has then been reached. */
  lemma RoundConverges(j: Joint)
    ensures Settle(Round(j)) == Settle(j)
    ensures Round(j) != j ==> Rank(Round(j)) < Rank(j)
    ensures Round(j) == j ==> Settle(j) == j
  {
    SwitchStepConverges(j);
    ReuseStepConverges(SwitchStep(j));
    PeerStepConverges(ReuseStep(SwitchStep(j)));
    assert Settle(Settle(j)) == Settle(j);
  }

  /** The mutable machine. */
  class ConnectionState {
    var client: State
    var server: State
    var keepAlive: bool
    var proposals: Proposals

    function Value(): Joint
      reads this
    {
      Joint(client, server, keepAlive, proposals)
    }

    constructor ()
      ensures Value() == INITIAL
    {
      client, server, keepAlive, proposals := Idle, Idle, true, NO_PROPOSALS;
    }

    constructor Copy(j: Joint)
      ensures Value() == j
    {
      client, server, keepAlive, proposals := j.client, j.server, j.keepAlive, j.proposals;
    }

    method Assign(j: Joint)
      modifies this
      ensures Value() == j
    {
      client, server, keepAlive, proposals := j.client, j.server, j.keepAlive, j.proposals;
    }

    /** One pass over the rules, in their order of priority. */
    method ApplyRules()
      modifies this
      ensures Value() == Round(old(Value()))
    {
      if client == Done && proposals.Pending() {
        client := MightSwitchProtocol;
      }
      if client == MightSwitchProtocol && server == SwitchedProtocol {
        client := SwitchedProtocol;
      } else if client == MightSwitchProtocol && !proposals.Pending() {
        client := Done;
      }
      if client == SwitchedProtocol && server == SwitchedProtocol {
        proposals := NO_PROPOSALS;
      }
      assert Value() == SwitchStep(old(Value()));
      if !keepAlive {
        if client == Done {
          client := MustClose;
        }
        if server == Done {
          server := MustClose;
        }
      }
      match (client, server) {
        case (Closed, Done) => server := MustClose;
        case (Closed, Idle) => server := MustClose;
        case (Error, Done) => server := MustClose;
        case (Done, Closed) => client := MustClose;
        case (Idle, Closed) => client := MustClose;
        case (Done, Error) => client := MustClose;
        case _ =>
      }
    }

    /** Applies the rules until a pass changes nothing. */
    method Stabilize()
      modifies this
      ensures Value() == Settle(old(Value()))
    {
      while true
        invariant Settle(Value()) == Settle(old(Value()))
        decreases Rank(Value())
      {
        var before := Value();
        ApplyRules();
        RoundConverges(before);
        if Value() == before {
          return;
        }
      }
    }

    /** Applies one event to a copy and commits the copy only when it is accepted. */
    method ProcessEvent(role: Role, event: StateEvent) returns (ok: bool)
      modifies this
      ensures ok == Process(old(Value()), role, event).Some?
      ensures ok ==> Value() == Process(old(Value()), role, event).value
      ensures !ok ==> Value() == old(Value())
    {
      var current := if role.Client? then client else server;
      var transitioned := Direct(role, current, event);
      if transitioned.None? {
        return false;
      }
      var next := new ConnectionState.Copy(Value());
      match (role, event) {
        case (Client, Request(proposals)) =>
          if next.server != Idle {
            return false;
          }
          next.proposals := proposals;
          next.server := SendResponse;
        case (Server, ProtocolSwitch(kind)) =>
          if !next.proposals.Contains(kind) {
            return false;
          }
        case (Server, Response) =>
          if next.proposals.Contains(Connect) {
            next.keepAlive := false;
          }
          next.proposals := NO_PROPOSALS;
          if current == Idle {
            next.keepAlive := false;
          }
        case _ =>
      }
      if role.Client? {
        next.client := transitioned.value;
      } else {
        next.server := transitioned.value;
      }
      next.Stabilize();
      Assign(next.Value());
      return true;
    }

    method Disable()
      modifies this
      ensures Value() == DisableKeepAlive(old(Value()))
    {
      keepAlive := false;
      Stabilize();
    }

    method ProcessError(role: Role)
      modifies this
      ensures Value() == Poison(old(Value()), role)
    {
      if role.Client? {
        client := Error;
      } else {
        server := Error;
      }
      Stabilize();
    }

    method StartNextCycle() returns (ok: bool)
      modifies this
      ensures ok == Reusable(old(Value()))
      ensures Value() == if ok then INITIAL else old(Value())
    {
      if client != Done || server != Done || !keepAlive || proposals.Pending() {
        return false;
      }
      Assign(INITIAL);
      return true;
    }
  }
}
