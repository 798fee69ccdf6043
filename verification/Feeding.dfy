/**
 Feeding a stream and draining it are runs of calls: `receive_data` with each
 fragment, `next_event` until nothing new is reported.  What is proved about
 feeding is proved about those runs.
 */
module Feeding {
  import opened Bytes
  import opened ConnectionModel
  import opened Coupling
  import opened Polling
  import opened Fragmentation
  import opened FragmentedRuns
  import opened BodyFragments

  lemma {:induction false} RunConcat(x: Externals, c: Conn, u: seq<Call>, v: seq<Call>)
    ensures RunCalls(x, c, u + v) == RunCalls(x, RunCalls(x, c, u), v)
    ensures Received(x, c, u + v) == Received(x, c, u) + Received(x, RunCalls(x, c, u), v)
    decreases |u|
  {
    hide After, Receive;
    if u == [] {
      assert u + v == v;
      assert [] + Received(x, c, v) == Received(x, c, v);
    } else {
      assert (u + v)[1..] == u[1..] + v;
      RunConcat(x, After(x, c, u[0]), u[1..], v);
    }
  }

  lemma OneCall(x: Externals, c: Conn, call: Call)
    ensures RunCalls(x, c, [call]) == After(x, c, call)
    ensures Received(x, c, [call]) == if call.CallReceive? && Receive(c, call.data).Some? then call.data else []
  {
    hide After, Receive;
    assert [call][1..] == [];
  }

  /** The polls of a drain. */
  function Polls(n: nat): seq<Call> {
    if n == 0 then [] else [CallNext] + Polls(n - 1)
  }

  lemma PollThen(x: Externals, c: Conn, n: nat)
    ensures RunCalls(x, c, Polls(n + 1)) == RunCalls(x, Next(x, c).conn, Polls(n))
    ensures Received(x, c, Polls(n + 1)) == Received(x, Next(x, c).conn, Polls(n))
  {
    hide Next;
    assert Polls(n + 1)[1..] == Polls(n);
    assert After(x, c, CallNext) == Next(x, c).conn;
    assert [] + Received(x, Next(x, c).conn, Polls(n)) == Received(x, Next(x, c).conn, Polls(n));
  }

  lemma {:induction false} DrainIsRun(x: Externals, c: Conn)
    requires Coupled(c)
    ensures RunCalls(x, c, Polls(|Drain(x, c).events| + 1)) == Drain(x, c).conn
    ensures Received(x, c, Polls(|Drain(x, c).events| + 1)) == []
    decreases Potential(c)
  {
    hide Coupled, Next, Potential, Drain, RunCalls, Received, Polls;
    DrainStep(x, c);
    var r := Next(x, c);
    PollThen(x, c, |Drain(x, c).events|);
    if Reports(r.outcome) {
      DrainIsRun(x, r.conn);
    } else {
      NoPolls(x, r.conn);
    }
  }

  lemma NoPolls(x: Externals, c: Conn)
    ensures RunCalls(x, c, Polls(0)) == c && Received(x, c, Polls(0)) == []
  {
  }

  /** The calls that feed a stream. */
  function FeedCalls(x: Externals, c: Conn, fragments: seq<bytes>): seq<Call>
    requires Coupled(c) && !c.eof && Fragments(fragments)
    decreases |fragments|
  {
    hide Coupled, Potential;
    FeedCoupled(c, fragments[0]);
    var a := Drain(x, Feed(c, fragments[0]));
    [CallReceive(fragments[0])] + Polls(|a.events| + 1) +
    (if |fragments| == 1 then []
     else if a.outcome.Failed? then [CallReceive(Concat(fragments[1..]))]
     else FeedCalls(x, a.conn, fragments[1..]))
  }

  lemma FeedIsReceived(x: Externals, c: Conn, data: bytes)
    requires !c.eof && data != []
    ensures RunCalls(x, c, [CallReceive(data)]) == Feed(c, data)
    ensures Received(x, c, [CallReceive(data)]) == data
  {
    OneCall(x, c, CallReceive(data));
  }

  /** Feeding is that run, and the run has received the whole stream. */
  lemma {:induction false} FeedIsRun(x: Externals, c: Conn, fragments: seq<bytes>)
    requires Coupled(c) && !c.eof && Fragments(fragments)
    ensures RunCalls(x, c, FeedCalls(x, c, fragments)) == FeedAll(x, c, fragments).conn
    ensures Received(x, c, FeedCalls(x, c, fragments)) == Concat(fragments)
    decreases |fragments|
  {
    hide Coupled, Potential, Drain, RunCalls, Received, Polls;
    FeedCoupled(c, fragments[0]);
    var d := Feed(c, fragments[0]);
    var a := Drain(x, d);
    var receive, polls := [CallReceive(fragments[0])], Polls(|a.events| + 1);
    FeedIsReceived(x, c, fragments[0]);
    DrainIsRun(x, d);
    RunConcat(x, c, receive, polls);
    assert fragments[0] + [] == fragments[0];
    if |fragments| == 1 {
      assert receive + polls + [] == receive + polls;
      return;
    }
    if a.outcome.Failed? {
      ConcatNonEmpty(fragments[1..]);
      FeedIsReceived(x, a.conn, Concat(fragments[1..]));
      RunConcat(x, c, receive + polls, [CallReceive(Concat(fragments[1..]))]);
    } else {
      FeedIsRun(x, a.conn, fragments[1..]);
      RunConcat(x, c, receive + polls, FeedCalls(x, a.conn, fragments[1..]));
    }
  }
}
