/**
 The runner, the store and the subscriber together: reads of any history of transactions form a
 session, and what a subscriber of a completed run gets is the stored answer.
 */
module AiDelivery {
  import opened Common
  import opened AiRuns
  import opened AiRunsTheory
  import opened AiRunner
  import opened AiStream

  // ---------------------------------------------------------------- reads of a history

  /** The tables after the first n transactions. */
  function At(global: Limits, overrides: map<nat, Overrides>, ops: seq<Op>, n: nat): Db
    requires n <= |ops|
  {
    DoAll(Fresh(global, overrides), ops[..n])
  }

  lemma {:induction false} EvolvesBetween(global: Limits, overrides: map<nat, Overrides>, ops: seq<Op>, n: nat, m: nat)
    requires n <= m <= |ops|
    ensures Evolves(At(global, overrides, ops, n), At(global, overrides, ops, m))
  {
    assert ops[..m][..n] == ops[..n];
    HistoryEvolves(global, overrides, ops[..m], n);
  }

  /** After how many transactions a poll reads the run's state, and then the events. */
  datatype Read = Read(state: nat, rows: nat)

  /** One visit of a client: when the server polls for it, and after how many frames it breaks. */
  datatype Visit = Visit(times: seq<Read>, writes: nat)

  predicate InOrder(times: seq<Read>, n: nat) {
    && (forall i :: 0 <= i < |times| ==> times[i].state <= times[i].rows <= n)
    && (forall i, j :: 0 <= i < j < |times| ==> times[i].rows <= times[j].state)
  }

  predicate VisitsInOrder(visits: seq<Visit>, n: nat) {
    && (forall i :: 0 <= i < |visits| ==> InOrder(visits[i].times, n))
    && (forall i, j :: 0 <= i < j < |visits| ==> Precedes(visits[i].times, visits[j].times))
  }

  predicate Precedes(first: seq<Read>, second: seq<Read>) {
    first != [] && second != [] ==> first[|first| - 1].rows <= second[0].state
  }

  function PollsAt(global: Limits, overrides: map<nat, Overrides>, ops: seq<Op>, times: seq<Read>): seq<Poll>
    requires InOrder(times, |ops|)
  {
    seq(|times|, i requires 0 <= i < |times| =>
      Poll(At(global, overrides, ops, times[i].state), At(global, overrides, ops, times[i].rows)))
  }

  function ConnectionsAt(global: Limits, overrides: map<nat, Overrides>, ops: seq<Op>, visits: seq<Visit>)
    : seq<Connection>
    requires VisitsInOrder(visits, |ops|)
  {
    seq(|visits|, i requires 0 <= i < |visits| =>
      Connection(PollsAt(global, overrides, ops, visits[i].times), visits[i].writes))
  }

  /** The run is there whenever it is read. */
  ghost predicate Exists(global: Limits, overrides: map<nat, Overrides>, ops: seq<Op>, times: seq<Read>, id: nat) {
    forall i :: 0 <= i < |times| && times[i].state <= |ops| ==> id < |At(global, overrides, ops, times[i].state).runs|
  }

  /** Between two moments of a history a run only grows, and a finished one stays. */
  lemma {:induction false} RunBetween(global: Limits, overrides: map<nat, Overrides>, ops: seq<Op>, n: nat, m: nat,
                                      id: nat)
    requires n <= m <= |ops| && id < |At(global, overrides, ops, n).runs|
    ensures
      var db, db' := At(global, overrides, ops, n), At(global, overrides, ops, m);
      && id < |db'.runs| && RunEvolves(db, db', id)
  {
    EvolvesBetween(global, overrides, ops, n, m);
  }

  /** Every event a run shows at one moment is there at every later one. */
  lemma {:induction false} EventBetween(global: Limits, overrides: map<nat, Overrides>, ops: seq<Op>, seen: nat, n: nat,
                                        m: nat, id: nat, k: nat)
    requires seen <= n <= m <= |ops| && id < |At(global, overrides, ops, seen).runs|
    requires 1 <= k <= At(global, overrides, ops, seen).runs[id].lastSequence
    ensures Carried(At(global, overrides, ops, n).events, At(global, overrides, ops, m).events, id, k)
  {
    LogsAreOrdered(global, overrides, ops[..seen], id, k);
    EvolvesBetween(global, overrides, ops, seen, n);
    EvolvesBetween(global, overrides, ops, n, m);
  }

  lemma {:induction false} ReadIsPoll(global: Limits, overrides: map<nat, Overrides>, ops: seq<Op>, read: Read, id: nat,
                                      p: Poll, latest: Db)
    requires read.state <= read.rows <= |ops| && id < |At(global, overrides, ops, read.state).runs|
    requires p == Poll(At(global, overrides, ops, read.state), At(global, overrides, ops, read.rows))
    requires latest == At(global, overrides, ops, |ops|)
    ensures PollOk(p, id, latest)
  {
    RunBetween(global, overrides, ops, read.state, |ops|, id);
    forall n: nat | 1 <= n <= p.state.runs[id].lastSequence
      ensures Carried(p.rows.events, latest.events, id, n)
    {
      EventBetween(global, overrides, ops, read.state, read.rows, |ops|, id, n);
    }
  }

  lemma {:induction false} LaterReadsMore(global: Limits, overrides: map<nat, Overrides>, ops: seq<Op>, a: Read,
                                          b: Read,
                                          id: nat, p: Poll, q: Poll)
    requires a.state <= a.rows <= b.state <= b.rows <= |ops|
    requires p == Poll(At(global, overrides, ops, a.state), At(global, overrides, ops, a.rows))
    requires q == Poll(At(global, overrides, ops, b.state), At(global, overrides, ops, b.rows))
    ensures NoLess(p, q, id)
  {
    if id < |p.state.runs| {
      RunBetween(global, overrides, ops, a.state, b.state, id);
    }
  }

  lemma {:induction false} ReadsAreChained(global: Limits, overrides: map<nat, Overrides>, ops: seq<Op>,
                                           times: seq<Read>, polls: seq<Poll>, id: nat, latest: Db)
    requires InOrder(times, |ops|) && Exists(global, overrides, ops, times, id)
    requires polls == PollsAt(global, overrides, ops, times) && latest == At(global, overrides, ops, |ops|)
    ensures Chained(polls, id, latest)
  {
    forall i | 0 <= i < |polls|
      ensures PollOk(polls[i], id, latest)
    {
      ReadIsPoll(global, overrides, ops, times[i], id, polls[i], latest);
    }
    forall i, j | 0 <= i < j < |polls|
      ensures NoLess(polls[i], polls[j], id)
    {
      LaterReadsMore(global, overrides, ops, times[i], times[j], id, polls[i], polls[j]);
    }
  }

  lemma {:induction false} LastPoll(global: Limits, overrides: map<nat, Overrides>, ops: seq<Op>, times: seq<Read>,
                                    polls: seq<Poll>)
    requires InOrder(times, |ops|) && times != [] && polls == PollsAt(global, overrides, ops, times)
    ensures
      var last := times[|times| - 1];
      && |polls| == |times| && last.state <= last.rows <= |ops|
      && polls[|polls| - 1] == Poll(At(global, overrides, ops, last.state), At(global, overrides, ops, last.rows))
  {
  }

  lemma {:induction false} ReadsFollow(global: Limits, overrides: map<nat, Overrides>, ops: seq<Op>,
                                       first: seq<Read>, second: seq<Read>, p: seq<Poll>, q: seq<Poll>, id: nat)
    requires InOrder(first, |ops|) && InOrder(second, |ops|) && Precedes(first, second)
    requires p == PollsAt(global, overrides, ops, first) && q == PollsAt(global, overrides, ops, second)
    ensures After(p, q, id)
  {
    if first != [] && second != [] {
      var a, b := first[|first| - 1], second[0];
      assert a.state <= a.rows <= b.state <= b.rows <= |ops|;
      LastPoll(global, overrides, ops, first, p);
      LaterReadsMore(global, overrides, ops, a, b, id, p[|p| - 1], q[0]);
    }
  }

  /** Polls at ever later moments of any history of transactions make a session. */
  lemma {:induction false} HistoriesAreSessions(global: Limits, overrides: map<nat, Overrides>, ops: seq<Op>,
                                                visits: seq<Visit>, id: nat)
    requires VisitsInOrder(visits, |ops|)
    requires forall i :: 0 <= i < |visits| ==> Exists(global, overrides, ops, visits[i].times, id)
    ensures Session(ConnectionsAt(global, overrides, ops, visits), id, At(global, overrides, ops, |ops|))
  {
    var connections, latest := ConnectionsAt(global, overrides, ops, visits), At(global, overrides, ops, |ops|);
    forall i | 0 <= i < |connections|
      ensures Chained(connections[i].polls, id, latest)
    {
      ReadsAreChained(global, overrides, ops, visits[i].times, connections[i].polls, id, latest);
    }
    forall i, j | 0 <= i < j < |connections|
      ensures After(connections[i].polls, connections[j].polls, id)
    {
      ReadsFollow(global, overrides, ops, visits[i].times, visits[j].times, connections[i].polls, connections[j].polls,
                  id);
    }
  }

  // ---------------------------------------------------------------- from the gateway to the subscriber

  lemma {:induction false} SentText(events: map<(nat, nat), Event>, id: nat, sent: seq<(nat, Event)>, n: nat)
    requires IsLogFrom(events, id, 0, sent) && n <= |sent|
    ensures BufferedUpTo(sent, n) == Deltas(events, id, n)
  {
    if n > 0 {
      SentText(events, id, sent, n - 1);
      assert IsRow(events, id, n, sent[n - 1]);
    }
  }

  /**
   A subscriber of an execution's run, over any number of connections, each bringing it on. Once it has
   the whole log of a succeeded run, and so whenever its stream has ended, the deltas it was sent, put
   together, are the one stored answer.
   */
  method Deliver(e: Execution, connections: seq<Connection>)
    returns (received: seq<(nat, Event)>, reached: seq<nat>, ended: bool)
    requires e.Valid() && Session(connections, e.id, e.store.db)
    ensures IsLogFrom(e.store.db.events, e.id, 0, received)
    ensures |reached| == |connections| && |received| == PositionAt(0, reached, |connections|)
    ensures AllServed(e.id, 0, connections, reached, ended)
    ensures ended ==>
              Terminal(e.store.db.runs[e.id].status) && |received| == e.store.db.runs[e.id].lastSequence
    ensures e.store.db.runs[e.id].status == Succeeded && |received| == e.store.db.runs[e.id].lastSequence ==>
              AnswersOf(e.store.db, e.id) == [Buffered(received)]
  {
    received, reached, ended := Follow(e.id, 0, connections, e.store.db);
    SentText(e.store.db.events, e.id, received, |received|);
  }

  /** The same for visits at ever later moments of the history of transactions that led to the tables. */
  method DeliverHistory(e: Execution, global: Limits, overrides: map<nat, Overrides>, ops: seq<Op>, visits: seq<Visit>)
    returns (received: seq<(nat, Event)>, reached: seq<nat>, ended: bool)
    requires e.Valid() && e.store.db == At(global, overrides, ops, |ops|)
    requires VisitsInOrder(visits, |ops|)
    requires forall i :: 0 <= i < |visits| ==> Exists(global, overrides, ops, visits[i].times, e.id)
    ensures IsLogFrom(e.store.db.events, e.id, 0, received)
    ensures |reached| == |visits| && |received| == PositionAt(0, reached, |visits|)
    ensures AllServed(e.id, 0, ConnectionsAt(global, overrides, ops, visits), reached, ended)
    ensures ended ==>
              Terminal(e.store.db.runs[e.id].status) && |received| == e.store.db.runs[e.id].lastSequence
    ensures e.store.db.runs[e.id].status == Succeeded && |received| == e.store.db.runs[e.id].lastSequence ==>
              AnswersOf(e.store.db, e.id) == [Buffered(received)]
  {
    HistoriesAreSessions(global, overrides, ops, visits, e.id);
    received, reached, ended := Deliver(e, ConnectionsAt(global, overrides, ops, visits));
  }
}
