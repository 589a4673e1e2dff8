/** The student event stream: polling windows over a growing log, dropped connections, reconnects. */
module AiStream {
  import opened Common
  import opened AiRuns

  const WINDOW: nat := 128

  /** The rows ListRunEvents returns: numbers in (after, through], ascending, at most `limit` of them. */
  function Window(events: map<(nat, nat), Event>, id: nat, after: nat, through: nat, limit: nat): seq<(nat, Event)>
    decreases through - after
  {
    if after >= through || limit == 0 then []
    else if (id, after + 1) in events
    then [(after + 1, events[(id, after + 1)])] + Window(events, id, after + 1, through, limit - 1)
    else Window(events, id, after + 1, through, limit)
  }

  function Least(a: nat, b: nat): nat {
    if a <= b then a else b
  }

  /** `sent` is the log from just after `after`, in order, without repetition or gap. */
  ghost predicate IsLogFrom(events: map<(nat, nat), Event>, id: nat, after: nat, sent: seq<(nat, Event)>) {
    forall i :: 0 <= i < |sent| ==> IsRow(events, id, after + 1 + i, sent[i])
  }

  /** `x` is the stored event number n of the run. */
  predicate IsRow(events: map<(nat, nat), Event>, id: nat, n: nat, x: (nat, Event)) {
    (id, n) in events && x == (n, events[(id, n)])
  }

  lemma {:induction false} WindowIsLog(events: map<(nat, nat), Event>, id: nat, after: nat, through: nat, limit: nat)
    requires after <= through
    requires forall n: nat :: after < n <= through ==> (id, n) in events
    ensures
      var w := Window(events, id, after, through, limit);
      |w| == Least(limit, through - after) && IsLogFrom(events, id, after, w)
    decreases through - after
  {
    if after < through && limit > 0 {
      WindowIsLog(events, id, after + 1, through, limit - 1);
      var w, rest := Window(events, id, after, through, limit), Window(events, id, after + 1, through, limit - 1);
      forall i | 0 <= i < |w|
        ensures IsRow(events, id, after + 1 + i, w[i])
      {
        if i > 0 {
          assert w[i] == rest[i - 1];
          assert IsRow(events, id, after + 1 + 1 + (i - 1), rest[i - 1]);
        }
      }
    }
  }

  lemma {:induction false} LogsConcatenate(events: map<(nat, nat), Event>, id: nat, after: nat,
                                           first: seq<(nat, Event)>, second: seq<(nat, Event)>)
    requires IsLogFrom(events, id, after, first) && IsLogFrom(events, id, after + |first|, second)
    ensures IsLogFrom(events, id, after, first + second)
  {
    forall i | 0 <= i < |first + second|
      ensures IsRow(events, id, after + 1 + i, (first + second)[i])
    {
      if i < |first| {
        assert (first + second)[i] == first[i];
      } else {
        var j := i - |first|;
        assert (first + second)[i] == second[j];
        assert IsRow(events, id, after + |first| + 1 + j, second[j]);
      }
    }
  }

  /** One poll: the row state is read first, the rows a little later. */
  datatype Poll = Poll(state: Db, rows: Db)

  /** The row is in both tables and the same. */
  predicate Carried(events: map<(nat, nat), Event>, later: map<(nat, nat), Event>, id: nat, n: nat) {
    (id, n) in events && (id, n) in later && events[(id, n)] == later[(id, n)]
  }

  /**
   What a poll reads of a run holds of `latest`: every event up to the number it saw is in the rows it
   reads and stays; a finished run stays as it was seen.
   */
  ghost predicate PollOk(p: Poll, id: nat, latest: Db) {
    && id < |p.state.runs| && id < |latest.runs|
    && p.state.runs[id].lastSequence <= latest.runs[id].lastSequence
    && (Terminal(p.state.runs[id].status) ==> latest.runs[id] == p.state.runs[id])
    && (forall n: nat :: 1 <= n <= p.state.runs[id].lastSequence ==> Carried(p.rows.events, latest.events, id, n))
  }

  /** q sees no less of the run than p. */
  predicate NoLess(p: Poll, q: Poll, id: nat) {
    id < |p.state.runs| && id < |q.state.runs| ==> p.state.runs[id].lastSequence <= q.state.runs[id].lastSequence
  }

  ghost predicate Chained(polls: seq<Poll>, id: nat, latest: Db) {
    && (forall i :: 0 <= i < |polls| ==> PollOk(polls[i], id, latest))
    && (forall i, j :: 0 <= i < j < |polls| ==> NoLess(polls[i], polls[j], id))
  }

  datatype End =
    | Delivered   // the run is terminal and everything was sent
    | Dropped     // a write failed
    | Open        // no more polls yet

  /** After n polls the cursor has reached what poll m saw, or moved by a full window per poll since. */
  ghost predicate Advanced(id: nat, after: nat, polls: seq<Poll>, n: nat, cursor: nat) {
    forall m :: 0 <= m < n <= |polls| && id < |polls[m].state.runs| ==>
      cursor >= Least(polls[m].state.runs[id].lastSequence, after + 128 * (n - m))
  }

  /** The last poll saw a finished run and the cursor is at its end. */
  predicate Settled(id: nat, polls: seq<Poll>, cursor: nat) {
    && polls != [] && id < |polls[|polls| - 1].state.runs|
    && Terminal(polls[|polls| - 1].state.runs[id].status)
    && cursor >= polls[|polls| - 1].state.runs[id].lastSequence
  }

  /**
   eventsStream from `after` on. `writes` is how many frames the connection takes before it
   breaks. What is sent is the log from `after` on; the stream ends by itself only for a
   terminal run whose last event was sent.
   */
  method Stream(id: nat, after: nat, polls: seq<Poll>, writes: nat, ghost latest: Db)
    returns (sent: seq<(nat, Event)>, end: End)
    requires Chained(polls, id, latest) && id < |latest.runs|
    requires polls != [] ==> after <= polls[0].state.runs[id].lastSequence
    ensures |sent| <= writes && IsLogFrom(latest.events, id, after, sent)
    ensures end == Delivered ==> Terminal(latest.runs[id].status) && after + |sent| == latest.runs[id].lastSequence
    ensures end == Dropped ==> |sent| == writes
    ensures polls != [] ==> after + |sent| <= polls[|polls| - 1].state.runs[id].lastSequence
    ensures end != Dropped ==> Advanced(id, after, polls, |polls|, after + |sent|)
    ensures end == Open ==> !Settled(id, polls, after + |sent|)
  {
    sent, end := [], Open;
    for i := 0 to |polls|
      invariant |sent| <= writes && IsLogFrom(latest.events, id, after, sent)
      invariant Within(id, after + |sent|, polls, i) && Advanced(id, after, polls, i, after + |sent|)
      invariant !Settled(id, polls[..i], after + |sent|)
    {
      sent, end := PollOnce(id, after, polls, i, sent, writes, latest);
      if end != Open {
        return;
      }
    }
    end := Open;
    assert polls[..|polls|] == polls;
  }

  /** The cursor is not beyond what the poll before the n-th saw, or the first one. */
  predicate Within(id: nat, cursor: nat, polls: seq<Poll>, n: nat) {
    var i := if n == 0 then 0 else n - 1;
    i < |polls| ==> id < |polls[i].state.runs| && cursor <= polls[i].state.runs[id].lastSequence
  }

  lemma {:induction false} WithinAll(id: nat, cursor: nat, polls: seq<Poll>, i: nat, latest: Db)
    requires Chained(polls, id, latest) && i < |polls| && Within(id, cursor, polls, i + 1)
    ensures cursor <= polls[|polls| - 1].state.runs[id].lastSequence
  {
    LaterPoll(polls, i, |polls| - 1, id, latest);
  }

  /** One turn of the loop: the state, a window of events, and the test for the end. */
  method PollOnce(id: nat, after: nat, polls: seq<Poll>, i: nat, already: seq<(nat, Event)>, writes: nat,
                  ghost latest: Db)
    returns (sent: seq<(nat, Event)>, end: End)
    requires Chained(polls, id, latest) && id < |latest.runs| && i < |polls| && |already| <= writes
    requires IsLogFrom(latest.events, id, after, already)
    requires Within(id, after + |already|, polls, i) && Advanced(id, after, polls, i, after + |already|)
    ensures |sent| <= writes && IsLogFrom(latest.events, id, after, sent)
    ensures Within(id, after + |sent|, polls, i + 1)
    ensures after + |sent| <= polls[|polls| - 1].state.runs[id].lastSequence
    ensures end == Delivered ==> Advanced(id, after, polls, |polls|, after + |sent|)
    ensures end == Dropped ==> |sent| == writes
    ensures end == Delivered ==>
              Terminal(latest.runs[id].status) && after + |sent| == latest.runs[id].lastSequence
    ensures end == Open ==>
              Advanced(id, after, polls, i + 1, after + |sent|) && !Settled(id, polls[..i + 1], after + |sent|)
  {
    LaterPoll(polls, if i == 0 then 0 else i - 1, i, id, latest);
    var dropped: bool;
    sent, dropped := ServePoll(id, after, polls[i], already, writes, latest);
    WithinAll(id, after + |sent|, polls, i, latest);
    if dropped {
      return sent, Dropped;
    }
    OneMorePoll(id, after, polls, i, after + |already|, after + |sent|, latest);
    var state := polls[i].state.runs[id];
    if Terminal(state.status) && after + |sent| >= state.lastSequence {
      DoneIsAdvanced(id, after, polls, after + |sent|, latest);
      return sent, Delivered;
    }
    return sent, Open;
  }

  lemma {:induction false} OneMorePoll(id: nat, after: nat, polls: seq<Poll>, n: nat, before: nat, cursor: nat,
                                       latest: Db)
    requires Chained(polls, id, latest) && n < |polls|
    requires after <= before <= polls[n].state.runs[id].lastSequence && Advanced(id, after, polls, n, before)
    requires cursor == before + Least(128, polls[n].state.runs[id].lastSequence - before)
    ensures Advanced(id, after, polls, n + 1, cursor)
  {
    forall m | 0 <= m < n + 1
      ensures cursor >= Least(polls[m].state.runs[id].lastSequence, after + 128 * (n + 1 - m))
    {
      LaterPoll(polls, m, n, id, latest);
    }
  }

  lemma {:induction false} DoneIsAdvanced(id: nat, after: nat, polls: seq<Poll>, cursor: nat, latest: Db)
    requires Chained(polls, id, latest) && id < |latest.runs| && cursor >= latest.runs[id].lastSequence
    ensures Advanced(id, after, polls, |polls|, cursor)
  {
    forall m | 0 <= m < |polls|
      ensures cursor >= polls[m].state.runs[id].lastSequence
    {
      assert PollOk(polls[m], id, latest);
    }
  }

  /** One poll: a window of at most 128 events, written frame by frame until the connection breaks. */
  method ServePoll(id: nat, after: nat, poll: Poll, already: seq<(nat, Event)>, writes: nat, ghost latest: Db)
    returns (sent: seq<(nat, Event)>, dropped: bool)
    requires PollOk(poll, id, latest) && |already| <= writes
    requires after + |already| <= poll.state.runs[id].lastSequence
    requires IsLogFrom(latest.events, id, after, already)
    ensures |sent| <= writes && IsLogFrom(latest.events, id, after, sent) && already <= sent
    ensures |sent| <= |already| + 128 && after + |sent| <= poll.state.runs[id].lastSequence
    ensures dropped ==> |sent| == writes
    ensures !dropped ==> |sent| == |already| + Least(128, poll.state.runs[id].lastSequence - after - |already|)
  {
    var cursor := after + |already|;
    PollWindow(poll, id, cursor, latest);
    var window := Window(poll.rows.events, id, cursor, poll.state.runs[id].lastSequence, WINDOW);
    sent, dropped := already, false;
    for i := 0 to |window|
      invariant sent == already + window[..i] && |sent| <= writes
    {
      if |sent| == writes {
        dropped := true;
        break;
      }
      sent := sent + [window[i]];
    }
    LogsConcatenate(latest.events, id, after, already, sent[|already|..]);
    assert sent == already + sent[|already|..];
  }

  lemma {:induction false} PollWindow(p: Poll, id: nat, cursor: nat, latest: Db)
    requires PollOk(p, id, latest) && cursor <= p.state.runs[id].lastSequence
    ensures
      var w := Window(p.rows.events, id, cursor, p.state.runs[id].lastSequence, WINDOW);
      |w| == Least(WINDOW, p.state.runs[id].lastSequence - cursor) && IsLogFrom(latest.events, id, cursor, w)
  {
    var through := p.state.runs[id].lastSequence;
    forall n: nat | cursor < n <= through
      ensures (id, n) in p.rows.events
    {
      assert Carried(p.rows.events, latest.events, id, n);
    }
    WindowIsLog(p.rows.events, id, cursor, through, WINDOW);
    var w := Window(p.rows.events, id, cursor, through, WINDOW);
    forall i | 0 <= i < |w|
      ensures IsRow(latest.events, id, cursor + 1 + i, w[i])
    {
      assert IsRow(p.rows.events, id, cursor + 1 + i, w[i]);
      assert Carried(p.rows.events, latest.events, id, cursor + 1 + i);
    }
  }

  lemma {:induction false} LaterPoll(polls: seq<Poll>, i: nat, j: nat, id: nat, latest: Db)
    requires Chained(polls, id, latest) && i <= j < |polls|
    ensures polls[i].state.runs[id].lastSequence <= polls[j].state.runs[id].lastSequence
  {
    assert PollOk(polls[i], id, latest) && PollOk(polls[j], id, latest);
    assert i < j ==> NoLess(polls[i], polls[j], id);
  }

  // ---------------------------------------------------------------- a client that reconnects

  /** One connection a client makes: the polls the server runs for it and where it breaks. */
  datatype Connection = Connection(polls: seq<Poll>, writes: nat)

  /** The polls of all connections read ever later states of the same growing tables. */
  ghost predicate Session(connections: seq<Connection>, id: nat, latest: Db) {
    && (forall i :: 0 <= i < |connections| ==> Chained(connections[i].polls, id, latest))
    && (forall i, j :: 0 <= i < j < |connections| ==>
          After(connections[i].polls, connections[j].polls, id))
  }

  predicate After(first: seq<Poll>, second: seq<Poll>, id: nat) {
    first != [] && second != [] ==> NoLess(first[|first| - 1], second[0], id)
  }

  /**
   What one connection brings: it is cut after `writes` frames, or the client has what any of its
   polls saw, or a full window for every poll since. It ends the stream once it has everything a
   poll saw of a finished run.
   */
  ghost predicate Brings(c: Connection, id: nat, cursor: nat, next: nat, ended: bool) {
    || next == cursor + c.writes
    || (Advanced(id, cursor, c.polls, |c.polls|, next) && (Settled(id, c.polls, next) ==> ended))
  }

  /** The client's position before connection i. */
  function PositionAt(start: nat, reached: seq<nat>, i: nat): nat
    requires i <= |reached|
  {
    if i == 0 then start else reached[i - 1]
  }

  /** The client asks for no more than the first read of the connection shows. */
  predicate Asks(c: Connection, id: nat, cursor: nat) {
    c.polls != [] && id < |c.polls[0].state.runs| && cursor <= c.polls[0].state.runs[id].lastSequence
  }

  /** One connection from the last received id on; a client that has everything makes none. */
  method Connect(id: nat, start: nat, received: seq<(nat, Event)>, c: Connection, done: bool, ghost latest: Db)
    returns (more: seq<(nat, Event)>, ended: bool)
    requires id < |latest.runs| && Chained(c.polls, id, latest)
    requires IsLogFrom(latest.events, id, start, received)
    requires done ==> Terminal(latest.runs[id].status) && start + |received| == latest.runs[id].lastSequence
    ensures received <= more && IsLogFrom(latest.events, id, start, more)
    ensures ended ==> Terminal(latest.runs[id].status) && start + |more| == latest.runs[id].lastSequence
    ensures done ==> ended && more == received
    ensures Asks(c, id, start + |received|) ==> Brings(c, id, start + |received|, start + |more|, ended)
    ensures more != received ==>
              c.polls != [] && start + |more| <= c.polls[|c.polls| - 1].state.runs[id].lastSequence
  {
    var cursor := start + |received|;
    if done {
      DoneIsAdvanced(id, cursor, c.polls, cursor, latest);
      return received, true;
    }
    // The handler refuses an id beyond the log it reads first.
    if c.polls == [] || cursor > c.polls[0].state.runs[id].lastSequence {
      return received, false;
    }
    var sent, end := Stream(id, cursor, c.polls, c.writes, latest);
    LogsConcatenate(latest.events, id, start, received, sent);
    more, ended := received + sent, end == Delivered;
  }

  /** What the client got on one connection never reaches past the first read of a later one. */
  lemma {:induction false} StillAsks(first: Connection, second: Connection, id: nat, cursor: nat, latest: Db)
    requires Chained(first.polls, id, latest) && Chained(second.polls, id, latest)
        && After(first.polls, second.polls, id)
    requires first.polls != [] && second.polls != []
    requires cursor <= first.polls[|first.polls| - 1].state.runs[id].lastSequence
    ensures Asks(second, id, cursor)
  {
    assert PollOk(first.polls[|first.polls| - 1], id, latest) && PollOk(second.polls[0], id, latest);
  }

  /** From connection i on, none is refused at this position. */
  ghost predicate Asking(id: nat, start: nat, connections: seq<Connection>, i: nat, cursor: nat) {
    forall j :: i <= j < |connections| && Asks(connections[j], id, start) ==> Asks(connections[j], id, cursor)
  }

  /** Connection j was not refused and brought the client on. */
  ghost predicate Served(id: nat, start: nat, c: Connection, reached: seq<nat>, j: nat, ended: bool)
    requires j < |reached|
  {
    Asks(c, id, start) ==>
      && Asks(c, id, PositionAt(start, reached, j))
      && Brings(c, id, PositionAt(start, reached, j), reached[j], ended)
  }

  /** What connection i brought leaves every later connection something to ask for. */
  lemma {:induction false} LaterAsk(id: nat, start: nat, connections: seq<Connection>, i: nat,
                                    before: seq<(nat, Event)>, received: seq<(nat, Event)>, latest: Db)
    requires Session(connections, id, latest) && i < |connections|
    requires Asking(id, start, connections, i, start + |before|)
    requires received != before ==>
               var polls := connections[i].polls;
               && polls != [] && id < |polls[|polls| - 1].state.runs|
               && start + |received| <= polls[|polls| - 1].state.runs[id].lastSequence
    ensures Asking(id, start, connections, i + 1, start + |received|)
  {
    forall j | i < j < |connections| && Asks(connections[j], id, start)
      ensures Asks(connections[j], id, start + |received|)
    {
      if received != before {
        StillAsks(connections[i], connections[j], id, start + |received|, latest);
      }
    }
  }

  ghost predicate AllServed(id: nat, start: nat, connections: seq<Connection>, reached: seq<nat>, ended: bool) {
    && |reached| <= |connections|
    && forall j :: 0 <= j < |reached| ==> Served(id, start, connections[j], reached, j, ended)
  }

  lemma {:induction false} OneMoreServed(id: nat, start: nat, connections: seq<Connection>, reached: seq<nat>,
                                         more: seq<nat>, next: nat, before: bool, ended: bool)
    requires more == reached + [next]
    requires |reached| < |connections| && AllServed(id, start, connections, reached, before) && (before ==> ended)
    requires
      var c, cursor := connections[|reached|], PositionAt(start, reached, |reached|);
      Asks(c, id, start) ==> Asks(c, id, cursor) && Brings(c, id, cursor, next, ended)
    ensures AllServed(id, start, connections, more, ended)
  {
    forall j | 0 <= j < |more|
      ensures Served(id, start, connections[j], more, j, ended)
    {
      assert PositionAt(start, more, j) == PositionAt(start, reached, j);
      if j < |reached| {
        assert Served(id, start, connections[j], reached, j, before);
      }
    }
  }

  /** Where the client stands after the connections it has made so far. */
  ghost predicate Following(id: nat, start: nat, connections: seq<Connection>, latest: Db,
                            received: seq<(nat, Event)>, reached: seq<nat>, ended: bool)
    requires id < |latest.runs|
  {
    && IsLogFrom(latest.events, id, start, received)
    && (ended ==> Terminal(latest.runs[id].status) && start + |received| == latest.runs[id].lastSequence)
    && AllServed(id, start, connections, reached, ended)
    && start + |received| == PositionAt(start, reached, |reached|)
    && Asking(id, start, connections, |reached|, start + |received|)
  }

  method FollowOne(id: nat, start: nat, connections: seq<Connection>, ghost latest: Db,
                   received: seq<(nat, Event)>, reached: seq<nat>, ended: bool)
    returns (received': seq<(nat, Event)>, reached': seq<nat>, ended': bool)
    requires id < |latest.runs| && Session(connections, id, latest) && |reached| < |connections|
    requires Following(id, start, connections, latest, received, reached, ended)
    ensures |reached'| == |reached| + 1
    ensures Following(id, start, connections, latest, received', reached', ended')
  {
    received', ended' := Connect(id, start, received, connections[|reached|], ended, latest);
    LaterAsk(id, start, connections, |reached|, received, received', latest);
    reached' := reached + [start + |received'|];
    OneMoreServed(id, start, connections, reached, reached', start + |received'|, ended, ended');
  }

  /**
   A client that reconnects with its last received id, any number of times. What it has received is
   the log after its start, every event exactly once and in order; `reached` is its position after
   each connection. No reconnect is refused, and each brings the client on until it has everything.
   */
  method Follow(id: nat, start: nat, connections: seq<Connection>, ghost latest: Db)
    returns (received: seq<(nat, Event)>, reached: seq<nat>, ended: bool)
    requires id < |latest.runs| && Session(connections, id, latest)
    ensures IsLogFrom(latest.events, id, start, received)
    ensures ended ==> Terminal(latest.runs[id].status) && start + |received| == latest.runs[id].lastSequence
    ensures |reached| == |connections| && start + |received| == PositionAt(start, reached, |connections|)
    ensures AllServed(id, start, connections, reached, ended)
  {
    received, reached, ended := [], [], false;
    for i := 0 to |connections|
      invariant |reached| == i && Following(id, start, connections, latest, received, reached, ended)
    {
      received, reached, ended := FollowOne(id, start, connections, latest, received, reached, ended);
    }
  }
}
