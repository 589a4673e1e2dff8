/**
 One execution of a leased run: the gateway callback fills a buffer, a ticker flushes it, a
 heartbeat renews the lease, and at the end the run is completed or failed. Everyone else's
 transactions may fall between any two of these steps.
 */
module AiRunner {
  import opened Common
  import opened AiRuns
  import opened AiRunLaws
  import opened AiRunsTheory
  import opened AiStore

  function TextOf(e: Event): string {
    if e.kind == Delta then e.text else ""
  }

  /** The concatenated deltas among the first n events of a run. */
  function Deltas(events: map<(nat, nat), Event>, id: nat, n: nat): string {
    if n == 0 then ""
    else Deltas(events, id, n - 1) + (if (id, n) in events then TextOf(events[(id, n)]) else "")
  }

  /** The concatenated deltas of a batch. */
  function Buffered(batch: seq<(nat, Event)>): string {
    BufferedUpTo(batch, |batch|)
  }

  function BufferedUpTo(batch: seq<(nat, Event)>, m: nat): string
    requires m <= |batch|
  {
    if m == 0 then "" else BufferedUpTo(batch, m - 1) + TextOf(batch[m - 1].1)
  }

  lemma {:induction false} BufferedPrefix(batch: seq<(nat, Event)>, e: (nat, Event), m: nat)
    requires m <= |batch|
    ensures BufferedUpTo(batch + [e], m) == BufferedUpTo(batch, m)
  {
    if m > 0 {
      BufferedPrefix(batch, e, m - 1);
    }
  }

  lemma {:induction false} BufferedAppend(batch: seq<(nat, Event)>, e: (nat, Event))
    ensures Buffered(batch + [e]) == Buffered(batch) + TextOf(e.1)
  {
    BufferedPrefix(batch, e, |batch|);
  }

  /** The whole text a run's log holds. */
  function LoggedText(db: Db, id: nat): string
    requires id < |db.runs|
  {
    Deltas(db.events, id, db.runs[id].lastSequence)
  }

  lemma {:induction false} DeltasKept(events: map<(nat, nat), Event>, events': map<(nat, nat), Event>, id: nat, n: nat)
    requires forall k: nat :: 1 <= k <= n ==>
        (id, k) in events && (id, k) in events' && events'[(id, k)] == events[(id, k)]
    ensures Deltas(events', id, n) == Deltas(events, id, n)
  {
    if n > 0 {
      DeltasKept(events, events', id, n - 1);
    }
  }

  lemma {:induction false} StringAssoc(a: string, b: string, c: string)
    ensures (a + b) + c == a + (b + c)
  {
  }

  lemma {:induction false} DeltasBefore(events: map<(nat, nat), Event>, events': map<(nat, nat), Event>,
                                        id: nat, last: nat, batch: seq<(nat, Event)>)
    requires Extends(events, events', id, last, batch)
    requires forall k: nat :: 1 <= k <= last ==> (id, k) in events
    ensures Deltas(events', id, last) == Deltas(events, id, last)
  {
    forall k: nat | 1 <= k <= last
      ensures (id, k) in events' && events'[(id, k)] == events[(id, k)]
    {
      assert (id, k) in events;
    }
    DeltasKept(events, events', id, last);
  }

  /** The k-th of the batch is stored right where the log goes on. */
  predicate StoredAt(events: map<(nat, nat), Event>, id: nat, last: nat, batch: seq<(nat, Event)>, k: nat)
    requires k < |batch|
  {
    (id, last + k + 1) in events && events[(id, last + k + 1)] == batch[k].1
  }

  /** The batch's rows, one after the other, are what is read after the log. */
  lemma {:induction false} DeltasBatch(events: map<(nat, nat), Event>, id: nat, last: nat, batch: seq<(nat, Event)>,
                                       m: nat)
    requires m <= |batch|
    requires forall k: nat :: k < |batch| ==> StoredAt(events, id, last, batch, k)
    ensures Deltas(events, id, last + m) == Deltas(events, id, last) + BufferedUpTo(batch, m)
  {
    if m > 0 {
      DeltasBatch(events, id, last, batch, m - 1);
      assert StoredAt(events, id, last, batch, m - 1);
      StringAssoc(Deltas(events, id, last), BufferedUpTo(batch, m - 1), TextOf(batch[m - 1].1));
    }
  }

  lemma {:induction false} DeltasExtended(events: map<(nat, nat), Event>, events': map<(nat, nat), Event>,
                                          id: nat, last: nat, batch: seq<(nat, Event)>)
    requires Extends(events, events', id, last, batch)
    requires forall k: nat :: 1 <= k <= last ==> (id, k) in events
    ensures Deltas(events', id, last + |batch|) == Deltas(events, id, last) + Buffered(batch)
  {
    DeltasBefore(events, events', id, last, batch);
    forall k: nat | k < |batch|
      ensures StoredAt(events', id, last, batch, k)
    {
    }
    DeltasBatch(events', id, last, batch, |batch|);
  }

  /** A stored batch extends the logged text by the batch's deltas. */
  lemma {:induction false} AppendedText(before: Db, after: Db, id: nat, owner: string, batch: seq<(nat, Event)>)
    requires LogInv(before) && id < |before.runs| && Append(before, id, owner, batch) == Some(after)
    ensures id < |after.runs| && LoggedText(after, id) == LoggedText(before, id) + Buffered(batch)
    ensures after.runs[id].lastSequence == before.runs[id].lastSequence + |batch|
  {
    var last := before.runs[id].lastSequence;
    InsertedEvents(before.events, id, last, batch);
    LogIsThere(before, id);
    DeltasExtended(before.events, after.events, id, last, batch);
  }

  lemma {:induction false} LogIsThere(db: Db, id: nat)
    requires LogInv(db) && id < |db.runs|
    ensures forall k: nat :: 1 <= k <= db.runs[id].lastSequence ==> (id, k) in db.events
  {
  }

  datatype GatewayEvent = GatewayEvent(kind: string, delta: string, input: int, output: int)

  /** One step of an execution's surroundings. */
  datatype Move = Callback(e: GatewayEvent) | Tick | Renew(until: int) | Foreign(op: Op)

  /** The text a callback brings. */
  function GatewayText(e: GatewayEvent): string {
    if e.kind == "delta" then e.delta else ""
  }

  /** The concatenated deltas of the first n moves. */
  function ScriptText(script: seq<Move>, n: nat): string
    requires n <= |script|
  {
    if n == 0 then ""
    else ScriptText(script, n - 1) + (if script[n - 1].Callback? then GatewayText(script[n - 1].e) else "")
  }

  /** The usage last reported: input and output tokens. */
  function ScriptUsage(script: seq<Move>, n: nat): Option<(int, int)>
    requires n <= |script|
  {
    if n == 0 then None
    else if script[n - 1].Callback? && script[n - 1].e.kind == "usage"
    then Some((script[n - 1].e.input, script[n - 1].e.output))
    else ScriptUsage(script, n - 1)
  }

  /** The event neither ends run `id` nor asks for its end. */
  predicate QuietOp(op: Op, id: nat) {
    !((op.StudentEnd? || op.Expiry?) && op.id == id)
  }

  predicate QuietOps(ops: seq<Op>, id: nat) {
    forall k :: 0 <= k < |ops| ==> QuietOp(ops[k], id)
  }

  /** Callbacks within the event size, usage that is not negative, and nobody ending the run. */
  predicate Benign(m: Move, id: nat) {
    match m
    case Callback(e) => |e.delta| <= 16384 && (e.kind == "usage" ==> e.input >= 0 && e.output >= 0)
    case Foreign(op) => QuietOp(op, id)
    case _ => true
  }

  class Execution {
    const calm: bool // no transaction is lost or goes unreported
    const store: Store
    const id: nat
    const owner: string
    const flushBytes: nat
    var events: seq<(nat, Event)>
    var bytes: nat
    var answer: string
    var nextSequence: nat
    var input: int
    var output: int
    var usageSeen: bool
    var storeErr: Outcome

    constructor (store: Store, id: nat, owner: string, flushBytes: nat, calm: bool)
      requires Inv(store.db) && HoldsLease(store.db, id, owner) && store.db.runs[id].lastSequence == 0
      ensures Valid() && this.store == store && this.id == id && this.owner == owner && this.calm == calm
      ensures answer == "" && !usageSeen && (!store.db.runs[id].cancelRequested ==> Live())
    {
      this.calm := calm;
      this.store := store;
      this.id := id;
      this.owner := owner;
      this.flushBytes := flushBytes;
      events := [];
      bytes := 0;
      answer := "";
      nextSequence := store.db.runs[id].lastSequence + 1;
      input := 0;
      output := 0;
      usageSeen := false;
      storeErr := Done;
    }

    /**
     While the lease is held and no store error was seen, what is logged plus what is buffered is
     the answer, and the buffer is numbered right after the log. A stored answer is the logged text.
     */
    ghost predicate Valid()
      reads this, store
    {
      && Inv(store.db) && id < |store.db.runs| && store.db.runs[id].status != Queued
      && (store.db.runs[id].status == Streaming ==> store.db.runs[id].owner == Some(owner))
      && (storeErr == Done && HoldsLease(store.db, id, owner) ==>
            && answer == LoggedText(store.db, id) + Buffered(events)
            && nextSequence == store.db.runs[id].lastSequence + |events| + 1)
      && Numbered(events, nextSequence)
      && (store.db.runs[id].status == Succeeded ==> AnswersOf(store.db, id) == [LoggedText(store.db, id)])
    }

    /** The lease is held, nobody asked for the end, nothing went wrong, and the buffer can be stored. */
    ghost predicate Live()
      reads this, store
    {
      && storeErr == Done && HoldsLease(store.db, id, owner) && !store.db.runs[id].cancelRequested
      && forall k :: 0 <= k < |events| ==> |events[k].1.text| <= 16384
    }

    static predicate Numbered(events: seq<(nat, Event)>, next: nat) {
      && |events| <= next
      && forall k :: 0 <= k < |events| ==>
           events[k].0 == next - |events| + k && (events[k].1.kind == Delta || events[k].1.kind == Usage)
    }

    /** A transaction this execution makes itself. */
    predicate Own(op: Op) {
      (op.Appending? || op.Completion? || op.Failure?) && op.id == id && op.owner == owner
    }

    /** A transaction of another worker, the reconciler, a student or an administrator. */
    method Interfere(op: Op)
      requires Valid()
      requires !Own(op)
      modifies store
      ensures Valid() && store.db == Do(old(store.db), op)
      ensures old(store.db).runs[id].status != Succeeded ==> store.db.runs[id].status != Succeeded
      ensures Terminal(old(store.db).runs[id].status) ==>
                && store.db.runs[id] == old(store.db).runs[id]
                && AnswersOf(store.db, id) == AnswersOf(old(store.db), id) && SameEvents(old(store.db), store.db)
      ensures QuietOp(op, id) && HoldsLease(old(store.db), id, owner) ==>
                && HoldsLease(store.db, id, owner)
                && store.db.runs[id].cancelRequested == old(store.db).runs[id].cancelRequested
    {
      ghost var before := store.db;
      if before.runs[id].status != Succeeded {
        OnlyOwnCompletes(before, op);
      }
      QuietKeepsLease(before, op);
      store.db := Do(store.db, op);
      StepKeepsInv(before, op);
      DoEvolves(before, op);
      assert RunEvolves(before, store.db, id);
      LogUntouched(before, store.db);
    }

    /** Events stay. */
    static ghost predicate SameEvents(db: Db, db': Db) {
      forall k :: k in db.events ==> k in db'.events && db'.events[k] == db.events[k]
    }

    /** Nobody else can complete a run whose lease this execution holds, or that has ended. */
    lemma {:induction false} OnlyOwnCompletes(db: Db, op: Op)
      requires id < |db.runs| && db.runs[id].status != Queued && db.runs[id].status != Succeeded && !Own(op)
      requires db.runs[id].status == Streaming ==> db.runs[id].owner == Some(owner)
      ensures id < |Do(db, op).runs| && Do(db, op).runs[id].status != Succeeded
    {
    }

    lemma {:induction false} QuietKeepsLease(db: Db, op: Op)
      requires id < |db.runs| && !Own(op)
      ensures HoldsLease(db, id, owner) && QuietOp(op, id) ==>
                && HoldsLease(Do(db, op), id, owner)
                && Do(db, op).runs[id].cancelRequested == db.runs[id].cancelRequested
    {
    }

    lemma {:induction false} StepKeepsInv(db: Db, op: Op)
      requires Inv(db)
      ensures Inv(Do(db, op))
    {
      DoKeepsLog(db, op);
      DoKeepsLedger(db, op);
      DoKeepsLimits(db, op);
      DoKeepsOneActive(db, op);
    }

    /** Same counter, same text. */
    lemma {:induction false} LogUntouched(db: Db, db': Db)
      requires LogInv(db) && Evolves(db, db') && id < |db.runs|
      ensures Deltas(db'.events, id, db.runs[id].lastSequence) == LoggedText(db, id)
    {
      forall k: nat | 1 <= k <= db.runs[id].lastSequence
        ensures (id, k) in db.events && (id, k) in db'.events && db'.events[(id, k)] == db.events[(id, k)]
      {
        assert (id, k) in db.events;
      }
      DeltasKept(db.events, db'.events, id, db.runs[id].lastSequence);
    }

    /** The gateway callback: deltas extend the answer and are buffered under the next number. */
    method OnGatewayEvent(e: GatewayEvent) returns (ok: bool)
      requires Valid()
      modifies this, store
      ensures Valid()
      ensures ok ==> storeErr == Done
      ensures old(storeErr) != Done ==> !ok && answer == old(answer) && storeErr == old(storeErr)
      ensures old(storeErr) == Done ==> answer == old(answer) + GatewayText(e)
      ensures
        if old(storeErr) == Done && e.kind == "usage" then usageSeen && input == e.input && output == e.output
        else usageSeen == old(usageSeen) && input == old(input) && output == old(output)
      ensures store.db.runs[id].status == old(store.db).runs[id].status
      ensures calm && old(Live()) && |e.delta| <= 16384 ==> ok && Live()
    {
      if storeErr != Done {
        return false;
      }
      if e.kind == "delta" {
        if e.delta == "" {
          assert answer + e.delta == answer;
          return true;
        }
      } else if e.kind == "usage" {
        input := e.input;
        output := e.output;
        usageSeen := true;
      } else {
        return true;
      }
      Buffer(Event(if e.kind == "delta" then Delta else Usage, e.delta, ""));
      ok := true;
      if bytes >= flushBytes {
        ok := Flush();
      }
    }

    /** A delta extends the answer, and every event goes into the buffer. */
    method Buffer(event: Event)
      requires Valid() && storeErr == Done && (event.kind == Delta || event.kind == Usage)
      modifies this`answer, this`events, this`nextSequence, this`bytes
      ensures Valid() && answer == old(answer) + TextOf(event)
      ensures events == old(events) + [(old(nextSequence), event)] && nextSequence == old(nextSequence) + 1
    {
      BufferedAppend(events, (nextSequence, event));
      StringAssoc(LoggedText(store.db, id), Buffered(events), TextOf(event));
      answer := answer + TextOf(event);
      events := events + [(nextSequence, event)];
      nextSequence := nextSequence + 1;
      bytes := bytes + |event.text|;
    }

    /** Writes the buffer in one transaction; any error, even one after the commit, is remembered. */
    method Flush() returns (ok: bool)
      requires Valid()
      modifies this, store
      ensures Valid()
      ensures ok ==> storeErr == Done && events == []
      ensures !ok ==> storeErr != Done
      ensures answer == old(answer) && input == old(input) && output == old(output) && usageSeen == old(usageSeen)
      ensures store.db.runs[id].status == old(store.db).runs[id].status
      ensures AnswersOf(store.db, id) == AnswersOf(old(store.db), id)
      ensures old(storeErr) != Done ==> storeErr == old(storeErr) && store.db == old(store.db)
      ensures HoldsLease(old(store.db), id, owner) ==>
                && HoldsLease(store.db, id, owner)
                && store.db.runs[id].cancelRequested == old(store.db).runs[id].cancelRequested
      ensures calm && old(Live()) ==> ok && Live()
      ensures calm && old(storeErr) == Done && old(HoldsLease(store.db, id, owner)) ==>
                old(store.db).runs[id].cancelRequested
                && (forall k :: 0 <= k < |old(events)| ==> |old(events)[k].1.text| <= 16384) ==>
                  storeErr == if old(events) == [] then Done else CancelRequested
    {
      if storeErr != Done {
        return false;
      }
      if events == [] {
        return true;
      }
      ok := StoreBuffer();
    }

    method StoreBuffer() returns (ok: bool)
      requires Valid() && storeErr == Done && events != []
      modifies this, store
      ensures Valid()
      ensures ok ==> storeErr == Done && events == []
      ensures !ok ==> storeErr != Done
      ensures answer == old(answer) && input == old(input) && output == old(output) && usageSeen == old(usageSeen)
      ensures store.db.runs[id].status == old(store.db).runs[id].status
      ensures AnswersOf(store.db, id) == AnswersOf(old(store.db), id)
      ensures HoldsLease(old(store.db), id, owner) ==>
                && HoldsLease(store.db, id, owner)
                && store.db.runs[id].cancelRequested == old(store.db).runs[id].cancelRequested
      ensures calm && old(Live()) ==> ok && Live()
      ensures calm && old(HoldsLease(store.db, id, owner)) && old(store.db).runs[id].cancelRequested ==>
                (forall k :: 0 <= k < |old(events)| ==> |old(events)[k].1.text| <= 16384) ==>
                  storeErr == CancelRequested
    {
      var lost: bool, unsure: bool := *, *;
      if lost && !calm {
        storeErr := Unavailable;
        return false;
      }
      ghost var before := store.db;
      BufferFits(before);
      var outcome := store.AppendEvents(id, owner, events);
      FlushedText(before, store.db);
      unsure := unsure && !calm;
      if outcome != Done || unsure {
        storeErr := if outcome == Done then Unavailable else outcome;
        return false;
      }
      events := [];
      bytes := 0;
      ok := true;
    }

    /** A buffer of bearable events right after the log can be stored. */
    lemma {:induction false} BufferFits(db: Db)
      requires Numbered(events, nextSequence) && events != []
      requires HoldsLease(db, id, owner) ==> nextSequence == db.runs[id].lastSequence + |events| + 1
      ensures HoldsLease(db, id, owner) && (forall k :: 0 <= k < |events| ==> |events[k].1.text| <= 16384) ==>
                Append(db, id, owner, events).Some?
    {
      if HoldsLease(db, id, owner) && (forall k :: 0 <= k < |events| ==> |events[k].1.text| <= 16384) {
        AppendAccepts(db, id, owner, events);
      }
    }

    /** What a flush of the current buffer does to the tables. */
    lemma {:induction false} FlushedText(before: Db, after: Db)
      requires Inv(before) && id < |before.runs| && after == Do(before, Appending(id, owner, events))
      ensures Inv(after) && id < |after.runs| && after.runs[id].status == before.runs[id].status
      ensures AnswersOf(after, id) == AnswersOf(before, id)
      ensures Append(before, id, owner, events).Some? ==>
                && LoggedText(after, id) == LoggedText(before, id) + Buffered(events)
                && after.runs[id].lastSequence == before.runs[id].lastSequence + |events|
      ensures Append(before, id, owner, events).None? ==> after == before
      ensures HoldsLease(before, id, owner) ==>
                HoldsLease(after, id, owner) && after.runs[id].cancelRequested == before.runs[id].cancelRequested
    {
      StepKeepsInv(before, Appending(id, owner, events));
      if Append(before, id, owner, events).Some? {
        AppendedText(before, after, id, owner, events);
      }
    }

    method Beat(until: int) returns (ok: bool)
      requires Valid()
      modifies this`storeErr, store
      ensures Valid() && store.db == Do(old(store.db), Op.Beat(id, owner, until))
      ensures store.db.runs[id].status == old(store.db).runs[id].status
      ensures old(storeErr) != Done ==> storeErr == old(storeErr)
      ensures ok ==> storeErr == old(storeErr)
      ensures calm && old(HoldsLease(store.db, id, owner)) && old(store.db).runs[id].cancelRequested ==>
                storeErr == if old(storeErr) == Done then CancelRequested else old(storeErr)
      ensures calm && old(Live()) ==> ok && Live()
    {
      ghost var before := store.db;
      var outcome := store.Heartbeat(id, owner, until);
      StepKeepsInv(before, Op.Beat(id, owner, until));
      var unsure: bool := *;
      unsure := unsure && !calm;
      ok := outcome == Done && !unsure;
      if !ok && storeErr == Done {
        storeErr := if outcome == Done then Unavailable else outcome;
      }
    }

    /** The run has ended, and the last event of its log says how. */
    ghost predicate EndsWith(s: RunStatus, kind: Kind, code: string)
      reads this, store
    {
      && id < |store.db.runs| && store.db.runs[id].status == s
      && (id, store.db.runs[id].lastSequence) in store.db.events
      && store.db.events[(id, store.db.runs[id].lastSequence)] == Event(kind, "", code)
    }

    method Fail(s: RunStatus, code: string)
      requires Valid() && (s == Failed || s == Cancelled) && code != ""
      modifies store
      ensures Valid() && store.db == Do(old(store.db), Failure(id, owner, s, code))
      ensures HoldsLease(old(store.db), id, owner) ==>
          EndsWith(s, if s == Failed then RunFailed else RunCancelled, code)
      ensures !HoldsLease(old(store.db), id, owner) ==> store.db == old(store.db)
    {
      ghost var before := store.db;
      EndsMean(before, id, owner, s, code, 0, 0);
      var _ := store.FailRun(id, owner, s, code);
      StepKeepsInv(before, Failure(id, owner, s, code));
      DoEvolves(before, Failure(id, owner, s, code));
      assert RunEvolves(before, store.db, id);
      LogUntouched(before, store.db);
    }

    /** A success event adds no text, and the stored answer is the only one. */
    lemma {:induction false} SuccessText(before: Db, after: Db, tokensIn: int, tokensOut: int)
      requires LogInv(before) && id < |before.runs| && before.runs[id].status == Streaming
      requires !before.runs[id].cancelRequested && answer == LoggedText(before, id)
      requires after == Succeed(before, id, answer, tokensIn, tokensOut)
      ensures AnswersOf(after, id) == [answer] && LoggedText(after, id) == answer
    {
      var n := before.runs[id].lastSequence;
      SucceedEvolves(before, id, answer, tokensIn, tokensOut);
      LogUntouched(before, after);
      assert RowOk(before, id);
      assert AnswersOf(before, id) == [];
      assert after.events[(id, n + 1)] == Event(RunCompleted, "", "");
      assert Deltas(after.events, id, n + 1) == Deltas(after.events, id, n) + "";
    }

    /** What completing with the answer does to the tables when everything was flushed. */
    lemma {:induction false} CompletedText(before: Db, after: Db, tokensIn: int, tokensOut: int)
      requires Inv(before) && id < |before.runs|
      requires before.runs[id].status == Succeeded ==> AnswersOf(before, id) == [LoggedText(before, id)]
      requires HoldsLease(before, id, owner) ==> answer == LoggedText(before, id)
      requires after == Do(before, Completion(id, owner, answer, tokensIn, tokensOut))
      ensures Inv(after) && id < |after.runs|
      ensures after.runs[id].status == Succeeded ==> AnswersOf(after, id) == [LoggedText(after, id)]
      ensures after.runs[id].status != Succeeded ==> after == before
      ensures before.runs[id].status != Succeeded && after.runs[id].status == Succeeded ==>
                && AnswersOf(after, id) == [answer]
                && after.runs[id].input == tokensIn && after.runs[id].output == tokensOut
    {
      StepKeepsInv(before, Completion(id, owner, answer, tokensIn, tokensOut));
      if Complete(before, id, owner, answer, tokensIn, tokensOut).Some? {
        SuccessText(before, after, tokensIn, tokensOut);
      }
    }

    /** Transactions of others, one after the other. */
    method InterfereAll(ops: seq<Op>)
      requires Valid()
      modifies store
      ensures Valid()
      ensures old(store.db).runs[id].status != Succeeded ==> store.db.runs[id].status != Succeeded
      ensures Terminal(old(store.db).runs[id].status) ==>
                && store.db.runs[id] == old(store.db).runs[id]
                && AnswersOf(store.db, id) == AnswersOf(old(store.db), id) && SameEvents(old(store.db), store.db)
      ensures QuietOps(ops, id) && HoldsLease(old(store.db), id, owner) ==>
                && HoldsLease(store.db, id, owner)
                && store.db.runs[id].cancelRequested == old(store.db).runs[id].cancelRequested
    {
      for i := 0 to |ops|
        invariant Valid()
        invariant old(store.db).runs[id].status != Succeeded ==> store.db.runs[id].status != Succeeded
        invariant Terminal(old(store.db).runs[id].status) ==>
                    && store.db.runs[id] == old(store.db).runs[id]
                    && AnswersOf(store.db, id) == AnswersOf(old(store.db), id) && SameEvents(old(store.db), store.db)
        invariant QuietOps(ops, id) && HoldsLease(old(store.db), id, owner) ==>
                    && HoldsLease(store.db, id, owner)
                    && store.db.runs[id].cancelRequested == old(store.db).runs[id].cancelRequested
      {
        if !Own(ops[i]) {
          Interfere(ops[i]);
        }
      }
    }

    /** The tokens a completion reports: the gateway's, or the estimate and the answer's length. */
    function TokensIn(estimatedInput: int): int
      reads this
    {
      if usageSeen then input else estimatedInput
    }

    function TokensOut(): int
      reads this
    {
      if usageSeen then output else |answer|
    }

    /** The run succeeded with this execution's answer and usage. */
    ghost predicate Completed(estimatedInput: int)
      reads this, store
    {
      && id < |store.db.runs| && store.db.runs[id].status == Succeeded && AnswersOf(store.db, id) == [answer]
      && store.db.runs[id].input == (if usageSeen then input else estimatedInput)
      && store.db.runs[id].output == (if usageSeen then output else |answer|)
    }

    /**
     The end of an execution: a last flush, then completion only if nothing went wrong. `category` says
     why the stream failed; `between` are the transactions of others after the last flush, `late` those
     after the attempt to complete.
     */
    method Finish(streamFailed: bool, category: string, parentGone: bool, estimatedInput: int, between: seq<Op>,
                  late: seq<Op>)
      requires Valid() && category != "" && store.db.runs[id].status != Succeeded
      modifies this, store
      ensures Valid() && answer == old(answer) && usageSeen == old(usageSeen)
      ensures input == old(input) && output == old(output)
      ensures store.db.runs[id].status == Succeeded ==>
                !streamFailed && !parentGone && old(storeErr) == Done && Completed(estimatedInput)
      ensures calm && old(Live()) && QuietOps(between, id) && !streamFailed && !parentGone
              && ValidBody(answer) && TokensIn(estimatedInput) >= 0 && TokensOut() >= 0 ==>
                Completed(estimatedInput)
      ensures calm && old(Live()) && QuietOps(between, id) && streamFailed && !parentGone ==>
                EndsWith(Failed, RunFailed, category)
      ensures old(storeErr) == CancelRequested && old(HoldsLease(store.db, id, owner)) && QuietOps(between, id)
              && !parentGone ==>
                EndsWith(Cancelled, RunCancelled, "cancelled")
      ensures old(storeErr) == Unavailable && old(HoldsLease(store.db, id, owner)) && QuietOps(between, id)
              && !parentGone ==>
                EndsWith(Failed, RunFailed, "callback_store_failure")
    {
      var flushed := Flush();
      InterfereAll(between);
      if parentGone {
        return;
      }
      if storeErr != Done {
        Fail(if storeErr == CancelRequested then Cancelled else Failed,
             if storeErr == CancelRequested then "cancelled"
             else if storeErr == LeaseLost then "lease_lost" else "callback_store_failure");
        return;
      }
      if streamFailed || !flushed {
        Fail(Failed, category);
        return;
      }
      TryComplete(estimatedInput, late);
    }

    /** The attempt to complete; a refusal or an unclear outcome is answered by failing the run. */
    method TryComplete(estimatedInput: int, late: seq<Op>)
      requires Valid() && storeErr == Done && events == [] && store.db.runs[id].status != Succeeded
      modifies store
      ensures Valid() && (store.db.runs[id].status == Succeeded ==> Completed(estimatedInput))
      ensures calm && old(HoldsLease(store.db, id, owner)) && !old(store.db).runs[id].cancelRequested
              && ValidBody(answer) && TokensIn(estimatedInput) >= 0 && TokensOut() >= 0 ==>
                Completed(estimatedInput)
      ensures calm && old(HoldsLease(store.db, id, owner)) && old(store.db).runs[id].cancelRequested
              && ValidBody(answer) && TokensIn(estimatedInput) >= 0 && TokensOut() >= 0 && QuietOps(late, id) ==>
                EndsWith(Cancelled, RunCancelled, "cancelled")
    {
      var outcome := CallComplete(TokensIn(estimatedInput), TokensOut());
      InterfereAll(late);
      if outcome == CancelRequested {
        Fail(Cancelled, "cancelled");
      } else if outcome != Done {
        Fail(Failed, "terminal_store_failure");
      }
    }

    /** The transaction may be lost, or made and go unreported. */
    method CallComplete(tokensIn: int, tokensOut: int) returns (outcome: Outcome)
      requires Valid() && storeErr == Done && events == [] && store.db.runs[id].status != Succeeded
      modifies store
      ensures Valid()
      ensures store.db.runs[id].status == Succeeded ==>
                && AnswersOf(store.db, id) == [answer]
                && store.db.runs[id].input == tokensIn && store.db.runs[id].output == tokensOut
      ensures store.db.runs[id].status != Succeeded ==> store.db == old(store.db)
      ensures outcome == Done ==> store.db.runs[id].status == Succeeded
      ensures calm && old(HoldsLease(store.db, id, owner)) && ValidBody(answer) && tokensIn >= 0 && tokensOut >= 0 ==>
                outcome == if old(store.db).runs[id].cancelRequested then CancelRequested else Done
      ensures outcome == CancelRequested ==> store.db == old(store.db)
    {
      var lost: bool, unsure: bool := *, *;
      outcome := Unavailable;
      if calm || !lost {
        ghost var before := store.db;
        outcome := store.Complete(id, owner, answer, tokensIn, tokensOut);
        CompletedText(before, store.db, tokensIn, tokensOut);
        if outcome == Done && unsure && !calm {
          outcome := Unavailable;
        }
      }
    }

    /**
     Any interleaving of callbacks, ticks, heartbeats and foreign transactions, then the end, with
     foreign transactions around completion too; the stream may break off after any callback. If the
     run was completed, its stored answer is exactly the concatenation of its delta events.
     */
    method Execute(script: seq<Move>, streamFailed: bool, category: string, parentGone: bool, estimatedInput: int,
                   between: seq<Op>, late: seq<Op>)
      requires Valid() && category != "" && store.db.runs[id].status != Succeeded
      modifies this, store
      ensures Valid()
      ensures store.db.runs[id].status == Succeeded ==>
                && AnswersOf(store.db, id) == [LoggedText(store.db, id)] == [old(answer) + ScriptText(script, |script|)]
                && Completed(estimatedInput) && !streamFailed && !parentGone
      ensures calm && old(Live()) && !parentGone && QuietOps(between, id)
              && (forall i :: 0 <= i < |script| ==> Benign(script[i], id)) ==>
                if streamFailed then EndsWith(Failed, RunFailed, category)
                else ValidBody(answer) && TokensIn(estimatedInput) >= 0 && TokensOut() >= 0 ==>
                    Completed(estimatedInput)
      ensures calm && old(Live()) && (forall i :: 0 <= i < |script| ==> Benign(script[i], id)) ==>
                && answer == old(answer) + ScriptText(script, |script|)
                && UsageIs(script, |script|, old(usageSeen), old(input), old(output))
    {
      var failed := false;
      assert answer == answer + ScriptText(script, 0);
      for i := 0 to |script|
        invariant Valid() && store.db.runs[id].status != Succeeded
        invariant storeErr != Done ==> failed || old(storeErr) != Done
        invariant !failed ==>
                    && answer == old(answer) + ScriptText(script, i)
                    && UsageIs(script, i, old(usageSeen), old(input), old(output))
        invariant calm && old(Live()) && (forall k :: 0 <= k < i ==> Benign(script[k], id)) ==> !failed && Live()
      {
        var ok := Step(script[i], failed);
        StringAssoc(old(answer), ScriptText(script, i),
                    if script[i].Callback? then GatewayText(script[i].e) else "");
        failed := failed || !ok;
      }
      Finish(failed || streamFailed, category, parentGone, estimatedInput, between, late);
    }

    /** The usage on record is the last one the first n moves reported, or what it was before. */
    ghost predicate UsageIs(script: seq<Move>, n: nat, seen: bool, earlierInput: int, earlierOutput: int)
      requires n <= |script|
      reads this
    {
      match ScriptUsage(script, n)
      case None => usageSeen == seen && input == earlierInput && output == earlierOutput
      case Some(usage) => usageSeen && input == usage.0 && output == usage.1
    }

    /** One move; once something failed the gateway gets no further callbacks. */
    method Step(m: Move, failed: bool) returns (ok: bool)
      requires Valid() && store.db.runs[id].status != Succeeded
      modifies this, store
      ensures Valid() && store.db.runs[id].status != Succeeded
      ensures storeErr != Done ==> failed || !ok || old(storeErr) != Done
      ensures !failed && ok ==>
                && answer == old(answer) + (if m.Callback? then GatewayText(m.e) else "")
                && if m.Callback? && m.e.kind == "usage" then usageSeen && input == m.e.input && output == m.e.output
                   else usageSeen == old(usageSeen) && input == old(input) && output == old(output)
      ensures calm && old(Live()) && !failed && Benign(m, id) ==> ok && Live()
    {
      ok := true;
      match m {
        case Callback(e) =>
          if !failed {
            ok := OnGatewayEvent(e);
          }
        case Tick => ok := Flush();
        case Renew(until) => ok := Beat(until);
        case Foreign(op) =>
          if !Own(op) {
            Interfere(op);
          }
      }
    }
  }
}
