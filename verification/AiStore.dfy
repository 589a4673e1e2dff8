/** The stores of internal/aiqa as objects that change the tables in place, one transaction per method. */
module AiStore {
  import opened Common
  import opened AiRuns
  import opened AiRunLaws
  import opened AiRunsTheory

  datatype Outcome =
    | Done
    | InvalidInput
    | LeaseLost
    | CancelRequested
    | QuotaExceeded
    | Disabled
    | RunConflict
    | Busy
    | NotFound
    | NoRunnableRun
    | Unavailable

  class Store {
    var db: Db

    constructor (global: Limits, overrides: map<nat, Overrides>)
      ensures db == Fresh(global, overrides)
    {
      db := Fresh(global, overrides);
    }

    /** reserveQuota: adds up the student's rows of the reservation's day and month and checks the limits. */
    method ReserveQuota(student: nat, r: Reservation) returns (outcome: Outcome)
      ensures outcome == Done <==>
              LimitsOf(db, student).Some? &&
              QuotaAllows(LimitsOf(db, student).value, Used(db.ledger, student, Day, r.day),
                          Used(db.ledger, student, Month, r.month), r)
      ensures outcome == Disabled <==> LimitsOf(db, student).None?
      ensures outcome in {Done, Disabled, QuotaExceeded}
    {
      var limits := LimitsOf(db, student);
      if limits.None? {
        return Disabled;
      }
      var day, month := ZERO, ZERO;
      for i := 0 to |db.ledger|
        invariant day == UsedUpTo(db.ledger, i, student, Day, r.day)
        invariant month == UsedUpTo(db.ledger, i, student, Month, r.month)
      {
        var row := db.ledger[i];
        if row.student == student {
          if row.period == Day && row.key == r.day {
            day := Amount(day.requests + row.requests, day.tokens + row.tokens);
          } else if row.period == Month && row.key == r.month {
            month := Amount(month.requests + row.requests, month.tokens + row.tokens);
          }
        }
      }
      outcome := if QuotaAllows(limits.value, day, month, r) then Done else QuotaExceeded;
    }

    /** AdmitRun: a duplicate key returns the existing run, everything refused leaves the tables alone. */
    method AdmitRun(student: nat, key: string, r: Reservation, keyVersion: int) returns (outcome: Outcome)
      modifies this
      ensures db == Do(old(db), Admission(student, key, r, keyVersion))
      ensures outcome in {QuotaExceeded, Disabled, Busy, InvalidInput} ==> db == old(db)
    {
      if r.requests <= 0 || r.tokens < 0 || r.day == "" || r.month == "" {
        return InvalidInput;
      }
      var duplicate, active := false, false;
      for i := 0 to |db.runs|
        invariant duplicate <==> exists k :: 0 <= k < i && db.runs[k].student == student && db.runs[k].key == key
        invariant active <==> exists k :: 0 <= k < i && db.runs[k].student == student && Active(db.runs[k])
      {
        if db.runs[i].student == student {
          duplicate := duplicate || db.runs[i].key == key;
          active := active || Active(db.runs[i]);
        }
      }
      if duplicate {
        return Done;
      }
      outcome := ReserveQuota(student, r);
      if outcome != Done {
        return;
      }
      if active {
        return Busy;
      }
      var run := Run(student, key, Queued, None, false, 0, 0, r.requests, r.tokens, r.day, r.month, keyVersion, 0, 0);
      var rows := InsertReserveRows(|db.runs|, HoldOf(run));
      db := db.(runs := db.runs + [run], ledger := rows);
    }

    /** insertReserveRows: the reservation counts in full, once for the day and once for the month. */
    method InsertReserveRows(id: nat, h: Hold) returns (rows: seq<Row>)
      ensures rows == db.ledger + [RowFor(id, h, Reserve, Day, h.requests, h.tokens),
                                   RowFor(id, h, Reserve, Month, h.requests, h.tokens)]
    {
      rows := db.ledger;
      var periods := [Day, Month];
      for i := 0 to 2
        invariant i == 0 ==> rows == db.ledger
        invariant i == 1 ==> rows == db.ledger + [RowFor(id, h, Reserve, Day, h.requests, h.tokens)]
        invariant i == 2 ==> rows == db.ledger + [RowFor(id, h, Reserve, Day, h.requests, h.tokens),
                                                  RowFor(id, h, Reserve, Month, h.requests, h.tokens)]
      {
        rows := rows + [RowFor(id, h, Reserve, periods[i], h.requests, h.tokens)];
      }
    }

    /** settleRunnerQuota over the two periods; a row that exists is left alone. */
    method SettleQuota(id: nat, h: Hold, charged: Option<int>) returns (rows: seq<Row>)
      ensures rows == SettleAll(db.ledger, id, h, charged)
    {
      rows := db.ledger;
      var periods := [Day, Month];
      for i := 0 to 2
        invariant i == 0 ==> rows == db.ledger
        invariant i == 1 ==> rows == SettlePeriod(db.ledger, id, h, charged, Day)
        invariant i == 2 ==> rows == SettleAll(db.ledger, id, h, charged)
      {
        if charged.Some? {
          rows := InsertRow(rows, RowFor(id, h, Settle, periods[i], h.requests, charged.value));
        }
        rows := InsertRow(rows, RowFor(id, h, Release, periods[i], -h.requests, -h.tokens));
      }
    }

    /** The first queued run fails if its key was rotated; otherwise the first queued run is leased. */
    method LeaseNext(owner: string, expires: int, providerKey: int) returns (outcome: Outcome, id: nat)
      requires owner != ""
      modifies this
      ensures outcome == Done ==>
                && id < |old(db).runs| && old(db).runs[id].status == Queued
                && old(db).runs[id].keyVersion == providerKey && HoldsLease(db, id, owner)
                && db == Do(old(db), Claiming(id, owner, expires))
      ensures outcome != Done ==> db == old(db) || exists k: nat :: db == Do(old(db), Rotation(k, providerKey))
      ensures outcome != Done && db == old(db) ==> forall k :: 0 <= k < |db.runs| ==> db.runs[k].status != Queued
    {
      id := 0;
      while id < |db.runs| && !(db.runs[id].status == Queued && db.runs[id].keyVersion != providerKey)
        invariant id <= |db.runs|
        invariant forall k :: 0 <= k < id && db.runs[k].status == Queued ==> db.runs[k].keyVersion == providerKey
      {
        id := id + 1;
      }
      if id < |db.runs| {
        var rows := SettleQuota(id, HoldOf(db.runs[id]), None);
        var n := db.runs[id].lastSequence + 1;
        db := db.(runs := db.runs[id := db.runs[id].(status := Failed, owner := None, lastSequence := n)],
                  events := db.events[(id, n) := Event(RunFailed, "", "provider_key_rotated")],
                  ledger := rows);
        assert db == Do(old(db), Rotation(id, providerKey));
        return NoRunnableRun, id;
      }
      id := 0;
      while id < |db.runs| && db.runs[id].status != Queued
        invariant id <= |db.runs| && forall k :: 0 <= k < id ==> db.runs[k].status != Queued
      {
        id := id + 1;
      }
      if id == |db.runs| {
        return NoRunnableRun, id;
      }
      db := db.(runs := db.runs[id := db.runs[id].(status := Streaming, owner := Some(owner), expires := expires)]);
      outcome := Done;
    }

    method Heartbeat(id: nat, owner: string, until: int) returns (outcome: Outcome)
      modifies this
      ensures db == Do(old(db), Beat(id, owner, until))
      ensures outcome == LeaseLost <==> !old(HoldsLease(db, id, owner))
      ensures outcome == CancelRequested <==> old(HoldsLease(db, id, owner)) && old(db).runs[id].cancelRequested
      ensures outcome in {Done, LeaseLost, CancelRequested}
    {
      if !HoldsLease(db, id, owner) {
        return LeaseLost;
      }
      db := db.(runs := db.runs[id := db.runs[id].(expires := until)]);
      outcome := if db.runs[id].cancelRequested then CancelRequested else Done;
    }

    /** All events of the batch or none; a recorded cancel is reported after the events are stored. */
    method AppendEvents(id: nat, owner: string, batch: seq<(nat, Event)>) returns (outcome: Outcome)
      modifies this
      ensures db == Do(old(db), Appending(id, owner, batch))
      ensures outcome in {Done, CancelRequested} <==> Append(old(db), id, owner, batch).Some?
      ensures outcome in {Done, CancelRequested} ==>
                (outcome == CancelRequested <==> old(db).runs[id].cancelRequested)
      ensures batch != [] ==> (outcome == LeaseLost <==> !old(HoldsLease(db, id, owner)))
    {
      if batch == [] {
        return InvalidInput;
      }
      if !HoldsLease(db, id, owner) {
        return LeaseLost;
      }
      var events, sequence := db.events, db.runs[id].lastSequence;
      for i := 0 to |batch|
        invariant InsertEvents(events, id, sequence, batch[i..])
            == InsertEvents(db.events, id, db.runs[id].lastSequence, batch)
      {
        assert batch[i..][1..] == batch[i + 1..];
        if batch[i].0 != sequence + 1 || !Appendable(batch[i].1) {
          return InvalidInput;
        }
        events := events[(id, batch[i].0) := batch[i].1];
        sequence := batch[i].0;
      }
      assert batch[|batch|..] == [];
      db := db.(events := events, runs := db.runs[id := db.runs[id].(lastSequence := sequence)]);
      outcome := if db.runs[id].cancelRequested then CancelRequested else Done;
    }

    /** The charge is the saturated usage, capped by the reservation. */
    method Complete(id: nat, owner: string, answer: string, input: int, output: int) returns (outcome: Outcome)
      modifies this
      ensures db == Do(old(db), Completion(id, owner, answer, input, output))
      ensures outcome == Done <==> AiRuns.Complete(old(db), id, owner, answer, input, output).Some?
      ensures outcome == CancelRequested <==>
                && ValidBody(answer) && input >= 0 && output >= 0
                && old(HoldsLease(db, id, owner)) && old(db).runs[id].cancelRequested
      ensures outcome == Done ==>
                && id < |db.runs| && db.runs[id].status == Succeeded
                && db.runs[id].input == input && db.runs[id].output == output
      ensures outcome == Done && LogInv(old(db)) && LedgerInv(old(db)) && old(db).runs[id].tokens <= MAX_INT64 ==>
                forall student: nat, p: Period, key: string ::
                  TokenSum(db.ledger, |db.ledger|, student, p, key)
                  == TokenSum(old(db).ledger, |old(db).ledger|, student, p, key)
                     + ChargeChange(old(db).runs[id], input + output, student, p, key)
    {
      if !ValidBody(answer) || input < 0 || output < 0 {
        return InvalidInput;
      }
      if !HoldsLease(db, id, owner) {
        return LeaseLost;
      }
      if db.runs[id].cancelRequested {
        return CancelRequested;
      }
      ghost var before := db;
      SettleSuccess(id, answer, input, output);
      outcome := Done;
      if LogInv(before) && LedgerInv(before) && before.runs[id].tokens <= MAX_INT64 {
        forall student: nat, p: Period, key: string
          ensures TokenSum(db.ledger, |db.ledger|, student, p, key)
               == TokenSum(before.ledger, |before.ledger|, student, p, key)
                  + ChargeChange(before.runs[id], input + output, student, p, key)
        {
          CompletionCharges(before, id, owner, answer, input, output, student, p, key);
        }
      }
    }

    method SettleSuccess(id: nat, answer: string, input: int, output: int)
      requires id < |db.runs|
      modifies this
      ensures db == Succeed(old(db), id, answer, input, output)
    {
      var run := db.runs[id].(input := input, output := output);
      var actual := input;
      if output > MAX_INT64 - actual {
        actual := MAX_INT64;
      } else {
        actual := actual + output;
      }
      var charged := actual;
      if charged > run.tokens {
        charged := run.tokens;
      }
      var rows := SettleQuota(id, HoldOf(run), Some(charged));
      var n := run.lastSequence + 1;
      db := db.(runs := db.runs[id := run.(status := Succeeded, owner := None, lastSequence := n)],
                events := db.events[(id, n) := Event(RunCompleted, "", "")],
                answers := db.answers[id := AnswersOf(db, id) + [answer]],
                ledger := rows);
    }

    /** The part Fail, releaseTerminal and reconcileOneExpired share: event, row, released quota. */
    method CloseRun(id: nat, s: RunStatus, code: string)
      requires id < |db.runs| && (s == Failed || s == Cancelled)
      modifies this
      ensures db == Close(old(db), id, s, code)
    {
      var run := db.runs[id];
      var rows := SettleQuota(id, HoldOf(run), None);
      var n := run.lastSequence + 1;
      db := db.(runs := db.runs[id := run.(status := s, owner := None, lastSequence := n)],
                events := db.events[(id, n) := Event(ClosingKind(s), "", code)],
                ledger := rows);
    }

    method FailRun(id: nat, owner: string, s: RunStatus, code: string) returns (outcome: Outcome)
      modifies this
      ensures db == Do(old(db), Failure(id, owner, s, code))
      ensures outcome == Done <==> Fail(old(db), id, owner, s, code).Some?
    {
      if (s != Failed && s != Cancelled) || code == "" {
        return InvalidInput;
      }
      if !HoldsLease(db, id, owner) {
        return LeaseLost;
      }
      CloseRun(id, s, code);
      outcome := Done;
    }

    method EndRun(student: nat, id: nat, target: RunStatus, code: string) returns (outcome: Outcome)
      requires target == Failed || target == Cancelled
      modifies this
      ensures db == Do(old(db), StudentEnd(student, id, target, code))
      ensures outcome == NotFound <==> id >= |old(db).runs| || old(db).runs[id].student != student
      ensures outcome == RunConflict <==>
                && id < |old(db).runs| && old(db).runs[id].student == student && old(db).runs[id].status != target
                && old(db).runs[id].status in {Succeeded, Failed, Cancelled}
      ensures outcome in {NotFound, RunConflict, Done} && (outcome != Done ==> db == old(db))
    {
      if id >= |db.runs| || db.runs[id].student != student {
        return NotFound;
      }
      if db.runs[id].status == target {
        return Done;
      }
      if Terminal(db.runs[id].status) {
        return RunConflict;
      }
      if target == Cancelled && db.runs[id].status == Streaming {
        db := db.(runs := db.runs[id := db.runs[id].(cancelRequested := true)]);
      } else {
        CloseRun(id, target, code);
      }
      outcome := Done;
    }

    /** One pass of the reconciler over a run it saw expire. */
    method ReconcileExpired(id: nat, now: int) returns (closed: bool)
      modifies this
      ensures db == Do(old(db), Expiry(id, now))
      ensures closed <==> id < |old(db).runs| && old(db).runs[id].status == Streaming && old(db).runs[id].expires < now
    {
      if id < |db.runs| && db.runs[id].status == Streaming && db.runs[id].expires < now {
        CloseRun(id, Failed, "runner_lost");
        return true;
      }
      closed := false;
    }
  }
}
