/** What every sequence of transactions keeps: the event log, the quota ledger, the run lifecycle. */
module AiRunsTheory {
  import opened Common
  import opened AiRuns

  datatype Op =
    | Admission(student: nat, key: string, reservation: Reservation, keyVersion: int)
    | Claiming(id: nat, owner: string, expires: int)
    | Rotation(id: nat, providerKey: int)
    | Beat(id: nat, owner: string, until: int)
    | Appending(id: nat, owner: string, batch: seq<(nat, Event)>)
    | Completion(id: nat, owner: string, answer: string, input: int, output: int)
    | Failure(id: nat, owner: string, status: RunStatus, code: string)
    | StudentEnd(student: nat, id: nat, target: RunStatus, code: string)
    | Expiry(id: nat, now: int)

  function Attempt(db: Db, op: Op): Option<Db> {
    match op
    case Admission(student, key, r, keyVersion) => Admit(db, student, key, r, keyVersion)
    case Claiming(id, owner, expires) => Claim(db, id, owner, expires)
    case Rotation(id, providerKey) => FailRotated(db, id, providerKey)
    case Beat(id, owner, until) => Heartbeat(db, id, owner, until)
    case Appending(id, owner, batch) => Append(db, id, owner, batch)
    case Completion(id, owner, answer, input, output) => Complete(db, id, owner, answer, input, output)
    case Failure(id, owner, status, code) => Fail(db, id, owner, status, code)
    case StudentEnd(student, id, target, code) => EndByStudent(db, student, id, target, code)
    case Expiry(id, now) => Expire(db, id, now)
  }

  function Do(db: Db, op: Op): Db {
    match Attempt(db, op)
    case None => db
    case Some(db') => db'
  }

  function DoAll(db: Db, ops: seq<Op>): Db {
    if ops == [] then db else Do(DoAll(db, ops[..|ops| - 1]), ops[|ops| - 1])
  }

  function Fresh(global: Limits, overrides: map<nat, Overrides>): Db {
    Db([], map[], [], map[], global, overrides)
  }

  // ---------------------------------------------------------------- event log

  /** What a numbered batch adds: exactly the next |batch| events, in order, and nothing else. */
  ghost predicate Extends(events: map<(nat, nat), Event>, events': map<(nat, nat), Event>,
                          id: nat, last: nat, batch: seq<(nat, Event)>)
  {
    && (forall k: (nat, nat) {:trigger k in events'} ::
          k in events' <==> k in events || (k.0 == id && last < k.1 <= last + |batch|))
    && (forall k: (nat, nat) {:trigger k in events'} ::
          k in events' ==>
            events'[k] == if k.0 == id && last < k.1 <= last + |batch| then batch[k.1 - last - 1].1 else events[k])
    && (forall i :: 0 <= i < |batch| ==> batch[i].0 == last + 1 + i && Appendable(batch[i].1))
  }

  lemma {:induction false} InsertedEvents(events: map<(nat, nat), Event>, id: nat, last: nat, batch: seq<(nat, Event)>)
    requires InsertEvents(events, id, last, batch).Some?
    ensures InsertEvents(events, id, last, batch).value.1 == last + |batch|
    ensures Extends(events, InsertEvents(events, id, last, batch).value.0, id, last, batch)
    decreases batch
  {
    if batch != [] {
      var events1 := events[(id, last + 1) := batch[0].1];
      InsertedEvents(events1, id, last + 1, batch[1..]);
      var events' := InsertEvents(events, id, last, batch).value.0;
      assert Extends(events1, events', id, last + 1, batch[1..]);
      forall i | 0 <= i < |batch|
        ensures batch[i].0 == last + 1 + i && Appendable(batch[i].1)
      {
        if i > 0 {
          assert batch[i] == batch[1..][i - 1];
        }
      }
    }
  }

  lemma {:induction false} AppendKeepsLog(db: Db, id: nat, owner: string, batch: seq<(nat, Event)>)
    requires LogInv(db) && Append(db, id, owner, batch).Some?
    ensures LogInv(Append(db, id, owner, batch).value)
  {
    InsertedEvents(db.events, id, db.runs[id].lastSequence, batch);
    var db' := Append(db, id, owner, batch).value;
    ExtendKeepsLog(db, db', id, batch);
  }

  lemma {:induction false} ExtendKeepsLog(db: Db, db': Db, id: nat, batch: seq<(nat, Event)>)
    requires LogInv(db) && id < |db.runs| && db.runs[id].status == Streaming
    requires db'.runs == db.runs[id := db.runs[id].(lastSequence := db.runs[id].lastSequence + |batch|)]
    requires db'.answers == db.answers
    requires Extends(db.events, db'.events, id, db.runs[id].lastSequence, batch)
    ensures LogInv(db')
  {
    forall k | 0 <= k < |db'.runs|
      ensures RowOk(db', k)
    {
      assert RowOk(db, k);
    }
  }

  /** Ending run `id` with one closing event numbered next keeps the log in order. */
  lemma {:induction false} EndKeepsLog(db: Db, db': Db, id: nat, run': Run, e: Event)
    requires LogInv(db) && id < |db.runs| && !Terminal(db.runs[id].status)
    requires Terminal(run'.status) && run'.owner.None? && run'.lastSequence == db.runs[id].lastSequence + 1
    requires db'.runs == db.runs[id := run'] && db'.events == db.events[(id, run'.lastSequence) := e]
    requires e.kind == ClosingKind(run'.status)
    requires |AnswersOf(db', id)| == (if run'.status == Succeeded then 1 else 0)
    requires forall k :: k != id ==> AnswersOf(db', k) == AnswersOf(db, k)
    ensures LogInv(db')
  {
    assert (id, run'.lastSequence) !in db.events;
    forall k | 0 <= k < |db'.runs|
      ensures RowOk(db', k)
    {
      assert RowOk(db, k);
    }
  }

  lemma {:induction false} CloseKeepsLog(db: Db, id: nat, s: RunStatus, code: string)
    requires LogInv(db) && id < |db.runs| && !Terminal(db.runs[id].status) && (s == Failed || s == Cancelled)
    ensures LogInv(Close(db, id, s, code))
  {
    var db' := Close(db, id, s, code);
    assert RowOk(db, id);
    EndKeepsLog(db, db', id, db'.runs[id], Event(ClosingKind(s), "", code));
  }

  lemma {:induction false} SucceedKeepsLog(db: Db, id: nat, answer: string, input: int, output: int)
    requires LogInv(db) && id < |db.runs| && !Terminal(db.runs[id].status)
    ensures LogInv(Succeed(db, id, answer, input, output))
  {
    var db' := Succeed(db, id, answer, input, output);
    assert RowOk(db, id);
    EndKeepsLog(db, db', id, db'.runs[id], Event(RunCompleted, "", ""));
  }

  lemma {:induction false} AdmitKeepsLog(db: Db, student: nat, key: string, r: Reservation, keyVersion: int)
    requires LogInv(db) && Admit(db, student, key, r, keyVersion).Some?
    requires |db.runs| !in db.answers
    ensures LogInv(Admit(db, student, key, r, keyVersion).value)
  {
    var db' := Admit(db, student, key, r, keyVersion).value;
    forall k | 0 <= k < |db'.runs|
      ensures RowOk(db', k)
    {
      if k < |db.runs| {
        assert RowOk(db, k);
      }
    }
  }

  /** Answers only exist for runs. */
  ghost predicate AnswersFit(db: Db) {
    forall id :: id in db.answers ==> id < |db.runs|
  }

  lemma {:induction false} DoKeepsLog(db: Db, op: Op)
    requires LogInv(db) && AnswersFit(db)
    ensures LogInv(Do(db, op)) && AnswersFit(Do(db, op))
  {
    if Attempt(db, op).Some? {
      assert !op.Admission? ==> RowOk(db, op.id);
      match op
      case Admission(student, key, r, keyVersion) => AdmitKeepsLog(db, student, key, r, keyVersion);
      case Claiming(id, owner, expires) => RowsKeepLog(db, Do(db, op), id);
      case Rotation(id, providerKey) => CloseKeepsLog(db, id, Failed, "provider_key_rotated");
      case Beat(id, owner, until) => RowsKeepLog(db, Do(db, op), id);
      case Appending(id, owner, batch) => AppendKeepsLog(db, id, owner, batch);
      case Completion(id, owner, answer, input, output) => SucceedKeepsLog(db, id, answer, input, output);
      case Failure(id, owner, status, code) => CloseKeepsLog(db, id, status, code);
      case StudentEnd(student, id, target, code) =>
        if target == Cancelled && db.runs[id].status == Streaming {
          RowsKeepLog(db, Do(db, op), id);
        } else {
          CloseKeepsLog(db, id, target, code);
        }
      case Expiry(id, now) => CloseKeepsLog(db, id, Failed, "runner_lost");
    }
  }

  /** A change to one live row that moves neither its counter nor any event. */
  lemma {:induction false} RowsKeepLog(db: Db, db': Db, id: nat)
    requires LogInv(db) && id < |db.runs| && db' == db.(runs := db'.runs)
    requires |db'.runs| == |db.runs| && (forall k :: 0 <= k < |db.runs| && k != id ==> db'.runs[k] == db.runs[k])
    requires db'.runs[id].lastSequence == db.runs[id].lastSequence
    requires !Terminal(db.runs[id].status) && !Terminal(db'.runs[id].status)
    requires db'.runs[id].status == Queued ==> db.runs[id].status == Queued
    requires db'.runs[id].owner.Some? <==> db'.runs[id].status == Streaming
    ensures LogInv(db')
  {
    forall k | 0 <= k < |db'.runs|
      ensures RowOk(db', k)
    {
      assert RowOk(db, k);
    }
  }

  // ---------------------------------------------------------------- quota ledger

  lemma {:induction false} UsedPrefix(rows: seq<Row>, more: seq<Row>, n: nat, student: nat, p: Period, key: string)
    requires n <= |rows|
    ensures UsedUpTo(rows + more, n, student, p, key) == UsedUpTo(rows, n, student, p, key)
  {
    if n > 0 {
      UsedPrefix(rows, more, n - 1, student, p, key);
    }
  }

  lemma {:induction false} UsedAppend(rows: seq<Row>, row: Row, student: nat, p: Period, key: string)
    ensures Used(rows + [row], student, p, key) == Used(rows, student, p, key).Plus(OfRow(row, student, p, key))
  {
    UsedPrefix(rows, [row], |rows|, student, p, key);
  }

  lemma {:induction false} DueChange(runs: seq<Run>, id: nat, run: Run, n: nat, student: nat, p: Period, key: string)
    requires id < |runs| && n <= |runs|
    ensures DueUpTo(runs[id := run], n, student, p, key) ==
            if n <= id then DueUpTo(runs, n, student, p, key)
            else Less(DueUpTo(runs, n, student, p, key).Plus(OfRun(run, student, p, key)),
                OfRun(runs[id], student, p, key))
  {
    if n > 0 {
      DueChange(runs, id, run, n - 1, student, p, key);
    }
  }

  function Less(a: Amount, b: Amount): Amount {
    Amount(a.requests - b.requests, a.tokens - b.tokens)
  }

  /** Replacing one run replaces its charge in the sum. */
  lemma {:induction false} DueUpdate(runs: seq<Run>, id: nat, run: Run, student: nat, p: Period, key: string)
    requires id < |runs|
    ensures Due(runs[id := run], student, p, key) ==
            Less(Due(runs, student, p, key).Plus(OfRun(run, student, p, key)), OfRun(runs[id], student, p, key))
  {
    DueChange(runs, id, run, |runs|, student, p, key);
  }

  lemma {:induction false} DuePrefix(runs: seq<Run>, more: seq<Run>, n: nat, student: nat, p: Period, key: string)
    requires n <= |runs|
    ensures DueUpTo(runs + more, n, student, p, key) == DueUpTo(runs, n, student, p, key)
  {
    if n > 0 {
      DuePrefix(runs, more, n - 1, student, p, key);
    }
  }

  lemma {:induction false} DueAppend(runs: seq<Run>, run: Run, student: nat, p: Period, key: string)
    ensures Due(runs + [run], student, p, key) == Due(runs, student, p, key).Plus(OfRun(run, student, p, key))
  {
    DuePrefix(runs, [run], |runs|, student, p, key);
  }

  ghost predicate Unsettled(rows: seq<Row>, id: nat) {
    forall i :: 0 <= i < |rows| && rows[i].run == id ==> rows[i].action == Reserve
  }

  function EndRows(id: nat, h: Hold, charged: Option<int>, p: Period): seq<Row> {
    (if charged.Some? then [RowFor(id, h, Settle, p, h.requests, charged.value)] else []) +
    [RowFor(id, h, Release, p, -h.requests, -h.tokens)]
  }

  lemma {:induction false} SettlePeriodFresh(rows: seq<Row>, id: nat, h: Hold, charged: Option<int>, p: Period)
    requires !HasRow(rows, id, p, Settle) && !HasRow(rows, id, p, Release)
    ensures SettlePeriod(rows, id, h, charged, p) == rows + EndRows(id, h, charged, p)
  {
    if charged.Some? {
      var settle := RowFor(id, h, Settle, p, h.requests, charged.value);
      assert forall i :: 0 <= i < |rows + [settle]| && i >= |rows| ==> (rows + [settle])[i].action == Settle;
      assert !HasRow(rows + [settle], id, p, Release);
    }
  }

  lemma {:induction false} SettleAllFresh(rows: seq<Row>, id: nat, h: Hold, charged: Option<int>)
    requires Unsettled(rows, id)
    ensures SettleAll(rows, id, h, charged) == rows + EndRows(id, h, charged, Day) + EndRows(id, h, charged, Month)
  {
    SettlePeriodFresh(rows, id, h, charged, Day);
    var rows1 := rows + EndRows(id, h, charged, Day);
    assert forall i :: |rows| <= i < |rows1| ==> rows1[i].period == Day;
    assert !HasRow(rows1, id, Month, Settle) && !HasRow(rows1, id, Month, Release);
    SettlePeriodFresh(rows1, id, h, charged, Month);
  }

  function EndAmount(h: Hold, charged: Option<int>): Amount {
    Amount(if charged.Some? then 0 else -h.requests, (if charged.Some? then charged.value else 0) - h.tokens)
  }

  /** The net effect of one period's rows on any balance: the charge comes in, the reservation goes out. */
  lemma {:induction false} EndRowsUsed(rows: seq<Row>, id: nat, h: Hold, charged: Option<int>, q: Period,
                                       student: nat, p: Period, key: string)
    ensures Used(rows + EndRows(id, h, charged, q), student, p, key) ==
            Used(rows, student, p, key).Plus(
              if p == q && h.student == student && HoldKey(h, p) == key then EndAmount(h, charged) else ZERO)
  {
    var release := RowFor(id, h, Release, q, -h.requests, -h.tokens);
    if charged.Some? {
      var settle := RowFor(id, h, Settle, q, h.requests, charged.value);
      assert rows + EndRows(id, h, charged, q) == (rows + [settle]) + [release];
      UsedAppend(rows, settle, student, p, key);
      UsedAppend(rows + [settle], release, student, p, key);
    } else {
      assert rows + EndRows(id, h, charged, q) == rows + [release];
      UsedAppend(rows, release, student, p, key);
    }
  }

  lemma {:induction false} SettleAllUsed(rows: seq<Row>, id: nat, h: Hold, charged: Option<int>,
                                         student: nat, p: Period, key: string)
    requires Unsettled(rows, id)
    ensures Used(SettleAll(rows, id, h, charged), student, p, key) ==
            Used(rows, student, p, key).Plus(
              if h.student == student && HoldKey(h, p) == key then EndAmount(h, charged) else ZERO)
  {
    SettleAllFresh(rows, id, h, charged);
    EndRowsUsed(rows, id, h, charged, Day, student, p, key);
    EndRowsUsed(rows + EndRows(id, h, charged, Day), id, h, charged, Month, student, p, key);
  }

  /** `run'` is `run` brought to its end, charged accordingly. */
  predicate EndOf(run: Run, run': Run, charged: Option<int>) {
    && Terminal(run'.status) && HoldOf(run') == HoldOf(run) && run'.input >= 0 && run'.output >= 0
    && (if run'.status == Succeeded then charged == Some(Charged(run')) else charged == None)
  }

  lemma {:induction false} EndBalances(db: Db, id: nat, run': Run, charged: Option<int>, student: nat, p: Period,
                                       key: string)
    requires Conserved(db) && id < |db.runs| && Active(db.runs[id]) && Unsettled(db.ledger, id)
    requires EndOf(db.runs[id], run', charged)
    ensures Used(SettleAll(db.ledger, id, HoldOf(run'), charged), student, p, key) ==
            Due(db.runs[id := run'], student, p, key)
  {
    SettleAllUsed(db.ledger, id, HoldOf(run'), charged, student, p, key);
    DueUpdate(db.runs, id, run', student, p, key);
    assert Used(db.ledger, student, p, key) == Due(db.runs, student, p, key);
  }

  /** Ending run `id` as `run'` and settling it accordingly keeps the books balanced. */
  lemma {:induction false} EndKeepsLedger(db: Db, db': Db, id: nat, run': Run, charged: Option<int>)
    requires LedgerInv(db) && id < |db.runs| && Active(db.runs[id])
    requires EndOf(db.runs[id], run', charged)
    requires db'.runs == db.runs[id := run']
    requires db'.ledger == SettleAll(db.ledger, id, HoldOf(run'), charged)
    ensures LedgerInv(db')
  {
    assert Unsettled(db.ledger, id);
    forall student: nat, p: Period, key: string
      ensures Used(db'.ledger, student, p, key) == Due(db'.runs, student, p, key)
    {
      EndBalances(db, id, run', charged, student, p, key);
    }
    EndRowsFit(db, db', id, run', charged);
  }

  lemma {:induction false} EndRowsFit(db: Db, db': Db, id: nat, run': Run, charged: Option<int>)
    requires RowsFit(db) && id < |db.runs| && Unsettled(db.ledger, id)
    requires EndOf(db.runs[id], run', charged)
    requires db'.runs == db.runs[id := run']
    requires db'.ledger == SettleAll(db.ledger, id, HoldOf(run'), charged)
    ensures RowsFit(db')
  {
    SettleAllFresh(db.ledger, id, HoldOf(run'), charged);
    forall i | 0 <= i < |db'.ledger|
      ensures db'.ledger[i].run < |db'.runs|
      ensures db'.ledger[i].action != Reserve ==> Terminal(db'.runs[db'.ledger[i].run].status)
    {
      if i < |db.ledger| {
        assert db'.ledger[i] == db.ledger[i];
      } else {
        assert db'.ledger[i].run == id;
      }
    }
  }

  lemma {:induction false} CloseKeepsLedger(db: Db, id: nat, s: RunStatus, code: string)
    requires LedgerInv(db) && id < |db.runs| && Active(db.runs[id]) && (s == Failed || s == Cancelled)
    ensures LedgerInv(Close(db, id, s, code))
  {
    var db' := Close(db, id, s, code);
    EndKeepsLedger(db, db', id, db'.runs[id], None);
  }

  lemma {:induction false} SucceedKeepsLedger(db: Db, id: nat, answer: string, input: int, output: int)
    requires LedgerInv(db) && id < |db.runs| && Active(db.runs[id]) && input >= 0 && output >= 0
    ensures LedgerInv(Succeed(db, id, answer, input, output))
  {
    var db' := Succeed(db, id, answer, input, output);
    EndKeepsLedger(db, db', id, db'.runs[id], Some(Charged(db'.runs[id])));
  }

  /** A change to one live row that leaves its charge alone. */
  lemma {:induction false} RowKeepsLedger(db: Db, db': Db, id: nat, run': Run)
    requires LedgerInv(db) && id < |db.runs| && Active(db.runs[id])
    requires db'.runs == db.runs[id := run'] && db'.ledger == db.ledger
    requires
      var run := db.runs[id];
      Active(run') && HoldOf(run') == HoldOf(run) && run'.input == run.input && run'.output == run.output
    ensures LedgerInv(db')
  {
    forall student: nat, p: Period, key: string
      ensures Used(db'.ledger, student, p, key) == Due(db'.runs, student, p, key)
    {
      DueUpdate(db.runs, id, run', student, p, key);
      assert OfRun(run', student, p, key) == OfRun(db.runs[id], student, p, key);
      assert Used(db.ledger, student, p, key) == Due(db.runs, student, p, key);
    }
    assert RowsFit(db');
  }

  lemma {:induction false} AdmitKeepsLedger(db: Db, student: nat, key: string, r: Reservation, keyVersion: int)
    requires LedgerInv(db) && Admit(db, student, key, r, keyVersion).Some?
    ensures LedgerInv(Admit(db, student, key, r, keyVersion).value)
    ensures
      var db' := Admit(db, student, key, r, keyVersion).value;
      forall who: nat, p: Period, k: string :: Used(db'.ledger, who, p, k) ==
        Used(db.ledger, who, p, k).Plus(
          if who == student && k == (if p == Day then r.day else r.month) then Amount(r.requests, r.tokens) else ZERO)
  {
    var db' := Admit(db, student, key, r, keyVersion).value;
    var run := db'.runs[|db.runs|];
    var day := RowFor(|db.runs|, HoldOf(run), Reserve, Day, r.requests, r.tokens);
    var month := RowFor(|db.runs|, HoldOf(run), Reserve, Month, r.requests, r.tokens);
    assert db'.ledger == db.ledger + [day] + [month];
    forall who: nat, p: Period, k: string
      ensures Used(db'.ledger, who, p, k) == Due(db'.runs, who, p, k)
      ensures Used(db'.ledger, who, p, k) == Used(db.ledger, who, p, k).Plus(
                if who == student && k == (if p == Day then r.day else r.month) then Amount(r.requests, r.tokens)
                    else ZERO)
    {
      UsedAppend(db.ledger, day, who, p, k);
      UsedAppend(db.ledger + [day], month, who, p, k);
      DueAppend(db.runs, run, who, p, k);
    }
  }

  lemma {:induction false} DoKeepsLedger(db: Db, op: Op)
    requires LedgerInv(db)
    ensures LedgerInv(Do(db, op))
  {
    if Attempt(db, op).Some? {
      var db' := Do(db, op);
      match op
      case Admission(student, key, r, keyVersion) => AdmitKeepsLedger(db, student, key, r, keyVersion);
      case Claiming(id, owner, expires) => RowKeepsLedger(db, db', id, db'.runs[id]);
      case Rotation(id, providerKey) => CloseKeepsLedger(db, id, Failed, "provider_key_rotated");
      case Beat(id, owner, until) => RowKeepsLedger(db, db', id, db'.runs[id]);
      case Appending(id, owner, batch) => RowKeepsLedger(db, db', id, db'.runs[id]);
      case Completion(id, owner, answer, input, output) => SucceedKeepsLedger(db, id, answer, input, output);
      case Failure(id, owner, status, code) => CloseKeepsLedger(db, id, status, code);
      case StudentEnd(student, id, target, code) =>
        if target == Cancelled && db.runs[id].status == Streaming {
          RowKeepsLedger(db, db', id, db'.runs[id]);
        } else {
          CloseKeepsLedger(db, id, target, code);
        }
      case Expiry(id, now) => CloseKeepsLedger(db, id, Failed, "runner_lost");
    }
  }

  // ---------------------------------------------------------------- limits

  lemma {:induction false} EndLowers(rows: seq<Row>, id: nat, run: Run, charged: Option<int>, student: nat, p: Period,
                                     key: string)
    requires Unsettled(rows, id) && run.requests >= 1 && run.tokens >= 0
    requires charged.Some? ==> charged.value <= run.tokens
    ensures Used(SettleAll(rows, id, HoldOf(run), charged), student, p, key).AtMost(Used(rows, student, p, key))
  {
    SettleAllUsed(rows, id, HoldOf(run), charged, student, p, key);
  }

  /** Only an admission can raise what a student has used in any period. */
  lemma {:induction false} OnlyAdmissionRaises(db: Db, op: Op, student: nat, p: Period, key: string)
    requires LedgerInv(db) && !op.Admission?
    ensures Used(Do(db, op).ledger, student, p, key).AtMost(Used(db.ledger, student, p, key))
  {
    if Attempt(db, op).Some? && Do(db, op).ledger != db.ledger {
      var run := db.runs[op.id];
      assert Unsettled(db.ledger, op.id);
      if op.Completion? {
        var done := run.(input := op.input, output := op.output);
        assert HoldOf(done) == HoldOf(run);
        EndLowers(db.ledger, op.id, done, Some(Charged(done)), student, p, key);
      } else {
        EndLowers(db.ledger, op.id, run, None, student, p, key);
      }
    }
  }

  lemma {:induction false} DoKeepsLimits(db: Db, op: Op)
    requires LedgerInv(db) && WithinLimits(db)
    ensures WithinLimits(Do(db, op)) && (forall who: nat :: LimitsOf(Do(db, op), who) == LimitsOf(db, who))
  {
    var db' := Do(db, op);
    assert db'.global == db.global && db'.overrides == db.overrides;
    forall student: nat, p: Period, key: string | LimitsOf(db', student).Some?
      ensures Used(db'.ledger, student, p, key).AtMost(Ceiling(LimitsOf(db', student).value, p))
    {
      assert Used(db.ledger, student, p, key).AtMost(Ceiling(LimitsOf(db, student).value, p));
      if op.Admission? && Attempt(db, op).Some? {
        AdmitKeepsLedger(db, op.student, op.key, op.reservation, op.keyVersion);
      } else if !op.Admission? {
        OnlyAdmissionRaises(db, op, student, p, key);
      }
    }
  }

  // ---------------------------------------------------------------- lifecycle

  /** How one run may differ between an earlier and a later state of the tables. */
  ghost predicate RunEvolves(db: Db, db': Db, id: nat)
    requires id < |db.runs| && id < |db'.runs|
  {
    var run, run' := db.runs[id], db'.runs[id];
    && HoldOf(run') == HoldOf(run) && run'.key == run.key
    && run.lastSequence <= run'.lastSequence
    && (Terminal(run.status) ==> run' == run && AnswersOf(db', id) == AnswersOf(db, id))
    && (run'.status == Queued ==> run.status == Queued)
    && (run.cancelRequested ==> run'.cancelRequested)
    && (run.cancelRequested && run.status != Succeeded ==> run'.status != Succeeded)
  }

  ghost predicate Evolves(db: Db, db': Db) {
    && |db.runs| <= |db'.runs|
    && (forall id :: 0 <= id < |db.runs| ==> RunEvolves(db, db', id))
    && (forall k :: k in db.events ==> k in db'.events && db'.events[k] == db.events[k])
  }

  lemma {:induction false} EvolvesTransitive(a: Db, b: Db, c: Db)
    requires Evolves(a, b) && Evolves(b, c)
    ensures Evolves(a, c)
  {
    forall id | 0 <= id < |a.runs|
      ensures RunEvolves(a, c, id)
    {
      assert RunEvolves(a, b, id) && RunEvolves(b, c, id);
    }
  }

  /** Changing one live row forward, with all old events kept, is an evolution. */
  lemma {:induction false} RowEvolves(db: Db, db': Db, id: nat, run': Run)
    requires id < |db.runs| && !Terminal(db.runs[id].status) && db'.runs == db.runs[id := run']
    requires
      var run := db.runs[id];
      && HoldOf(run') == HoldOf(run) && run'.key == run.key && run.lastSequence <= run'.lastSequence
      && (run'.status == Queued ==> run.status == Queued) && (run.cancelRequested ==> run'.cancelRequested)
      && (run.cancelRequested ==> run'.status != Succeeded)
    requires forall k :: k != id ==> AnswersOf(db', k) == AnswersOf(db, k)
    requires forall k :: k in db.events ==> k in db'.events && db'.events[k] == db.events[k]
    ensures Evolves(db, db')
  {
  }

  lemma {:induction false} CloseEvolves(db: Db, id: nat, s: RunStatus, code: string)
    requires LogInv(db) && id < |db.runs| && !Terminal(db.runs[id].status) && (s == Failed || s == Cancelled)
    ensures Evolves(db, Close(db, id, s, code))
  {
    var db' := Close(db, id, s, code);
    assert (id, db.runs[id].lastSequence + 1) !in db.events;
    RowEvolves(db, db', id, db'.runs[id]);
  }

  lemma {:induction false} SucceedEvolves(db: Db, id: nat, answer: string, input: int, output: int)
    requires LogInv(db) && id < |db.runs| && !Terminal(db.runs[id].status) && !db.runs[id].cancelRequested
    ensures Evolves(db, Succeed(db, id, answer, input, output))
  {
    var db' := Succeed(db, id, answer, input, output);
    assert (id, db.runs[id].lastSequence + 1) !in db.events;
    RowEvolves(db, db', id, db'.runs[id]);
  }

  lemma {:induction false} AppendEvolves(db: Db, id: nat, owner: string, batch: seq<(nat, Event)>)
    requires LogInv(db) && Append(db, id, owner, batch).Some?
    ensures Evolves(db, Append(db, id, owner, batch).value)
  {
    var db' := Append(db, id, owner, batch).value;
    InsertedEvents(db.events, id, db.runs[id].lastSequence, batch);
    forall k | k in db.events
      ensures k in db'.events && db'.events[k] == db.events[k]
    {
      assert (k.0, k.1) in db.events;
    }
    RowEvolves(db, db', id, db'.runs[id]);
  }

  lemma {:induction false} DoEvolves(db: Db, op: Op)
    requires LogInv(db)
    ensures Evolves(db, Do(db, op))
  {
    if Attempt(db, op).Some? {
      var db' := Do(db, op);
      match op
      case Admission(student, key, r, keyVersion) =>
      case Claiming(id, owner, expires) => RowEvolves(db, db', id, db'.runs[id]);
      case Rotation(id, providerKey) => CloseEvolves(db, id, Failed, "provider_key_rotated");
      case Beat(id, owner, until) => RowEvolves(db, db', id, db'.runs[id]);
      case Appending(id, owner, batch) => AppendEvolves(db, id, owner, batch);
      case Completion(id, owner, answer, input, output) => SucceedEvolves(db, id, answer, input, output);
      case Failure(id, owner, status, code) => CloseEvolves(db, id, status, code);
      case StudentEnd(student, id, target, code) =>
        if target == Cancelled && db.runs[id].status == Streaming {
          RowEvolves(db, db', id, db'.runs[id]);
        } else {
          CloseEvolves(db, id, target, code);
        }
      case Expiry(id, now) => CloseEvolves(db, id, Failed, "runner_lost");
    }
  }

  /** Every transaction but an admission changes at most one row, keeps its student, and never revives it. */
  lemma {:induction false} OneRowChanges(db: Db, op: Op)
    requires Attempt(db, op).Some? && !op.Admission?
    ensures op.id < |db.runs|
    ensures
      var run' := Do(db, op).runs[op.id];
      && Do(db, op).runs == db.runs[op.id := run'] && run'.student == db.runs[op.id].student
      && (Active(run') ==> Active(db.runs[op.id]))
  {
  }

  lemma {:induction false} RowKeepsOneActive(db: Db, db': Db, id: nat, run': Run)
    requires OneActive(db) && id < |db.runs| && db'.runs == db.runs[id := run']
    requires run'.student == db.runs[id].student && (Active(run') ==> Active(db.runs[id]))
    ensures OneActive(db')
  {
  }

  /** At most one of a student's runs is queued or streaming. */
  lemma {:induction false} DoKeepsOneActive(db: Db, op: Op)
    requires OneActive(db)
    ensures OneActive(Do(db, op))
  {
    if Attempt(db, op).Some? && !op.Admission? {
      OneRowChanges(db, op);
      RowKeepsOneActive(db, Do(db, op), op.id, Do(db, op).runs[op.id]);
    }
  }

  // ---------------------------------------------------------------- whole runs

  ghost predicate Inv(db: Db) {
    LogInv(db) && AnswersFit(db) && LedgerInv(db) && WithinLimits(db) && OneActive(db)
  }

  lemma {:induction false} FreshIsInv(global: Limits, overrides: map<nat, Overrides>)
    ensures Inv(Fresh(global, overrides))
  {
  }

  /** Every sequence of transactions from empty tables keeps the log, the ledger and the limits. */
  lemma {:induction false} AllRunsKeepInv(global: Limits, overrides: map<nat, Overrides>, ops: seq<Op>)
    ensures Inv(DoAll(Fresh(global, overrides), ops))
  {
    var db := Fresh(global, overrides);
    if ops == [] {
      FreshIsInv(global, overrides);
    } else {
      var before, op := DoAll(db, ops[..|ops| - 1]), ops[|ops| - 1];
      AllRunsKeepInv(global, overrides, ops[..|ops| - 1]);
      DoKeepsLog(before, op);
      DoKeepsLedger(before, op);
      DoKeepsLimits(before, op);
      DoKeepsOneActive(before, op);
    }
  }

  /** Later states only extend earlier ones: terminal runs absorb, logs grow, a recorded cancel never succeeds. */
  lemma {:induction false} HistoryEvolves(global: Limits, overrides: map<nat, Overrides>, ops: seq<Op>, n: nat)
    requires n <= |ops|
    ensures Evolves(DoAll(Fresh(global, overrides), ops[..n]), DoAll(Fresh(global, overrides), ops))
    decreases |ops| - n
  {
    var db := Fresh(global, overrides);
    if n == |ops| {
      assert ops[..n] == ops;
    } else {
      var mid := DoAll(db, ops[..n]);
      assert ops[..n + 1][..n] == ops[..n];
      AllRunsKeepInv(global, overrides, ops[..n]);
      DoEvolves(mid, ops[n]);
      HistoryEvolves(global, overrides, ops, n + 1);
      EvolvesTransitive(mid, DoAll(db, ops[..n + 1]), DoAll(db, ops));
    }
  }

  /** No run is claimed twice, by anyone, in any sequence of transactions. */
  lemma {:induction false} ClaimedAtMostOnce(global: Limits, overrides: map<nat, Overrides>, ops: seq<Op>, i: nat,
                                             j: nat)
    requires i < j < |ops| && ops[i].Claiming? && ops[j].Claiming? && ops[i].id == ops[j].id
    requires Attempt(DoAll(Fresh(global, overrides), ops[..i]), ops[i]).Some?
    ensures Attempt(DoAll(Fresh(global, overrides), ops[..j]), ops[j]).None?
  {
    var db := Fresh(global, overrides);
    assert ops[..i + 1][..i] == ops[..i];
    var after := DoAll(db, ops[..i + 1]);
    assert ops[..j][..i + 1] == ops[..i + 1];
    HistoryEvolves(global, overrides, ops[..j], i + 1);
    assert RunEvolves(after, DoAll(db, ops[..j]), ops[i].id);
  }

  /**
   Quota conservation: after any transactions, what the ledger sums to for a student and period is
   the sum over that student's runs of the full reservation while queued or streaming, the tokens
   used, at most the reservation, once succeeded, and nothing once failed or cancelled; and it never
   exceeds the student's resolved limits.
   */
  lemma {:induction false} QuotaIsConserved(global: Limits, overrides: map<nat, Overrides>, ops: seq<Op>,
                                            student: nat, p: Period, key: string)
    ensures
      var db := DoAll(Fresh(global, overrides), ops);
      && Used(db.ledger, student, p, key) == Due(db.runs, student, p, key)
      && (LimitsOf(db, student).Some? ==>
            Used(db.ledger, student, p, key).AtMost(Ceiling(LimitsOf(db, student).value, p)))
      && (forall id :: 0 <= id < |db.runs| ==>
            var run := db.runs[id];
            && ZERO.AtMost(Charge(run)) && Charge(run).AtMost(Amount(run.requests, run.tokens))
            && (Active(run) ==> Charge(run) == Amount(run.requests, run.tokens))
            && (run.status == Succeeded && run.tokens <= 0x7fff_ffff_ffff_ffff ==>
                  && Charge(run).requests == run.requests
                  && Charge(run).tokens
                     == if run.input + run.output <= run.tokens then run.input + run.output else run.tokens)
            && (run.status == Failed || run.status == Cancelled ==>
                  Charge(run).requests == 0 && Charge(run).tokens == 0))
  {
    AllRunsKeepInv(global, overrides, ops);
  }

  /**
   The log of every run is numbered 1..last_sequence without gaps; its only closing event is the last, and
   matches the status.
   */
  lemma {:induction false} LogsAreOrdered(global: Limits, overrides: map<nat, Overrides>, ops: seq<Op>, id: nat, n: nat)
    requires id < |DoAll(Fresh(global, overrides), ops).runs|
    ensures
      var db := DoAll(Fresh(global, overrides), ops);
      var run := db.runs[id];
      && ((id, n) in db.events <==> 1 <= n <= run.lastSequence)
      && ((id, n) in db.events ==>
            (Closes(db.events[(id, n)].kind) <==> Terminal(run.status) && n == run.lastSequence))
      && ((id, n) in db.events && Closes(db.events[(id, n)].kind) ==>
          db.events[(id, n)].kind == ClosingKind(run.status))
  {
    AllRunsKeepInv(global, overrides, ops);
    var db := DoAll(Fresh(global, overrides), ops);
    assert RowOk(db, id);
  }
}
