/**
 What the transactions of AiRuns mean for someone who only sees rows: sums over the ledger, limits,
 leases, the last event of a log, and who may end whose run.
 */
module AiRunLaws {
  import opened Common
  import opened AiRuns
  import opened AiRunsTheory

  // ---------------------------------------------------------------- sums over rows and runs

  predicate InPeriod(row: Row, student: nat, p: Period, key: string) {
    row.student == student && row.period == p && row.key == key
  }

  function TokenSum(rows: seq<Row>, n: nat, student: nat, p: Period, key: string): int
    requires n <= |rows|
  {
    if n == 0 then 0
    else TokenSum(rows, n - 1, student, p, key) + (if InPeriod(rows[n - 1], student, p, key) then rows[n - 1].tokens
        else 0)
  }

  function RequestSum(rows: seq<Row>, n: nat, student: nat, p: Period, key: string): int
    requires n <= |rows|
  {
    if n == 0 then 0
    else
      RequestSum(rows, n - 1, student, p, key)
      + (if InPeriod(rows[n - 1], student, p, key) then rows[n - 1].requests else 0)
  }

  lemma {:induction false} OneRowMore(sum: Amount, row: Row, student: nat, p: Period, key: string)
    ensures
      var more := sum.Plus(OfRow(row, student, p, key));
      && more.tokens == sum.tokens + (if InPeriod(row, student, p, key) then row.tokens else 0)
      && more.requests == sum.requests + (if InPeriod(row, student, p, key) then row.requests else 0)
  {
  }

  lemma {:induction false} UsedIsTheSum(rows: seq<Row>, n: nat, student: nat, p: Period, key: string)
    requires n <= |rows|
    ensures UsedUpTo(rows, n, student, p, key).tokens == TokenSum(rows, n, student, p, key)
    ensures UsedUpTo(rows, n, student, p, key).requests == RequestSum(rows, n, student, p, key)
  {
    if n > 0 {
      UsedIsTheSum(rows, n - 1, student, p, key);
      OneRowMore(UsedUpTo(rows, n - 1, student, p, key), rows[n - 1], student, p, key);
    }
  }

  /** The smallest of what was used, what was reserved and what 64 bits hold. */
  function ChargedTokens(run: Run): int {
    var used := run.input + run.output;
    var reserved := if run.tokens <= 0x7fff_ffff_ffff_ffff then run.tokens else 0x7fff_ffff_ffff_ffff;
    if used <= reserved then used else reserved
  }

  /** What a run counts for in its day and month. */
  function OwedTokens(run: Run): int {
    match run.status
    case Queued => run.tokens
    case Streaming => run.tokens
    case Succeeded => ChargedTokens(run)
    case Failed => 0
    case Cancelled => 0
  }

  function OwedRequests(run: Run): int {
    if run.status == Failed || run.status == Cancelled then 0 else run.requests
  }

  predicate RunsIn(run: Run, student: nat, p: Period, key: string) {
    run.student == student && (if p == Day then run.day else run.month) == key
  }

  function OwedSum(runs: seq<Run>, n: nat, student: nat, p: Period, key: string): (owed: (int, int))
    requires n <= |runs|
  {
    if n == 0 then (0, 0)
    else
      var earlier := OwedSum(runs, n - 1, student, p, key);
      if RunsIn(runs[n - 1], student, p, key)
      then (earlier.0 + OwedRequests(runs[n - 1]), earlier.1 + OwedTokens(runs[n - 1])) else earlier
  }

  /** A succeeded run is charged input plus output, and never more than it reserved. */
  lemma {:induction false} ChargeMeans(run: Run)
    requires run.input >= 0 && run.output >= 0 && run.tokens >= 0
    ensures Charge(run).tokens == OwedTokens(run) && Charge(run).requests == OwedRequests(run)
    ensures run.status == Succeeded && run.tokens <= 0x7fff_ffff_ffff_ffff ==>
              Charge(run).tokens == if run.input + run.output <= run.tokens then run.input + run.output else run.tokens
  {
  }

  lemma {:induction false} OneRunMore(due: Amount, run: Run, student: nat, p: Period, key: string)
    requires run.input >= 0 && run.output >= 0 && run.tokens >= 0
    ensures
      var more := due.Plus(OfRun(run, student, p, key));
      && more.requests == due.requests + (if RunsIn(run, student, p, key) then OwedRequests(run) else 0)
      && more.tokens == due.tokens + (if RunsIn(run, student, p, key) then OwedTokens(run) else 0)
  {
    ChargeMeans(run);
  }

  lemma {:induction false} DueIsTheSum(runs: seq<Run>, n: nat, student: nat, p: Period, key: string)
    requires n <= |runs|
    requires forall id :: 0 <= id < |runs| ==> runs[id].input >= 0 && runs[id].output >= 0 && runs[id].tokens >= 0
    ensures
      var due, owed := DueUpTo(runs, n, student, p, key), OwedSum(runs, n, student, p, key);
      due.requests == owed.0 && due.tokens == owed.1
  {
    if n > 0 {
      DueIsTheSum(runs, n - 1, student, p, key);
      OneRunMore(DueUpTo(runs, n - 1, student, p, key), runs[n - 1], student, p, key);
    }
  }

  /** The limit that counts: the student's own where there is one, else the global one. */
  function Effective(global: int, own: Option<int>): int {
    if own.Some? then own.value else global
  }

  function OwnLimits(db: Db, student: nat): Overrides {
    if student in db.overrides then db.overrides[student] else Overrides(None, None, None, None)
  }

  lemma {:induction false} LimitsMean(db: Db, student: nat)
    ensures
      var g, o := db.global, OwnLimits(db, student);
      && (LimitsOf(db, student).Some? <==>
            && Effective(g.dailyRequests, o.dailyRequests) > 0 && Effective(g.monthlyRequests, o.monthlyRequests) > 0
            && Effective(g.dailyTokens, o.dailyTokens) > 0 && Effective(g.monthlyTokens, o.monthlyTokens) > 0)
      && (LimitsOf(db, student).Some? ==>
            && Ceiling(LimitsOf(db, student).value, Day)
               == Amount(Effective(g.dailyRequests, o.dailyRequests), Effective(g.dailyTokens, o.dailyTokens))
            && Ceiling(LimitsOf(db, student).value, Month)
               == Amount(Effective(g.monthlyRequests, o.monthlyRequests), Effective(g.monthlyTokens, o.monthlyTokens)))
  {
  }

  /**
   The books after any transactions: what a student's ledger rows of a period sum to is what the runs
   owe, and in requests and in tokens it never passes the limit that counts.
   */
  lemma {:induction false} LedgerBalances(global: Limits, overrides: map<nat, Overrides>, ops: seq<Op>, student: nat,
                                          p: Period, key: string)
    ensures
      var db := DoAll(Fresh(global, overrides), ops);
      var owed := OwedSum(db.runs, |db.runs|, student, p, key);
      && RequestSum(db.ledger, |db.ledger|, student, p, key) == owed.0
      && TokenSum(db.ledger, |db.ledger|, student, p, key) == owed.1
    ensures
      var db := DoAll(Fresh(global, overrides), ops);
      var g, o := db.global, OwnLimits(db, student);
      LimitsOf(db, student).Some? ==>
        && RequestSum(db.ledger, |db.ledger|, student, p, key)
           <= (if p == Day then Effective(g.dailyRequests, o.dailyRequests)
               else Effective(g.monthlyRequests, o.monthlyRequests))
        && TokenSum(db.ledger, |db.ledger|, student, p, key)
           <= (if p == Day then Effective(g.dailyTokens, o.dailyTokens)
               else Effective(g.monthlyTokens, o.monthlyTokens))
  {
    var db := DoAll(Fresh(global, overrides), ops);
    AllRunsKeepInv(global, overrides, ops);
    QuotaIsConserved(global, overrides, ops, student, p, key);
    UsedIsTheSum(db.ledger, |db.ledger|, student, p, key);
    DueIsTheSum(db.runs, |db.runs|, student, p, key);
    LimitsMean(db, student);
  }

  // ---------------------------------------------------------------- admission

  /** The reservation fits beside what the period already counts. */
  predicate Fits(db: Db, student: nat, p: Period, key: string, r: Reservation, requests: int, tokens: int) {
    && RequestSum(db.ledger, |db.ledger|, student, p, key) + r.requests <= requests
    && TokenSum(db.ledger, |db.ledger|, student, p, key) + r.tokens <= tokens
  }

  /** The student has neither used the key nor a run under way. */
  predicate Free(db: Db, student: nat, key: string) {
    forall i :: 0 <= i < |db.runs| && db.runs[i].student == student ==>
      db.runs[i].key != key && db.runs[i].status in {Succeeded, Failed, Cancelled}
  }

  lemma {:induction false} FreeMeans(db: Db, student: nat, key: string)
    ensures
      Free(db, student, key) <==>
        && !(exists i :: 0 <= i < |db.runs| && db.runs[i].student == student && db.runs[i].key == key)
        && !(exists i :: 0 <= i < |db.runs| && db.runs[i].student == student && Active(db.runs[i]))
  {
  }

  lemma {:induction false} QuotaMeans(db: Db, student: nat, r: Reservation, l: Limits)
    ensures
      QuotaAllows(l, Used(db.ledger, student, Day, r.day), Used(db.ledger, student, Month, r.month), r) <==>
        && r.requests >= 1 && r.tokens >= 0
        && Fits(db, student, Day, r.day, r, l.dailyRequests, l.dailyTokens)
        && Fits(db, student, Month, r.month, r, l.monthlyRequests, l.monthlyTokens)
  {
    UsedIsTheSum(db.ledger, |db.ledger|, student, Day, r.day);
    UsedIsTheSum(db.ledger, |db.ledger|, student, Month, r.month);
  }

  /** Exactly when a run is admitted. */
  lemma {:induction false} AdmissionCondition(db: Db, student: nat, key: string, r: Reservation, keyVersion: int)
    ensures
      var g, o := db.global, OwnLimits(db, student);
      Admit(db, student, key, r, keyVersion).Some? <==>
        && r.requests >= 1 && r.tokens >= 0 && r.day != "" && r.month != "" && Free(db, student, key)
        && LimitsOf(db, student).Some?
        && Fits(db, student, Day, r.day, r, Effective(g.dailyRequests, o.dailyRequests),
                Effective(g.dailyTokens, o.dailyTokens))
        && Fits(db, student, Month, r.month, r, Effective(g.monthlyRequests, o.monthlyRequests),
                Effective(g.monthlyTokens, o.monthlyTokens))
  {
    FreeMeans(db, student, key);
    LimitsMean(db, student);
    if LimitsOf(db, student).Some? {
      QuotaMeans(db, student, r, LimitsOf(db, student).value);
    }
  }

  /** An admitted run waits with its whole reservation, counted once in its day and once in its month. */
  lemma {:induction false} AdmissionReserves(db: Db, student: nat, key: string, r: Reservation, keyVersion: int)
    requires Admit(db, student, key, r, keyVersion).Some?
    ensures
      var db' := Admit(db, student, key, r, keyVersion).value;
      var n := |db.runs|;
      && |db'.runs| == n + 1 && db'.runs[..n] == db.runs && db'.events == db.events && db'.answers == db.answers
      && var run := db'.runs[n];
        && run.student == student && run.key == key && run.status == Queued && run.owner.None? && !run.cancelRequested
        && run.lastSequence == 0 && run.requests == r.requests && run.tokens == r.tokens
        && run.day == r.day && run.month == r.month && run.keyVersion == keyVersion
    ensures
      var db' := Admit(db, student, key, r, keyVersion).value;
      && |db'.ledger| == |db.ledger| + 2 && db'.ledger[..|db.ledger|] == db.ledger
      && InPeriod(db'.ledger[|db.ledger|], student, Day, r.day)
      && InPeriod(db'.ledger[|db.ledger| + 1], student, Month, r.month)
      && forall k :: |db.ledger| <= k < |db'.ledger| ==>
           && db'.ledger[k].run == |db.runs| && db'.ledger[k].requests == r.requests && db'.ledger[k].tokens == r.tokens
  {
  }

  // ---------------------------------------------------------------- completion

  /** What completing a run changes in one period: the tokens it used, at most those reserved, replace these. */
  function ChargeChange(run: Run, used: int, student: nat, p: Period, key: string): int {
    if !RunsIn(run, student, p, key) then 0 else if used <= run.tokens then used - run.tokens else 0
  }

  /** A completed run stores answer and usage, and its charge replaces its reservation in day and month. */
  lemma {:induction false} CompletionCharges(db: Db, id: nat, owner: string, answer: string, input: int, output: int,
                                             student: nat, p: Period, key: string)
    requires LogInv(db) && LedgerInv(db) && Complete(db, id, owner, answer, input, output).Some?
    ensures
      var db' := Complete(db, id, owner, answer, input, output).value;
      && id < |db'.runs| && db'.runs[id].status == Succeeded && db'.runs[id].owner.None?
      && db'.runs[id].input == input && db'.runs[id].output == output && AnswersOf(db', id) == [answer]
    ensures
      var db' := Complete(db, id, owner, answer, input, output).value;
      db.runs[id].tokens <= 0x7fff_ffff_ffff_ffff ==>
        && RequestSum(db'.ledger, |db'.ledger|, student, p, key) == RequestSum(db.ledger, |db.ledger|, student, p, key)
        && TokenSum(db'.ledger, |db'.ledger|, student, p, key)
           == TokenSum(db.ledger, |db.ledger|, student, p, key)
              + ChargeChange(db.runs[id], input + output, student, p, key)
  {
    var db' := Complete(db, id, owner, answer, input, output).value;
    var done := db.runs[id].(input := input, output := output);
    assert RowOk(db, id) && Unsettled(db.ledger, id);
    SettleAllUsed(db.ledger, id, HoldOf(done), Some(Charged(done)), student, p, key);
    ChargeMeans(done.(status := Succeeded));
    UsedIsTheSum(db.ledger, |db.ledger|, student, p, key);
    UsedIsTheSum(db'.ledger, |db'.ledger|, student, p, key);
  }

  /** Exactly when a run can be completed. */
  lemma {:induction false} CompletionCondition(db: Db, id: nat, owner: string, answer: string, input: int, output: int)
    ensures
      Complete(db, id, owner, answer, input, output).Some? <==>
        && id < |db.runs| && db.runs[id].status == Streaming && db.runs[id].owner == Some(owner)
        && !db.runs[id].cancelRequested && ValidBody(answer) && input >= 0 && output >= 0
  {
  }

  /** A body is valid when something is left after trimming, and not too much. */
  lemma {:induction false} BodyMeans(s: string)
    ensures ValidBody(s) ==> exists i :: 0 <= i < |s| && !Blank(s[i])
    ensures |s| <= 100000 && (exists i :: 0 <= i < |s| && !Blank(s[i])) ==> ValidBody(s)
    ensures |s| > 100000 && !Blank(s[0]) && !Blank(s[|s| - 1]) ==> !ValidBody(s)
  {
    RightTrimmed(s);
    LeftTrimmed(TrimRight(s));
  }

  lemma {:induction false} RightTrimmed(s: string)
    ensures TrimRight(s) <= s && (forall i :: |TrimRight(s)| <= i < |s| ==> Blank(s[i]))
    ensures TrimRight(s) != [] ==> !Blank(TrimRight(s)[|TrimRight(s)| - 1])
  {
    if s != [] && Blank(s[|s| - 1]) {
      RightTrimmed(s[..|s| - 1]);
    }
  }

  lemma {:induction false} LeftTrimmed(s: string)
    ensures |TrimLeft(s)| <= |s| && TrimLeft(s) == s[|s| - |TrimLeft(s)|..]
    ensures forall i :: 0 <= i < |s| - |TrimLeft(s)| ==> Blank(s[i])
    ensures TrimLeft(s) != [] ==> !Blank(TrimLeft(s)[0])
  {
    if s != [] && Blank(s[0]) {
      LeftTrimmed(s[1..]);
      assert forall i :: 1 <= i < |s| - |TrimLeft(s)| ==> s[i] == s[1..][i - 1];
    }
  }

  // ---------------------------------------------------------------- the other ends

  /** What ends a run without success: status, closing event with its code, no owner, nothing owed. */
  predicate EndedAs(db: Db, db': Db, id: nat, s: RunStatus, kind: Kind, code: string) {
    && id < |db.runs| && |db'.runs| == |db.runs| && db'.answers == db.answers
    && db'.runs[id] == db.runs[id].(status := s, owner := None, lastSequence := db.runs[id].lastSequence + 1)
    && db'.events == db.events[(id, db.runs[id].lastSequence + 1) := Event(kind, "", code)]
  }

  /** A failed, cancelled, expired or rotated run, and who may do that to it. */
  lemma {:induction false} EndsMean(db: Db, id: nat, owner: string, s: RunStatus, code: string, now: int, version: int)
    ensures
      Fail(db, id, owner, s, code).Some? <==>
        && id < |db.runs| && db.runs[id].status == Streaming && db.runs[id].owner == Some(owner)
        && s in {Failed, Cancelled} && code != ""
    ensures Fail(db, id, owner, s, code).Some? ==>
              EndedAs(db, Fail(db, id, owner, s, code).value, id, s, if s == Failed then RunFailed
                  else RunCancelled, code)
    ensures Expire(db, id, now).Some? <==>
        id < |db.runs| && db.runs[id].status == Streaming && db.runs[id].expires < now
    ensures Expire(db, id, now).Some? ==>
              EndedAs(db, Expire(db, id, now).value, id, Failed, RunFailed, "runner_lost")
    ensures
      FailRotated(db, id, version).Some? <==>
        id < |db.runs| && db.runs[id].status == Queued && db.runs[id].keyVersion != version
    ensures FailRotated(db, id, version).Some? ==>
              EndedAs(db, FailRotated(db, id, version).value, id, Failed, RunFailed, "provider_key_rotated")
  {
  }

  /** A student ends its own unfinished runs only; cancelling one that streams just leaves a request. */
  lemma {:induction false} StudentEndsMean(db: Db, student: nat, id: nat, target: RunStatus, code: string)
    ensures
      EndByStudent(db, student, id, target, code).Some? <==>
        && target in {Failed, Cancelled} && id < |db.runs| && db.runs[id].student == student
        && db.runs[id].status in {Queued, Streaming}
    ensures EndByStudent(db, student, id, target, code).Some? ==>
              var db' := EndByStudent(db, student, id, target, code).value;
              if target == Cancelled && db.runs[id].status == Streaming
              then db' == db.(runs := db.runs[id := db.runs[id].(cancelRequested := true)])
              else EndedAs(db, db', id, target, if target == Failed then RunFailed else RunCancelled, code)
  {
  }

  /** Ending a run without success gives its whole reservation back, in its day and its month. */
  lemma {:induction false} EndReleases(db: Db, id: nat, s: RunStatus, code: string, student: nat, p: Period,
                                       key: string)
    requires LedgerInv(db) && id < |db.runs| && Active(db.runs[id]) && (s == Failed || s == Cancelled)
    ensures
      var db' := Close(db, id, s, code);
      var run := db.runs[id];
      && TokenSum(db'.ledger, |db'.ledger|, student, p, key)
         == TokenSum(db.ledger, |db.ledger|, student, p, key) - (if RunsIn(run, student, p, key) then run.tokens else 0)
      && RequestSum(db'.ledger, |db'.ledger|, student, p, key)
         == RequestSum(db.ledger, |db.ledger|, student, p, key) - (if RunsIn(run, student, p, key) then run.requests
             else 0)
  {
    var db' := Close(db, id, s, code);
    assert Unsettled(db.ledger, id);
    SettleAllUsed(db.ledger, id, HoldOf(db.runs[id]), None, student, p, key);
    UsedIsTheSum(db.ledger, |db.ledger|, student, p, key);
    UsedIsTheSum(db'.ledger, |db'.ledger|, student, p, key);
  }

  // ---------------------------------------------------------------- leases

  /** A claim or a heartbeat lasts: until its time nobody can expire the run, afterwards anybody can. */
  lemma {:induction false} LeasesLast(db: Db, id: nat, owner: string, until: int, now: int)
    ensures Claim(db, id, owner, until).Some? <==> id < |db.runs| && db.runs[id].status == Queued && owner != ""
    ensures Claim(db, id, owner, until).Some? ==>
              var db' := Claim(db, id, owner, until).value;
              && db'.runs[id].status == Streaming && db'.runs[id].owner == Some(owner)
              && (Expire(db', id, now).Some? <==> until < now)
    ensures Heartbeat(db, id, owner, until).Some? <==>
              id < |db.runs| && db.runs[id].status == Streaming && db.runs[id].owner == Some(owner)
    ensures Heartbeat(db, id, owner, until).Some? ==>
              var db' := Heartbeat(db, id, owner, until).value;
              && db' == db.(runs := db.runs[id := db.runs[id].(expires := until)])
              && (Expire(db', id, now).Some? <==> until < now)
  {
  }

  /** The last event of a finished run's log says how it ended. */
  lemma {:induction false} LastEventTells(global: Limits, overrides: map<nat, Overrides>, ops: seq<Op>, id: nat)
    requires id < |DoAll(Fresh(global, overrides), ops).runs|
    ensures
      var db := DoAll(Fresh(global, overrides), ops);
      var run := db.runs[id];
      run.status in {Succeeded, Failed, Cancelled} ==>
        && (id, run.lastSequence) in db.events
        && var kind := db.events[(id, run.lastSequence)].kind;
          && (kind == RunCompleted <==> run.status == Succeeded)
          && (kind == RunFailed <==> run.status == Failed)
          && (kind == RunCancelled <==> run.status == Cancelled)
  {
    AllRunsKeepInv(global, overrides, ops);
    assert RowOk(DoAll(Fresh(global, overrides), ops), id);
  }

  /** Exactly which batches a lease owner can append, and what they leave. */
  lemma {:induction false} AppendMeans(db: Db, id: nat, owner: string, batch: seq<(nat, Event)>)
    requires Append(db, id, owner, batch).Some?
    ensures
      var db' := Append(db, id, owner, batch).value;
      && id < |db.runs| && db.runs[id].status == Streaming && db.runs[id].owner == Some(owner)
      && db' == db.(events := db'.events,
                    runs := db.runs[id := db.runs[id].(lastSequence := db.runs[id].lastSequence + |batch|)])
      && forall k :: 0 <= k < |batch| ==>
           && batch[k].0 == db.runs[id].lastSequence + k + 1 && batch[k].1.kind in {Delta, Usage}
           && |batch[k].1.text| <= 16384
  {
    InsertedEvents(db.events, id, db.runs[id].lastSequence, batch);
    BatchIsNumbered(db.events, id, db.runs[id].lastSequence, batch);
  }

  /** A batch that continues the log with deltas and usage of bearable size is accepted. */
  lemma {:induction false} AppendAccepts(db: Db, id: nat, owner: string, batch: seq<(nat, Event)>)
    requires id < |db.runs| && db.runs[id].status == Streaming && db.runs[id].owner == Some(owner) && batch != []
    requires forall k :: 0 <= k < |batch| ==>
               && batch[k].0 == db.runs[id].lastSequence + k + 1 && batch[k].1.kind in {Delta, Usage}
               && |batch[k].1.text| <= 16384
    ensures Append(db, id, owner, batch).Some?
  {
    NumberedIsAccepted(db.events, id, db.runs[id].lastSequence, batch);
  }

  lemma {:induction false} NumberedIsAccepted(events: map<(nat, nat), Event>, id: nat, last: nat,
                                              batch: seq<(nat, Event)>)
    requires forall k :: 0 <= k < |batch| ==>
               && batch[k].0 == last + k + 1 && batch[k].1.kind in {Delta, Usage} && |batch[k].1.text| <= 16384
    ensures InsertEvents(events, id, last, batch).Some?
    decreases batch
  {
    if batch != [] {
      assert forall k :: 0 <= k < |batch[1..]| ==> batch[1..][k] == batch[k + 1];
      NumberedIsAccepted(events[(id, last + 1) := batch[0].1], id, last + 1, batch[1..]);
    }
  }

  lemma {:induction false} BatchIsNumbered(events: map<(nat, nat), Event>, id: nat, last: nat, batch: seq<(nat, Event)>)
    requires InsertEvents(events, id, last, batch).Some?
    ensures forall k :: 0 <= k < |batch| ==>
              && batch[k].0 == last + k + 1 && batch[k].1.kind in {Delta, Usage} && |batch[k].1.text| <= 16384
    decreases batch
  {
    if batch != [] {
      BatchIsNumbered(events[(id, last + 1) := batch[0].1], id, last + 1, batch[1..]);
      assert forall k :: 1 <= k < |batch| ==> batch[k] == batch[1..][k - 1];
    }
  }
}
