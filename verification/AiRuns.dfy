/**
 The AI question-answering tables and the transactions that change them: admission reserves
 quota, a lease owner streams events, and completion, failure, cancellation, key rotation and
 lease expiry each settle or release the reservation. One function per transaction; None
 where the transaction leaves the tables unchanged.
 */
module AiRuns {
  import opened Common

  // ---------------------------------------------------------------- tables

  datatype RunStatus = Queued | Streaming | Succeeded | Failed | Cancelled

  predicate Terminal(s: RunStatus) {
    s == Succeeded || s == Failed || s == Cancelled
  }

  datatype Kind = Delta | Usage | RunCompleted | RunFailed | RunCancelled

  predicate Closes(k: Kind) {
    k == RunCompleted || k == RunFailed || k == RunCancelled
  }

  function ClosingKind(s: RunStatus): Kind
    requires Terminal(s)
  {
    match s
    case Succeeded => RunCompleted
    case Failed => RunFailed
    case Cancelled => RunCancelled
  }

  datatype Event = Event(kind: Kind, text: string, code: string)

  datatype Run = Run(
    student: nat,
    key: string,
    status: RunStatus,
    owner: Option<string>,
    cancelRequested: bool,
    expires: int,
    lastSequence: nat,
    requests: int,
    tokens: int,
    day: string,
    month: string,
    keyVersion: int,
    input: int,
    output: int
  )

  datatype Period = Day | Month

  datatype Action = Reserve | Settle | Release

  datatype Row = Row(student: nat, run: nat, action: Action, period: Period, key: string, requests: int, tokens: int)

  datatype Limits = Limits(dailyRequests: int, monthlyRequests: int, dailyTokens: int, monthlyTokens: int)

  datatype Overrides = Overrides(
    dailyRequests: Option<int>, monthlyRequests: Option<int>, dailyTokens: Option<int>, monthlyTokens: Option<int>)

  /**
   A run is identified by its position in `runs`; an event by its run and sequence number, which
   is the table's primary key. `answers` holds the assistant messages each run has stored.
   */
  datatype Db = Db(
    runs: seq<Run>,
    events: map<(nat, nat), Event>,
    ledger: seq<Row>,
    answers: map<nat, seq<string>>,
    global: Limits,
    overrides: map<nat, Overrides>
  )

  const MAX_INT64: int := 0x7fff_ffff_ffff_ffff

  const MAX_EVENT_BYTES: nat := 16384

  // ---------------------------------------------------------------- quota

  datatype Amount = Amount(requests: int, tokens: int) {
    function Plus(other: Amount): Amount {
      Amount(requests + other.requests, tokens + other.tokens)
    }

    predicate AtMost(other: Amount) {
      requests <= other.requests && tokens <= other.tokens
    }
  }

  const ZERO := Amount(0, 0)

  function OfRow(row: Row, student: nat, p: Period, key: string): Amount {
    if row.student == student && row.period == p && row.key == key
    then Amount(row.requests, row.tokens) else ZERO
  }

  /** What the ledger says a student has used in one period. */
  function Used(rows: seq<Row>, student: nat, p: Period, key: string): Amount {
    UsedUpTo(rows, |rows|, student, p, key)
  }

  function UsedUpTo(rows: seq<Row>, n: nat, student: nat, p: Period, key: string): Amount
    requires n <= |rows|
  {
    if n == 0 then ZERO else UsedUpTo(rows, n - 1, student, p, key).Plus(OfRow(rows[n - 1], student, p, key))
  }

  function Overriding(global: int, override: Option<int>): int {
    match override
    case None => global
    case Some(v) => v
  }

  function ResolveLimits(global: Limits, o: Overrides): Option<Limits> {
    var l := Limits(
               Overriding(global.dailyRequests, o.dailyRequests),
               Overriding(global.monthlyRequests, o.monthlyRequests),
               Overriding(global.dailyTokens, o.dailyTokens),
               Overriding(global.monthlyTokens, o.monthlyTokens));
    if l.dailyRequests <= 0 || l.monthlyRequests <= 0 || l.dailyTokens <= 0 || l.monthlyTokens <= 0
    then None else Some(l)
  }

  function LimitsOf(db: Db, student: nat): Option<Limits> {
    ResolveLimits(db.global, if student in db.overrides then db.overrides[student]
                             else Overrides(None, None, None, None))
  }

  function Ceiling(l: Limits, p: Period): Amount {
    match p
    case Day => Amount(l.dailyRequests, l.dailyTokens)
    case Month => Amount(l.monthlyRequests, l.monthlyTokens)
  }

  datatype Reservation = Reservation(requests: int, tokens: int, day: string, month: string)

  predicate QuotaAllows(l: Limits, day: Amount, month: Amount, r: Reservation) {
    && r.requests >= 1 && r.tokens >= 0
    && day.Plus(Amount(r.requests, r.tokens)).AtMost(Ceiling(l, Day))
    && month.Plus(Amount(r.requests, r.tokens)).AtMost(Ceiling(l, Month))
  }

  // ---------------------------------------------------------------- ledger rows

  predicate HasRow(rows: seq<Row>, run: nat, p: Period, a: Action) {
    exists i :: 0 <= i < |rows| && rows[i].run == run && rows[i].period == p && rows[i].action == a
  }

  /** INSERT ... ON CONFLICT(run_id,period_kind,action) DO NOTHING */
  function InsertRow(rows: seq<Row>, row: Row): seq<Row> {
    if HasRow(rows, row.run, row.period, row.action) then rows else rows + [row]
  }

  /** The quota a run holds: for whom, how much, and in which day and month. */
  datatype Hold = Hold(student: nat, requests: int, tokens: int, day: string, month: string)

  function HoldOf(run: Run): Hold {
    Hold(run.student, run.requests, run.tokens, run.day, run.month)
  }

  function HoldKey(h: Hold, p: Period): string {
    match p
    case Day => h.day
    case Month => h.month
  }

  function RowFor(id: nat, h: Hold, a: Action, p: Period, requests: int, tokens: int): Row {
    Row(h.student, id, a, p, HoldKey(h, p), requests, tokens)
  }

  /** The rows one period gets when a run ends: the charge if it succeeded, then the release. */
  function SettlePeriod(rows: seq<Row>, id: nat, h: Hold, charged: Option<int>, p: Period): seq<Row> {
    var settled :=
      if charged.Some? then InsertRow(rows, RowFor(id, h, Settle, p, h.requests, charged.value)) else rows;
    InsertRow(settled, RowFor(id, h, Release, p, -h.requests, -h.tokens))
  }

  /** settleRunnerQuota: first the day, then the month. */
  function SettleAll(rows: seq<Row>, id: nat, h: Hold, charged: Option<int>): seq<Row> {
    SettlePeriod(SettlePeriod(rows, id, h, charged, Day), id, h, charged, Month)
  }

  // ---------------------------------------------------------------- transactions

  predicate Active(run: Run) {
    run.status == Queued || run.status == Streaming
  }

  predicate HoldsLease(db: Db, id: nat, owner: string) {
    id < |db.runs| && db.runs[id].status == Streaming && db.runs[id].owner == Some(owner)
  }

  /** AdmitRun and RetryRun from the duplicate-key test on; the unique indexes reject a second active run. */
  function Admit(db: Db, student: nat, key: string, r: Reservation, keyVersion: int): Option<Db> {
    if r.requests <= 0 || r.tokens < 0 || r.day == "" || r.month == "" then None
    else if exists i :: 0 <= i < |db.runs| && db.runs[i].student == student && db.runs[i].key == key then None
    else if LimitsOf(db, student).None? then None
    else if !QuotaAllows(LimitsOf(db, student).value, Used(db.ledger, student, Day, r.day),
                         Used(db.ledger, student, Month, r.month), r) then None
    else if exists i :: 0 <= i < |db.runs| && db.runs[i].student == student && Active(db.runs[i]) then None
    else
      var run := Run(student, key, Queued, None, false, 0, 0, r.requests, r.tokens, r.day, r.month, keyVersion, 0, 0);
      var id := |db.runs|;
      Some(db.(runs := db.runs + [run],
           ledger := db.ledger + [RowFor(id, HoldOf(run), Reserve, Day, r.requests, r.tokens),
                                  RowFor(id, HoldOf(run), Reserve, Month, r.requests, r.tokens)]))
  }

  /** The claim half of LeaseNext: a queued run becomes streaming under its new owner. */
  function Claim(db: Db, id: nat, owner: string, expires: int): Option<Db> {
    if id < |db.runs| && db.runs[id].status == Queued && owner != ""
    then Some(db.(runs := db.runs[id := db.runs[id].(status := Streaming, owner := Some(owner), expires := expires)]))
    else None
  }

  /** Ends a run without success: one closing event, no owner, the reservation released. */
  function Close(db: Db, id: nat, s: RunStatus, code: string): Db
    requires id < |db.runs| && (s == Failed || s == Cancelled)
  {
    var run := db.runs[id];
    var n := run.lastSequence + 1;
    db.(runs := db.runs[id := run.(status := s, owner := None, lastSequence := n)],
    events := db.events[(id, n) := Event(ClosingKind(s), "", code)],
    ledger := SettleAll(db.ledger, id, HoldOf(run), None))
  }

  /** failQueuedRunWithRotatedKey */
  function FailRotated(db: Db, id: nat, providerKey: int): Option<Db> {
    if id < |db.runs| && db.runs[id].status == Queued && db.runs[id].keyVersion != providerKey
    then Some(Close(db, id, Failed, "provider_key_rotated")) else None
  }

  function Heartbeat(db: Db, id: nat, owner: string, until: int): Option<Db> {
    if HoldsLease(db, id, owner)
    then Some(db.(runs := db.runs[id := db.runs[id].(expires := until)])) else None
  }

  predicate Appendable(e: Event) {
    (e.kind == Delta || e.kind == Usage) && |e.text| <= MAX_EVENT_BYTES
  }

  /** The numbered events a flush writes, in order; None where one of them is refused. */
  function InsertEvents(events: map<(nat, nat), Event>, id: nat, last: nat, batch: seq<(nat, Event)>)
    : Option<(map<(nat, nat), Event>, nat)>
    decreases batch
  {
    if batch == [] then Some((events, last))
    else if batch[0].0 != last + 1 || !Appendable(batch[0].1) then None
    else InsertEvents(events[(id, last + 1) := batch[0].1], id, last + 1, batch[1..])
  }

  function Append(db: Db, id: nat, owner: string, batch: seq<(nat, Event)>): Option<Db> {
    if batch == [] || !HoldsLease(db, id, owner) then None
    else
      match InsertEvents(db.events, id, db.runs[id].lastSequence, batch)
      case None => None
      case Some((events, last)) =>
        Some(db.(events := events, runs := db.runs[id := db.runs[id].(lastSequence := last)]))
  }

  function SaturatingSum(a: int, b: int): int {
    if b > MAX_INT64 - a then MAX_INT64 else a + b
  }

  function Min(a: int, b: int): int {
    if a <= b then a else b
  }

  /** unicode.IsSpace. */
  predicate Blank(c: char) {
    || '\t' <= c <= '\r' || c in " \U{85}\U{A0}\U{1680}" || '\U{2000}' <= c <= '\U{200A}'
    || c in "\U{2028}\U{2029}\U{202F}\U{205F}\U{3000}"
  }

  function TrimLeft(s: string): string {
    if s != [] && Blank(s[0]) then TrimLeft(s[1..]) else s
  }

  function TrimRight(s: string): string {
    if s != [] && Blank(s[|s| - 1]) then TrimRight(s[..|s| - 1]) else s
  }

  predicate ValidBody(s: string) {
    1 <= |TrimLeft(TrimRight(s))| <= 100000
  }

  /** The tokens charged for a finished run: what it used, capped by what it reserved. */
  function Charged(run: Run): int {
    Min(SaturatingSum(run.input, run.output), run.tokens)
  }

  /** Ends a run with success: the completed event, the stored answer, the charge settled. */
  function Succeed(db: Db, id: nat, answer: string, input: int, output: int): Db
    requires id < |db.runs|
  {
    var run := db.runs[id].(input := input, output := output);
    var n := run.lastSequence + 1;
    db.(runs := db.runs[id := run.(status := Succeeded, owner := None, lastSequence := n)],
    events := db.events[(id, n) := Event(RunCompleted, "", "")],
    answers := db.answers[id := AnswersOf(db, id) + [answer]],
    ledger := SettleAll(db.ledger, id, HoldOf(run), Some(Charged(run))))
  }

  function Complete(db: Db, id: nat, owner: string, answer: string, input: int, output: int): Option<Db> {
    if !ValidBody(answer) || input < 0 || output < 0 || !HoldsLease(db, id, owner) then None
    else if db.runs[id].cancelRequested then None
    else Some(Succeed(db, id, answer, input, output))
  }

  function AnswersOf(db: Db, id: nat): seq<string> {
    if id in db.answers then db.answers[id] else []
  }

  function Fail(db: Db, id: nat, owner: string, s: RunStatus, code: string): Option<Db> {
    if (s != Failed && s != Cancelled) || code == "" || !HoldsLease(db, id, owner) then None
    else Some(Close(db, id, s, code))
  }

  /** releaseTerminal: cancelling a streaming run only records the request. */
  function EndByStudent(db: Db, student: nat, id: nat, target: RunStatus, code: string): Option<Db> {
    if target != Failed && target != Cancelled then None
    else if id >= |db.runs| || db.runs[id].student != student || Terminal(db.runs[id].status) then None
    else if target == Cancelled && db.runs[id].status == Streaming
    then Some(db.(runs := db.runs[id := db.runs[id].(cancelRequested := true)]))
    else Some(Close(db, id, target, code))
  }

  /** reconcileOneExpired */
  function Expire(db: Db, id: nat, now: int): Option<Db> {
    if id < |db.runs| && db.runs[id].status == Streaming && db.runs[id].expires < now
    then Some(Close(db, id, Failed, "runner_lost")) else None
  }

  // ---------------------------------------------------------------- invariants of the log

  ghost predicate LogInv(db: Db) {
    && (forall id: nat, n: nat {:trigger (id, n) in db.events} ::
          (id, n) in db.events <==> id < |db.runs| && 1 <= n <= db.runs[id].lastSequence)
    && (forall id: nat, n: nat {:trigger (id, n) in db.events} ::
          (id, n) in db.events && Closes(db.events[(id, n)].kind) ==>
            Terminal(db.runs[id].status) && n == db.runs[id].lastSequence)
    && (forall id :: 0 <= id < |db.runs| ==> RowOk(db, id))
  }

  ghost predicate RowOk(db: Db, id: nat)
    requires id < |db.runs|
  {
    var run := db.runs[id];
    && (run.status == Queued ==> run.lastSequence == 0)
    && (run.owner.Some? <==> run.status == Streaming)
    && (Terminal(run.status) ==>
          run.lastSequence >= 1 && (id, run.lastSequence) in db.events &&
          db.events[(id, run.lastSequence)].kind == ClosingKind(run.status))
    && |AnswersOf(db, id)| == (if run.status == Succeeded then 1 else 0)
  }

  // ---------------------------------------------------------------- invariants of the ledger

  /** What a run owes its student's quota in its present status. */
  function Charge(run: Run): Amount {
    match run.status
    case Queued => Amount(run.requests, run.tokens)
    case Streaming => Amount(run.requests, run.tokens)
    case Succeeded => Amount(run.requests, Charged(run))
    case Failed => ZERO
    case Cancelled => ZERO
  }

  function OfRun(run: Run, student: nat, p: Period, key: string): Amount {
    if run.student == student && HoldKey(HoldOf(run), p) == key then Charge(run) else ZERO
  }

  /** What all runs of one student owe in one period. */
  function Due(runs: seq<Run>, student: nat, p: Period, key: string): Amount {
    DueUpTo(runs, |runs|, student, p, key)
  }

  function DueUpTo(runs: seq<Run>, n: nat, student: nat, p: Period, key: string): Amount
    requires n <= |runs|
  {
    if n == 0 then ZERO else DueUpTo(runs, n - 1, student, p, key).Plus(OfRun(runs[n - 1], student, p, key))
  }

  ghost predicate Conserved(db: Db) {
    forall student: nat, p: Period, key: string ::
      Used(db.ledger, student, p, key) == Due(db.runs, student, p, key)
  }

  ghost predicate RowsFit(db: Db) {
    && (forall i :: 0 <= i < |db.ledger| ==>
          db.ledger[i].run < |db.runs| &&
          (db.ledger[i].action != Reserve ==> Terminal(db.runs[db.ledger[i].run].status)))
    && (forall id :: 0 <= id < |db.runs| ==>
          db.runs[id].requests >= 1 && db.runs[id].tokens >= 0 && db.runs[id].input >= 0 && db.runs[id].output >= 0)
  }

  ghost predicate LedgerInv(db: Db) {
    Conserved(db) && RowsFit(db)
  }

  ghost predicate OneActive(db: Db) {
    forall i, j :: 0 <= i < j < |db.runs| && db.runs[i].student == db.runs[j].student ==>
      !(Active(db.runs[i]) && Active(db.runs[j]))
  }

  ghost predicate WithinLimits(db: Db) {
    forall student: nat, p: Period, key: string :: LimitsOf(db, student).Some? ==>
      Used(db.ledger, student, p, key).AtMost(Ceiling(LimitsOf(db, student).value, p))
  }
}
