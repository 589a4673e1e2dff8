/**
 The tables of backup runs and their lease-fenced transactions (internal/backup/postgres_store.go).
 Every transaction is a function from the tables and its arguments to the new tables and a result.
 Times are nanoseconds from the zero time; the database keeps microseconds. Identifier 0 is the nil
 identifier, which a row shows as a NULL owner.
 */
module BackupRuns {
  import opened Common
  import opened BackupModel

  const SECOND := 1_000_000_000
  const DAY := 24 * 3600 * SECOND

  datatype Error =
    Invalid | InvalidTransition | NotFound | AlreadyQueued | NoClaimableRun | ActiveClaim | StaleOwner | Unavailable

  datatype Result<+T> = Ok(value: T) | Err(error: Error)

  /** A timestamptz column drops what is below a microsecond. */
  function Micros(t: int): int {
    t - t % 1000
  }

  // ---------------------------------------------------------------- tables

  /** The nullable columns a transition may fill in. */
  datatype Columns = Columns(
    migration: Option<int>,
    encryptionKey: Option<string>,
    localSnapshot: Option<string>,
    remoteSnapshot: Option<string>,
    manifest: Option<string>,
    logical: Option<int>,
    stored: Option<int>,
    localExpires: Option<int>,
    remoteExpires: Option<int>
  )

  const NO_COLUMNS := Columns(None, None, None, None, None, None, None, None, None)

  datatype Run = Run(
    key: string,
    trigger: Trigger,
    state: State,
    requestedAt: int,
    startedAt: Option<int>,
    finishedAt: Option<int>,
    columns: Columns,
    errorCategory: string,
    errorTrace: string,
    owner: nat,
    lease: Option<int>,
    generation: nat
  )

  datatype Slot = Slot(run: nat, kind: Kind, repository: Repository)

  datatype Stored = Stored(snapshot: string, sha: string, size: int, verifiedAt: int, expiresAt: int)

  datatype Db = Db(runs: map<nat, Run>, artifacts: map<Slot, Stored>)

  // ---------------------------------------------------------------- inputs

  datatype Evidence = Evidence(
    migration: int,
    encryptionKey: string,
    localSnapshot: string,
    remoteSnapshot: string,
    manifest: string,
    logical: Option<int>,
    stored: Option<int>,
    localExpires: int,
    remoteExpires: Option<int>
  )

  /** `requesterOk`: the requester, request id and address suit the trigger. */
  datatype CreateInput = CreateInput(id: nat, trigger: Trigger, key: string, requestedAt: int, requesterOk: bool)

  datatype TransitionInput = TransitionInput(
    run: nat,
    owner: nat,
    generation: nat,
    from: State,
    to: State,
    at: int,
    evidence: Option<Evidence>,
    errorCategory: string,
    errorTrace: string
  )

  datatype ArtifactInput = ArtifactInput(owner: nat, generation: nat, slot: Slot, values: Stored)

  predicate SafeOpaque(s: string) {
    1 <= |s| <= 128
    && forall i :: 0 <= i < |s| ==>
      'A' <= s[i] <= 'Z' || 'a' <= s[i] <= 'z' || '0' <= s[i] <= '9' || s[i] in "._:-"
  }

  predicate ValidCreate(input: CreateInput) {
    input.id != 0 && 8 <= |input.key| && SafeOpaque(input.key) && input.requestedAt != 0 && input.requesterOk
  }

  predicate ValidLease(owner: nat, lease: int) {
    owner != 0 && SECOND <= lease <= DAY
  }

  predicate ValidEvidence(e: Evidence) {
    && e.migration >= 1 && SafeOpaque(e.encryptionKey) && SafeOpaque(e.localSnapshot) && |e.manifest| == 32
    && e.localExpires != 0 && (e.remoteSnapshot != "" ==> SafeOpaque(e.remoteSnapshot))
    && (e.logical.Some? ==> e.logical.value >= 0) && (e.stored.Some? ==> e.stored.value >= 0)
    && (e.remoteExpires.Some? ==> e.remoteExpires.value != 0)
  }

  const ERROR_CATEGORIES := {
    "drain_timeout", "database_dump", "object_store_stop", "snapshot", "object_store_restart", "integrity",
    "remote_sync", "remote_unavailable", "retention", "lease_lost", "cancelled", "internal",
    "repository_integrity", "restore_database", "restore_object_store", "session_revocation",
    "readiness", "reference_check", "authorization_check", "timeout"
  }

  predicate SafeError(category: string, trace: string) {
    (category == "" || category in ERROR_CATEGORIES) && (trace == "" || (|trace| <= 64 && SafeOpaque(trace)))
  }

  predicate ValidArtifact(a: ArtifactInput) {
    && a.slot.run != 0 && a.owner != 0 && a.generation >= 1 && SafeOpaque(a.values.snapshot) && |a.values.sha| == 32
    && a.values.size >= 0 && a.values.verifiedAt != 0 && a.values.expiresAt != 0
  }

  /** The checks Transition makes before it opens a transaction. */
  function TransitionError(input: TransitionInput): Option<Error> {
    if input.run == 0 || input.owner == 0 || input.generation < 1 || !ValidTransition(input.from, input.to)
       || input.at == 0 || !SafeError(input.errorCategory, input.errorTrace) then Some(InvalidTransition)
    else if (input.to == Succeeded || input.to == Degraded)
        && (input.evidence.None? || !ValidEvidence(input.evidence.value)) then Some(Invalid)
    else if input.evidence.Some? && !ValidEvidence(input.evidence.value) then Some(Invalid)
    else if input.to != Failed && input.to != Degraded
        && (input.errorCategory != "" || input.errorTrace != "") then Some(Invalid)
    else if input.to == Degraded && input.errorCategory == "" then Some(Invalid)
    else None
  }

  // ---------------------------------------------------------------- transactions

  predicate Active(db: Db, id: nat) {
    id in db.runs && !Terminal(db.runs[id].state)
  }

  /** The caller holds the lease of exactly this generation, unexpired. */
  predicate Held(run: Run, owner: nat, generation: nat, now: int) {
    run.owner == owner && run.generation == generation && run.lease.Some? && run.lease.value > now
  }

  predicate SameRequest(run: Run, input: CreateInput) {
    run.trigger == input.trigger && run.key == input.key
  }

  function Queue(input: CreateInput): Run {
    Run(input.key, input.trigger, Queued, Micros(input.requestedAt), None, None, NO_COLUMNS, "", "", 0, None, 0)
  }

  /** The result says whether a row was inserted; a repeated request finds the run it made before. */
  function Create(db: Db, input: CreateInput): (Db, Result<bool>) {
    if !ValidCreate(input) then (db, Err(Invalid))
    else if exists id :: id in db.runs && SameRequest(db.runs[id], input) then (db, Ok(false))
    else if exists id :: id in db.runs && Active(db, id) then (db, Err(AlreadyQueued))
    else if input.id in db.runs then (db, Err(Unavailable))
    else (db.(runs := db.runs[input.id := Queue(input)]), Ok(true))
  }

  function Take(run: Run, owner: nat, lease: int, now: int): Run {
    run.(owner := owner, lease := Some(Micros(now + lease)), generation := run.generation + 1,
         startedAt := if run.startedAt.Some? then run.startedAt else Some(now))
  }

  function Claim(db: Db, id: nat, owner: nat, lease: int, now: int): (Db, Result<Run>) {
    if id == 0 || !ValidLease(owner, lease) then (db, Err(Invalid))
    else if id !in db.runs then (db, Err(NotFound))
    else if Terminal(db.runs[id].state) then (db, Err(NoClaimableRun))
    else if db.runs[id].owner != 0 && db.runs[id].lease.Some?
        && db.runs[id].lease.value > now then (db, Err(ActiveClaim))
    else
      var run := Take(db.runs[id], owner, lease, now);
      (db.(runs := db.runs[id := run]), Ok(run))
  }

  function Renew(db: Db, id: nat, owner: nat, generation: nat, lease: int, now: int): (Db, Result<Run>) {
    if id == 0 || !ValidLease(owner, lease) || generation < 1 then (db, Err(Invalid))
    else if id !in db.runs then (db, Err(NotFound))
    else if !Held(db.runs[id], owner, generation, now) then (db, Err(StaleOwner))
    else if Terminal(db.runs[id].state) then (db, Err(StaleOwner))
    else
      var run := db.runs[id].(lease := Some(Micros(now + lease)));
      (db.(runs := db.runs[id := run]), Ok(run))
  }

  function Or<T>(update: Option<T>, previous: Option<T>): Option<T> {
    if update.Some? then update else previous
  }

  /** COALESCE, column by column. */
  function Filled(e: Option<Evidence>, c: Columns): Columns {
    if e.None? then c
    else
      var v := e.value;
      Columns(Some(v.migration), Some(v.encryptionKey), Some(v.localSnapshot),
              Or(if v.remoteSnapshot != "" then Some(v.remoteSnapshot) else None, c.remoteSnapshot),
              Some(v.manifest), Or(v.logical, c.logical), Or(v.stored, c.stored), Some(Micros(v.localExpires)),
              Or(if v.remoteExpires.Some? then Some(Micros(v.remoteExpires.value)) else None, c.remoteExpires))
  }

  function Moved(run: Run, input: TransitionInput): Run {
    run.(state := input.to,
         finishedAt := if Terminal(input.to) then Some(Micros(input.at)) else None,
         columns := Filled(input.evidence, run.columns),
         errorCategory := input.errorCategory,
         errorTrace := input.errorTrace,
         owner := if Terminal(input.to) then 0 else input.owner,
         lease := if Terminal(input.to) then None else run.lease)
  }

  function Transition(db: Db, input: TransitionInput, now: int): (Db, Result<Run>) {
    if TransitionError(input).Some? then (db, Err(TransitionError(input).value))
    else if input.run !in db.runs then (db, Err(NotFound))
    else if !Held(db.runs[input.run], input.owner, input.generation, now) then (db, Err(StaleOwner))
    else if db.runs[input.run].state != input.from then (db, Err(InvalidTransition))
    else
      var run := Moved(db.runs[input.run], input);
      (db.(runs := db.runs[input.run := run]), Ok(run))
  }

  function Rounded(v: Stored): Stored {
    v.(verifiedAt := Micros(v.verifiedAt), expiresAt := Micros(v.expiresAt))
  }

  function AddArtifact(db: Db, a: ArtifactInput, now: int): (Db, Result<()>) {
    if !ValidArtifact(a) then (db, Err(Invalid))
    else if a.slot.run !in db.runs then (db, Err(NotFound))
    else if !Held(db.runs[a.slot.run], a.owner, a.generation, now) then (db, Err(StaleOwner))
    else if a.slot !in db.artifacts then (db.(artifacts := db.artifacts[a.slot := Rounded(a.values)]), Ok(()))
    else if db.artifacts[a.slot] != Rounded(a.values) then (db, Err(Invalid))
    else (db, Ok(()))
  }

  // ---------------------------------------------------------------- histories

  datatype Op =
    | DoCreate(input: CreateInput)
    | DoClaim(id: nat, owner: nat, lease: int, now: int)
    | DoRenew(id: nat, owner: nat, generation: nat, lease: int, now: int)
    | DoTransition(move: TransitionInput, now: int)
    | DoAddArtifact(artifact: ArtifactInput, now: int)

  function Do(db: Db, op: Op): Db {
    match op
    case DoCreate(input) => Create(db, input).0
    case DoClaim(id, owner, lease, now) => Claim(db, id, owner, lease, now).0
    case DoRenew(id, owner, generation, lease, now) => Renew(db, id, owner, generation, lease, now).0
    case DoTransition(move, now) => Transition(db, move, now).0
    case DoAddArtifact(artifact, now) => AddArtifact(db, artifact, now).0
  }

  predicate Succeeds(db: Db, op: Op) {
    match op
    case DoCreate(input) => Create(db, input).1.Ok?
    case DoClaim(id, owner, lease, now) => Claim(db, id, owner, lease, now).1.Ok?
    case DoRenew(id, owner, generation, lease, now) => Renew(db, id, owner, generation, lease, now).1.Ok?
    case DoTransition(move, now) => Transition(db, move, now).1.Ok?
    case DoAddArtifact(artifact, now) => AddArtifact(db, artifact, now).1.Ok?
  }

  function DoAll(db: Db, ops: seq<Op>, n: nat): Db
    requires n <= |ops|
  {
    if n == 0 then db else Do(DoAll(db, ops, n - 1), ops[n - 1])
  }

  // ---------------------------------------------------------------- what every history keeps

  /** Owner and lease come and go together, and only an unfinished run has them. */
  predicate RowOk(run: Run) {
    && (run.owner == 0 <==> run.lease.None?)
    && (run.owner != 0 ==> run.generation >= 1 && !Terminal(run.state))
  }

  ghost predicate RowsOk(db: Db) {
    forall id :: id in db.runs ==> RowOk(db.runs[id])
  }

  ghost predicate OneActive(db: Db) {
    forall a, b :: Active(db, a) && Active(db, b) ==> a == b
  }

  predicate SameKey(a: Run, b: Run) {
    a.trigger == b.trigger && a.key == b.key
  }

  ghost predicate KeysUnique(db: Db) {
    forall a, b :: a in db.runs && b in db.runs && SameKey(db.runs[a], db.runs[b]) ==> a == b
  }

  ghost predicate Inv(db: Db) {
    RowsOk(db) && OneActive(db) && KeysUnique(db)
  }

  lemma {:induction false} CreateKeepsInv(db: Db, input: CreateInput)
    requires Inv(db)
    ensures Inv(Create(db, input).0)
  {
    var db' := Create(db, input).0;
    if db' != db {
      forall id | id in db.runs
        ensures !Active(db, id) && !SameRequest(db.runs[id], input)
      {
      }
      assert forall id :: id in db'.runs ==> id == input.id || (id in db.runs && db'.runs[id] == db.runs[id]);
    }
  }

  /** Replacing an unfinished run's row by a sound one of the same request keeps the invariant. */
  lemma {:induction false} ReplaceKeepsInv(db: Db, id: nat, run: Run)
    requires Inv(db) && Active(db, id) && RowOk(run)
    requires run.trigger == db.runs[id].trigger && run.key == db.runs[id].key
    ensures Inv(db.(runs := db.runs[id := run]))
  {
    var db' := db.(runs := db.runs[id := run]);
    assert forall a :: Active(db', a) ==> Active(db, a);
  }

  lemma {:induction false} DoKeepsInv(db: Db, op: Op)
    requires Inv(db)
    ensures Inv(Do(db, op))
  {
    match op
    case DoCreate(input) => CreateKeepsInv(db, input);
    case DoClaim(id, owner, lease, now) =>
      if Claim(db, id, owner, lease, now).1.Ok? {
        ReplaceKeepsInv(db, id, Take(db.runs[id], owner, lease, now));
      }
    case DoRenew(id, owner, generation, lease, now) =>
      if Renew(db, id, owner, generation, lease, now).1.Ok? {
        ReplaceKeepsInv(db, id, db.runs[id].(lease := Some(Micros(now + lease))));
      }
    case DoTransition(move, now) =>
      if Transition(db, move, now).1.Ok? {
        ReplaceKeepsInv(db, move.run, Moved(db.runs[move.run], move));
      }
    case DoAddArtifact(artifact, now) =>
      assert forall a :: Active(Do(db, op), a) ==> Active(db, a);
  }

  /** From an empty store, whatever the calls: at most one run is unfinished. */
  lemma {:induction false} AllHistoriesKeepInv(ops: seq<Op>, n: nat)
    requires n <= |ops|
    ensures Inv(DoAll(Db(map[], map[]), ops, n))
  {
    if n > 0 {
      AllHistoriesKeepInv(ops, n - 1);
      DoKeepsInv(DoAll(Db(map[], map[]), ops, n - 1), ops[n - 1]);
    }
  }

  // ---------------------------------------------------------------- fencing

  /**
   What one call can do to a run: the generation never falls and rises only by a claim; within a
   generation the owner never changes to another; the state stands still or moves along the table.
   */
  predicate RowEvolves(run: Run, run': Run) {
    && run.generation <= run'.generation
    && (run.generation == run'.generation ==> run'.owner == run.owner || run'.owner == 0)
    && run.key == run'.key && run.trigger == run'.trigger && run.requestedAt == run'.requestedAt
    && (run.startedAt.Some? ==> run'.startedAt == run.startedAt)
  }

  predicate StateStep(a: State, b: State) {
    a == b || ValidTransition(a, b)
  }

  lemma {:induction false} DoEvolves(db: Db, op: Op, id: nat)
    requires id in db.runs
    ensures id in Do(db, op).runs && RowEvolves(db.runs[id], Do(db, op).runs[id])
    ensures StateStep(db.runs[id].state, Do(db, op).runs[id].state)
    ensures Do(db, op).runs[id].generation <= db.runs[id].generation + 1
    ensures Do(db, op).runs[id].generation == db.runs[id].generation + 1 <==>
        op.DoClaim? && op.id == id && Succeeds(db, op)
  {
  }

  lemma {:induction false} HistoryEvolves(db: Db, ops: seq<Op>, m: nat, n: nat, id: nat)
    requires m <= n <= |ops| && id in DoAll(db, ops, m).runs
    ensures id in DoAll(db, ops, n).runs && RowEvolves(DoAll(db, ops, m).runs[id], DoAll(db, ops, n).runs[id])
    decreases n
  {
    if m < n {
      HistoryEvolves(db, ops, m, n - 1, id);
      DoEvolves(DoAll(db, ops, n - 1), ops[n - 1], id);
    }
  }

  /** The run and the lease generation a call carries. */
  predicate Carries(op: Op, id: nat, generation: nat) {
    match op
    case DoRenew(i, _, g, _, _) => i == id && g == generation
    case DoTransition(move, _) => move.run == id && move.generation == generation
    case DoAddArtifact(artifact, _) => artifact.slot.run == id && artifact.generation == generation
    case _ => false
  }

  /** The owner a call acts for, and the database time it sees. */
  predicate ActsFor(op: Op, owner: nat, now: int) {
    match op
    case DoCreate(_) => false
    case DoClaim(_, o, _, t) => o == owner && t == now
    case DoRenew(_, o, _, _, t) => o == owner && t == now
    case DoTransition(move, t) => move.owner == owner && t == now
    case DoAddArtifact(artifact, t) => artifact.owner == owner && t == now
  }

  /** Who may write: exactly the current generation's owner, while its lease lasts. */
  lemma {:induction false} OnlyTheHolderSucceeds(db: Db, op: Op, id: nat, generation: nat, owner: nat, now: int)
    requires Carries(op, id, generation) && ActsFor(op, owner, now)
    ensures Succeeds(db, op) ==> id in db.runs && Held(db.runs[id], owner, generation, now) && owner != 0
    ensures !Succeeds(db, op) ==> Do(db, op) == db
  {
  }

  /** What a run shows to the world: its row and its artifacts. */
  ghost predicate SameRun(db: Db, db': Db, id: nat) {
    && id in db'.runs && (id in db.runs ==> db'.runs[id] == db.runs[id])
    && (forall slot: Slot :: slot.run == id ==> (slot in db'.artifacts <==> slot in db.artifacts))
    && (forall slot: Slot :: slot.run == id && slot in db.artifacts && slot in db'.artifacts ==>
        db'.artifacts[slot] == db.artifacts[slot])
  }

  /** Mutual exclusion: while a lease lasts, nobody but its owner changes the run, not even by claiming it. */
  lemma {:induction false} AnUnexpiredLeaseExcludesOthers(db: Db, op: Op, id: nat, owner: nat, now: int)
    requires id in db.runs && db.runs[id].owner != 0 && db.runs[id].lease.Some? && db.runs[id].lease.value > now
    requires ActsFor(op, owner, now) && owner != db.runs[id].owner
    ensures SameRun(db, Do(db, op), id)
  {
  }

  /**
   Fencing: once a claim has raised the generation above g, no later call carrying g or less
   succeeds or changes anything, whatever happens in between.
   */
  lemma {:induction false} StaleGenerationsNeverSucceed(db: Db, ops: seq<Op>, m: nat, n: nat, id: nat, generation: nat)
    requires m <= n < |ops| && id in DoAll(db, ops, m).runs
    requires DoAll(db, ops, m).runs[id].generation > generation && Carries(ops[n], id, generation)
    ensures !Succeeds(DoAll(db, ops, n), ops[n]) && DoAll(db, ops, n + 1) == DoAll(db, ops, n)
  {
    HistoryEvolves(db, ops, m, n, id);
  }

  /** Two successful claims of one run get different generations, the later one the higher. */
  lemma {:induction false} ClaimsStrictlyIncrease(db: Db, ops: seq<Op>, m: nat, n: nat)
    requires m < n < |ops| && ops[m].DoClaim? && ops[n].DoClaim? && ops[m].id == ops[n].id
    requires Succeeds(DoAll(db, ops, m), ops[m]) && Succeeds(DoAll(db, ops, n), ops[n])
    ensures
      var id := ops[m].id;
      && id in DoAll(db, ops, m + 1).runs && id in DoAll(db, ops, n + 1).runs
      && DoAll(db, ops, m + 1).runs[id].generation < DoAll(db, ops, n + 1).runs[id].generation
      && DoAll(db, ops, m + 1).runs[id].owner == ops[m].owner && DoAll(db, ops, n + 1).runs[id].owner == ops[n].owner
  {
    var id := ops[m].id;
    DoEvolves(DoAll(db, ops, m), ops[m], id);
    HistoryEvolves(db, ops, m + 1, n, id);
    DoEvolves(DoAll(db, ops, n), ops[n], id);
  }

  /** One generation, one owner: whoever writes under generation g at two moments is the same owner. */
  lemma {:induction false} OneOwnerPerGeneration(db: Db, ops: seq<Op>, m: nat, n: nat, id: nat)
    requires m <= n <= |ops| && id in DoAll(db, ops, m).runs && id in DoAll(db, ops, n).runs
    requires DoAll(db, ops, m).runs[id].generation == DoAll(db, ops, n).runs[id].generation
    requires DoAll(db, ops, n).runs[id].owner != 0
    ensures DoAll(db, ops, m).runs[id].owner == DoAll(db, ops, n).runs[id].owner
  {
    HistoryEvolves(db, ops, m, n, id);
  }

  // ---------------------------------------------------------------- states and artifacts over a history

  /** A list of states in which every next one is a successor of the one before. */
  ghost predicate Path(states: seq<State>) {
    forall i, j :: 0 <= i < j < |states| && j == i + 1 ==> ValidTransition(states[i], states[j])
  }

  /** The states a run shows after the calls from m to n, without repetitions. */
  function StatesSeen(db: Db, ops: seq<Op>, m: nat, n: nat, id: nat): (states: seq<State>)
    requires m <= n <= |ops|
    decreases n
  {
    var now := DoAll(db, ops, n).runs;
    var shown := if id in now then [now[id].state] else [];
    if m == n then shown
    else
      var earlier := StatesSeen(db, ops, m, n - 1, id);
      if earlier != [] && shown == [earlier[|earlier| - 1]] then earlier else earlier + shown
  }

  /** The states seen in any stretch of any history form a path in the table, from its start to its end. */
  lemma {:induction false} StatesFormAPath(db: Db, ops: seq<Op>, m: nat, n: nat, id: nat)
    requires m <= n <= |ops| && id in DoAll(db, ops, m).runs
    ensures id in DoAll(db, ops, n).runs
    ensures
      var states := StatesSeen(db, ops, m, n, id);
      && states != [] && Path(states)
      && states[0] == DoAll(db, ops, m).runs[id].state && states[|states| - 1] == DoAll(db, ops, n).runs[id].state
    decreases n
  {
    if m < n {
      StatesFormAPath(db, ops, m, n - 1, id);
      DoEvolves(DoAll(db, ops, n - 1), ops[n - 1], id);
      var earlier, next := StatesSeen(db, ops, m, n - 1, id), DoAll(db, ops, n).runs[id].state;
      PathExtends(earlier, next);
    }
  }

  lemma {:induction false} PathExtends(states: seq<State>, next: State)
    requires states != [] && Path(states)
    ensures ValidTransition(states[|states| - 1], next) ==> Path(states + [next])
  {
  }

  /** A finished run's row never changes again. */
  lemma {:induction false} FinishedIsFinal(db: Db, ops: seq<Op>, m: nat, n: nat, id: nat)
    requires m <= n <= |ops| && Inv(DoAll(db, ops, m))
    requires id in DoAll(db, ops, m).runs && Terminal(DoAll(db, ops, m).runs[id].state)
    ensures Inv(DoAll(db, ops, n)) && id in DoAll(db, ops, n).runs
        && DoAll(db, ops, n).runs[id] == DoAll(db, ops, m).runs[id]
    decreases n
  {
    if m < n {
      FinishedIsFinal(db, ops, m, n - 1, id);
      DoKeepsInv(DoAll(db, ops, n - 1), ops[n - 1]);
      FinishedStays(DoAll(db, ops, n - 1), ops[n - 1], id);
    }
  }

  lemma {:induction false} FinishedStays(db: Db, op: Op, id: nat)
    requires RowsOk(db) && id in db.runs && Terminal(db.runs[id].state)
    ensures id in Do(db, op).runs && Do(db, op).runs[id] == db.runs[id]
  {
    assert db.runs[id].owner == 0 && db.runs[id].lease == None;
  }

  /** An artifact row, once written, is never rewritten or removed. */
  lemma {:induction false} ArtifactsAreImmutable(db: Db, ops: seq<Op>, m: nat, n: nat, slot: Slot)
    requires m <= n <= |ops| && slot in DoAll(db, ops, m).artifacts
    ensures slot in DoAll(db, ops, n).artifacts
        && DoAll(db, ops, n).artifacts[slot] == DoAll(db, ops, m).artifacts[slot]
    decreases n
  {
    if m < n {
      ArtifactsAreImmutable(db, ops, m, n - 1, slot);
    }
  }

  /** A repeated request never makes a second run. */
  lemma {:induction false} CreateIsIdempotent(db: Db, ops: seq<Op>, n: nat, input: CreateInput, id: nat)
    requires n <= |ops| && id in db.runs && SameRequest(db.runs[id], input) && ValidCreate(input)
    ensures Create(DoAll(db, ops, n), input) == (DoAll(db, ops, n), Ok(false))
  {
    HistoryEvolves(db, ops, 0, n, id);
    assert SameRequest(DoAll(db, ops, n).runs[id], input);
  }
}
