/**
 What the store's transactions mean for their callers: when each succeeds, what it leaves, and how
 long a lease lasts. Times are in nanoseconds.
 */
module BackupLaws {
  import opened Common
  import opened BackupModel
  import opened BackupRuns

  // ---------------------------------------------------------------- the table of states

  /** Where a run can go from each state: one step forward, or failure; the last steps end it. */
  lemma {:induction false} TableMeans(a: State, b: State)
    ensures ValidTransition(a, b) <==> (a, b) in {
      (Queued, Draining), (Draining, Snapshotting), (Snapshotting, Encrypting), (Encrypting, Verifying),
      (Verifying, Syncing), (Verifying, Succeeded), (Syncing, Succeeded), (Syncing, Degraded),
      (Queued, Failed), (Draining, Failed), (Snapshotting, Failed), (Encrypting, Failed), (Verifying, Failed),
      (Syncing, Failed)}
    ensures Terminal(a) <==> a in {Succeeded, Degraded, Failed}
  {
  }

  // ---------------------------------------------------------------- claims and leases

  /** A lease of one second to one day for somebody. */
  predicate ProperLease(owner: nat, lease: int) {
    owner != 0 && 1_000_000_000 <= lease <= 86_400_000_000_000
  }

  /** Exactly when a claim succeeds: an unfinished run that nobody holds any more. */
  lemma {:induction false} ClaimCondition(db: Db, id: nat, owner: nat, lease: int, now: int)
    ensures
      Claim(db, id, owner, lease, now).1.Ok? <==>
        && id != 0 && ProperLease(owner, lease) && id in db.runs && db.runs[id].state !in {Succeeded, Degraded, Failed}
        && (db.runs[id].owner == 0 || db.runs[id].lease.None? || db.runs[id].lease.value <= now)
    ensures Claim(db, id, owner, lease, now).1.Ok? ==>
              var (db', r) := Claim(db, id, owner, lease, now);
              && db' == db.(runs := db.runs[id := r.value])
              && r.value == db.runs[id].(owner := owner, lease := r.value.lease, startedAt := r.value.startedAt,
                                         generation := db.runs[id].generation + 1)
              && r.value.startedAt == (if db.runs[id].startedAt.Some? then db.runs[id].startedAt else Some(now))
    ensures Claim(db, id, owner, lease, now).1.Err? ==> Claim(db, id, owner, lease, now).0 == db
  {
  }

  /** A lease written to the microsecond lasts, but for that microsecond, as long as it was asked for. */
  lemma {:induction false} LeaseLasts(end: int, t: int)
    ensures t + 1000 <= end ==> Micros(end) > t
    ensures t >= end ==> Micros(end) <= t
    ensures Micros(end) % 1000 == 0
  {
  }

  /**
   What a claim is worth: until the lease ends its owner can renew under the claimed generation, and
   nobody can claim the run; once it has ended, anybody can and the owner cannot renew.
   */
  lemma {:induction false} ClaimLasts(db: Db, id: nat, owner: nat, lease: int, now: int, t: int, other: nat, l: int)
    requires Claim(db, id, owner, lease, now).1.Ok?
    ensures
      var (db', r) := Claim(db, id, owner, lease, now);
      && (t + 1000 <= now + lease && ProperLease(owner, l) ==> Renew(db', id, owner, r.value.generation, l, t).1.Ok?)
      && (t + 1000 <= now + lease && ProperLease(other, l) ==> Claim(db', id, other, l, t).1 == Err(ActiveClaim))
      && (t >= now + lease ==> Renew(db', id, owner, r.value.generation, l, t).1.Err?)
      && (t >= now + lease && ProperLease(other, l) ==> Claim(db', id, other, l, t).1.Ok?)
  {
    LeaseLasts(now + lease, t);
  }

  /** The same for a renewal, and what a renewal leaves alone. */
  lemma {:induction false} RenewalLasts(db: Db, id: nat, owner: nat, generation: nat, lease: int, now: int, t: int,
                                        other: nat, l: int)
    requires Renew(db, id, owner, generation, lease, now).1.Ok?
    ensures
      var (db', r) := Renew(db, id, owner, generation, lease, now);
      && id in db.runs && db' == db.(runs := db.runs[id := r.value])
      && r.value == db.runs[id].(lease := r.value.lease)
      && (t + 1000 <= now + lease && ProperLease(owner, l) ==> Renew(db', id, owner, generation, l, t).1.Ok?)
      && (t + 1000 <= now + lease && ProperLease(other, l) ==> Claim(db', id, other, l, t).1 == Err(ActiveClaim))
      && (t >= now + lease ==> Renew(db', id, owner, generation, l, t).1.Err?)
      && (t >= now + lease && ProperLease(other, l) ==> Claim(db', id, other, l, t).1.Ok?)
  {
    LeaseLasts(now + lease, t);
  }

  /** The row belongs to this owner and generation, and the lease has not passed. */
  predicate Holds(db: Db, id: nat, owner: nat, generation: nat, now: int) {
    && id in db.runs && db.runs[id].owner == owner && db.runs[id].generation == generation
    && db.runs[id].lease.Some? && db.runs[id].lease.value > now
  }

  /** Exactly when a renewal succeeds. */
  lemma {:induction false} RenewalCondition(db: Db, id: nat, owner: nat, generation: nat, lease: int, now: int)
    ensures
      Renew(db, id, owner, generation, lease, now).1.Ok? <==>
        && id != 0 && generation >= 1 && ProperLease(owner, lease) && Holds(db, id, owner, generation, now)
        && db.runs[id].state !in {Succeeded, Degraded, Failed}
    ensures Renew(db, id, owner, generation, lease, now).1.Err? ==> Renew(db, id, owner, generation, lease, now).0 == db
  {
  }

  // ---------------------------------------------------------------- transitions

  /** What a caller must bring for a transition, whatever the row says. */
  predicate Acceptable(input: TransitionInput) {
    && input.run != 0 && input.owner != 0 && input.generation >= 1 && input.at != 0
    && ValidTransition(input.from, input.to) && SafeError(input.errorCategory, input.errorTrace)
    && (input.to in {Succeeded, Degraded} ==> input.evidence.Some?)
    && (input.evidence.Some? ==> ValidEvidence(input.evidence.value))
    && (input.errorCategory != "" || input.errorTrace != "" ==> input.to in {Failed, Degraded})
    && (input.to == Degraded ==> input.errorCategory != "")
  }

  /** Exactly when a transition succeeds. */
  lemma {:induction false} TransitionCondition(db: Db, input: TransitionInput, now: int)
    ensures
      Transition(db, input, now).1.Ok? <==>
        && Acceptable(input) && Holds(db, input.run, input.owner, input.generation, now)
        && db.runs[input.run].state == input.from
    ensures Transition(db, input, now).1.Err? ==> Transition(db, input, now).0 == db
  {
  }

  /** What a transition leaves: the new state, its error, the evidence; the end of the run frees it. */
  lemma {:induction false} TransitionLeaves(db: Db, input: TransitionInput, now: int)
    requires Transition(db, input, now).1.Ok?
    ensures
      var (db', r) := Transition(db, input, now);
      var before, run := db.runs[input.run], r.value;
      && db' == db.(runs := db.runs[input.run := run])
      && run == before.(state := input.to, finishedAt := run.finishedAt, columns := run.columns,
                        errorCategory := input.errorCategory, errorTrace := input.errorTrace,
                        owner := run.owner, lease := run.lease)
      && (if input.to in {Succeeded, Degraded, Failed}
          then run.owner == 0 && run.lease.None? && run.finishedAt == Some(Micros(input.at))
          else run.owner == before.owner && run.lease == before.lease && run.finishedAt.None?)
      && Shows(run.columns, before.columns, input.evidence)
  {
  }

  /** Evidence overwrites what it names and leaves the rest. */
  predicate Shows(c: Columns, before: Columns, evidence: Option<Evidence>) {
    match evidence
    case None => c == before
    case Some(e) =>
      && c.migration == Some(e.migration) && c.encryptionKey == Some(e.encryptionKey)
      && c.localSnapshot == Some(e.localSnapshot) && c.manifest == Some(e.manifest)
      && c.localExpires == Some(Micros(e.localExpires))
      && c.remoteSnapshot == (if e.remoteSnapshot == "" then before.remoteSnapshot else Some(e.remoteSnapshot))
      && c.logical == (if e.logical.None? then before.logical else e.logical)
      && c.stored == (if e.stored.None? then before.stored else e.stored)
      && c.remoteExpires
         == (if e.remoteExpires.None? then before.remoteExpires else Some(Micros(e.remoteExpires.value)))
  }

  // ---------------------------------------------------------------- artifacts and requests

  /** Exactly when an artifact is accepted, and what is then stored. */
  lemma {:induction false} ArtifactMeans(db: Db, a: ArtifactInput, now: int)
    ensures
      var v := a.values;
      var row := Stored(v.snapshot, v.sha, v.size, Micros(v.verifiedAt), Micros(v.expiresAt));
      && (AddArtifact(db, a, now).1.Ok? <==>
            && ValidArtifact(a) && Holds(db, a.slot.run, a.owner, a.generation, now)
            && (a.slot in db.artifacts ==> db.artifacts[a.slot] == row))
      && (AddArtifact(db, a, now).1.Ok? ==>
            AddArtifact(db, a, now).0 == db.(artifacts := db.artifacts[a.slot := row]))
      && (AddArtifact(db, a, now).1.Err? ==> AddArtifact(db, a, now).0 == db)
  {
    if a.slot in db.artifacts {
      assert db.artifacts == db.artifacts[a.slot := db.artifacts[a.slot]];
    }
  }

  /** Exactly when a request makes a new run, and how that run starts. */
  lemma {:induction false} RequestMeans(db: Db, input: CreateInput)
    ensures
      Create(db, input).1 == Ok(true) <==>
        && ValidCreate(input) && input.id !in db.runs
        && forall id :: id in db.runs ==>
             && !(db.runs[id].trigger == input.trigger && db.runs[id].key == input.key)
             && db.runs[id].state in {Succeeded, Degraded, Failed}
    ensures Create(db, input).1 == Ok(true) ==>
              var db' := Create(db, input).0;
              && db' == db.(runs := db.runs[input.id := db'.runs[input.id]]) && input.id in db'.runs
              && var run := db'.runs[input.id];
                && run.trigger == input.trigger && run.key == input.key && run.state == Queued && run.generation == 0
                && run.requestedAt == Micros(input.requestedAt) && run.owner == 0 && run.lease.None?
                && run.startedAt.None? && run.finishedAt.None? && run.columns == NO_COLUMNS
                && run.errorCategory == "" && run.errorTrace == ""
    ensures Create(db, input).1 != Ok(true) ==> Create(db, input).0 == db
  {
    assert forall id :: Active(db, id) <==> id in db.runs && db.runs[id].state !in {Succeeded, Degraded, Failed};
  }
}
