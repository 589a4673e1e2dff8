/**
 The backup commands as a resumable workflow (cmd/backup/main.go). A process may die inside any
 call: `alive` turns false before or after the call's effect, and from then on no call has an
 effect, so what holds when a command returns holds wherever it was cut. Commits may be lost or go
 unreported, saves may land and still fail. The executor reads back what a snapshot holds.
 */
module BackupWorkflow {
  import opened Common
  import opened BackupModel
  import opened BackupLaws
  import opened BackupRuns
  import opened BackupStore
  import opened BackupState

  const LEASE := 3600 * SECOND

  // ---------------------------------------------------------------- steps that keep the invariant

  /** No artifact row disappears or changes. */
  ghost predicate Grows(db: Db, db': Db) {
    forall slot :: slot in db.artifacts ==> slot in db'.artifacts && db'.artifacts[slot] == db.artifacts[slot]
  }

  /** Renewing or claiming changes the lease only, and nothing of a finished run. */
  predicate LeaseOnly(d: Run, d': Run) {
    && d' == d.(owner := d'.owner, lease := d'.lease, generation := d'.generation, startedAt := d'.startedAt)
    && ((d'.generation == d.generation && d'.owner == d.owner) || d'.generation > d.generation)
    && (Terminal(d.state) ==> d' == d)
  }

  lemma {:induction false} LeaseKeepsSound(id: nat, db: Db, db': Db, d': Run, file: Option<File>, archive: Archive)
    requires Sound(id, db, file, archive) && Inv(db')
    requires db' == db.(runs := db.runs[id := d']) && LeaseOnly(db.runs[id], d')
    ensures Sound(id, db', file, archive) && Grows(db, db')
  {
    var d := db.runs[id];
    if !Terminal(d.state) {
      forall slot | slot in db'.artifacts && slot.run == id
        ensures RowFits(db'.artifacts, slot, d', file, archive)
      {
        assert RowFits(db.artifacts, slot, d, file, archive);
      }
    }
  }

  /** A new file keeps every verification time that rows may depend on. */
  predicate KeepsStamps(file: Option<File>, f: File) {
    file.Some? ==>
      && (file.value.localVerifiedAt != 0 ==> f.localVerifiedAt == file.value.localVerifiedAt)
      && (file.value.remoteVerifiedAt != 0 ==>
            f.remoteVerifiedAt == file.value.remoteVerifiedAt
                && f.evidence.remoteSnapshot == file.value.evidence.remoteSnapshot)
  }

  lemma {:induction false} SaveKeepsSound(id: nat, db: Db, file: Option<File>, f: File, archive: Archive)
    requires Sound(id, db, file, archive) && KeepsStamps(file, f)
    requires Trails(db.runs[id], Some(f)) && FileFits(db.runs[id], f, archive)
    ensures Sound(id, db, Some(f), archive)
  {
    var d := db.runs[id];
    if !Terminal(d.state) {
      forall slot | slot in db.artifacts && slot.run == id
        ensures RowFits(db.artifacts, slot, d, Some(f), archive)
      {
        assert RowFits(db.artifacts, slot, d, file, archive);
      }
    }
  }

  /** A forward transition from the state the file shows. */
  lemma {:induction false} MoveKeepsSound(id: nat, db: Db, db': Db, d': Run, file: Option<File>, archive: Archive)
    requires Sound(id, db, file, archive) && Inv(db') && db' == db.(runs := db.runs[id := d'])
    requires !Terminal(d'.state) && Trails(d', file) && ColumnsFit(id, d', archive)
        && (file.Some? ==> FileFits(d', file.value, archive))
    requires !Terminal(db.runs[id].state)
    requires Late(db.runs[id].state) ==> d'.columns == db.runs[id].columns
    requires d'.state == Verifying || d'.state == Syncing ==> Three(id, db.artifacts, Local)
    ensures Sound(id, db', file, archive) && Grows(db, db')
  {
    var d := db.runs[id];
    forall slot | slot in db'.artifacts && slot.run == id
      ensures RowFits(db'.artifacts, slot, d', file, archive)
    {
      assert RowFits(db.artifacts, slot, d, file, archive);
      StampedIsLate(d, file.value, slot.repository, archive);
    }
  }

  lemma {:induction false} StampedIsLate(d: Run, f: File, repository: Repository, archive: Archive)
    requires FileFits(d, f, archive) && VerifiedAt(f, repository) != 0
    ensures Late(d.state)
  {
  }

  /** The last transition asks only that the file show a predecessor of the final state. */
  lemma {:induction false} EndKeepsSound(id: nat, db: Db, db': Db, d': Run, file: Option<File>, archive: Archive)
    requires Sound(id, db, file, archive) && Inv(db') && db' == db.(runs := db.runs[id := d'])
    requires Terminal(d'.state) && Trails(d', file)
    ensures Sound(id, db', file, archive) && Grows(db, db')
  {
  }

  lemma {:induction false} RowKeepsSound(id: nat, db: Db, db': Db, slot: Slot, f: File, archive: Archive)
    requires Sound(id, db, Some(f), archive) && Inv(db')
    requires slot.run == id && slot.kind != RecoveryReport && slot !in db.artifacts
        && VerifiedAt(f, slot.repository) != 0
    requires
      var d := db.runs[id];
      d.columns.localSnapshot.Some? && d.columns.localExpires.Some?
      && db' == db.(artifacts := db.artifacts[slot := Expected(d, f, archive, slot.kind, slot.repository)])
    ensures Sound(id, db', Some(f), archive) && Grows(db, db')
  {
    var d := db.runs[id];
    if !Terminal(d.state) {
      forall s | s in db'.artifacts && s.run == id
        ensures RowFits(db'.artifacts, s, d, Some(f), archive)
      {
        if s != slot {
          assert RowFits(db.artifacts, s, d, Some(f), archive);
        }
      }
    }
  }

  // ---------------------------------------------------------------- in-memory values

  /** The artifact a command writes, from its in-memory state. */
  function Entry(f: File, kind: Kind, repository: Repository, verifiedAt: int, expiresAt: int): Stored {
    var snapshot := if repository == Remote then f.evidence.remoteSnapshot else f.evidence.localSnapshot;
    match kind
    case DatabaseDump => Stored(snapshot, f.dumpSha, f.dumpBytes, verifiedAt, expiresAt)
    case ObjectSnapshot => Stored(snapshot, f.objectSnapshot, f.referenced, verifiedAt, expiresAt)
    case _ => Stored(snapshot, f.evidence.manifest, f.manifestBytes, verifiedAt, expiresAt)
  }

  /** The remote verification time and expiry Sync settles on. */
  function RemoteStamps(f: File, now: int): (int, Option<int>) {
    if f.remoteVerifiedAt != 0 then (f.remoteVerifiedAt, f.evidence.remoteExpires)
    else if f.evidence.remoteExpires.None? then (Micros(now), Some(Micros(now) + REMOTE_LIFETIME))
    else (Micros(f.evidence.remoteExpires.value - REMOTE_LIFETIME), f.evidence.remoteExpires)
  }

  /** A reading of a clock, later than the zero time by a microsecond or more. */
  type Instant = t: int | t >= 1000 witness 1000

  /** A well-formed snapshot identifier. */
  type SnapshotId = s: string | SafeOpaque(s) witness "a"

  /** What a finished snapshot of the executor reports, and when. */
  datatype Taken = Taken(migration: int, snapshot: string, key: string, stored: int, at: Instant)

  /** How the executor's copy to the remote repository ends. */
  datatype Copying = Copied(snapshot: SnapshotId) | CopyFailed | CopyCancelled

  /** A command line, with what the outside world answers to it. */
  datatype Command =
    | Prepare
    | Snapshot(taken: Option<Taken>)
    | Verify(readable: bool, now: Instant)
    | Sync(configured: bool, copying: Copying, now: Instant)
    | Finish
    | Fail(category: string)

  datatype Resumption = Resumed(file: File) | Ended(state: State) | NoFile | Unreachable | Rejected

  /** A call of AddArtifact: the tables it met, what it brought and when. */
  datatype Call = Call(db: Db, input: ArtifactInput, now: int)

  /** The store refused the artifact because the row is there with other values, or for its form. */
  predicate Refused(c: Call) {
    AddArtifact(c.db, c.input, c.now).1 == Err(Invalid)
  }

  // ---------------------------------------------------------------- the commands

  class Workflow {
    const id: nat
    const store: Store
    const archive: Archive
    var file: Option<File>
    var alive: bool
    /** Set while nothing goes wrong: no death, every write lands and is reported, leases are outlived. */
    var calm: bool
    ghost var calls: seq<Call>

    constructor (id: nat, store: Store, archive: Archive, calm: bool)
      requires Inv(store.db) && id != 0 && id in store.db.runs && store.db.runs[id].state == Queued
          && store.db.runs[id].columns == NO_COLUMNS
      requires forall slot :: slot in store.db.artifacts ==> slot.run != id
      ensures this.id == id && this.store == store && this.archive == archive && file == None && calls == [] && Good()
      ensures alive && this.calm == calm
    {
      this.id, this.store, this.archive, file, alive, calls := id, store, archive, None, true, [];
      this.calm := calm;
    }

    ghost predicate Good()
      reads this, store
    {
      Sound(id, store.db, file, archive) && forall c :: c in calls ==> !Refused(c)
    }

    function Row(): Run
      requires id in store.db.runs
      reads this, store
    {
      store.db.runs[id]
    }

    // -------------------------------------------------------------- what can go wrong

    method Mishap() returns (b: bool)
      ensures calm ==> !b
    {
      b := *;
      b := b && !calm;
    }

    /** How a write to disk ends: it may be lost, it may be reported as failed, the process may die. */
    method WriteFate() returns (lost: bool, muted: bool, dies: bool)
      ensures calm ==> !lost && !muted && !dies
    {
      lost, muted, dies := *, *, *;
      if calm {
        lost, muted, dies := false, false, false;
      }
    }

    method CommitFate() returns (commit: Commit, dies: bool)
      ensures calm ==> commit == Reported && !dies
    {
      commit, dies := *, *;
      if calm {
        commit, dies := Reported, false;
      }
    }

    /** The database's clock; in calm, a lease on the run has not passed. */
    method InTime() returns (now: int)
      requires id in store.db.runs
      ensures calm && Row().lease.Some? ==> now < Row().lease.value
    {
      now := *;
      var run := store.db.runs[id];
      if calm && run.lease.Some? && now >= run.lease.value {
        now := run.lease.value - 1;
      }
    }

    /** The database's clock; in calm, a lease on the run has passed. */
    method AfterLease() returns (now: int)
      requires id in store.db.runs
      ensures calm && Row().lease.Some? ==> now >= Row().lease.value
    {
      now := *;
      var run := store.db.runs[id];
      if calm && run.lease.Some? && now < run.lease.value {
        now := run.lease.value;
      }
    }

    method NewOwner() returns (owner: nat)
      ensures calm ==> owner != 0
    {
      owner := *;
      if calm && owner == 0 {
        owner := 1;
      }
    }

    /** Rename, then sync the directory: an error after the rename still leaves the new file. */
    method Save(f: File) returns (ok: bool)
      requires Good() && KeepsStamps(file, f) && Trails(Row(), Some(f)) && FileFits(Row(), f, archive)
      modifies this`file, this`alive
      ensures Good() && (file == old(file) || file == Some(f))
      ensures ok ==> file == Some(f) && alive && old(alive)
      ensures calm && old(alive) ==> ok
    {
      var lost, muted, dies := WriteFate();
      if !alive {
        return false;
      }
      alive := !dies;
      if !lost {
        SaveKeepsSound(id, store.db, file, f, archive);
        file := Some(f);
      }
      return !lost && !muted && alive;
    }

    method Delete() returns (ok: bool)
      requires Good() && Terminal(Row().state)
      modifies this`file, this`alive
      ensures Good() && (ok ==> file == None)
      ensures calm && old(alive) ==> ok && alive
    {
      var lost, muted, dies := WriteFate();
      if !alive {
        return false;
      }
      alive := !dies;
      if !lost {
        file := None;
      }
      return !lost && !muted && alive;
    }

    method Renew(owner: nat, generation: nat) returns (r: Option<Run>)
      requires Good()
      modifies this`alive, store
      ensures Good() && LeaseOnly(old(Row()), Row()) && store.db.artifacts == old(store.db.artifacts)
      ensures r.Some? ==> alive && old(alive) && r.value == Row() && Row().owner != 0 && !Terminal(Row().state)
      ensures calm && old(alive) ==> alive && (HeldBy(old(Row()), owner, generation) ==> r.Some?)
    {
      var commit, dies := CommitFate();
      var now := InTime();
      if !alive {
        return None;
      }
      alive := !dies;
      ghost var before := store.db;
      var result := store.Renew(id, owner, generation, LEASE, now, commit);
      if store.db != before {
        LeaseKeepsSound(id, before, store.db, store.db.runs[id], file, archive);
      }
      if result.Err? || !alive {
        return None;
      }
      return Some(result.value);
    }

    method Claim(owner: nat) returns (r: Option<Run>)
      requires Good()
      modifies this`alive, store
      ensures Good() && LeaseOnly(old(Row()), Row()) && store.db.artifacts == old(store.db.artifacts)
      ensures r.Some? ==> alive && old(alive) && r.value == Row() && Row().owner == owner != 0 && !Terminal(Row().state)
      ensures calm && old(alive) ==> alive && (owner != 0 && !Terminal(old(Row()).state) ==> r.Some?)
    {
      var later: int, reachable: bool := *, *;
      var commit, dies := CommitFate();
      var now := AfterLease();
      if !alive {
        return None;
      }
      alive := !dies;
      ghost var before := store.db;
      var result := store.ClaimById(id, owner, LEASE, now, commit, later, reachable);
      if store.db != before {
        LeaseKeepsSound(id, before, store.db, store.db.runs[id], file, archive);
      }
      if result.Err? || !alive {
        return None;
      }
      return Some(result.value);
    }

    /** A transition that is not the last; it asks for what the new state promises. */
    method Move(f: File, to: State, evidence: Option<Evidence>, at: Instant) returns (ok: bool)
      requires Good() && MoveAllowed(id, Row(), store.db.artifacts, file, f, to, evidence, archive)
      modifies this`alive, store
      ensures Good() && store.db.artifacts == old(store.db.artifacts)
      ensures ok ==> alive && old(alive) && Moves(old(Row()), Row(), f, to, evidence)
      ensures calm && old(alive) && Movable(old(Row()), f, to, evidence) ==> ok
    {
      var later: int, reachable: bool := *, *;
      var commit, dies := CommitFate();
      var now := InTime();
      if !alive {
        return false;
      }
      alive := !dies;
      ghost var before := store.db;
      var input := TransitionInput(id, f.owner, f.generation, f.state, to, at, evidence, "", "");
      TransitionCondition(before, input, now);
      var result := store.Transition(input, now, commit, later, reachable);
      if store.db != before {
        AllowedMoveKeepsSound(id, before, store.db, input, file, f, archive);
      }
      return result.Ok? && alive;
    }

    /** A final transition. */
    method End(f: File, to: State, evidence: Option<Evidence>, category: string) returns (ok: bool)
      requires Good() && Terminal(to) && file.Some? && file.value.state == f.state
      modifies this`alive, store
      ensures Good() && store.db.artifacts == old(store.db.artifacts)
      ensures ok ==> alive && old(alive) && Closed(old(Row()), Row(), f, to, evidence, category)
      ensures calm && old(alive) && Closable(old(Row()), f, to, evidence, category) ==> ok
    {
      var at: Instant, later: int, reachable: bool := *, *, *;
      var commit, dies := CommitFate();
      var now := InTime();
      if !alive {
        return false;
      }
      alive := !dies;
      ghost var before := store.db;
      var input := TransitionInput(id, f.owner, f.generation, f.state, to, at, evidence, category, "");
      TransitionCondition(before, input, now);
      var result := store.Transition(input, now, commit, later, reachable);
      if store.db != before {
        EndKeepsSound(id, before, store.db, store.db.runs[id], file, archive);
      }
      ok := result.Ok? && alive;
      if ok {
        TransitionLeaves(before, input, now);
      }
    }

    method Lookup() returns (r: Option<State>)
      requires Good()
      ensures r.Some? ==> alive && r.value == Row().state
      ensures calm && alive ==> r.Some?
    {
      var fails := Mishap();
      return if alive && !fails then Some(store.db.runs[id].state) else None;
    }

    /**
     resume: reload, hold the lease again, repair the file from the durable row. It never rejects; of
     the row only the lease changes, and the file keeps what only it knows.
     */
    method Resume() returns (r: Resumption)
      requires Good()
      modifies this`file, this`alive, store
      ensures Good() && LeaseOnly(old(Row()), Row()) && store.db.artifacts == old(store.db.artifacts)
      ensures r != Rejected
      ensures r.Resumed? ==> alive && file == Some(r.file) && Ready(Row(), r.file, archive)
      ensures r.Resumed? ==> old(file).Some? && Repaired(old(file).value, r.file)
      ensures r.Ended? ==> Terminal(Row().state) && Row().state == r.state
      ensures calm && old(alive) ==>
                if Terminal(old(Row()).state) then r == Ended(old(Row()).state) && alive
                else old(file).Some? ==> r.Resumed?
    {
      var unreadable := Mishap();
      if file.None? || unreadable {
        var state := Lookup();
        return if state.Some? && Terminal(state.value) then Ended(state.value) else NoFile;
      }
      var f := file.value;
      var held, ended := Reacquire(f);
      if held.None? {
        return if ended.Some? then Ended(ended.value) else Unreachable;
      }
      r := Repair(held.value, f);
    }

    /** Renews the lease, or claims the run anew; a finished run loses its file. */
    method Reacquire(f: File) returns (held: Option<Run>, ended: Option<State>)
      requires Good() && file == Some(f)
      modifies this`file, this`alive, store
      ensures Good() && LeaseOnly(old(Row()), Row()) && store.db.artifacts == old(store.db.artifacts)
      ensures held.Some? ==> alive && held.value == Row() && Row().owner != 0 && file == Some(f)
      ensures ended.Some? ==> Terminal(Row().state) && Row().state == ended.value
      ensures calm && old(alive) ==>
                alive && (if Terminal(old(Row()).state) then held.None? && ended.Some? else held.Some?)
    {
      ended := None;
      held := Renew(f.owner, f.generation);
      if held.Some? {
        return;
      }
      var owner := NewOwner();
      held := Claim(owner);
      if held.Some? {
        return;
      }
      ended := CleanUp();
    }

    method CleanUp() returns (ended: Option<State>)
      requires Good()
      modifies this`file, this`alive
      ensures Good() && (ended.Some? ==> Terminal(Row().state) && Row().state == ended.value)
      ensures calm && old(alive) ==> alive && (Terminal(Row().state) ==> ended.Some?)
    {
      ended := Lookup();
      if ended.None? || !Terminal(ended.value) {
        return None;
      }
      var deleted := Delete();
      if !deleted {
        ended := None;
      }
    }

    method Repair(d: Run, f: File) returns (r: Resumption)
      requires Good() && alive && d == Row() && d.owner != 0 && file == Some(f)
      modifies this`file, this`alive
      ensures Good()
      ensures r != Rejected && !r.Ended?
      ensures r.Resumed? ==> alive && file == Some(r.file) && Ready(Row(), r.file, archive) && Repaired(f, r.file)
      ensures calm ==> r.Resumed?
    {
      ResumeNeverRejects(id, d, f, archive);
      var repaired := Reconciled(d, f);
      r := Rejected;
      if repaired.Some? {
        var saved := true;
        if repaired.value != f {
          saved := Save(repaired.value);
        }
        r := if saved then Resumed(repaired.value) else Unreachable;
      }
    }

    // -------------------------------------------------------------- artifacts

    /**
     addArtifacts: one row per kind. With the values the rows must have, no insert ever conflicts,
     however often it is repeated; on success the repository has its three rows.
     */
    method AddArtifacts(f: File, repository: Repository, verifiedAt: int, expiresAt: int) returns (ok: bool)
      requires Good() && file.Some? && Insertable(Row(), file.value, f, repository, verifiedAt, expiresAt, archive)
      modifies this`alive, this`calls, store
      ensures Good() && Grows(old(store.db), store.db) && store.db.runs == old(store.db.runs)
      ensures old(calls) <= calls
      ensures ok ==> alive && old(alive) && Three(id, store.db.artifacts, repository)
      ensures ok ==> |calls| == |old(calls)| + 3
      ensures calm && old(alive) && |f.dumpSha| == 32 && |f.objectSnapshot| == 32 ==> ok
    {
      if |f.dumpSha| != 32 || |f.objectSnapshot| != 32 {
        return false;
      }
      ok := AddOne(f, DatabaseDump, repository, verifiedAt, expiresAt);
      if !ok {
        return;
      }
      ghost var one := store.db;
      ok := AddOne(f, ObjectSnapshot, repository, verifiedAt, expiresAt);
      GrowsTransitive(old(store.db), one, store.db);
      if !ok {
        return;
      }
      ghost var two := store.db;
      ok := AddOne(f, Manifest, repository, verifiedAt, expiresAt);
      GrowsTransitive(old(store.db), two, store.db);
    }

    method AddOne(f: File, kind: Kind, repository: Repository, verifiedAt: int, expiresAt: int) returns (ok: bool)
      requires Good() && file.Some? && kind != RecoveryReport && |f.dumpSha| == 32 && |f.objectSnapshot| == 32
      requires Insertable(Row(), file.value, f, repository, verifiedAt, expiresAt, archive)
      modifies this`alive, this`calls, store
      ensures Good() && Grows(old(store.db), store.db) && store.db.runs == old(store.db.runs)
      ensures if calls == old(calls) then !ok && store.db == old(store.db)
              else Recorded(old(calls), calls, old(store.db),
                            InputFor(id, f, kind, repository, verifiedAt, expiresAt))
      ensures ok ==> alive && old(alive) && Slot(id, kind, repository) in store.db.artifacts
      ensures calm && old(alive) ==> ok
    {
      var commit, dies := CommitFate();
      var now := InTime();
      if !alive {
        return false;
      }
      alive := !dies;
      ghost var before := store.db;
      var input := InputFor(id, f, kind, repository, verifiedAt, expiresAt);
      RetryNeverConflicts(id, before, file.value, f, kind, repository, verifiedAt, expiresAt, now, archive);
      calls := calls + [Call(before, input, now)];
      var result := store.AddArtifact(input, now, commit);
      InsertKeepsSound(id, before, store.db, file.value, f, kind, repository, verifiedAt, expiresAt, now, archive);
      return result.Ok? && alive;
    }

    // -------------------------------------------------------------- prepare and snapshot

    /** Prepare: afterwards the run is draining, leased, and its file matches the row. */
    method Prepare() returns (ok: bool)
      requires Good()
      modifies this`file, this`alive, store
      ensures Good() && store.db.artifacts == old(store.db.artifacts)
      ensures ok ==> alive && Row().state == Draining && file.Some? && Ready(Row(), file.value, archive)
      ensures (calm && old(alive) && !Terminal(old(Row()).state)
               && (old(file).Some? ==> old(file).value.state == old(Row()).state == Draining)) ==>
                ok
    {
      ok := false;
      var unreadable := Mishap();
      if file.Some? {
        if !unreadable && file.value.state == Draining {
          var resumed := Resume();
          ok := resumed.Resumed? && resumed.file.state == Draining;
        }
      } else {
        ok := FirstClaim();
      }
    }

    method FirstClaim() returns (ok: bool)
      requires Good() && file.None?
      modifies this`file, this`alive, store
      ensures Good() && store.db.artifacts == old(store.db.artifacts)
      ensures ok ==> alive && Row().state == Draining && file.Some? && Ready(Row(), file.value, archive)
      ensures calm && old(alive) && !Terminal(old(Row()).state) ==> ok
    {
      var owner := NewOwner();
      var claimed := Claim(owner);
      if claimed.None? || (claimed.value.state != Queued && claimed.value.state != Draining) {
        return false;
      }
      var f := File(owner, claimed.value.generation, claimed.value.state, NO_EVIDENCE, "", "", 0, 0, 0, 0, 0, false,
          false, "");
      if f.state == Queued {
        var at := Clock();
        var moved := Move(f, Draining, None, at);
        if !moved {
          return false;
        }
        f := f.(state := Draining);
      }
      ok := Save(f);
    }

    /** The executor's snapshot: what it measured is what the snapshot holds. */
    method TakeSnapshot(taken: Option<Taken>) returns (e: Option<Evidence>)
      ensures e.Some? ==> taken.Some? && Fresh(id, e.value, archive)
                          && Names(Filled(Some(e.value), NO_COLUMNS), taken.value, archive(taken.value.snapshot))
      ensures taken.Some? && Usable(id, taken.value, archive(taken.value.snapshot)) ==>
                e.Some? && ValidEvidence(e.value)
    {
      if taken.None? {
        return None;
      }
      var t := taken.value;
      var k := archive(t.snapshot);
      if k.batch != id || k.migration != t.migration || t.migration < 1 || t.key == "" || t.snapshot == ""
         || t.stored < 0 {
        return None;
      }
      return Some(Evidence(t.migration, t.key, t.snapshot, "", k.manifestSha, Some(k.dumpBytes + k.referenced),
          Some(t.stored), t.at + LOCAL_LIFETIME, None));
    }

    /** Snapshot: afterwards the run is encrypting, and its row names the snapshot and what it holds. */
    method Snapshot(taken: Option<Taken>) returns (ok: bool)
      requires Good()
      modifies this`file, this`alive, store
      ensures Good() && store.db.artifacts == old(store.db.artifacts)
      ensures ok ==> alive && Row().state == Encrypting && file.Some? && file.value.state == Encrypting
                     && HeldBy(Row(), file.value.owner, file.value.generation)
      ensures ok && old(Row()).state == Encrypting ==> Row().columns == old(Row()).columns
      ensures ok && old(Row()).state != Encrypting ==>
                taken.Some? && Names(Row().columns, taken.value, archive(taken.value.snapshot))
                && old(Row()).state in {Draining, Snapshotting}
      ensures (calm && old(alive) && old(file).Some? && old(Row()).state in {Draining, Snapshotting, Encrypting}
               && (old(Row()).state != Encrypting ==>
                     taken.Some? && Usable(id, taken.value, archive(taken.value.snapshot)))) ==>
                ok
    {
      var resumed := Resume();
      if !resumed.Resumed? {
        return false;
      }
      var f := resumed.file;
      if f.state == Encrypting {
        return true;
      }
      if f.state == Draining {
        var moved := Advance(f, Snapshotting);
        if !moved {
          return false;
        }
        f := Advanced(f, Snapshotting);
      }
      if f.state != Snapshotting {
        return false;
      }
      ok := Encrypt(f, taken);
    }

    /** A transition followed by saving the file with the new state. */
    method Advance(f: File, to: State) returns (ok: bool)
      requires Good() && file == Some(f) && Ready(Row(), f, archive)
      requires (f.state == Draining && to == Snapshotting) || (f.state == Verifying && to == Syncing)
      modifies this`file, this`alive, store
      ensures Good() && store.db.artifacts == old(store.db.artifacts)
      ensures ok ==> alive && file == Some(Advanced(f, to)) && Ready(Row(), Advanced(f, to), archive)
      ensures ok ==> Row().columns == old(Row()).columns
      ensures calm && old(alive) ==> ok
    {
      var at := Clock();
      ok := Move(f, to, None, at);
      if ok {
        ok := Save(Advanced(f, to));
      }
    }

    method Encrypt(f: File, taken: Option<Taken>) returns (ok: bool)
      requires Good() && file == Some(f) && Ready(Row(), f, archive) && f.state == Snapshotting
      modifies this`file, this`alive, store
      ensures Good() && store.db.artifacts == old(store.db.artifacts)
      ensures ok ==> alive && Row().state == Encrypting && file.Some? && file.value.state == Encrypting
                     && HeldBy(Row(), file.value.owner, file.value.generation)
      ensures ok ==> taken.Some? && Names(Row().columns, taken.value, archive(taken.value.snapshot))
      ensures calm && old(alive) && taken.Some? && Usable(id, taken.value, archive(taken.value.snapshot)) ==> ok
    {
      var evidence := TakeSnapshot(taken);
      if evidence.None? {
        return false;
      }
      var k := archive(evidence.value.localSnapshot);
      var g := f.(evidence := evidence.value, objectSnapshot := k.objectSnapshot, dumpSha := k.dumpSha,
          dumpBytes := k.dumpBytes, referenced := k.referenced, manifestBytes := k.manifestBytes);
      var at := Clock();
      ok := Move(g, Encrypting, evidence, at);
      if ok {
        EncryptedFits(old(Row()), Row(), f, g, archive);
        ok := Save(g.(state := Encrypting));
      }
    }

    method Clock() returns (t: Instant)
    {
      t := *;
    }

    // -------------------------------------------------------------- verify and sync

    /** The executor reads the snapshot back, or fails. */
    method ReadBack(snapshot: string, manifest: string, readable: bool) returns (k: Option<Content>)
      ensures k.Some? ==> k.value == archive(snapshot)
      ensures k.Some? <==> readable && archive(snapshot).manifestSha == manifest
    {
      return if readable && archive(snapshot).manifestSha == manifest then Some(archive(snapshot)) else None;
    }

    /** Verify: afterwards the run is verifying and the local repository has exactly its three rows. */
    method Verify(readable: bool, now: Instant) returns (ok: bool)
      requires Good()
      modifies this`file, this`alive, this`calls, store
      ensures Good() && Grows(old(store.db), store.db)
      ensures old(calls) <= calls
      ensures ok ==> alive && Row().state == Verifying && Three(id, store.db.artifacts, Local)
      ensures ok ==> old(file).Some? && file.Some? && Row().columns == old(Row()).columns
                     && file.value.localVerifiedAt == Stamped(old(file).value.localVerifiedAt, now)
      ensures (calm && old(alive) && readable && old(file).Some? && old(Row()).state in {Encrypting, Verifying}
               && Digested(old(Row()), archive)) ==>
                ok
    {
      var resumed := Resume();
      if !resumed.Resumed? || (resumed.file.state != Encrypting && resumed.file.state != Verifying) {
        return false;
      }
      var f := resumed.file;
      var content := ReadBack(f.evidence.localSnapshot, f.evidence.manifest, readable);
      if |f.evidence.manifest| != 32 || content.None? || content.value.batch != id
          || content.value.migration != f.evidence.migration
         || f.evidence.logical.None? || f.evidence.logical.value < content.value.referenced {
        return false;
      }
      var k := content.value;
      var g := f.(objectSnapshot := k.objectSnapshot, dumpSha := k.dumpSha, referenced := k.referenced,
                  manifestBytes := k.manifestBytes, dumpBytes := f.evidence.logical.value - k.referenced);
      DumpBytesRecomputed(id, Row(), f, archive);
      var h: File;
      h, ok := StampLocal(f, g, now);
      if ok {
        ok := RecordLocal(h);
      }
    }

    /** The first verification fixes its time on file before any row is written. */
    method StampLocal(f: File, g: File, now: Instant) returns (h: File, ok: bool)
      requires Good() && alive && file == Some(f) && Ready(Row(), f, archive) && Late(f.state)
      requires g == f.(objectSnapshot := g.objectSnapshot, dumpSha := g.dumpSha, referenced := g.referenced,
          manifestBytes := g.manifestBytes, dumpBytes := g.dumpBytes)
      requires Measured(g, archive(f.evidence.localSnapshot))
      modifies this`file, this`alive
      ensures Good()
      ensures ok ==> alive && file == Some(h) && Ready(Row(), h, archive)
      ensures h.localVerifiedAt == Stamped(f.localVerifiedAt, now) != 0 && h.state == f.state
      ensures h.dumpSha == g.dumpSha && h.objectSnapshot == g.objectSnapshot
      ensures calm ==> ok
    {
      h, ok := g.(localVerifiedAt := Stamped(g.localVerifiedAt, now)), true;
      StampedFits(id, Row(), f, g, h, now, archive);
      if g.localVerifiedAt == 0 {
        ok := Save(h);
      }
    }

    method RecordLocal(h: File) returns (ok: bool)
      requires Good() && file == Some(h) && Ready(Row(), h, archive) && (h.state == Encrypting || h.state == Verifying)
          && h.localVerifiedAt != 0
      modifies this`file, this`alive, this`calls, store
      ensures Good() && Grows(old(store.db), store.db)
      ensures old(calls) <= calls
      ensures ok ==> alive && Row().state == Verifying && Three(id, store.db.artifacts, Local)
      ensures ok ==> file.Some? && file.value.localVerifiedAt == h.localVerifiedAt
                     && Row().columns == old(Row()).columns
      ensures calm && old(alive) && |h.dumpSha| == 32 && |h.objectSnapshot| == 32 ==> ok
    {
      LocalInsertable(id, Row(), h, archive);
      ok := AddArtifacts(h, Local, h.localVerifiedAt, h.evidence.localExpires);
      if !ok {
        return;
      }
      if h.state == Encrypting {
        var at := Clock();
        ok := Move(h, Verifying, None, at);
      }
      if ok {
        ok := Save(h.(state := Verifying));
      }
    }

    /**
     Sync: the file says of the remote copy what happened, and a run that reports one has exactly its
     three remote rows.
     */
    method Sync(configured: bool, copying: Copying, now: Instant) returns (ok: bool)
      requires Good()
      modifies this`file, this`alive, this`calls, store
      ensures Good() && Grows(old(store.db), store.db)
      ensures old(calls) <= calls
      ensures ok ==> alive && Row().state == Syncing && Three(id, store.db.artifacts, Local)
      ensures ok ==> configured && old(file).Some? && file.Some?
                     && Synced(old(file).value, file.value, copying, now)
      ensures ok && copying.Copied? ==> Three(id, store.db.artifacts, Remote)
      ensures ok ==> Row().columns == old(Row()).columns
      ensures (calm && old(alive) && old(file).Some? && old(Row()).state in {Verifying, Syncing} && configured
               && Copyable(old(file).value, copying) && Digested(old(Row()), archive)) ==>
                ok
    {
      var resumed := Resume();
      if !resumed.Resumed? || (resumed.file.state != Verifying && resumed.file.state != Syncing) || !configured {
        return false;
      }
      var f := resumed.file;
      if f.state == Verifying {
        ok := Advance(f, Syncing);
        if !ok {
          return;
        }
        f := Advanced(f, Syncing);
      }
      ok := Copy(f, copying, now);
    }

    /** The copying half of Sync. */
    method Copy(f: File, copying: Copying, now: Instant) returns (ok: bool)
      requires Good() && file == Some(f) && Ready(Row(), f, archive) && f.state == Syncing
      modifies this`file, this`alive, this`calls, store
      ensures Good() && Grows(old(store.db), store.db) && store.db.runs == old(store.db.runs)
      ensures old(calls) <= calls
      ensures ok ==> alive && file.Some? && Synced(f, file.value, copying, now)
      ensures ok && copying.Copied? ==> Three(id, store.db.artifacts, Remote)
      ensures calm && old(alive) && Copyable(f, copying) && Digested(Row(), archive) ==> ok
    {
      if !copying.Copied? {
        ok := false;
        if copying.CopyFailed? {
          var g := f.(remoteSucceeded := false, errorCategory := "remote_unavailable");
          FailedCopyFits(Row(), f, g, archive);
          ok := Save(g);
        }
        return;
      }
      var g: File;
      g, ok := SaveCopy(f, copying.snapshot, now);
      if ok {
        ok := RecordRemote(g);
      }
    }

    /** The copy's name, time and expiry are on file before any of its rows. */
    method SaveCopy(f: File, copied: SnapshotId, now: Instant) returns (g: File, ok: bool)
      requires Good() && file == Some(f) && Ready(Row(), f, archive) && f.state == Syncing
      modifies this`file, this`alive
      ensures Good()
      ensures ok ==> alive && file == Some(g) && Ready(Row(), g, archive) && g.state == Syncing
                     && g.remoteVerifiedAt != 0
      ensures ok ==> Synced(f, g, Copied(copied), now)
      ensures ok && Digested(Row(), archive) ==> |g.dumpSha| == 32 && |g.objectSnapshot| == 32
      ensures calm && old(alive) && Copyable(f, Copied(copied)) ==> ok
    {
      g, ok := f, false;
      var stamps := RemoteStamps(f, now);
      if (f.evidence.remoteSnapshot != "" && f.evidence.remoteSnapshot != copied) || stamps.1.None?
          || stamps.1.value == 0 {
        return;
      }
      g := f.(remoteSucceeded := true, errorCategory := "", remoteVerifiedAt := stamps.0,
              evidence := f.evidence.(remoteSnapshot := copied, remoteExpires := stamps.1));
      RemoteStampsFit(Row(), f, g, copied, now, archive);
      CopySynced(Row(), f, g, copied, now, archive);
      ok := Save(g);
    }

    method RecordRemote(g: File) returns (ok: bool)
      requires Good() && file == Some(g) && Ready(Row(), g, archive) && g.state == Syncing && g.remoteVerifiedAt != 0
      modifies this`file, this`alive, this`calls, store
      ensures Good() && Grows(old(store.db), store.db) && store.db.runs == old(store.db.runs)
      ensures old(calls) <= calls
      ensures ok ==> alive && file == Some(g) && Three(id, store.db.artifacts, Remote)
      ensures calm && old(alive) && |g.dumpSha| == 32 && |g.objectSnapshot| == 32 ==> ok
    {
      RemoteInsertable(id, Row(), g, archive);
      ok := AddArtifacts(g, Remote, g.remoteVerifiedAt, g.remoteVerifiedAt + REMOTE_LIFETIME);
      if ok {
        ok := Save(g);
      }
    }

    // -------------------------------------------------------------- finish, fail and whole sessions

    /**
     Finish: a run ends succeeded exactly when nothing was to be copied or the copy succeeded, and
     degraded otherwise; the row then says why, keeps its evidence, and names the remote copy.
     */
    method Finish() returns (ok: bool)
      requires Good()
      modifies this`file, this`alive, store
      ensures Good() && store.db.artifacts == old(store.db.artifacts)
      ensures ok ==> Row().state == Succeeded || Row().state == Degraded
      ensures ok && Terminal(old(Row()).state) ==> Row() == old(Row())
      ensures ok && !Terminal(old(Row()).state) ==>
                old(file).Some? && file == None && Finished(old(Row()), Row(), old(file).value)
      ensures ok && !Terminal(old(Row()).state) ==> Three(id, store.db.artifacts, Local)
      ensures (calm && old(alive) && old(file).Some? && !Terminal(old(Row()).state)
               && Finishable(old(Row()), old(file).value)) ==>
                ok
      ensures calm && old(alive) && Terminal(old(Row()).state) ==> (ok <==> old(Row()).state != Failed)
    {
      var resumed := Resume();
      if resumed.Ended? {
        return resumed.state == Succeeded || resumed.state == Degraded;
      }
      if !resumed.Resumed? {
        return false;
      }
      var f := resumed.file;
      if (f.state != Verifying && f.state != Syncing) || (f.state == Verifying && f.remoteConfigured) {
        return false;
      }
      var to := if f.state == Verifying || f.remoteSucceeded then Succeeded else Degraded;
      ghost var d := Row();
      EvidenceIsValid(id, d, f, archive);
      ok := Close(f, to, Some(f.evidence), f.errorCategory);
      if ok {
        ClosedIsFinished(id, old(Row()), d, Row(), old(file).value, f, to, archive);
      }
    }

    /**
     Finish trusts the file. A sync that dies between saving its outcome and adding the rows is enough
     for a succeeded run that names a remote copy and has none of its remote artifacts.
     */
    method FinishAfterCutSync(copied: SnapshotId, now: Instant)
      requires Good() && calm && alive && Row().state == Syncing && file.Some?
          && file.value.evidence.remoteSnapshot == ""
      modifies this`file, this`alive, store
      ensures Good() && Row().state == Succeeded && Row().columns.remoteSnapshot == Some(copied)
      ensures SlotsOf(id, store.db.artifacts, Remote) == {}
    {
      NoRemoteRows(id, store.db, file.value, archive);
      var resumed := Resume();
      if resumed.Resumed? {
        var g, saved := SaveCopy(resumed.file, copied, now);
        var finished := Finish();
      }
    }

    /** Fail: the run ends failed, or degraded where only the remote was unavailable, for the reason given. */
    method Fail(category: string) returns (ok: bool)
      requires Good()
      modifies this`file, this`alive, store
      ensures Good() && store.db.artifacts == old(store.db.artifacts)
      ensures ok ==> Row().state == Failed || (Row().state == Degraded && category == "remote_unavailable")
      ensures ok && Terminal(old(Row()).state) ==> Row() == old(Row())
      ensures ok && !Terminal(old(Row()).state) ==>
                && file == None && Row().errorCategory == category
                && (Row().state == Degraded <==> category == "remote_unavailable" && old(Row()).state == Syncing)
      ensures calm && old(alive) && category in ERROR_CATEGORIES && old(file).Some? && !Terminal(old(Row()).state) ==>
                ok
      ensures category !in ERROR_CATEGORIES ==> !ok && store.db == old(store.db)
    {
      if category !in ERROR_CATEGORIES {
        return false;
      }
      var resumed := Resume();
      if resumed.Ended? {
        return resumed.state == Failed || (resumed.state == Degraded && category == "remote_unavailable");
      }
      if !resumed.Resumed? {
        return false;
      }
      ok := CloseFailed(resumed.file, category);
    }

    /** Only a run whose remote copy is under way can end degraded. */
    method CloseFailed(f: File, category: string) returns (ok: bool)
      requires Good() && file == Some(f) && Ready(Row(), f, archive) && category in ERROR_CATEGORIES
      modifies this`file, this`alive, store
      ensures Good() && store.db.artifacts == old(store.db.artifacts)
      ensures ok ==>
                && file == None && Row().errorCategory == category
                && Row().state == (if category == "remote_unavailable" && f.state == Syncing then Degraded else Failed)
      ensures calm && old(alive) ==> ok
    {
      var degrade := category == "remote_unavailable" && f.state == Syncing && f.remoteConfigured;
      if degrade {
        EvidenceIsValid(id, Row(), f, archive);
      }
      ok := Close(f, if degrade then Degraded else Failed, if degrade then Some(f.evidence) else None, category);
    }

    /** The final transition, then the file goes. */
    method Close(f: File, to: State, evidence: Option<Evidence>, category: string) returns (ok: bool)
      requires Good() && Terminal(to) && file == Some(f)
      modifies this`file, this`alive, store
      ensures Good() && store.db.artifacts == old(store.db.artifacts)
      ensures ok ==> Closed(old(Row()), Row(), f, to, evidence, category) && file == None
      ensures calm && old(alive) && Closable(old(Row()), f, to, evidence, category) ==> ok
    {
      ok := End(f, to, evidence, category);
      if ok {
        ok := Delete();
      }
    }

    /** One command line. */
    method Run(command: Command) returns (ok: bool)
      requires Good()
      modifies this`file, this`alive, this`calls, store
      ensures Good() && Grows(old(store.db), store.db)
      ensures old(calls) <= calls
    {
      match command
      case Prepare => ok := Prepare();
      case Snapshot(taken) => ok := Snapshot(taken);
      case Verify(readable, now) => ok := Verify(readable, now);
      case Sync(configured, copying, now) => ok := Sync(configured, copying, now);
      case Finish => ok := Finish();
      case Fail(category) => ok := Fail(category);
    }

    /**
     Any sequence of commands, each in a fresh process that may die anywhere: the file never leads the
     row and trails it by at most one transition, and no artifact row is ever refused or rewritten.
     */
    method Session(commands: seq<Command>)
      requires Good()
      modifies this`file, this`alive, this`calm, this`calls, store
      ensures Good() && Grows(old(store.db), store.db)
      ensures old(calls) <= calls && forall c :: c in calls ==> !Refused(c)
    {
      for i := 0 to |commands|
        invariant Good() && Grows(old(store.db), store.db) && old(calls) <= calls
      {
        alive, calm := true, *;
        ghost var before := store.db;
        var _ := Run(commands[i]);
        GrowsTransitive(old(store.db), before, store.db);
      }
    }

    /**
     Resumability: wherever earlier commands were cut, from any state they can leave, the commands of
     scripts/phase5-backup.sh end an unfinished run once nothing more goes wrong: succeeded with all
     its artifacts, or degraded for want of the remote copy.
     */
    method CarryOn(taken: Taken, copying: Option<Copying>, now: Instant)
      requires Good() && calm && alive && !Terminal(Row().state)
      requires !Late(Row().state) ==> Usable(id, taken, archive(taken.snapshot)) && Hashed(archive(taken.snapshot))
      requires Late(Row().state) ==> Digested(Row(), archive)
      requires Row().state == Syncing ==> copying.Some? && file.Some? && Copyable(file.value, copying.value)
      requires copying.Some? ==> !copying.value.CopyCancelled?
      modifies this`file, this`alive, this`calls, store
      ensures Good() && Grows(old(store.db), store.db) && file == None
      ensures EndsWell(id, store.db, copying)
    {
      ToVerifying(taken, now);
      ghost var one := store.db;
      Conclude(copying, now);
      GrowsTransitive(old(store.db), one, store.db);
    }

    /** From the verified local snapshot to the end. */
    method Conclude(copying: Option<Copying>, now: Instant)
      requires Good() && calm && alive && file.Some? && Digested(Row(), archive)
      requires Row().state == Verifying || (Row().state == Syncing && copying.Some?)
      requires copying.Some? ==> Copyable(file.value, copying.value)
      modifies this`file, this`alive, this`calls, store
      ensures Good() && Grows(old(store.db), store.db) && file == None
      ensures EndsWell(id, store.db, copying)
    {
      if copying.Some? {
        var synced := Sync(true, copying.value, now);
      }
      var finished := Finish();
    }

    /** Up to the verified local snapshot; a run that is already being copied stays as it is. */
    method ToVerifying(taken: Taken, now: Instant)
      requires Good() && calm && alive && !Terminal(Row().state)
      requires !Late(Row().state) ==> Usable(id, taken, archive(taken.snapshot)) && Hashed(archive(taken.snapshot))
      requires Late(Row().state) ==> Digested(Row(), archive)
      modifies this`file, this`alive, this`calls, store
      ensures Good() && Grows(old(store.db), store.db) && alive && file.Some? && Digested(Row(), archive)
      ensures if old(Row()).state == Syncing then store.db == old(store.db) && file == old(file)
              else Row().state == Verifying && file.value.evidence.remoteSnapshot == ""
    {
      if file.None? {
        var prepared := Prepare();
      }
      if Row().state == Draining || Row().state == Snapshotting {
        var snapped := Snapshot(Some(taken));
      }
      ghost var before := store.db;
      if Row().state == Encrypting {
        var verified := Verify(true, now);
      }
    }
  }

  // ---------------------------------------------------------------- what a command may rely on

  /** The file matches the row, and the row is unfinished and leased. */
  predicate Ready(d: Run, f: File, archive: Archive) {
    Current(d, f) && FileFits(d, f, archive) && d.owner != 0 && !Terminal(d.state)
  }

  /** Evidence of a snapshot of this run, fresh from the executor. */
  predicate Fresh(id: nat, e: Evidence, archive: Archive) {
    && e.remoteSnapshot == "" && e.remoteExpires.None? && e.logical.Some? && Micros(e.localExpires) != 0
    && var k := archive(e.localSnapshot);
      && k.batch == id && k.migration == e.migration && k.manifestSha == e.manifest
          && e.logical.value == k.dumpBytes + k.referenced
  }

  /** The lease of this generation belongs to this owner. */
  predicate HeldBy(d: Run, owner: nat, generation: nat) {
    d.owner == owner != 0 && d.generation == generation >= 1 && !Terminal(d.state)
  }

  predicate Movable(d: Run, f: File, to: State, evidence: Option<Evidence>) {
    && HeldBy(d, f.owner, f.generation) && d.state == f.state && ValidTransition(f.state, to)
    && (evidence.Some? ==> ValidEvidence(evidence.value))
  }

  predicate Closable(d: Run, f: File, to: State, evidence: Option<Evidence>, category: string) {
    && Movable(d, f, to, evidence) && (to == Succeeded || to == Degraded ==> evidence.Some?)
    && (category == "" || category in ERROR_CATEGORIES)
    && (to == Succeeded ==> category == "") && (to == Degraded ==> category != "")
  }

  /** What the last transition leaves: nobody holds the run, and the row says how and why it ended. */
  predicate Closed(d: Run, d': Run, f: File, to: State, evidence: Option<Evidence>, category: string) {
    && d.state == f.state && ValidTransition(d.state, to)
    && d' == d.(state := to, errorCategory := category, errorTrace := "", owner := 0, lease := None,
                finishedAt := d'.finishedAt, columns := d'.columns)
    && d'.finishedAt.Some? && Shows(d'.columns, d.columns, evidence)
    && (to == Succeeded ==> category == "") && (to == Degraded ==> category != "")
  }

  /** The executor's report fits the run and is in good form. */
  predicate Usable(id: nat, t: Taken, k: Content) {
    && k.batch == id && k.migration == t.migration >= 1 && SafeOpaque(t.key) && SafeOpaque(t.snapshot) && t.stored >= 0
    && |k.manifestSha| == 32
  }

  /** The columns name the snapshot taken, what it holds, and that it is kept for a week. */
  predicate Names(c: Columns, t: Taken, k: Content) {
    && c.migration == Some(t.migration) && c.encryptionKey == Some(t.key) && c.localSnapshot == Some(t.snapshot)
    && c.manifest == Some(k.manifestSha) && c.logical == Some(k.dumpBytes + k.referenced) && c.stored == Some(t.stored)
    && c.localExpires == Some(Micros(t.at + 604_800_000_000_000)) && c.remoteSnapshot.None? && c.remoteExpires.None?
  }

  /** The digests of the dump and of the objects have the length of a SHA-256. */
  predicate Hashed(k: Content) {
    |k.dumpSha| == 32 && |k.objectSnapshot| == 32
  }

  predicate Digested(d: Run, archive: Archive) {
    d.columns.localSnapshot.Some? && Hashed(archive(d.columns.localSnapshot.value))
  }

  /** A time of verification is set once. */
  function Stamped(t: int, now: Instant): int {
    if t != 0 then t else Micros(now)
  }

  /** No earlier copy has another name. */
  predicate Copyable(f: File, copying: Copying) {
    match copying
    case Copied(snapshot) => f.evidence.remoteSnapshot == "" || f.evidence.remoteSnapshot == snapshot
    case CopyFailed => true
    case CopyCancelled => false
  }

  /** What the file says of the copy afterwards; a copy is kept for thirty days from its first verification. */
  predicate Synced(f: File, g: File, copying: Copying, now: Instant) {
    match copying
    case Copied(snapshot) =>
      && g.remoteSucceeded && g.errorCategory == "" && g.evidence.remoteSnapshot == snapshot
      && g.remoteVerifiedAt == Stamped(f.remoteVerifiedAt, now)
      && g.evidence.remoteExpires == Some(g.remoteVerifiedAt + 2_592_000_000_000_000)
    case CopyFailed =>
      && !g.remoteSucceeded && g.errorCategory == "remote_unavailable" && g.remoteVerifiedAt == f.remoteVerifiedAt
      && g.evidence.remoteSnapshot == f.evidence.remoteSnapshot
    case CopyCancelled => false
  }

  /** When a run can be finished: the copy is not configured, or its outcome is known. */
  predicate Finishable(d: Run, f: File) {
    d.state == Verifying || (d.state == Syncing && (f.remoteSucceeded || f.errorCategory != ""))
  }

  /** How a run is finished, by its row and file before. */
  predicate Finished(d: Run, d': Run, f: File) {
    && (d.state == Verifying || d.state == Syncing)
    && d'.state == (if d.state == Verifying || f.remoteSucceeded then Succeeded else Degraded)
    && d'.errorCategory == (if d'.state == Degraded then "remote_unavailable" else "") && d'.errorTrace == ""
    && d'.owner == 0 && d'.lease.None? && d'.finishedAt.Some?
    && d' == d.(state := d'.state, errorCategory := d'.errorCategory, errorTrace := d'.errorTrace, owner := 0,
                lease := None, finishedAt := d'.finishedAt, columns := d'.columns, generation := d'.generation,
                startedAt := d'.startedAt)
    && d'.columns == d.columns.(remoteSnapshot := d'.columns.remoteSnapshot, remoteExpires := d'.columns.remoteExpires)
    && (d.state == Syncing && f.remoteSucceeded ==> f.evidence.remoteSnapshot != "" && f.remoteVerifiedAt != 0)
    && Copies(d'.columns, f)
  }

  /** Succeeded with the artifacts of both repositories, or of the one there is, or degraded without the copy. */
  predicate EndsWell(id: nat, db: Db, copying: Option<Copying>) {
    && id in db.runs && Three(id, db.artifacts, Local)
    && var d := db.runs[id];
      match copying
      case None => d.state == Succeeded && d.errorCategory == "" && d.columns.remoteSnapshot.None?
      case Some(Copied(snapshot)) =>
        && d.state == Succeeded && d.errorCategory == "" && d.columns.remoteSnapshot == Some(snapshot)
        && Three(id, db.artifacts, Remote)
      case Some(_) => d.state == Degraded && d.errorCategory == "remote_unavailable"
  }

  lemma {:induction false} ClosedIsFinished(id: nat, d0: Run, d: Run, d': Run, f0: File, f: File, to: State,
                                            archive: Archive)
    requires LeaseOnly(d0, d) && Repaired(f0, f) && Ready(d, f, archive) && ColumnsFit(id, d, archive)
    requires Closed(d, d', f, to, Some(f.evidence), f.errorCategory)
    requires d.state == Verifying || d.state == Syncing
    requires to == if f.state == Verifying || f.remoteSucceeded then Succeeded else Degraded
    ensures Finished(d0, d', f0)
  {
    assert d'.columns == d.columns.(remoteSnapshot := d'.columns.remoteSnapshot,
                                    remoteExpires := d'.columns.remoteExpires)
        && Copies(d'.columns, f)
      by {
        ShownColumns(id, d, d'.columns, f, archive);
      }
  }

  /** The row names the remote copy the file knows of, and that it is kept for thirty days. */
  predicate Copies(c: Columns, f: File) {
    if f.evidence.remoteSnapshot == "" then c.remoteSnapshot.None? && c.remoteExpires.None?
    else && c.remoteSnapshot == Some(f.evidence.remoteSnapshot)
         && c.remoteExpires == Some(f.remoteVerifiedAt + 2_592_000_000_000_000)
  }

  lemma {:induction false} ShownColumns(id: nat, d: Run, c: Columns, f: File, archive: Archive)
    requires Ready(d, f, archive) && ColumnsFit(id, d, archive) && Late(d.state)
    requires Shows(c, d.columns, Some(f.evidence))
    ensures c == d.columns.(remoteSnapshot := c.remoteSnapshot, remoteExpires := c.remoteExpires)
    ensures Copies(c, f)
  {
  }

  lemma {:induction false} EvidenceIsValid(id: nat, d: Run, f: File, archive: Archive)
    requires Ready(d, f, archive) && Late(d.state) && ColumnsFit(id, d, archive)
    ensures ValidEvidence(f.evidence)
  {
  }

  lemma {:induction false} EncryptedFits(d: Run, d': Run, f: File, g: File, archive: Archive)
    requires Ready(d, f, archive) && f.state == Snapshotting && Moves(d, d', g, Encrypting, Some(g.evidence))
    requires g == f.(evidence := g.evidence, objectSnapshot := g.objectSnapshot, dumpSha := g.dumpSha,
                     dumpBytes := g.dumpBytes, referenced := g.referenced, manifestBytes := g.manifestBytes)
    requires g.evidence.remoteSnapshot == "" && g.evidence.remoteExpires.None?
    ensures
      var h := g.(state := Encrypting);
      && KeepsStamps(Some(f), h) && Trails(d', Some(h)) && FileFits(d', h, archive)
      && HeldBy(d', h.owner, h.generation)
  {
  }

  predicate MoveAllowed(id: nat, d: Run, rows: map<Slot, Stored>, file: Option<File>, f: File, to: State,
                        evidence: Option<Evidence>, archive: Archive) {
    && !Terminal(to) && (file.None? ==> to == Draining) && (file.Some? ==> file.value.state == f.state)
    && (to == Encrypting <==> evidence.Some?) && (evidence.Some? ==> Fresh(id, evidence.value, archive))
    && (to == Verifying || to == Syncing ==> file.Some? && file.value.localVerifiedAt != 0 && Three(id, rows, Local))
  }

  predicate Moves(d: Run, d': Run, f: File, to: State, evidence: Option<Evidence>) {
    && d.state == f.state && d.owner == d'.owner == f.owner && d.generation == d'.generation == f.generation
    && d'.state == to && d'.columns == Filled(evidence, d.columns)
  }

  lemma {:induction false} AllowedMoveKeepsSound(id: nat, db: Db, db': Db, input: TransitionInput, file: Option<File>,
                                                 f: File, archive: Archive)
    requires Sound(id, db, file, archive) && Inv(db') && id == input.run && input.from == f.state
        && input.owner == f.owner
    requires MoveAllowed(id, db.runs[id], db.artifacts, file, f, input.to, input.evidence, archive)
    requires TransitionError(input).None? && db.runs[id].state == input.from
    requires db' == db.(runs := db.runs[id := Moved(db.runs[id], input)]) && db.runs[id].owner == f.owner
    ensures Sound(id, db', file, archive) && Grows(db, db')
  {
    var d, d' := db.runs[id], Moved(db.runs[id], input);
    MovedColumnsFit(id, d, input, archive);
    if file.Some? {
      MovedFileFits(id, d, input, file.value, archive);
    }
    MoveKeepsSound(id, db, db', d', file, archive);
  }

  lemma {:induction false} MovedColumnsFit(id: nat, d: Run, input: TransitionInput, archive: Archive)
    requires ColumnsFit(id, d, archive) && TransitionError(input).None? && d.state == input.from && !Terminal(input.to)
    requires (input.to == Encrypting <==> input.evidence.Some?)
        && (input.evidence.Some? ==> Fresh(id, input.evidence.value, archive))
    ensures !Terminal(d.state) && ColumnsFit(id, Moved(d, input), archive)
    ensures Late(d.state) ==> Moved(d, input).columns == d.columns
  {
    assert ValidTransition(d.state, input.to);
    if input.to == Encrypting {
      FreshColumns(id, input.evidence.value, archive);
    }
  }

  lemma {:induction false} FreshColumns(id: nat, e: Evidence, archive: Archive)
    requires Fresh(id, e, archive) && ValidEvidence(e)
    ensures GoodColumns(id, Filled(Some(e), NO_COLUMNS), archive)
  {
  }

  lemma {:induction false} MovedFileFits(id: nat, d: Run, input: TransitionInput, f: File, archive: Archive)
    requires Trails(d, Some(f)) && FileFits(d, f, archive) && f.state == d.state == input.from && d.owner == input.owner
    requires TransitionError(input).None? && !Terminal(input.to)
    requires Late(d.state) ==> Moved(d, input).columns == d.columns
    requires input.to == Verifying || input.to == Syncing ==> f.localVerifiedAt != 0
    ensures Trails(Moved(d, input), Some(f)) && FileFits(Moved(d, input), f, archive)
  {
    assert ValidTransition(d.state, input.to);
  }

  lemma {:induction false} GrowsTransitive(a: Db, b: Db, c: Db)
    requires Grows(a, b) && Grows(b, c)
    ensures Grows(a, c)
  {
  }

  function Advanced(f: File, to: State): File {
    f.(state := to, remoteConfigured := f.remoteConfigured || to == Syncing)
  }

  /** The in-memory values are the ones the rows must have. */
  predicate Insertable(d: Run, onFile: File, f: File, repository: Repository, verifiedAt: int, expiresAt: int,
                       archive: Archive) {
    && Late(d.state) && d.columns.localSnapshot.Some? && d.columns.localExpires.Some?
    && VerifiedAt(onFile, repository) == verifiedAt && Stamp(verifiedAt) && Micros(expiresAt) == expiresAt != 0
    && f.owner == d.owner != 0 && f.generation == d.generation >= 1 && |f.evidence.manifest| == 32
    && Measured(f, archive(d.columns.localSnapshot.value))
    && f.evidence.manifest == archive(d.columns.localSnapshot.value).manifestSha
    && match repository
      case Local =>
        && f.evidence.localSnapshot == d.columns.localSnapshot.value && SafeOpaque(f.evidence.localSnapshot)
        && expiresAt == d.columns.localExpires.value
      case Remote =>
        && f.evidence.remoteSnapshot == onFile.evidence.remoteSnapshot && SafeOpaque(f.evidence.remoteSnapshot)
        && expiresAt == verifiedAt + REMOTE_LIFETIME
  }

  lemma {:induction false} EntryIsExpected(d: Run, onFile: File, f: File, kind: Kind, repository: Repository,
                                           verifiedAt: int, expiresAt: int, archive: Archive)
    requires Insertable(d, onFile, f, repository, verifiedAt, expiresAt, archive) && |f.dumpSha| == 32
        && |f.objectSnapshot| == 32
    ensures
      var e := Entry(f, kind, repository, verifiedAt, expiresAt);
      && e == Rounded(e) == Expected(d, onFile, archive, kind, repository)
      && SafeOpaque(e.snapshot) && |e.sha| == 32 && e.size >= 0 && e.verifiedAt != 0 && e.expiresAt != 0
  {
  }

  /** What addArtifacts sends for one kind. */
  function InputFor(id: nat, f: File, kind: Kind, repository: Repository, verifiedAt: int,
                    expiresAt: int): ArtifactInput {
    ArtifactInput(f.owner, f.generation, Slot(id, kind, repository), Entry(f, kind, repository, verifiedAt, expiresAt))
  }

  ghost predicate Recorded(before: seq<Call>, after: seq<Call>, db: Db, input: ArtifactInput) {
    |after| == |before| + 1 && after == before + [Call(db, input, after[|before|].now)]
  }

  /**
   A command's artifact is never refused as different, whether or not an earlier try already stored
   it, and whenever the call is made.
   */
  lemma {:induction false} RetryNeverConflicts(
    id: nat, db: Db, onFile: File, f: File, kind: Kind, repository: Repository, verifiedAt: int, expiresAt: int,
    now: int, archive: Archive)
    requires Sound(id, db, Some(onFile), archive)
    requires kind != RecoveryReport && |f.dumpSha| == 32 && |f.objectSnapshot| == 32
    requires Insertable(db.runs[id], onFile, f, repository, verifiedAt, expiresAt, archive)
    ensures AddArtifact(db, InputFor(id, f, kind, repository, verifiedAt, expiresAt), now).1 != Err(Invalid)
    ensures
      var r := AddArtifact(db, InputFor(id, f, kind, repository, verifiedAt, expiresAt), now);
      r.0 != db ==>
        && Slot(id, kind, repository) !in db.artifacts
        && r.0 == db.(artifacts := db.artifacts[Slot(id, kind, repository) := Expected(db.runs[id], onFile, archive,
            kind, repository)])
    ensures db.runs[id].lease.Some? && now < db.runs[id].lease.value ==>
              AddArtifact(db, InputFor(id, f, kind, repository, verifiedAt, expiresAt), now).1.Ok?
  {
    var slot := Slot(id, kind, repository);
    EntryIsExpected(db.runs[id], onFile, f, kind, repository, verifiedAt, expiresAt, archive);
    assert slot in db.artifacts ==> RowFits(db.artifacts, slot, db.runs[id], Some(onFile), archive);
  }

  lemma {:induction false} InsertKeepsSound(
    id: nat, db: Db, db': Db, onFile: File, f: File, kind: Kind, repository: Repository, verifiedAt: int,
    expiresAt: int, now: int, archive: Archive)
    requires Sound(id, db, Some(onFile), archive) && Inv(db')
    requires kind != RecoveryReport && |f.dumpSha| == 32 && |f.objectSnapshot| == 32
    requires Insertable(db.runs[id], onFile, f, repository, verifiedAt, expiresAt, archive)
    requires db' == db || db' == AddArtifact(db, InputFor(id, f, kind, repository, verifiedAt, expiresAt), now).0
    ensures Sound(id, db', Some(onFile), archive) && Grows(db, db') && db'.runs == db.runs
  {
    RetryNeverConflicts(id, db, onFile, f, kind, repository, verifiedAt, expiresAt, now, archive);
    if db' != db {
      RowKeepsSound(id, db, db', Slot(id, kind, repository), onFile, archive);
    }
  }

  /** Logical minus referenced bytes is the dump size that was measured when the snapshot was taken. */
  lemma {:induction false} DumpBytesRecomputed(id: nat, d: Run, f: File, archive: Archive)
    requires Current(d, f) && Late(d.state) && ColumnsFit(id, d, archive) && !Terminal(d.state)
    ensures
      var k := archive(f.evidence.localSnapshot);
      f.evidence.logical.Some? && f.evidence.logical.value - k.referenced == k.dumpBytes
  {
  }

  /** A first stamp fits the row; a repeated verification measures what is on file already. */
  lemma {:induction false} StampedFits(id: nat, d: Run, f: File, g: File, h: File, now: Instant, archive: Archive)
    requires Ready(d, f, archive) && Trails(d, Some(f)) && Late(d.state) && ColumnsFit(id, d, archive)
    requires g == f.(objectSnapshot := g.objectSnapshot, dumpSha := g.dumpSha, referenced := g.referenced,
        manifestBytes := g.manifestBytes, dumpBytes := g.dumpBytes)
    requires Measured(g, archive(f.evidence.localSnapshot))
    requires h == g.(localVerifiedAt := Stamped(g.localVerifiedAt, now))
    ensures Ready(d, h, archive) && Trails(d, Some(h)) && KeepsStamps(Some(f), h)
    ensures h.localVerifiedAt == Stamped(f.localVerifiedAt, now) != 0 && (f.localVerifiedAt != 0 ==> h == f)
  {
  }

  lemma {:induction false} LocalInsertable(id: nat, d: Run, f: File, archive: Archive)
    requires Ready(d, f, archive) && Late(d.state) && ColumnsFit(id, d, archive) && f.localVerifiedAt != 0
    ensures Insertable(d, f, f, Local, f.localVerifiedAt, f.evidence.localExpires, archive)
  {
  }

  lemma {:induction false} RemoteInsertable(id: nat, d: Run, f: File, archive: Archive)
    requires Ready(d, f, archive) && d.state == Syncing && ColumnsFit(id, d, archive) && f.remoteVerifiedAt != 0
    ensures Insertable(d, f, f, Remote, f.remoteVerifiedAt, f.remoteVerifiedAt + REMOTE_LIFETIME, archive)
  {
  }

  lemma {:induction false} RemoteStampsFit(d: Run, f: File, g: File, copied: string, now: int, archive: Archive)
    requires Ready(d, f, archive) && d.state == Syncing && SafeOpaque(copied) && now >= 1000
    requires f.evidence.remoteSnapshot != "" ==> f.evidence.remoteSnapshot == copied
    requires
      var stamps := RemoteStamps(f, now);
      g == f.(remoteSucceeded := true, errorCategory := "", remoteVerifiedAt := stamps.0,
              evidence := f.evidence.(remoteSnapshot := copied, remoteExpires := stamps.1))
    ensures Ready(d, g, archive) && g.remoteVerifiedAt != 0 && KeepsStamps(Some(f), g) && Trails(d, Some(g))
  {
  }

  lemma {:induction false} CopySynced(d: Run, f: File, g: File, copied: SnapshotId, now: Instant, archive: Archive)
    requires Ready(d, f, archive) && d.state == Syncing
    requires
      var stamps := RemoteStamps(f, now);
      g == f.(remoteSucceeded := true, errorCategory := "", remoteVerifiedAt := stamps.0,
              evidence := f.evidence.(remoteSnapshot := copied, remoteExpires := stamps.1))
    ensures Synced(f, g, Copied(copied), now)
    ensures Digested(d, archive) ==> |g.dumpSha| == 32 && |g.objectSnapshot| == 32
  {
  }

  lemma {:induction false} FailedCopyFits(d: Run, f: File, g: File, archive: Archive)
    requires Ready(d, f, archive) && d.state == Syncing
    requires g == f.(remoteSucceeded := false, errorCategory := "remote_unavailable")
    ensures Ready(d, g, archive) && KeepsStamps(Some(f), g) && Trails(d, Some(g))
  {
  }

  /** The slots a run has in one repository. */
  ghost function SlotsOf(id: nat, rows: map<Slot, Stored>, repository: Repository): set<Slot> {
    set slot | slot in rows && slot.run == id && slot.repository == repository
  }

  lemma {:induction false} NoRemoteRows(id: nat, db: Db, f: File, archive: Archive)
    requires Sound(id, db, Some(f), archive) && !Terminal(db.runs[id].state) && f.evidence.remoteSnapshot == ""
    ensures SlotsOf(id, db.artifacts, Remote) == {}
  {
    forall slot | slot in db.artifacts && slot.run == id
      ensures slot.repository != Remote
    {
      assert RowFits(db.artifacts, slot, db.runs[id], Some(f), archive);
    }
  }

  /** Three rows present means exactly those three, each with the one value it can have. */
  lemma {:induction false} ExactlyThreeRows(id: nat, db: Db, file: Option<File>, archive: Archive,
                                            repository: Repository)
    requires Sound(id, db, file, archive) && !Terminal(db.runs[id].state) && Three(id, db.artifacts, repository)
    ensures SlotsOf(id, db.artifacts, repository)
         == {Slot(id, DatabaseDump, repository), Slot(id, ObjectSnapshot, repository), Slot(id, Manifest, repository)}
    ensures file.Some? && Late(db.runs[id].state) && ColumnsFit(id, db.runs[id], archive)
    ensures
      var d, f := db.runs[id], file.value;
      var k := archive(d.columns.localSnapshot.value);
      var named := if repository == Local then d.columns.localSnapshot.value else f.evidence.remoteSnapshot;
      var at := if repository == Local then f.localVerifiedAt else f.remoteVerifiedAt;
      var until := if repository == Local then d.columns.localExpires.value
                   else f.remoteVerifiedAt + 2_592_000_000_000_000;
      && at != 0
      && db.artifacts[Slot(id, DatabaseDump, repository)] == Stored(named, k.dumpSha, k.dumpBytes, at, until)
      && db.artifacts[Slot(id, ObjectSnapshot, repository)] == Stored(named, k.objectSnapshot, k.referenced, at, until)
      && db.artifacts[Slot(id, Manifest, repository)] == Stored(named, k.manifestSha, k.manifestBytes, at, until)
  {
    assert RowFits(db.artifacts, Slot(id, DatabaseDump, repository), db.runs[id], file, archive);
    assert RowFits(db.artifacts, Slot(id, ObjectSnapshot, repository), db.runs[id], file, archive);
    StampedIsLate(db.runs[id], file.value, repository, archive);
    assert RowFits(db.artifacts, Slot(id, Manifest, repository), db.runs[id], file, archive);
    forall slot | slot in SlotsOf(id, db.artifacts, repository)
      ensures slot in {Slot(id, DatabaseDump, repository), Slot(id, ObjectSnapshot, repository),
          Slot(id, Manifest, repository)}
    {
      assert RowFits(db.artifacts, slot, db.runs[id], file, archive);
      match slot.kind
      case DatabaseDump =>
      case ObjectSnapshot =>
      case Manifest =>
      case RecoveryReport =>
    }
  }
}
