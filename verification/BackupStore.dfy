/**
 The store as an object: each transaction reads, checks and writes step by step, and a commit whose
 fate is unknown is settled by reading the row back (internal/backup/postgres_store.go).
 */
module BackupStore {
  import opened Common
  import opened BackupModel
  import opened BackupRuns

  /** How a commit ends: reported, made but reported as failed, or really lost. */
  datatype Commit = Reported | Unreported | Lost

  /** reconcileClaim: is the row on disk the one this claim wanted to write? */
  predicate ClaimLanded(durable: Run, intended: Run, owner: nat, later: int) {
    && durable.owner == owner && durable.lease.Some? && durable.lease.value > later
    && durable.generation == intended.generation && durable.state == intended.state
    && durable.startedAt == intended.startedAt && durable.lease == intended.lease
  }

  /** transitionRunMatches, with the filter of reconcileTransition's query. */
  predicate TransitionLanded(durable: Run, intended: Run, input: TransitionInput, later: int) {
    && (!Terminal(input.to) ==> Held(durable, input.owner, input.generation, later))
    && durable.state == input.to && durable.generation == input.generation
    && durable.errorCategory == intended.errorCategory && durable.errorTrace == intended.errorTrace
    && durable.finishedAt == intended.finishedAt && durable.columns == intended.columns
    && (if Terminal(input.to) then durable.owner == 0 && durable.lease.None?
        else durable.owner == input.owner && durable.lease == intended.lease)
  }

  /** The order in which an unnamed claim picks among unfinished runs: owned first, then by age and id. */
  predicate PickedBefore(runs: map<nat, Run>, a: nat, b: nat)
    requires a in runs && b in runs
  {
    var x, y := runs[a], runs[b];
    if (x.owner == 0) != (y.owner == 0) then y.owner == 0
    else x.requestedAt < y.requestedAt || (x.requestedAt == y.requestedAt && a <= b)
  }

  predicate Leased(db: Db, id: nat, t: int) {
    id in db.runs && db.runs[id].lease.Some? && db.runs[id].lease.value > t
  }

  class Store {
    var db: Db

    constructor ()
      ensures db == Db(map[], map[]) && Inv(db)
    {
      db := Db(map[], map[]);
    }

    /** Returns the new run, or the one an earlier identical request made. */
    method Create(input: CreateInput) returns (r: Result<nat>)
      requires Inv(db)
      modifies this
      ensures Inv(db) && db == BackupRuns.Create(old(db), input).0
      ensures r.Ok? <==> BackupRuns.Create(old(db), input).1.Ok?
      ensures r.Ok? ==> r.value in db.runs && SameRequest(db.runs[r.value], input)
      ensures r.Err? ==> r.error == BackupRuns.Create(old(db), input).1.error
    {
      CreateKeepsInv(db, input);
      if !ValidCreate(input) {
        return Err(Invalid);
      }
      if id :| id in db.runs && SameRequest(db.runs[id], input) {
        return Ok(id);
      }
      if exists id :: id in db.runs && Active(db, id) {
        return Err(AlreadyQueued);
      }
      if input.id in db.runs {
        return Err(Unavailable);
      }
      db := db.(runs := db.runs[input.id := Queue(input)]);
      return Ok(input.id);
    }

    /** SELECT ... WHERE state NOT IN (...) ORDER BY ... LIMIT 1. */
    method PickClaimable() returns (pick: Option<nat>)
      ensures pick.None? <==> forall id :: id in db.runs ==> !Active(db, id)
      ensures pick.Some? ==> Active(db, pick.value)
      ensures pick.Some? ==>
                forall id :: id in db.runs && Active(db, id) ==> PickedBefore(db.runs, pick.value, id)
    {
      pick := None;
      var rest := db.runs.Keys;
      while rest != {}
        invariant rest <= db.runs.Keys
        invariant pick.None? <==> forall id :: id in db.runs && id !in rest ==> !Active(db, id)
        invariant pick.Some? ==> Active(db, pick.value)
        invariant pick.Some? ==>
                    forall id :: id in db.runs && id !in rest && Active(db, id) ==>
                      PickedBefore(db.runs, pick.value, id)
        decreases rest
      {
        var id :| id in rest;
        if Active(db, id) && (pick.None? || PickedBefore(db.runs, id, pick.value)) {
          pick := Some(id);
        }
        rest := rest - {id};
      }
    }

    /** The unnamed claim: it takes the unfinished run, of which there is at most one. */
    method ClaimNext(owner: nat, lease: int, now: int, commit: Commit, later: int, reachable: bool)
      returns (r: Result<Run>)
      requires Inv(db)
      modifies this
      ensures Inv(db)
      ensures forall id :: Active(old(db), id) ==>
          db == old(db) || db == BackupRuns.Claim(old(db), id, owner, lease, now).0
      ensures forall id :: Active(old(db), id) && (r.Ok? || commit == Reported) ==>
          (db, r) == BackupRuns.Claim(old(db), id, owner, lease, now)
      ensures (forall id :: id in db.runs ==> !Active(old(db), id)) ==> db == old(db) && r.Err?
    {
      if !ValidLease(owner, lease) {
        return Err(Invalid);
      }
      var pick := PickClaimable();
      if pick.None? {
        return Err(NoClaimableRun);
      }
      r := ClaimById(pick.value, owner, lease, now, commit, later, reachable);
    }

    /**
     Claims the named run. A commit whose fate is unknown is settled by reading the row back: success
     is never reported for a claim that was lost.
     */
    method ClaimById(id: nat, owner: nat, lease: int, now: int, commit: Commit, later: int, reachable: bool)
      returns (r: Result<Run>)
      requires Inv(db)
      modifies this
      ensures Inv(db)
      ensures db == old(db) || db == BackupRuns.Claim(old(db), id, owner, lease, now).0
      ensures r.Ok? ==> (db, r) == BackupRuns.Claim(old(db), id, owner, lease, now)
      ensures commit == Reported ==> (db, r) == BackupRuns.Claim(old(db), id, owner, lease, now)
      ensures commit == Lost ==> db == old(db) && r.Err?
      ensures commit == Unreported && reachable && later + 1000 <= now + lease ==>
                (db, r) == BackupRuns.Claim(old(db), id, owner, lease, now)
    {
      DoKeepsInv(db, DoClaim(id, owner, lease, now));
      if id == 0 || !ValidLease(owner, lease) {
        return Err(Invalid);
      }
      if id !in db.runs {
        return Err(NotFound);
      }
      var current := db.runs[id];
      if Terminal(current.state) {
        return Err(NoClaimableRun);
      }
      if current.owner != 0 && current.lease.Some? && current.lease.value > now {
        return Err(ActiveClaim);
      }
      var run := Take(current, owner, lease, now);
      if commit != Lost {
        db := db.(runs := db.runs[id := run]);
      }
      if commit == Reported {
        return Ok(run);
      }
      if !reachable || !ClaimLanded(db.runs[id], run, owner, later) {
        return Err(Unavailable);
      }
      return Ok(db.runs[id]);
    }

    method Renew(id: nat, owner: nat, generation: nat, lease: int, now: int, commit: Commit) returns (r: Result<Run>)
      requires Inv(db)
      modifies this
      ensures Inv(db)
      ensures db == if commit == Lost then old(db) else BackupRuns.Renew(old(db), id, owner, generation, lease, now).0
      ensures r == if commit == Reported || BackupRuns.Renew(old(db), id, owner, generation, lease, now).1.Err?
                   then BackupRuns.Renew(old(db), id, owner, generation, lease, now).1 else Err(Unavailable)
    {
      DoKeepsInv(db, DoRenew(id, owner, generation, lease, now));
      if id == 0 || !ValidLease(owner, lease) || generation < 1 {
        return Err(Invalid);
      }
      if id !in db.runs {
        return Err(NotFound);
      }
      var current := db.runs[id];
      if !Held(current, owner, generation, now) || Terminal(current.state) {
        return Err(StaleOwner);
      }
      var run := current.(lease := Some(Micros(now + lease)));
      if commit != Lost {
        db := db.(runs := db.runs[id := run]);
      }
      return if commit == Reported then Ok(run) else Err(Unavailable);
    }

    /** As for Claim: success is never reported for a transition that was lost. */
    method Transition(input: TransitionInput, now: int, commit: Commit, later: int, reachable: bool)
      returns (r: Result<Run>)
      requires Inv(db)
      modifies this
      ensures Inv(db)
      ensures db == old(db) || db == BackupRuns.Transition(old(db), input, now).0
      ensures r.Ok? ==> (db, r) == BackupRuns.Transition(old(db), input, now)
      ensures commit == Reported ==> (db, r) == BackupRuns.Transition(old(db), input, now)
      ensures commit == Lost ==> db == old(db) && r.Err?
      ensures commit == Unreported && reachable && (Terminal(input.to) || Leased(old(db), input.run, later)) ==>
                (db, r) == BackupRuns.Transition(old(db), input, now)
    {
      DoKeepsInv(db, DoTransition(input, now));
      var bad := TransitionError(input);
      if bad.Some? {
        return Err(bad.value);
      }
      if input.run !in db.runs {
        return Err(NotFound);
      }
      var current := db.runs[input.run];
      if !Held(current, input.owner, input.generation, now) {
        return Err(StaleOwner);
      }
      if current.state != input.from {
        return Err(InvalidTransition);
      }
      var run := Moved(current, input);
      TransitionMoves(input);
      if commit != Lost {
        db := db.(runs := db.runs[input.run := run]);
      }
      if commit == Reported {
        return Ok(run);
      }
      if !reachable || !TransitionLanded(db.runs[input.run], run, input, later) {
        return Err(Unavailable);
      }
      return Ok(db.runs[input.run]);
    }

    method AddArtifact(a: ArtifactInput, now: int, commit: Commit) returns (r: Result<()>)
      requires Inv(db)
      modifies this
      ensures Inv(db)
      ensures db == if commit == Lost then old(db) else BackupRuns.AddArtifact(old(db), a, now).0
      ensures r == if commit == Reported || BackupRuns.AddArtifact(old(db), a, now).1.Err?
                   then BackupRuns.AddArtifact(old(db), a, now).1 else Err(Unavailable)
    {
      DoKeepsInv(db, DoAddArtifact(a, now));
      if !ValidArtifact(a) {
        return Err(Invalid);
      }
      if a.slot.run !in db.runs {
        return Err(NotFound);
      }
      if !Held(db.runs[a.slot.run], a.owner, a.generation, now) {
        return Err(StaleOwner);
      }
      var row := Rounded(a.values);
      if a.slot in db.artifacts && db.artifacts[a.slot] != row {
        return Err(Invalid);
      }
      if a.slot !in db.artifacts && commit != Lost {
        db := db.(artifacts := db.artifacts[a.slot := row]);
      }
      return if commit == Reported then Ok(()) else Err(Unavailable);
    }
  }

  lemma {:induction false} TransitionMoves(input: TransitionInput)
    requires TransitionError(input).None?
    ensures input.from != input.to
  {
  }
}
