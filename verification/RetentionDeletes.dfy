/**
 The delete plan and its execution (internal/backup/retention_executor.go), and what a whole
 retention run does to the repository.
 */
module RetentionDeletes {
  import opened Common
  import opened BackupModel
  import opened Retention
  import opened RetentionPlan
  import opened Sorting

  const DELETE_BATCH_LIMIT := 128

  /** Seconds of the 24 hours an uncommitted snapshot is left alone. */
  const ORPHAN_AGE := 24 * 3600

  /** `batch` is the run identifier of the snapshot's single well-formed batch tag, if it has one. */
  datatype Snapshot = Snapshot(id: string, createdAt: int, batch: Option<nat>)

  predicate BatchTagged(s: Snapshot) {
    s.batch.Some? && s.batch.value != 0
  }

  // ---------------------------------------------------------------- normalised identifiers

  /** normalizeSnapshotIDs: validates, drops repetitions and sorts. */
  method Normalize(values: seq<string>) returns (ids: Option<seq<string>>)
    ensures ids.Some? <==> forall v :: v in values ==> ValidSnapshot(v)
    ensures ids.Some? ==> Sorted(ids.value) && forall v :: v in ids.value <==> v in values
  {
    var seen: set<string> := {};
    for i := 0 to |values|
      invariant forall v :: v in values[..i] ==> ValidSnapshot(v)
      invariant forall v :: v in seen <==> v in values[..i]
    {
      if !ValidSnapshot(values[i]) {
        assert values[i] in values;
        return None;
      }
      assert values[..i + 1] == values[..i] + [values[i]];
      seen := seen + {values[i]};
    }
    assert values[..|values|] == values;
    var sorted := SortedKeys(seen);
    return Some(sorted);
  }

  // ---------------------------------------------------------------- the plan, declaratively

  predicate Listed(snapshots: seq<Snapshot>, id: string) {
    exists s :: s in snapshots && s.id == id
  }

  predicate SnapshotOk(s: Snapshot, now: int) {
    ValidSnapshot(s.id) && s.createdAt != 0 && s.createdAt <= now
  }

  predicate InventoryOk(snapshots: seq<Snapshot>, now: int) {
    && (forall s :: s in snapshots ==> SnapshotOk(s, now))
    && (forall i, j :: 0 <= i < j < |snapshots| ==> snapshots[i].id != snapshots[j].id)
  }

  predicate AllValid(ids: seq<string>) {
    forall id :: id in ids ==> ValidSnapshot(id)
  }

  /** The state names only valid identifiers and only committed snapshots. */
  predicate StateOk(plan: Plan) {
    && AllValid(plan.candidates) && AllValid(plan.committed)
    && plan.current in plan.committed && plan.lastGood in plan.committed
    && forall id :: id in plan.candidates ==> id in plan.committed
  }

  /** Nothing that is to be retained is missing from the repository. */
  predicate NothingLost(plan: Plan, snapshots: seq<Snapshot>) {
    && Listed(snapshots, plan.current) && Listed(snapshots, plan.lastGood)
    && forall id :: id in plan.committed && id !in plan.candidates ==> Listed(snapshots, id)
  }

  predicate Plannable(plan: Plan, snapshots: seq<Snapshot>, now: int) {
    now != 0 && StateOk(plan) && InventoryOk(snapshots, now) && NothingLost(plan, snapshots)
  }

  predicate Orphan(plan: Plan, s: Snapshot, now: int) {
    s.id !in plan.committed && BatchTagged(s) && s.createdAt < now - ORPHAN_AGE
  }

  predicate Doomed(plan: Plan, s: Snapshot, now: int) {
    s.id != plan.current && s.id != plan.lastGood && (s.id in plan.candidates || Orphan(plan, s, now))
  }

  // ---------------------------------------------------------------- the plan, as computed

  ghost predicate InventoryOf(inventory: map<string, Snapshot>, snapshots: seq<Snapshot>) {
    && (forall s :: s in snapshots ==> s.id in inventory && inventory[s.id] == s)
    && (forall id :: id in inventory ==> inventory[id] in snapshots && inventory[id].id == id)
  }

  method BuildInventory(snapshots: seq<Snapshot>, now: int) returns (inventory: Option<map<string, Snapshot>>)
    ensures inventory.Some? <==> InventoryOk(snapshots, now)
    ensures inventory.Some? ==> InventoryOf(inventory.value, snapshots)
  {
    var found: map<string, Snapshot> := map[];
    for i := 0 to |snapshots|
      invariant InventoryOk(snapshots[..i], now) && InventoryOf(found, snapshots[..i])
    {
      var s := snapshots[i];
      assert snapshots[..i + 1] == snapshots[..i] + [s];
      assert s in snapshots;
      if !SnapshotOk(s, now) {
        return None;
      }
      if s.id in found {
        RepeatedId(snapshots, i, found[s.id], now);
        return None;
      }
      OneMoreSnapshot(snapshots[..i], s, found, now);
      found := found[s.id := s];
    }
    assert snapshots[..|snapshots|] == snapshots;
    return Some(found);
  }

  lemma {:induction false} RepeatedId(snapshots: seq<Snapshot>, i: nat, earlier: Snapshot, now: int)
    requires i < |snapshots| && earlier in snapshots[..i] && earlier.id == snapshots[i].id
    ensures !InventoryOk(snapshots, now)
  {
    var j :| 0 <= j < i && snapshots[..i][j] == earlier;
    assert snapshots[j].id == snapshots[i].id;
  }

  lemma {:induction false} OneMoreSnapshot(snapshots: seq<Snapshot>, s: Snapshot, found: map<string, Snapshot>,
                                           now: int)
    requires InventoryOk(snapshots, now) && InventoryOf(found, snapshots) && SnapshotOk(s, now) && s.id !in found
    ensures InventoryOk(snapshots + [s], now) && InventoryOf(found[s.id := s], snapshots + [s])
  {
    var more := snapshots + [s];
    forall i, j | 0 <= i < j < |more|
      ensures more[i].id != more[j].id
    {
      assert snapshots[i] in snapshots;
    }
  }

  /** The three tests of the state against the normalised lists. */
  method CheckState(plan: Plan) returns (ok: bool)
    ensures ok <==> StateOk(plan)
  {
    var candidates := Normalize(plan.candidates);
    if candidates.None? {
      return false;
    }
    var committed := Normalize(plan.committed);
    if committed.None? {
      return false;
    }
    if !ValidSnapshot(plan.current) || !ValidSnapshot(plan.lastGood) {
      return false;
    }
    ok := plan.current in committed.value && plan.lastGood in committed.value
          && forall id :: id in candidates.value ==> id in committed.value;
  }

  /** PlanRetentionDeletes: which states it refuses and, otherwise, exactly what it deletes. */
  method PlanDeletes(plan: Plan, snapshots: seq<Snapshot>, now: int) returns (deletes: Option<seq<string>>)
    ensures deletes.Some? <==> Plannable(plan, snapshots, now)
    ensures deletes.Some? ==> Sorted(deletes.value)
    ensures deletes.Some? ==> forall id :: id in deletes.value <==>
        exists s :: s in snapshots && s.id == id && Doomed(plan, s, now)
  {
    if now == 0 {
      return None;
    }
    var stateOk := CheckState(plan);
    if !stateOk {
      return None;
    }
    var built := BuildInventory(snapshots, now);
    if built.None? {
      return None;
    }
    var inventory := built.value;
    assert forall id :: id in inventory <==> Listed(snapshots, id);
    if plan.current !in inventory || plan.lastGood !in inventory {
      return None;
    }
    if exists id :: id in plan.committed && id !in plan.candidates && id !in inventory {
      return None;
    }
    var ids := DeleteSet(plan, inventory, now);
    DeleteSetMeans(plan, snapshots, inventory, now);
    var sorted := SortedKeys(ids);
    return Some(sorted);
  }

  /** The candidates present, plus the orphans, minus the two protected snapshots. */
  function DeletedIds(plan: Plan, inventory: map<string, Snapshot>, now: int): set<string> {
    (set id | id in inventory && Doomed(plan, inventory[id].(id := id), now))
  }

  method DeleteSet(plan: Plan, inventory: map<string, Snapshot>, now: int) returns (ids: set<string>)
    requires forall id :: id in inventory ==> inventory[id].id == id
    ensures ids == DeletedIds(plan, inventory, now)
  {
    ids := set id | id in plan.candidates && id in inventory;
    var rest := inventory.Keys;
    while rest != {}
      invariant rest <= inventory.Keys
      invariant forall id :: id in ids <==>
          id in inventory && (id in plan.candidates || (id !in rest && Orphan(plan, inventory[id], now)))
      decreases rest
    {
      var id :| id in rest;
      var s := inventory[id];
      if id !in plan.committed && BatchTagged(s) && s.createdAt < now - ORPHAN_AGE {
        ids := ids + {id};
      }
      rest := rest - {id};
    }
    ids := ids - {plan.current};
    ids := ids - {plan.lastGood};
  }

  lemma {:induction false} DeleteSetMeans(plan: Plan, snapshots: seq<Snapshot>, inventory: map<string, Snapshot>,
                                          now: int)
    requires InventoryOf(inventory, snapshots)
    ensures forall id :: id in DeletedIds(plan, inventory, now) <==>
        exists s :: s in snapshots && s.id == id && Doomed(plan, s, now)
  {
  }

  // ---------------------------------------------------------------- forgetting

  function Ids(ids: seq<string>): set<string> {
    set id | id in ids
  }

  /** The concatenation of the identifier lists of the commands. */
  function Joined(commands: seq<seq<string>>): seq<string> {
    if commands == [] then [] else Joined(commands[..|commands| - 1]) + commands[|commands| - 1]
  }

  predicate Batched(commands: seq<seq<string>>) {
    forall i :: 0 <= i < |commands| ==> 0 < |commands[i]| <= 128
  }

  /** A restic repository: its snapshots and the forget commands it was given. */
  class Repo {
    var ids: set<string>
    var commands: seq<seq<string>>

    constructor (initial: set<string>)
      ensures ids == initial && commands == []
    {
      ids, commands := initial, [];
    }

    /** A successful forget removes what it names; a failed one may have removed any part of it. */
    method Forget(batch: seq<string>, succeeds: bool, partial: set<string>)
      modifies this
      ensures commands == old(commands) + [batch]
      ensures succeeds ==> ids == old(ids) - Ids(batch)
      ensures old(ids) - Ids(batch) <= ids <= old(ids)
    {
      commands := commands + [batch];
      ids := ids - (if succeeds then Ids(batch) else Ids(batch) * partial);
    }

    /**
     ForgetRetentionSnapshots: every identifier once, in batches of at most 128, stopping at the
     first failure. The script says which commands succeed.
     */
    method ForgetAll(values: seq<string>, script: nat -> bool, partial: set<string>) returns (ok: bool)
      requires commands == []
      modifies this
      ensures ok <==> AllValid(values) && forall k: nat :: k < |commands| ==> script(k)
      ensures forall k: nat :: k + 1 < |commands| ==> script(k)
      ensures !AllValid(values) ==> ids == old(ids) && commands == []
      ensures old(ids) - Ids(values) <= ids <= old(ids)
      ensures Batched(commands) && Sorted(Joined(commands)) && Ids(Joined(commands)) <= Ids(values)
      ensures commands != [] ==> ids <= old(ids) - Ids(Joined(commands[..|commands| - 1]))
      ensures ok ==> ids == old(ids) - Ids(values) && Ids(Joined(commands)) == Ids(values)
    {
      var normal := Normalize(values);
      if normal.None? {
        return false;
      }
      assert Ids(normal.value) == Ids(values);
      ok := ForgetBatches(normal.value, script, partial);
    }

    method ForgetBatches(list: seq<string>, script: nat -> bool, partial: set<string>) returns (ok: bool)
      requires commands == [] && Sorted(list)
      modifies this
      ensures ok <==> forall k: nat :: k < |commands| ==> script(k)
      ensures forall k: nat :: k + 1 < |commands| ==> script(k)
      ensures old(ids) - Ids(list) <= ids <= old(ids)
      ensures Batched(commands) && Sorted(Joined(commands)) && Ids(Joined(commands)) <= Ids(list)
      ensures commands != [] ==> ids <= old(ids) - Ids(Joined(commands[..|commands| - 1]))
      ensures ok ==> ids == old(ids) - Ids(list) && Joined(commands) == list
    {
      var start := 0;
      while start < |list|
        invariant 0 <= start <= |list|
        invariant Joined(commands) == list[..start] && Batched(commands)
        invariant ids == old(ids) - Ids(list[..start])
        invariant forall k: nat :: k < |commands| ==> script(k)
      {
        var end := if start + DELETE_BATCH_LIMIT > |list| then |list| else start + DELETE_BATCH_LIMIT;
        ghost var before := commands;
        var succeeds := script(|commands|);
        Forget(list[start..end], succeeds, partial);
        BatchForgotten(list, start, end, before, commands);
        if !succeeds {
          assert !script(|commands| - 1);
          return false;
        }
        start := end;
      }
      assert list[..start] == list;
      LessWithoutLast(commands);
      return true;
    }
  }

  lemma {:induction false} LessWithoutLast(commands: seq<seq<string>>)
    ensures commands != [] ==> Ids(Joined(commands[..|commands| - 1])) <= Ids(Joined(commands))
  {
  }

  /** One more command joins one more slice of the sorted list. */
  lemma {:induction false} BatchForgotten(list: seq<string>, start: nat, end: nat, before: seq<seq<string>>,
                                          commands: seq<seq<string>>)
    requires start <= end <= |list| && Sorted(list) && Joined(before) == list[..start]
    requires commands == before + [list[start..end]]
    ensures commands[..|commands| - 1] == before && Joined(commands) == list[..end] && Sorted(list[..end])
    ensures Ids(list[..end]) == Ids(list[..start]) + Ids(list[start..end])
    ensures Ids(list[..end]) <= Ids(list) && Ids(list[start..end]) <= Ids(list)
  {
    assert commands[..|commands| - 1] == before;
    assert list[..end] == list[..start] + list[start..end];
  }

  // ---------------------------------------------------------------- a whole retention run

  /** The run has a recovery point in r that the policy does not keep. */
  ghost predicate RunDropped(points: seq<Point>, policy: Policy, r: Repository, run: nat) {
    var groups := Groups(points, |points|);
    Key(run, r) in groups && !KeptKey(groups, policy, Key(run, r))
  }

  lemma {:induction false} ArtifactsAt(points: seq<Point>, n: nat, keys: set<Key>, a: Artifact)
    requires n <= |points| && a in ArtifactsOf(points, n, keys)
    ensures exists p :: p in points && p.artifact == a && KeyOf(p) in keys
  {
    if points[n - 1].artifact == a && KeyOf(points[n - 1]) in keys {
      assert points[n - 1] in points;
    } else {
      ArtifactsAt(points, n - 1, keys, a);
    }
  }

  /** An artifact the selector returned belongs to a run the policy drops. */
  lemma {:induction false} CandidatesAreDropped(points: seq<Point>, policy: Policy, selected: seq<Artifact>,
                                                a: Artifact)
    requires forall p :: p in points ==> p.artifact.run == p.run
    requires
      var groups := Groups(points, |points|);
      multiset(selected) == multiset(ArtifactsOf(points, |points|, groups.Keys - KeptKeys(groups, policy)))
    requires a in selected
    ensures RunDropped(points, policy, a.repository, a.run)
  {
    CandidateIsDropped(points, policy, selected, a);
  }

  lemma {:induction false} DroppedArtifactsAreCandidates(points: seq<Point>, n: nat, keys: set<Key>, p: Point)
    requires n <= |points| && p in points[..n] && KeyOf(p) in keys
    ensures p.artifact in ArtifactsOf(points, n, keys)
  {
    if points[n - 1] != p {
      assert points[..n] == points[..n - 1] + [points[n - 1]];
      DroppedArtifactsAreCandidates(points, n - 1, keys, p);
    }
  }

  lemma {:induction false} GoodRowsDisjoint(rows: seq<Row>, r: Repository, current: nat, a: Row, b: Row)
    requires GoodRows(rows, |rows|, r, current) && a in rows && b in rows && a.runSnapshot == b.runSnapshot
    ensures a.run == b.run
  {
    var i :| 0 <= i < |rows| && rows[i] == a;
    var j :| 0 <= j < |rows| && rows[j] == b;
    if i < j {
      assert GoodRow(rows, j, r, current);
    } else {
      assert GoodRow(rows, i, r, current);
    }
  }

  /** No snapshot of a run the policy does not drop is a candidate. */
  lemma {:induction false} KeptRunsAreNoCandidates(
    points: seq<Point>, policy: Policy, selected: seq<Artifact>, rows: seq<Row>, r: Repository, current: nat,
    plan: Plan, row: Row)
    requires forall p :: p in points ==> p.artifact.run == p.run
    requires
      var groups := Groups(points, |points|);
      multiset(selected) == multiset(ArtifactsOf(points, |points|, groups.Keys - KeptKeys(groups, policy)))
    requires WellFormed(rows, selected, r, current) && StateOf(plan, rows, selected, r, current)
    requires row in rows && row.runSnapshot in plan.candidates
    ensures RunDropped(points, policy, r, row.run)
  {
    var a :| a in selected && a.repository == r && a.snapshot == row.runSnapshot;
    assert Backed(rows, r, a);
    var owner :| owner in rows && owner.run == a.run && owner.runSnapshot == a.snapshot;
    GoodRowsDisjoint(rows, r, current, owner, row);
    CandidatesAreDropped(points, policy, selected, a);
  }

  ghost predicate Dropped(points: seq<Point>, policy: Policy, r: Repository, row: Row) {
    RunDropped(points, policy, r, row.run)
  }

  /** Tagged by some run, more than a day old, and of no recorded run. */
  ghost predicate OldOrphan(rows: seq<Row>, s: Snapshot, now: int) {
    && s.batch.Some? && s.batch.value != 0 && s.createdAt < now - 86_400
    && forall row :: row in rows ==> row.runSnapshot != s.id
  }

  /** What makes a deletion legitimate: a dropped run's snapshot, or an old batch-tagged orphan. */
  ghost predicate Justified(
    points: seq<Point>, policy: Policy, rows: seq<Row>, r: Repository, current: nat, snapshots: seq<Snapshot>,
    id: string)
  {
    || (exists row :: row in rows && row.runSnapshot == id && row.run != current && Dropped(points, policy, r, row))
    || (exists s :: s in snapshots && s.id == id && OldOrphan(rows, s, policy.now))
  }

  lemma {:induction false} DeletesAreJustified(
    points: seq<Point>, policy: Policy, selected: seq<Artifact>, rows: seq<Row>, r: Repository, current: nat,
    plan: Plan, snapshots: seq<Snapshot>, s: Snapshot)
    requires forall p :: p in points ==> p.artifact.run == p.run
    requires
      var groups := Groups(points, |points|);
      multiset(selected) == multiset(ArtifactsOf(points, |points|, groups.Keys - KeptKeys(groups, policy)))
    requires WellFormed(rows, selected, r, current) && StateOf(plan, rows, selected, r, current) && StateOk(plan)
    requires s in snapshots && Doomed(plan, s, policy.now)
    ensures Justified(points, policy, rows, r, current, snapshots, s.id)
  {
    if s.id in plan.candidates {
      var row :| row in rows && row.runSnapshot == s.id;
      KeptRunsAreNoCandidates(points, policy, selected, rows, r, current, plan, row);
      assert row.run != current;
    }
  }

  /** The first row of a run other than the current one, or the current run's when there is none. */
  ghost predicate LastGoodRow(rows: seq<Row>, current: nat, row: Row) {
    if forall other :: other in rows ==> other.run == current then row in rows
    else exists i :: FirstOther(rows, i, current) && row == rows[i]
  }

  /** What must survive: the current run, the last good one and every run the policy does not drop. */
  ghost predicate MustSurvive(points: seq<Point>, policy: Policy, rows: seq<Row>, r: Repository, current: nat,
                              row: Row) {
    row in rows && (row.run == current || LastGoodRow(rows, current, row) || !RunDropped(points, policy, r, row.run))
  }

  lemma {:induction false} FirstOtherIsUnique(rows: seq<Row>, i: int, j: int, current: nat)
    requires FirstOther(rows, i, current) && FirstOther(rows, j, current)
    ensures i == j
  {
  }

  lemma {:induction false} SurvivorsAreSpared(
    points: seq<Point>, policy: Policy, selected: seq<Artifact>, rows: seq<Row>, r: Repository, current: nat,
    plan: Plan, snapshots: seq<Snapshot>, row: Row)
    requires forall p :: p in points ==> p.artifact.run == p.run
    requires
      var groups := Groups(points, |points|);
      multiset(selected) == multiset(ArtifactsOf(points, |points|, groups.Keys - KeptKeys(groups, policy)))
    requires WellFormed(rows, selected, r, current) && StateOf(plan, rows, selected, r, current)
    requires Plannable(plan, snapshots, policy.now) && MustSurvive(points, policy, rows, r, current, row)
    ensures Listed(snapshots, row.runSnapshot)
    ensures forall s :: s in snapshots && s.id == row.runSnapshot ==> !Doomed(plan, s, policy.now)
  {
    assert row.runSnapshot in plan.committed;
    if row.run == current {
      assert row.runSnapshot == plan.current;
    } else if LastGoodRow(rows, current, row) {
      var i :| FirstOther(rows, i, current) && row == rows[i];
      var j :| FirstOther(rows, j, current) && plan.lastGood == rows[j].runSnapshot;
      FirstOtherIsUnique(rows, i, j, current);
    } else if row.runSnapshot in plan.candidates {
      KeptRunsAreNoCandidates(points, policy, selected, rows, r, current, plan, row);
    }
  }

  /** A point, in repository r, of a run the policy drops. */
  ghost predicate DroppedPoint(points: seq<Point>, policy: Policy, r: Repository, p: Point) {
    p in points && p.artifact.repository == r && RunDropped(points, policy, r, p.run)
  }

  lemma {:induction false} DroppedPointsAreDoomed(
    points: seq<Point>, policy: Policy, selected: seq<Artifact>, rows: seq<Row>, r: Repository, current: nat,
    plan: Plan, p: Point, s: Snapshot)
    requires
      var groups := Groups(points, |points|);
      multiset(selected) == multiset(ArtifactsOf(points, |points|, groups.Keys - KeptKeys(groups, policy)))
    requires StateOf(plan, rows, selected, r, current)
    requires DroppedPoint(points, policy, r, p) && s.id == p.artifact.snapshot
    ensures Doomed(plan, s, policy.now) || s.id == plan.current || s.id == plan.lastGood
  {
    DroppedIsCandidate(points, policy, selected, r, p);
  }

  function ListedIds(snapshots: seq<Snapshot>): set<string> {
    set s | s in snapshots :: s.id
  }

  /** Every candidate the policy drops is backed by a row. */
  ghost predicate DroppedAreBacked(points: seq<Point>, policy: Policy, rows: seq<Row>, r: Repository) {
    forall p :: DroppedPoint(points, policy, r, p) ==> Backed(rows, r, p.artifact)
  }

  /** Everything that must survive is in the repository. */
  ghost predicate SurvivorsListed(
    points: seq<Point>, policy: Policy, rows: seq<Row>, r: Repository, current: nat, snapshots: seq<Snapshot>)
  {
    forall row :: MustSurvive(points, policy, rows, r, current, row) ==> Listed(snapshots, row.runSnapshot)
  }

  /** Exactly when a retention run goes ahead. */
  ghost predicate GoesAhead(
    points: seq<Point>, policy: Policy, rows: seq<Row>, r: Repository, current: nat, snapshots: seq<Snapshot>)
  {
    && (forall p :: p in points ==> p.present)
    && current != 0 && GoodRows(rows, |rows|, r, current) && Complete(rows) && HasRun(rows, current)
    && DroppedAreBacked(points, policy, rows, r)
    && policy.now != 0 && InventoryOk(snapshots, policy.now)
    && SurvivorsListed(points, policy, rows, r, current, snapshots)
  }

  lemma {:induction false} CandidateIsDropped(points: seq<Point>, policy: Policy, selected: seq<Artifact>, a: Artifact)
    requires
      var groups := Groups(points, |points|);
      multiset(selected) == multiset(ArtifactsOf(points, |points|, groups.Keys - KeptKeys(groups, policy)))
    requires a in selected
    ensures exists p :: DroppedPoint(points, policy, a.repository, p) && p.artifact == a
  {
    var groups := Groups(points, |points|);
    var keys := groups.Keys - KeptKeys(groups, policy);
    assert a in multiset(selected);
    ArtifactsAt(points, |points|, keys, a);
    var p :| p in points && p.artifact == a && KeyOf(p) in keys;
    assert DroppedPoint(points, policy, a.repository, p);
  }

  lemma {:induction false} DroppedIsCandidate(
    points: seq<Point>, policy: Policy, selected: seq<Artifact>, r: Repository, p: Point)
    requires
      var groups := Groups(points, |points|);
      multiset(selected) == multiset(ArtifactsOf(points, |points|, groups.Keys - KeptKeys(groups, policy)))
    requires DroppedPoint(points, policy, r, p)
    ensures p.artifact in selected
  {
    var groups := Groups(points, |points|);
    assert points[..|points|] == points;
    DroppedArtifactsAreCandidates(points, |points|, groups.Keys - KeptKeys(groups, policy), p);
    assert p.artifact in multiset(selected);
  }

  /** The candidates are backed exactly when the dropped points are. */
  lemma {:induction false} BackedAlike(
    points: seq<Point>, policy: Policy, selected: seq<Artifact>, rows: seq<Row>, r: Repository)
    requires
      var groups := Groups(points, |points|);
      multiset(selected) == multiset(ArtifactsOf(points, |points|, groups.Keys - KeptKeys(groups, policy)))
    ensures (forall a :: a in selected ==> Backed(rows, r, a)) <==> DroppedAreBacked(points, policy, rows, r)
  {
    if DroppedAreBacked(points, policy, rows, r) {
      forall a | a in selected
        ensures Backed(rows, r, a)
      {
        CandidateIsDropped(points, policy, selected, a);
      }
    }
    if forall a :: a in selected ==> Backed(rows, r, a) {
      forall p | DroppedPoint(points, policy, r, p)
        ensures Backed(rows, r, p.artifact)
      {
        DroppedIsCandidate(points, policy, selected, r, p);
      }
    }
  }

  lemma {:induction false} GroupHasPoint(points: seq<Point>, n: nat, k: Key)
    requires n <= |points| && k in Groups(points, n)
    ensures exists p :: p in points && KeyOf(p) == k
  {
    if KeyOf(points[n - 1]) == k {
      assert points[n - 1] in points;
    } else {
      GroupHasPoint(points, n - 1, k);
    }
  }

  /** The snapshot of a run the policy drops is a candidate. */
  lemma {:induction false} DroppedRunIsCandidate(
    points: seq<Point>, policy: Policy, selected: seq<Artifact>, rows: seq<Row>, r: Repository, current: nat,
    plan: Plan, row: Row)
    requires forall p :: p in points ==> p.artifact.run == p.run
    requires
      var groups := Groups(points, |points|);
      multiset(selected) == multiset(ArtifactsOf(points, |points|, groups.Keys - KeptKeys(groups, policy)))
    requires WellFormed(rows, selected, r, current) && StateOf(plan, rows, selected, r, current)
    requires row in rows && RunDropped(points, policy, r, row.run)
    ensures row.runSnapshot in plan.candidates
  {
    GroupHasPoint(points, |points|, Key(row.run, r));
    var p :| p in points && KeyOf(p) == Key(row.run, r);
    DroppedIsCandidate(points, policy, selected, r, p);
    assert Backed(rows, r, p.artifact);
    var backing :| backing in rows && backing.run == p.artifact.run && backing.runSnapshot == p.artifact.snapshot;
    OneSnapshotPerRun(rows, r, current, backing, row);
  }

  lemma {:induction false} OneSnapshotPerRun(rows: seq<Row>, r: Repository, current: nat, a: Row, b: Row)
    requires GoodRows(rows, |rows|, r, current) && a in rows && b in rows && a.run == b.run
    ensures a.runSnapshot == b.runSnapshot
  {
    var i :| 0 <= i < |rows| && rows[i] == a;
    var j :| 0 <= j < |rows| && rows[j] == b;
    if i < j {
      assert GoodRow(rows, j, r, current);
    } else if j < i {
      assert GoodRow(rows, i, r, current);
    }
  }

  /** A state built from good rows names valid and committed snapshots only. */
  lemma {:induction false} BuiltStateIsOk(
    rows: seq<Row>, selected: seq<Artifact>, r: Repository, current: nat, plan: Plan, now: Row, last: Row)
    requires WellFormed(rows, selected, r, current) && StateOf(plan, rows, selected, r, current)
    requires now in rows && now.runSnapshot == plan.current && last in rows && last.runSnapshot == plan.lastGood
    ensures StateOk(plan)
  {
    forall id | id in plan.committed
      ensures ValidSnapshot(id)
    {
      var row :| row in rows && row.runSnapshot == id;
      var j :| 0 <= j < |rows| && rows[j] == row;
      assert GoodRow(rows, j, r, current);
    }
    forall id | id in plan.candidates
      ensures id in plan.committed
    {
      var a :| a in selected && a.repository == r && a.snapshot == id;
      assert Backed(rows, r, a);
    }
  }

  /** For a built state, planning succeeds exactly when the inventory is sound and nothing is lost. */
  lemma {:induction false} PlannableMeans(
    points: seq<Point>, policy: Policy, selected: seq<Artifact>, rows: seq<Row>, r: Repository, current: nat,
    plan: Plan, snapshots: seq<Snapshot>)
    requires forall p :: p in points ==> p.artifact.run == p.run
    requires
      var groups := Groups(points, |points|);
      multiset(selected) == multiset(ArtifactsOf(points, |points|, groups.Keys - KeptKeys(groups, policy)))
    requires WellFormed(rows, selected, r, current) && StateOf(plan, rows, selected, r, current)
    ensures
      Plannable(plan, snapshots, policy.now) <==>
        && policy.now != 0 && InventoryOk(snapshots, policy.now)
        && SurvivorsListed(points, policy, rows, r, current, snapshots)
  {
    if Plannable(plan, snapshots, policy.now) {
      forall row | MustSurvive(points, policy, rows, r, current, row)
        ensures Listed(snapshots, row.runSnapshot)
      {
        SurvivorsAreSpared(points, policy, selected, rows, r, current, plan, snapshots, row);
      }
    }
    if SurvivorsListed(points, policy, rows, r, current, snapshots) {
      NothingIsLost(points, policy, selected, rows, r, current, plan, snapshots);
    }
  }

  lemma {:induction false} NothingIsLost(
    points: seq<Point>, policy: Policy, selected: seq<Artifact>, rows: seq<Row>, r: Repository, current: nat,
    plan: Plan, snapshots: seq<Snapshot>)
    requires forall p :: p in points ==> p.artifact.run == p.run
    requires
      var groups := Groups(points, |points|);
      multiset(selected) == multiset(ArtifactsOf(points, |points|, groups.Keys - KeptKeys(groups, policy)))
    requires WellFormed(rows, selected, r, current) && StateOf(plan, rows, selected, r, current)
    requires SurvivorsListed(points, policy, rows, r, current, snapshots)
    ensures StateOk(plan) && NothingLost(plan, snapshots)
  {
    ProtectedHaveRows(points, policy, selected, rows, r, current, plan);
    var now :| MustSurvive(points, policy, rows, r, current, now) && now.runSnapshot == plan.current;
    var last :| MustSurvive(points, policy, rows, r, current, last) && last.runSnapshot == plan.lastGood;
    BuiltStateIsOk(rows, selected, r, current, plan, now, last);
    forall id | id in plan.committed && id !in plan.candidates
      ensures Listed(snapshots, id)
    {
      var row :| row in rows && row.runSnapshot == id;
      if RunDropped(points, policy, r, row.run) {
        DroppedRunIsCandidate(points, policy, selected, rows, r, current, plan, row);
      }
      assert MustSurvive(points, policy, rows, r, current, row);
    }
  }

  /** The stages up to the plan, with what the plan means in terms of rows and policy. */
  method PlanRun(points: seq<Point>, policy: Policy, rows: seq<Row>, r: Repository, current: nat,
                 snapshots: seq<Snapshot>)
    returns (deletes: Option<seq<string>>)
    requires forall p :: p in points ==> p.artifact.run == p.run
    ensures deletes.Some? <==> GoesAhead(points, policy, rows, r, current, snapshots)
    ensures deletes.Some? ==> AllValid(deletes.value)
    ensures deletes.Some? ==> forall id :: id in deletes.value ==>
        Justified(points, policy, rows, r, current, snapshots, id)
    ensures deletes.Some? ==> forall row :: MustSurvive(points, policy, rows, r, current, row) ==>
      row.runSnapshot in ListedIds(snapshots) && row.runSnapshot !in deletes.value
    ensures deletes.Some? ==> forall s :: s in snapshots && OldOrphan(rows, s, policy.now) ==> s.id in deletes.value
    ensures deletes.Some? ==>
        forall p :: DroppedPoint(points, policy, r, p) && p.artifact.snapshot in ListedIds(snapshots) ==>
      || p.artifact.snapshot in deletes.value
      || exists row :: MustSurvive(points, policy, rows, r, current, row) && row.runSnapshot == p.artifact.snapshot
  {
    var selected := SelectCandidates(points, policy);
    if selected.None? {
      return None;
    }
    var state := BuildState(rows, selected.value, r, current);
    BackedAlike(points, policy, selected.value, rows, r);
    if state.None? {
      return None;
    }
    PlannableMeans(points, policy, selected.value, rows, r, current, state.value, snapshots);
    deletes := PlanDeletes(state.value, snapshots, policy.now);
    if deletes.Some? {
      PlanMeans(points, policy, selected.value, rows, r, current, state.value, snapshots, deletes.value);
    }
  }

  lemma {:induction false} OrphansAreDoomed(
    rows: seq<Row>, selected: seq<Artifact>, r: Repository, current: nat, plan: Plan, s: Snapshot, now: int)
    requires WellFormed(rows, selected, r, current) && StateOf(plan, rows, selected, r, current)
    requires OldOrphan(rows, s, now) && StateOk(plan)
    ensures Doomed(plan, s, now)
  {
  }

  lemma {:induction false} PlanMeans(
    points: seq<Point>, policy: Policy, selected: seq<Artifact>, rows: seq<Row>, r: Repository, current: nat,
    plan: Plan, snapshots: seq<Snapshot>, deletes: seq<string>)
    requires forall p :: p in points ==> p.artifact.run == p.run
    requires
      var groups := Groups(points, |points|);
      multiset(selected) == multiset(ArtifactsOf(points, |points|, groups.Keys - KeptKeys(groups, policy)))
    requires WellFormed(rows, selected, r, current) && StateOf(plan, rows, selected, r, current)
    requires Plannable(plan, snapshots, policy.now)
    requires forall id :: id in deletes <==> exists s :: s in snapshots && s.id == id && Doomed(plan, s, policy.now)
    ensures AllValid(deletes)
    ensures forall id :: id in deletes ==> Justified(points, policy, rows, r, current, snapshots, id)
    ensures forall row :: MustSurvive(points, policy, rows, r, current, row) ==>
      row.runSnapshot in ListedIds(snapshots) && row.runSnapshot !in deletes
    ensures forall s :: s in snapshots && OldOrphan(rows, s, policy.now) ==> s.id in deletes
    ensures forall p :: DroppedPoint(points, policy, r, p) && p.artifact.snapshot in ListedIds(snapshots) ==>
      || p.artifact.snapshot in deletes
      || exists row :: MustSurvive(points, policy, rows, r, current, row) && row.runSnapshot == p.artifact.snapshot
  {
    forall id | id in deletes
      ensures ValidSnapshot(id) && Justified(points, policy, rows, r, current, snapshots, id)
    {
      var s :| s in snapshots && s.id == id && Doomed(plan, s, policy.now);
      assert SnapshotOk(s, policy.now);
      DeletesAreJustified(points, policy, selected, rows, r, current, plan, snapshots, s);
    }
    forall s | s in snapshots && OldOrphan(rows, s, policy.now)
      ensures s.id in deletes
    {
      OrphansAreDoomed(rows, selected, r, current, plan, s, policy.now);
    }
    forall row | MustSurvive(points, policy, rows, r, current, row)
      ensures row.runSnapshot in ListedIds(snapshots) && row.runSnapshot !in deletes
    {
      SurvivorsAreSpared(points, policy, selected, rows, r, current, plan, snapshots, row);
    }
    forall p | DroppedPoint(points, policy, r, p) && p.artifact.snapshot in ListedIds(snapshots)
      ensures
        || p.artifact.snapshot in deletes
        || exists row :: MustSurvive(points, policy, rows, r, current, row) && row.runSnapshot == p.artifact.snapshot
    {
      var s :| s in snapshots && s.id == p.artifact.snapshot;
      DroppedPointsAreDoomed(points, policy, selected, rows, r, current, plan, p, s);
      ProtectedHaveRows(points, policy, selected, rows, r, current, plan);
    }
  }

  lemma {:induction false} ProtectedHaveRows(
    points: seq<Point>, policy: Policy, selected: seq<Artifact>, rows: seq<Row>, r: Repository, current: nat,
    plan: Plan)
    requires WellFormed(rows, selected, r, current) && StateOf(plan, rows, selected, r, current)
    ensures exists row :: MustSurvive(points, policy, rows, r, current, row) && row.runSnapshot == plan.current
    ensures exists row :: MustSurvive(points, policy, rows, r, current, row) && row.runSnapshot == plan.lastGood
  {
    var now :| now in rows && now.run == current;
    assert MustSurvive(points, policy, rows, r, current, now);
    if exists row :: row in rows && row.run != current {
      var i :| FirstOther(rows, i, current) && plan.lastGood == rows[i].runSnapshot;
      assert rows[i] in rows && LastGoodRow(rows, current, rows[i]);
      assert MustSurvive(points, policy, rows, r, current, rows[i]);
    }
  }

  /**
   A whole retention run. Whether it completes, is refused or fails half-way, it removes only
   justified snapshots and never one that must survive; once it goes ahead, everything that must
   survive is there, and when it completes nothing the policy drops and no old orphan is left.
   */
  method Run(
    repo: Repo, points: seq<Point>, policy: Policy, rows: seq<Row>, r: Repository, current: nat,
    snapshots: seq<Snapshot>, script: nat -> bool, partial: set<string>)
    returns (planned: bool, done: bool)
    requires forall p :: p in points ==> p.artifact.run == p.run
    requires repo.ids == ListedIds(snapshots) && repo.commands == []
    modifies repo
    ensures repo.ids <= old(repo.ids)
    ensures forall id :: id in old(repo.ids) && id !in repo.ids ==>
        Justified(points, policy, rows, r, current, snapshots, id)
    ensures forall row :: MustSurvive(points, policy, rows, r, current, row) && row.runSnapshot in old(repo.ids) ==>
        row.runSnapshot in repo.ids
    ensures planned ==> forall row :: MustSurvive(points, policy, rows, r, current, row) ==> row.runSnapshot in repo.ids
    ensures done ==> forall p :: DroppedPoint(points, policy, r, p) && p.artifact.snapshot in repo.ids ==>
      exists row :: MustSurvive(points, policy, rows, r, current, row) && row.runSnapshot == p.artifact.snapshot
    ensures done ==> forall s :: s in snapshots && OldOrphan(rows, s, policy.now) ==> s.id !in repo.ids
    ensures planned <==> GoesAhead(points, policy, rows, r, current, snapshots)
    ensures done <==> planned && forall k: nat :: k < |repo.commands| ==> script(k)
    ensures !planned ==> repo.ids == old(repo.ids) && repo.commands == []
  {
    var deletes := PlanRun(points, policy, rows, r, current, snapshots);
    if deletes.None? {
      return false, false;
    }
    planned := true;
    done := repo.ForgetAll(deletes.value, script, partial);
  }
}
