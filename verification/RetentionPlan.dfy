/**
 From database rows and the repository's inventory to the snapshots that are deleted:
 cmd/backup-retention/main.go and internal/backup/retention_executor.go. Instants count from the
 zero time and run identifiers from the nil identifier, so 0 is "unset" in both.
 */
module RetentionPlan {
  import opened Common
  import opened BackupModel
  import opened Retention
  import opened Sorting

  datatype Row = Row(
    run: nat,
    trigger: Trigger,
    state: State,
    requestedAt: int,
    present: bool,
    kind: Kind,
    repository: Repository,
    artifactSnapshot: string,
    runSnapshot: string
  )

  datatype Plan = Plan(candidates: seq<string>, committed: seq<string>, current: string, lastGood: string)

  predicate ValidSnapshot(id: string) {
    |id| == 64 && forall i :: 0 <= i < |id| ==> '0' <= id[i] <= '9' || 'a' <= id[i] <= 'f'
  }

  predicate TerminalSuccess(state: State, r: Repository) {
    state == Succeeded || (r == Local && state == Degraded)
  }

  predicate StateAllowed(row: Row, current: nat) {
    if row.run == current then row.state == Syncing || (row.repository == Local && row.state == Verifying)
    else TerminalSuccess(row.state, row.repository)
  }

  // ---------------------------------------------------------------- what well-formed rows are

  predicate RowOk(row: Row, r: Repository, current: nat) {
    && row.run != 0 && row.repository == r && row.requestedAt != 0 && row.present
    && ValidSnapshot(row.artifactSnapshot) && row.artifactSnapshot == row.runSnapshot
    && StateAllowed(row, current) && row.kind != RecoveryReport
  }

  predicate SameRun(a: Row, b: Row) {
    a.trigger == b.trigger && a.state == b.state && a.requestedAt == b.requestedAt && a.repository == b.repository
    && a.runSnapshot == b.runSnapshot
  }

  /** Two rows of one run differ in kind only; rows of two runs never share a snapshot. */
  predicate Compatible(a: Row, b: Row) {
    if a.run == b.run then SameRun(a, b) && a.kind != b.kind else a.runSnapshot != b.runSnapshot
  }

  predicate GoodRow(rows: seq<Row>, n: nat, r: Repository, current: nat)
    requires n < |rows|
  {
    RowOk(rows[n], r, current) && forall j :: 0 <= j < n ==> Compatible(rows[j], rows[n])
  }

  predicate GoodRows(rows: seq<Row>, n: nat, r: Repository, current: nat)
    requires n <= |rows|
  {
    forall k :: 0 <= k < n ==> GoodRow(rows, k, r, current)
  }

  predicate HasKind(rows: seq<Row>, run: nat, kind: Kind) {
    exists row :: row in rows && row.run == run && row.kind == kind
  }

  predicate Complete(rows: seq<Row>) {
    forall row, kind :: row in rows && kind != RecoveryReport ==> HasKind(rows, row.run, kind)
  }

  predicate Backed(rows: seq<Row>, r: Repository, a: Artifact) {
    a.repository == r ==> exists row :: row in rows && row.run == a.run && row.runSnapshot == a.snapshot
  }

  predicate HasRun(rows: seq<Row>, run: nat) {
    exists row :: row in rows && row.run == run
  }

  /** Everything buildRetentionRepositoryState insists on. */
  predicate WellFormed(rows: seq<Row>, candidates: seq<Artifact>, r: Repository, current: nat) {
    && current != 0 && GoodRows(rows, |rows|, r, current) && Complete(rows) && HasRun(rows, current)
    && forall a :: a in candidates ==> Backed(rows, r, a)
  }

  /** Which runs may stand in the tables: finished ones, and the current one before it ends. */
  lemma {:induction false} RowMeans(row: Row, r: Repository, current: nat)
    ensures RowOk(row, r, current) <==>
              && row.run != 0 && row.requestedAt != 0 && row.present && row.repository == r
              && row.kind in {DatabaseDump, ObjectSnapshot, Manifest} && row.artifactSnapshot == row.runSnapshot
              && |row.runSnapshot| == 64 && (forall c :: c in row.runSnapshot ==> c in "0123456789abcdef")
              && (row.state, r) in (if row.run == current then {(Syncing, Local), (Syncing, Remote), (Verifying, Local)}
                                    else {(Succeeded, Local), (Succeeded, Remote), (Degraded, Local)})
  {
    var id := row.runSnapshot;
    forall i | 0 <= i < |id|
      ensures id[i] in "0123456789abcdef" <==> '0' <= id[i] <= '9' || 'a' <= id[i] <= 'f'
    {
      HexDigit(id[i]);
    }
  }

  lemma {:induction false} HexDigit(c: char)
    ensures c in "0123456789abcdef" <==> '0' <= c <= '9' || 'a' <= c <= 'f'
  {
    var digits := "0123456789abcdef";
    assert '0' <= c <= '9' ==> digits[c as int - '0' as int] == c;
    assert 'a' <= c <= 'f' ==> digits[10 + (c as int - 'a' as int)] == c;
  }

  /** In well-formed rows a run has each of its three artifacts exactly once, all of one snapshot. */
  lemma {:induction false} EachKindOnce(rows: seq<Row>, candidates: seq<Artifact>, r: Repository, current: nat,
                                        run: nat, kind: Kind)
    requires WellFormed(rows, candidates, r, current) && HasRun(rows, run) && kind != RecoveryReport
    ensures HasKind(rows, run, kind)
    ensures forall i, j :: 0 <= i < |rows| && 0 <= j < |rows| && rows[i].run == run && rows[j].run == run ==>
              rows[i].runSnapshot == rows[j].runSnapshot && (rows[i].kind == rows[j].kind ==> i == j)
  {
    var row :| row in rows && row.run == run;
    forall i, j | 0 <= i < |rows| && 0 <= j < |rows| && rows[i].run == run && rows[j].run == run
      ensures rows[i].runSnapshot == rows[j].runSnapshot && (rows[i].kind == rows[j].kind ==> i == j)
    {
      assert GoodRow(rows, i, r, current) && GoodRow(rows, j, r, current);
    }
  }

  // ---------------------------------------------------------------- folding the rows

  datatype Info = Info(first: Row, kinds: set<Kind>)

  datatype Tables = Tables(byRun: map<nat, Info>, owners: map<string, nat>, order: seq<nat>)

  /** The tests on one row alone and on the tables, in the order the loop makes them. */
  predicate Accepts(t: Tables, row: Row, r: Repository, current: nat) {
    && row.run != 0 && row.repository == r && row.requestedAt != 0 && row.present
    && ValidSnapshot(row.artifactSnapshot) && row.artifactSnapshot == row.runSnapshot
    && StateAllowed(row, current)
    && (if row.run !in t.byRun then row.runSnapshot in t.owners ==> t.owners[row.runSnapshot] == row.run
        else SameRun(t.byRun[row.run].first, row))
    && row.kind != RecoveryReport
    && (row.run in t.byRun ==> row.kind !in t.byRun[row.run].kinds)
  }

  function AddRow(t: Tables, row: Row): Tables
    requires row.kind != RecoveryReport
  {
    if row.run !in t.byRun then
      Tables(t.byRun[row.run := Info(row, {row.kind})], t.owners[row.runSnapshot := row.run], t.order + [row.run])
    else
      var info := t.byRun[row.run];
      t.(byRun := t.byRun[row.run := info.(kinds := info.kinds + {row.kind})])
  }

  ghost predicate RunsListed(t: Tables, rows: seq<Row>, n: nat)
    requires n <= |rows|
  {
    forall j :: 0 <= j < n ==>
      && rows[j].run in t.byRun && SameRun(t.byRun[rows[j].run].first, rows[j])
      && rows[j].kind != RecoveryReport && rows[j].kind in t.byRun[rows[j].run].kinds
  }

  ghost predicate InfoFounded(t: Tables, rows: seq<Row>, n: nat)
    requires n <= |rows|
  {
    && (forall run :: run in t.byRun ==> exists j :: 0 <= j < n && rows[j] == t.byRun[run].first && rows[j].run == run)
    && (forall run, kind :: run in t.byRun && kind in t.byRun[run].kinds ==>
          exists j :: 0 <= j < n && rows[j].run == run && rows[j].kind == kind)
  }

  ghost predicate OwnersListed(t: Tables, rows: seq<Row>, n: nat)
    requires n <= |rows|
  {
    && (forall j :: 0 <= j < n ==> rows[j].runSnapshot in t.owners && t.owners[rows[j].runSnapshot] == rows[j].run)
    && (forall s :: s in t.owners ==> exists j :: 0 <= j < n && rows[j].runSnapshot == s && rows[j].run == t.owners[s])
  }

  ghost predicate Describes(t: Tables, rows: seq<Row>, n: nat)
    requires n <= |rows|
  {
    RunsListed(t, rows, n) && InfoFounded(t, rows, n) && OwnersListed(t, rows, n)
  }

  /** The runs in the order of their first rows. */
  function RunOrder(rows: seq<Row>, n: nat): seq<nat>
    requires n <= |rows|
  {
    if n == 0 then []
    else if exists j :: 0 <= j < n - 1 && rows[j].run == rows[n - 1].run then RunOrder(rows, n - 1)
    else RunOrder(rows, n - 1) + [rows[n - 1].run]
  }

  /** A row the tables refuse is a row that clashes with an earlier one, and conversely. */
  lemma {:induction false} RefusedRowsClash(t: Tables, rows: seq<Row>, n: nat, r: Repository, current: nat)
    requires n < |rows| && Describes(t, rows, n)
    ensures Accepts(t, rows[n], r, current) <==> GoodRow(rows, n, r, current)
  {
    var row := rows[n];
    if row.kind != RecoveryReport {
      if row.run in t.byRun {
        KnownRunClash(t, rows, n);
      } else {
        NewRunClash(t, rows, n);
      }
    }
  }

  lemma {:induction false} NewRunClash(t: Tables, rows: seq<Row>, n: nat)
    requires n < |rows| && RunsListed(t, rows, n) && OwnersListed(t, rows, n)
    requires rows[n].run !in t.byRun
    ensures
      var row := rows[n];
      (row.runSnapshot in t.owners ==> t.owners[row.runSnapshot] == row.run) <==>
          forall j :: 0 <= j < n ==> Compatible(rows[j], row)
  {
  }

  lemma {:induction false} KnownRunClash(t: Tables, rows: seq<Row>, n: nat)
    requires n < |rows| && RunsListed(t, rows, n) && OwnersListed(t, rows, n) && InfoFounded(t, rows, n)
    requires rows[n].run in t.byRun && rows[n].kind != RecoveryReport
    ensures
      var row := rows[n];
      SameRun(t.byRun[row.run].first, row) && row.kind !in t.byRun[row.run].kinds
      <==> forall j :: 0 <= j < n ==> Compatible(rows[j], row)
  {
    var row := rows[n];
    if SameRun(t.byRun[row.run].first, row) && row.kind !in t.byRun[row.run].kinds {
      KnownRunFits(t, rows, n);
    }
    if forall j :: 0 <= j < n ==> Compatible(rows[j], row) {
      var i :| 0 <= i < n && rows[i] == t.byRun[row.run].first && rows[i].run == row.run;
      assert Compatible(rows[i], row);
    }
  }

  lemma {:induction false} KnownRunFits(t: Tables, rows: seq<Row>, n: nat)
    requires n < |rows| && RunsListed(t, rows, n) && OwnersListed(t, rows, n) && InfoFounded(t, rows, n)
    requires rows[n].run in t.byRun && SameRun(t.byRun[rows[n].run].first, rows[n])
        && rows[n].kind !in t.byRun[rows[n].run].kinds
    ensures forall j :: 0 <= j < n ==> Compatible(rows[j], rows[n])
  {
    var row := rows[n];
    var i :| 0 <= i < n && rows[i] == t.byRun[row.run].first && rows[i].run == row.run;
    assert t.owners[rows[i].runSnapshot] == row.run;
    forall j | 0 <= j < n
      ensures Compatible(rows[j], row)
    {
      RowsFit(t, rows[j], row);
    }
  }

  lemma {:induction false} RowsFit(t: Tables, other: Row, row: Row)
    requires other.run in t.byRun && SameRun(t.byRun[other.run].first, other) && other.kind in t.byRun[other.run].kinds
    requires row.run in t.byRun && SameRun(t.byRun[row.run].first, row) && row.kind !in t.byRun[row.run].kinds
    requires other.runSnapshot in t.owners && t.owners[other.runSnapshot] == other.run
    requires row.runSnapshot in t.owners && t.owners[row.runSnapshot] == row.run
    ensures Compatible(other, row)
  {
  }

  lemma {:induction false} AddRowDescribes(t: Tables, rows: seq<Row>, n: nat, t': Tables, m: nat)
    requires n < |rows| && rows[n].kind != RecoveryReport
    requires rows[n].run in t.byRun ==> SameRun(t.byRun[rows[n].run].first, rows[n])
    requires rows[n].run !in t.byRun && rows[n].runSnapshot in t.owners ==> t.owners[rows[n].runSnapshot] == rows[n].run
    requires t' == AddRow(t, rows[n]) && m == n + 1
    ensures Describes(t, rows, n) ==> Describes(t', rows, m)
  {
    if Describes(t, rows, n) {
      AddRowLists(t, rows, n);
      AddRowFounds(t, rows, n);
      AddRowOwns(t, rows, n);
    }
  }

  lemma {:induction false} AddRowOrders(t: Tables, rows: seq<Row>, n: nat)
    requires n < |rows| && RunsListed(t, rows, n) && InfoFounded(t, rows, n) && t.order == RunOrder(rows, n)
        && rows[n].kind != RecoveryReport
    ensures AddRow(t, rows[n]).order == RunOrder(rows, n + 1)
  {
    assert rows[n].run in t.byRun <==> exists j :: 0 <= j < n && rows[j].run == rows[n].run;
  }

  lemma {:induction false} AddRowLists(t: Tables, rows: seq<Row>, n: nat)
    requires n < |rows| && RunsListed(t, rows, n) && rows[n].kind != RecoveryReport
    requires rows[n].run in t.byRun ==> SameRun(t.byRun[rows[n].run].first, rows[n])
    ensures RunsListed(AddRow(t, rows[n]), rows, n + 1)
  {
  }

  lemma {:induction false} AddRowFounds(t: Tables, rows: seq<Row>, n: nat)
    requires n < |rows| && InfoFounded(t, rows, n) && rows[n].kind != RecoveryReport
    ensures InfoFounded(AddRow(t, rows[n]), rows, n + 1)
  {
    var t' := AddRow(t, rows[n]);
    forall run | run in t'.byRun
      ensures exists j :: 0 <= j < n + 1 && rows[j] == t'.byRun[run].first && rows[j].run == run
    {
      if run in t.byRun {
        var j :| 0 <= j < n && rows[j] == t.byRun[run].first && rows[j].run == run;
      }
    }
    forall run, kind | run in t'.byRun && kind in t'.byRun[run].kinds
      ensures exists j :: 0 <= j < n + 1 && rows[j].run == run && rows[j].kind == kind
    {
      if run in t.byRun && kind in t.byRun[run].kinds {
        var j :| 0 <= j < n && rows[j].run == run && rows[j].kind == kind;
      } else {
        assert rows[n].run == run && rows[n].kind == kind;
      }
    }
  }

  lemma {:induction false} AddRowOwns(t: Tables, rows: seq<Row>, n: nat)
    requires n < |rows| && InfoFounded(t, rows, n) && OwnersListed(t, rows, n) && rows[n].kind != RecoveryReport
    requires rows[n].run in t.byRun ==> SameRun(t.byRun[rows[n].run].first, rows[n])
    requires rows[n].run !in t.byRun && rows[n].runSnapshot in t.owners ==> t.owners[rows[n].runSnapshot] == rows[n].run
    ensures OwnersListed(AddRow(t, rows[n]), rows, n + 1)
  {
    var owners := AddRow(t, rows[n]).owners;
    var row := rows[n];
    assert row.runSnapshot in owners && owners[row.runSnapshot] == row.run;
    forall s | s in owners
      ensures exists j :: 0 <= j < n + 1 && rows[j].runSnapshot == s && rows[j].run == owners[s]
    {
      if s == row.runSnapshot {
        assert rows[n].run == owners[s];
      } else {
        var j :| 0 <= j < n && rows[j].runSnapshot == s && rows[j].run == t.owners[s];
      }
    }
  }

  /** The tables after the first n rows, None once a row was refused. */
  function Fold(rows: seq<Row>, n: nat, r: Repository, current: nat): Option<Tables>
    requires n <= |rows|
  {
    if n == 0 then Some(Tables(map[], map[], []))
    else
      var t := Fold(rows, n - 1, r, current);
      if t.Some? && Accepts(t.value, rows[n - 1], r, current) then Some(AddRow(t.value, rows[n - 1])) else None
  }

  lemma {:induction false} FoldDescribes(rows: seq<Row>, n: nat, r: Repository, current: nat, t: Tables)
    requires n <= |rows| && Fold(rows, n, r, current) == Some(t)
    ensures Describes(t, rows, n)
  {
    if n > 0 {
      var t0 := FoldStep(rows, n, r, current, t);
      AddRowDescribes(t0, rows, n - 1, t, n);
      FoldDescribes(rows, n - 1, r, current, t0);
    } else {
      EmptyDescribes(rows);
    }
  }

  lemma {:induction false} FoldOrders(rows: seq<Row>, n: nat, r: Repository, current: nat, t: Tables)
    requires n <= |rows| && Fold(rows, n, r, current) == Some(t)
    ensures t.order == RunOrder(rows, n)
  {
    if n > 0 {
      var t0 := FoldStep(rows, n, r, current, t);
      FoldOrders(rows, n - 1, r, current, t0);
      FoldDescribes(rows, n - 1, r, current, t0);
      AddRowOrders(t0, rows, n - 1);
    }
  }

  lemma {:induction false} EmptyDescribes(rows: seq<Row>)
    ensures Describes(Tables(map[], map[], []), rows, 0)
  {
  }

  lemma {:induction false} FoldStep(rows: seq<Row>, n: nat, r: Repository, current: nat, t: Tables) returns (t0: Tables)
    requires 0 < n <= |rows| && Fold(rows, n, r, current) == Some(t)
    ensures Fold(rows, n - 1, r, current) == Some(t0) && Accepts(t0, rows[n - 1], r, current)
        && t == AddRow(t0, rows[n - 1])
  {
    t0 := Fold(rows, n - 1, r, current).value;
  }

  /** The row loop finishes exactly on pairwise compatible rows. */
  lemma {:induction false} FoldMeans(rows: seq<Row>, n: nat, r: Repository, current: nat)
    requires n <= |rows|
    ensures Fold(rows, n, r, current).Some? <==> GoodRows(rows, n, r, current)
  {
    if n > 0 {
      FoldMeans(rows, n - 1, r, current);
      GoodRowsStep(rows, n - 1, r, current);
      if Fold(rows, n - 1, r, current).Some? {
        FoldAccepts(rows, n - 1, r, current);
      }
    }
  }

  lemma {:induction false} FoldAccepts(rows: seq<Row>, n: nat, r: Repository, current: nat)
    requires n < |rows| && Fold(rows, n, r, current).Some?
    ensures Accepts(Fold(rows, n, r, current).value, rows[n], r, current) <==> GoodRow(rows, n, r, current)
  {
    FoldDescribes(rows, n, r, current, Fold(rows, n, r, current).value);
    RefusedRowsClash(Fold(rows, n, r, current).value, rows, n, r, current);
  }

  lemma {:induction false} GoodRowsStep(rows: seq<Row>, n: nat, r: Repository, current: nat)
    requires n < |rows|
    ensures GoodRows(rows, n + 1, r, current) <==> GoodRows(rows, n, r, current) && GoodRow(rows, n, r, current)
  {
  }

  lemma {:induction false} FoldStaysNone(rows: seq<Row>, m: nat, n: nat, r: Repository, current: nat)
    requires m <= n <= |rows| && Fold(rows, m, r, current).None?
    ensures Fold(rows, n, r, current).None?
  {
    if m < n {
      FoldStaysNone(rows, m, n - 1, r, current);
    }
  }

  /** The row loop. */
  method FoldRows(rows: seq<Row>, r: Repository, current: nat) returns (tables: Option<Tables>)
    ensures tables == Fold(rows, |rows|, r, current)
  {
    var t := Tables(map[], map[], []);
    for i := 0 to |rows|
      invariant Fold(rows, i, r, current) == Some(t)
    {
      if !Accepts(t, rows[i], r, current) {
        FoldStaysNone(rows, i + 1, |rows|, r, current);
        return None;
      }
      t := AddRow(t, rows[i]);
    }
    return Some(t);
  }

  // ---------------------------------------------------------------- reading the tables

  /** What the rest of the function uses of the tables. */
  ghost predicate Indexed(t: Tables, rows: seq<Row>) {
    && (forall row :: row in rows ==> row.run in t.byRun && row.runSnapshot == t.byRun[row.run].first.runSnapshot)
    && (forall run :: run in t.byRun ==> t.byRun[run].first in rows && t.byRun[run].first.run == run)
  }

  lemma {:induction false} DescribesIndexed(t: Tables, rows: seq<Row>)
    requires RunsListed(t, rows, |rows|) && InfoFounded(t, rows, |rows|)
    ensures Indexed(t, rows)
  {
    forall run | run in t.byRun
      ensures t.byRun[run].first in rows && t.byRun[run].first.run == run
    {
      var j :| 0 <= j < |rows| && rows[j] == t.byRun[run].first && rows[j].run == run;
      assert rows[j] in rows;
    }
  }

  lemma {:induction false} KindsListed(t: Tables, rows: seq<Row>, run: nat, kind: Kind)
    requires RunsListed(t, rows, |rows|) && InfoFounded(t, rows, |rows|) && run in t.byRun
    ensures kind in t.byRun[run].kinds <==> HasKind(rows, run, kind)
  {
    if kind in t.byRun[run].kinds {
      var j :| 0 <= j < |rows| && rows[j].run == run && rows[j].kind == kind;
      assert rows[j] in rows;
    }
    if HasKind(rows, run, kind) {
      var row :| row in rows && row.run == run && row.kind == kind;
      var j :| 0 <= j < |rows| && rows[j] == row;
    }
  }

  lemma {:induction false} ThreeKinds(kinds: set<Kind>)
    requires RecoveryReport !in kinds
    ensures |kinds| == 3 <==> DatabaseDump in kinds && ObjectSnapshot in kinds && Manifest in kinds
  {
    var all := {DatabaseDump, ObjectSnapshot, Manifest};
    forall kind | kind in kinds
      ensures kind in all
    {
      match kind
      case DatabaseDump =>
      case ObjectSnapshot =>
      case Manifest =>
      case RecoveryReport =>
    }
    assert all == kinds + (all - kinds);
    assert |all| == |kinds| + |all - kinds|;
    if |kinds| == 3 {
      assert all - kinds == {};
    } else {
      assert kinds != all;
    }
  }

  ghost predicate HasAllKinds(rows: seq<Row>, run: nat) {
    HasKind(rows, run, DatabaseDump) && HasKind(rows, run, ObjectSnapshot) && HasKind(rows, run, Manifest)
  }

  lemma {:induction false} FoldIndexes(rows: seq<Row>, r: Repository, current: nat)
    requires Fold(rows, |rows|, r, current).Some?
    ensures
      var t := Fold(rows, |rows|, r, current).value;
      && Indexed(t, rows) && t.order == RunOrder(rows, |rows|)
      && (forall run :: run in t.byRun ==> (|t.byRun[run].kinds| == 3 <==> HasAllKinds(rows, run)))
  {
    var t := Fold(rows, |rows|, r, current).value;
    FoldDescribes(rows, |rows|, r, current, t);
    FoldOrders(rows, |rows|, r, current, t);
    DescribesIndexed(t, rows);
    forall run | run in t.byRun
      ensures |t.byRun[run].kinds| == 3 <==> HasAllKinds(rows, run)
    {
      ThreeKinds(t.byRun[run].kinds);
      KindsListed(t, rows, run, DatabaseDump);
      KindsListed(t, rows, run, ObjectSnapshot);
      KindsListed(t, rows, run, Manifest);
    }
  }

  // ---------------------------------------------------------------- the repository state

  /** The first row of another run, in the order the rows come. */
  ghost predicate FirstOther(rows: seq<Row>, i: int, current: nat) {
    0 <= i < |rows| && rows[i].run != current && forall j :: 0 <= j < i ==> rows[j].run == current
  }

  ghost predicate LastGoodOf(last: string, now: string, rows: seq<Row>, current: nat) {
    if forall row :: row in rows ==> row.run == current then last == now
    else exists i :: FirstOther(rows, i, current) && last == rows[i].runSnapshot
  }

  ghost predicate StateOf(plan: Plan, rows: seq<Row>, candidates: seq<Artifact>, r: Repository, current: nat) {
    && (forall row :: row in rows && row.run == current ==> plan.current == row.runSnapshot)
    && LastGoodOf(plan.lastGood, plan.current, rows, current)
    && (forall s :: s in plan.committed <==> exists row :: row in rows && row.runSnapshot == s)
    && |plan.committed| == |RunOrder(rows, |rows|)|
    && Sorted(plan.candidates)
    && (forall s :: s in plan.candidates <==> exists a :: a in candidates && a.repository == r && a.snapshot == s)
  }

  lemma {:induction false} RunOrderMembers(rows: seq<Row>, n: nat)
    requires n <= |rows|
    ensures forall run :: run in RunOrder(rows, n) <==> exists j :: 0 <= j < n && rows[j].run == run
  {
    if n > 0 {
      RunOrderMembers(rows, n - 1);
    }
  }

  lemma {:induction false} RunOrderExtends(rows: seq<Row>, m: nat, n: nat)
    requires m <= n <= |rows|
    ensures RunOrder(rows, m) <= RunOrder(rows, n)
  {
    if m < n {
      RunOrderExtends(rows, m, n - 1);
    }
  }

  ghost predicate FirstOtherRun(order: seq<nat>, p: int, current: nat) {
    0 <= p < |order| && order[p] != current && forall q :: 0 <= q < p ==> order[q] == current
  }

  /** The first other run in the order is the run of the first other row. */
  lemma {:induction false} FirstOtherInOrder(rows: seq<Row>, i: nat, current: nat)
    requires FirstOther(rows, i, current)
    ensures FirstOtherRun(RunOrder(rows, |rows|), |RunOrder(rows, i)|, current)
    ensures RunOrder(rows, |rows|)[|RunOrder(rows, i)|] == rows[i].run
  {
    var before, order := RunOrder(rows, i), RunOrder(rows, |rows|);
    RunOrderMembers(rows, i);
    RunOrderExtends(rows, i + 1, |rows|);
    assert RunOrder(rows, i + 1) == before + [rows[i].run];
    assert forall q :: 0 <= q < |before| ==> before[q] in before;
    assert order[|before|] == rows[i].run;
  }

  lemma {:induction false} FirstOtherExists(rows: seq<Row>, k: nat, current: nat) returns (i: nat)
    requires k < |rows| && rows[k].run != current
    ensures FirstOther(rows, i, current)
  {
    i := 0;
    while rows[i].run == current
      invariant i <= k && forall j :: 0 <= j < i ==> rows[j].run == current
      decreases k - i
    {
      i := i + 1;
    }
  }

  ghost predicate OrderIndexed(t: Tables, r: Repository, current: nat) {
    forall p :: 0 <= p < |t.order| ==>
      && t.order[p] in t.byRun
      && (t.order[p] != current ==> TerminalSuccess(t.byRun[t.order[p]].first.state, r))
  }

  lemma {:induction false} OrderIsIndexed(t: Tables, rows: seq<Row>, r: Repository, current: nat)
    requires Indexed(t, rows) && t.order == RunOrder(rows, |rows|) && GoodRows(rows, |rows|, r, current)
    ensures OrderIndexed(t, r, current)
  {
    RunOrderMembers(rows, |rows|);
    forall p | 0 <= p < |t.order|
      ensures t.order[p] in t.byRun && (t.order[p] != current ==> TerminalSuccess(t.byRun[t.order[p]].first.state, r))
    {
      assert t.order[p] in t.order;
      var j :| 0 <= j < |rows| && rows[j].run == t.order[p];
      assert rows[j] in rows;
      TerminalUnlessCurrent(rows, t.byRun[t.order[p]].first, r, current);
    }
  }

  lemma {:induction false} TerminalUnlessCurrent(rows: seq<Row>, row: Row, r: Repository, current: nat)
    requires GoodRows(rows, |rows|, r, current) && row in rows
    ensures row.run == current || TerminalSuccess(row.state, r)
  {
    var j :| 0 <= j < |rows| && rows[j] == row;
    assert GoodRow(rows, j, r, current);
  }

  /** The loop over runOrder: the committed snapshots and the last good one. */
  method ScanOrder(t: Tables, r: Repository, current: nat) returns (committed: seq<string>, lastGood: Option<string>)
    requires OrderIndexed(t, r, current)
    ensures |committed| == |t.order|
    ensures forall p :: 0 <= p < |t.order| ==> committed[p] == t.byRun[t.order[p]].first.runSnapshot
    ensures lastGood.None? ==> forall p :: 0 <= p < |t.order| ==> t.order[p] == current
    ensures lastGood.Some? ==> exists p :: FirstOtherRun(t.order, p, current) && lastGood.value == committed[p]
  {
    committed, lastGood := [], None;
    for i := 0 to |t.order|
      invariant |committed| == i
      invariant forall p :: 0 <= p < i ==> committed[p] == t.byRun[t.order[p]].first.runSnapshot
      invariant lastGood.None? ==> forall p :: 0 <= p < i ==> t.order[p] == current
      invariant lastGood.Some? ==> exists p :: FirstOtherRun(t.order[..i], p, current) && lastGood.value == committed[p]
    {
      var run := t.byRun[t.order[i]].first;
      committed := committed + [run.runSnapshot];
      if t.order[i] != current && lastGood == None && TerminalSuccess(run.state, r) {
        lastGood := Some(run.runSnapshot);
        assert FirstOtherRun(t.order[..i + 1], i, current);
      } else if lastGood.Some? {
        ghost var p :| FirstOtherRun(t.order[..i], p, current) && lastGood.value == committed[p];
        assert FirstOtherRun(t.order[..i + 1], p, current);
      }
    }
    assert t.order[..|t.order|] == t.order;
  }

  /** The loop over the candidate artifacts. */
  method CollectCandidates(t: Tables, ghost rows: seq<Row>, candidates: seq<Artifact>, r: Repository)
    returns (ids: Option<set<string>>)
    requires Indexed(t, rows)
    ensures ids.Some? <==> forall a :: a in candidates ==> Backed(rows, r, a)
    ensures ids.Some? ==> forall s :: s in ids.value <==>
        exists a :: a in candidates && a.repository == r && a.snapshot == s
  {
    var found: set<string> := {};
    for i := 0 to |candidates|
      invariant forall a :: a in candidates[..i] ==> Backed(rows, r, a)
      invariant forall s :: s in found <==> exists a :: a in candidates[..i] && a.repository == r && a.snapshot == s
    {
      var a := candidates[i];
      BackedInTables(t, rows, r, a);
      assert candidates[..i + 1] == candidates[..i] + [a];
      if a.repository == r {
        if a.run !in t.byRun || a.snapshot != t.byRun[a.run].first.runSnapshot {
          assert a in candidates;
          return None;
        }
        found := found + {a.snapshot};
      }
    }
    assert candidates[..|candidates|] == candidates;
    return Some(found);
  }

  lemma {:induction false} BackedInTables(t: Tables, rows: seq<Row>, r: Repository, a: Artifact)
    requires Indexed(t, rows)
    ensures Backed(rows, r, a) <==>
        (a.repository == r ==> a.run in t.byRun && a.snapshot == t.byRun[a.run].first.runSnapshot)
  {
  }

  method Finish(t: Tables, ghost rows: seq<Row>, r: Repository, current: nat) returns (plan: Plan)
    requires Indexed(t, rows) && t.order == RunOrder(rows, |rows|) && GoodRows(rows, |rows|, r, current)
        && current in t.byRun
    ensures forall row :: row in rows && row.run == current ==> plan.current == row.runSnapshot
    ensures LastGoodOf(plan.lastGood, plan.current, rows, current)
    ensures forall s :: s in plan.committed <==> exists row :: row in rows && row.runSnapshot == s
    ensures |plan.committed| == |RunOrder(rows, |rows|)|
  {
    OrderIsIndexed(t, rows, r, current);
    var committed, lastGood := ScanOrder(t, r, current);
    var now := t.byRun[current].first.runSnapshot;
    CommittedAreSnapshots(t, rows, committed);
    LastGoodIsFirstOther(t, rows, committed, current, lastGood);
    plan := Plan([], committed, now, if lastGood.Some? then lastGood.value else now);
  }

  /** buildRetentionRepositoryState: it succeeds exactly on well-formed rows. */
  method BuildState(rows: seq<Row>, candidates: seq<Artifact>, r: Repository, current: nat) returns (plan: Option<Plan>)
    ensures plan.Some? <==> WellFormed(rows, candidates, r, current)
    ensures plan.Some? ==> StateOf(plan.value, rows, candidates, r, current)
  {
    if current == 0 {
      return None;
    }
    var folded := FoldRows(rows, r, current);
    FoldMeans(rows, |rows|, r, current);
    if folded.None? {
      return None;
    }
    var t := folded.value;
    FoldIndexes(rows, r, current);
    CompleteInTables(t, rows);
    if (exists run :: run in t.byRun && |t.byRun[run].kinds| != 3) || current !in t.byRun {
      return None;
    }
    var state := Finish(t, rows, r, current);
    var ids := CollectCandidates(t, rows, candidates, r);
    if ids.None? {
      return None;
    }
    var sorted := SortedKeys(ids.value);
    return Some(state.(candidates := sorted));
  }

  lemma {:induction false} CompleteInTables(t: Tables, rows: seq<Row>)
    requires Indexed(t, rows)
    requires forall run :: run in t.byRun ==> (|t.byRun[run].kinds| == 3 <==> HasAllKinds(rows, run))
    ensures (exists run :: run in t.byRun && |t.byRun[run].kinds| != 3) <==> !Complete(rows)
    ensures forall run :: run in t.byRun <==> HasRun(rows, run)
  {
    if forall run :: run in t.byRun ==> HasAllKinds(rows, run) {
      forall row, kind | row in rows && kind != RecoveryReport
        ensures HasKind(rows, row.run, kind)
      {
        assert HasAllKinds(rows, row.run);
        match kind
        case DatabaseDump =>
        case ObjectSnapshot =>
        case Manifest =>
        case RecoveryReport =>
      }
    }
  }

  lemma {:induction false} CommittedAreSnapshots(t: Tables, rows: seq<Row>, committed: seq<string>)
    requires Indexed(t, rows) && t.order == RunOrder(rows, |rows|) && |committed| == |t.order|
    requires forall p :: 0 <= p < |t.order| ==>
        t.order[p] in t.byRun && committed[p] == t.byRun[t.order[p]].first.runSnapshot
    ensures forall s :: s in committed <==> exists row :: row in rows && row.runSnapshot == s
  {
    RunOrderMembers(rows, |rows|);
    forall row | row in rows
      ensures row.runSnapshot in committed
    {
      var j :| 0 <= j < |rows| && rows[j] == row;
      assert row.run in t.order;
      var p :| 0 <= p < |t.order| && t.order[p] == row.run;
      assert committed[p] == row.runSnapshot;
    }
    forall s | s in committed
      ensures exists row :: row in rows && row.runSnapshot == s
    {
      var p :| 0 <= p < |committed| && committed[p] == s;
      assert t.byRun[t.order[p]].first in rows;
    }
  }

  lemma {:induction false} LastGoodIsFirstOther(t: Tables, rows: seq<Row>, committed: seq<string>, current: nat,
                                                lastGood: Option<string>)
    requires Indexed(t, rows) && t.order == RunOrder(rows, |rows|) && |committed| == |t.order| && current in t.byRun
    requires forall p :: 0 <= p < |t.order| ==>
        t.order[p] in t.byRun && committed[p] == t.byRun[t.order[p]].first.runSnapshot
    requires lastGood.None? ==> forall p :: 0 <= p < |t.order| ==> t.order[p] == current
    requires lastGood.Some? ==> exists p :: FirstOtherRun(t.order, p, current) && lastGood.value == committed[p]
    ensures
      var now := t.byRun[current].first.runSnapshot;
      LastGoodOf(if lastGood.Some? then lastGood.value else now, now, rows, current)
  {
    if k :| 0 <= k < |rows| && rows[k].run != current {
      var i := FirstOtherExists(rows, k, current);
      FirstOtherInOrder(rows, i, current);
      assert lastGood.Some?;
      assert rows[i] in rows && rows[k] in rows;
      assert lastGood.value == rows[i].runSnapshot;
    } else {
      NoOtherInOrder(rows, current);
    }
  }

  lemma {:induction false} NoOtherInOrder(rows: seq<Row>, current: nat)
    requires forall k :: 0 <= k < |rows| ==> rows[k].run == current
    ensures forall row :: row in rows ==> row.run == current
    ensures forall p :: !FirstOtherRun(RunOrder(rows, |rows|), p, current)
  {
    RunOrderMembers(rows, |rows|);
    var order := RunOrder(rows, |rows|);
    assert forall p :: 0 <= p < |order| ==> order[p] in order;
  }
}
