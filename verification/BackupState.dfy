/**
 The local state file of a backup run and how it relates to the durable row: the pure part of
 cmd/backup/main.go.
 */
module BackupState {
  import opened Common
  import opened BackupModel
  import opened BackupRuns

  const REMOTE_LIFETIME := 30 * DAY
  const LOCAL_LIFETIME := 7 * DAY

  /** workflowState; an empty time is 0, an empty evidence NO_EVIDENCE. Digests are decoded bytes. */
  datatype File = File(
    owner: nat,
    generation: nat,
    state: State,
    evidence: Evidence,
    objectSnapshot: string,
    dumpSha: string,
    dumpBytes: int,
    referenced: int,
    manifestBytes: int,
    localVerifiedAt: int,
    remoteVerifiedAt: int,
    remoteConfigured: bool,
    remoteSucceeded: bool,
    errorCategory: string
  )

  const NO_EVIDENCE := Evidence(0, "", "", "", "", None, None, 0, None)

  /** What a recovery snapshot holds, as the executor measures it and reads it back. */
  datatype Content = Content(
    batch: nat,
    migration: int,
    objectSnapshot: string,
    dumpSha: string,
    dumpBytes: nat,
    referenced: nat,
    manifestBytes: nat,
    manifestSha: string
  )

  type Archive = string -> Content

  predicate ValidFile(f: File) {
    && f.owner != 0 && f.generation >= 1
    && f.state in {Draining, Snapshotting, Encrypting, Verifying, Syncing}
    && (f.errorCategory == "" || f.errorCategory in ERROR_CATEGORIES)
  }

  // ---------------------------------------------------------------- evidence

  datatype Found = Absent | Broken | Present(evidence: Evidence)

  function Text(s: Option<string>): string {
    if s.Some? then s.value else ""
  }

  /** workflowEvidenceFromRun. */
  function EvidenceOf(c: Columns): Found {
    if c.migration.None? && Text(c.encryptionKey) == "" && Text(c.localSnapshot) == "" && Text(c.remoteSnapshot) == ""
       && Text(c.manifest) == "" && c.logical.None? && c.stored.None? && c.localExpires.None? && c.remoteExpires.None?
    then Absent
    else if c.migration.None? || c.migration.value < 1 || Text(c.encryptionKey) == "" || Text(c.localSnapshot) == ""
            || |Text(c.manifest)| != 32 || c.localExpires.None? || c.localExpires.value == 0
    then Broken
    else if (Text(c.remoteSnapshot) == "") != c.remoteExpires.None? then Broken
    else Present(Evidence(c.migration.value, Text(c.encryptionKey), Text(c.localSnapshot), Text(c.remoteSnapshot),
                          Text(c.manifest), c.logical, c.stored, c.localExpires.value, c.remoteExpires))
  }

  /** The durable evidence, completed by what only the file knows of the remote copy; None is a rejection. */
  function Merged(e: Evidence, kept: Evidence): Option<Evidence> {
    if e.remoteSnapshot != "" || e.remoteExpires.Some? then Some(e)
    else if (kept.remoteSnapshot != "") != kept.remoteExpires.Some? then None
    else if kept.remoteSnapshot == "" then Some(e)
    else if kept.remoteExpires.value == 0 then None
    else Some(e.(remoteSnapshot := kept.remoteSnapshot, remoteExpires := kept.remoteExpires))
  }

  /** resume, once the lease is held again: the repaired file, or None where the row is rejected. */
  function Reconciled(d: Run, f: File): Option<File> {
    if d.owner == 0 || d.generation < 1 || Terminal(d.state) || d.lease.None? then None
    else if d.state != f.state && !ValidTransition(f.state, d.state) then None
    else
      var moved := f.(owner := d.owner, generation := d.generation, state := d.state,
                      remoteConfigured := f.remoteConfigured || d.state == Syncing);
      var found := EvidenceOf(d.columns);
      if found.Broken? then None
      else if found.Absent? then Some(moved)
      else
        var merged := Merged(found.evidence, f.evidence);
        if merged.None? then None else Some(moved.(evidence := merged.value))
  }

  // ---------------------------------------------------------------- the invariant of row, file and artifacts

  predicate Late(s: State) {
    s == Encrypting || s == Verifying || s == Syncing
  }

  /** The file is never ahead of the row and at most one transition behind it. */
  predicate Trails(d: Run, file: Option<File>) {
    match file
    case None => d.state == Queued || d.state == Draining || Terminal(d.state)
    case Some(f) =>
      && ValidFile(f) && f.generation <= d.generation && StateStep(f.state, d.state)
      && (f.generation == d.generation && d.owner != 0 ==> f.owner == d.owner)
  }

  /** The evidence columns are complete, name a snapshot of this run and agree with its content. */
  predicate GoodColumns(id: nat, c: Columns, archive: Archive) {
    && c.migration.Some? && c.migration.value >= 1
    && c.encryptionKey.Some? && SafeOpaque(c.encryptionKey.value)
    && c.localSnapshot.Some? && SafeOpaque(c.localSnapshot.value)
    && c.manifest.Some? && |c.manifest.value| == 32 && c.logical.Some?
    && (c.stored.Some? ==> c.stored.value >= 0)
    && c.localExpires.Some? && c.localExpires.value != 0 && Micros(c.localExpires.value) == c.localExpires.value
    && c.remoteSnapshot.None? && c.remoteExpires.None?
    && var k := archive(c.localSnapshot.value);
      && k.batch == id && k.migration == c.migration.value && k.manifestSha == c.manifest.value
      && c.logical.value == k.dumpBytes + k.referenced
  }

  predicate ColumnsFit(id: nat, d: Run, archive: Archive) {
    Terminal(d.state) || (if Late(d.state) then GoodColumns(id, d.columns, archive) else d.columns == NO_COLUMNS)
  }

  predicate Measured(f: File, k: Content) {
    && f.objectSnapshot == k.objectSnapshot && f.dumpSha == k.dumpSha && f.dumpBytes == k.dumpBytes
    && f.referenced == k.referenced && f.manifestBytes == k.manifestBytes
  }

  predicate Stamp(t: int) {
    t > 0 && Micros(t) == t
  }

  /** Times of verification are on file only with everything an artifact row takes from the file. */
  predicate FileFits(d: Run, f: File, archive: Archive) {
    && ((f.evidence.remoteSnapshot != "") <==> f.remoteVerifiedAt != 0)
    && f.evidence.remoteExpires
        == (if f.remoteVerifiedAt != 0 then Some(f.remoteVerifiedAt + REMOTE_LIFETIME) else None)
    && (f.remoteVerifiedAt != 0 ==>
        d.state == Syncing && SafeOpaque(f.evidence.remoteSnapshot) && Stamp(f.remoteVerifiedAt))
    && (f.localVerifiedAt != 0 ==>
          Late(d.state) && Stamp(f.localVerifiedAt) && d.columns.localSnapshot.Some?
              && Measured(f, archive(d.columns.localSnapshot.value)))
    && (d.state == Verifying || d.state == Syncing ==> f.localVerifiedAt != 0)
    && (f.remoteConfigured ==> d.state == Syncing)
    && (f.remoteSucceeded ==> f.remoteVerifiedAt != 0 && f.errorCategory == "")
    && (f.errorCategory != "" ==> d.state == Syncing && f.errorCategory == "remote_unavailable")
  }

  /** The artifact row of a kind: digest and size from the snapshot's content. */
  function RowFor(k: Content, kind: Kind, snapshot: string, verifiedAt: int, expiresAt: int): Stored {
    match kind
    case DatabaseDump => Stored(snapshot, k.dumpSha, k.dumpBytes, verifiedAt, expiresAt)
    case ObjectSnapshot => Stored(snapshot, k.objectSnapshot, k.referenced, verifiedAt, expiresAt)
    case _ => Stored(snapshot, k.manifestSha, k.manifestBytes, verifiedAt, expiresAt)
  }

  /** The one value a row of this slot can have, given the durable row and the file. */
  function Expected(d: Run, f: File, archive: Archive, kind: Kind, repository: Repository): Stored
    requires d.columns.localSnapshot.Some? && d.columns.localExpires.Some?
  {
    var local := d.columns.localSnapshot.value;
    if repository == Local then RowFor(archive(local), kind, local, f.localVerifiedAt, d.columns.localExpires.value)
    else RowFor(archive(local), kind, f.evidence.remoteSnapshot, f.remoteVerifiedAt,
        f.remoteVerifiedAt + REMOTE_LIFETIME)
  }

  function VerifiedAt(f: File, repository: Repository): int {
    if repository == Local then f.localVerifiedAt else f.remoteVerifiedAt
  }

  /** A row exists only after its repository's verification time is on file, and has the expected value. */
  predicate RowFits(rows: map<Slot, Stored>, slot: Slot, d: Run, file: Option<File>, archive: Archive)
    requires slot in rows
  {
    && slot.kind != RecoveryReport && file.Some? && VerifiedAt(file.value, slot.repository) != 0
    && d.columns.localSnapshot.Some? && d.columns.localExpires.Some?
    && rows[slot] == Expected(d, file.value, archive, slot.kind, slot.repository)
  }

  ghost predicate RowsFit(id: nat, rows: map<Slot, Stored>, d: Run, file: Option<File>, archive: Archive) {
    forall slot :: slot in rows && slot.run == id ==> RowFits(rows, slot, d, file, archive)
  }

  /** All three recovery artifacts of one repository. */
  predicate Three(id: nat, rows: map<Slot, Stored>, repository: Repository) {
    Slot(id, DatabaseDump, repository) in rows && Slot(id, ObjectSnapshot, repository) in rows
        && Slot(id, Manifest, repository) in rows
  }

  ghost predicate Sound(id: nat, db: Db, file: Option<File>, archive: Archive) {
    && Inv(db) && id != 0 && id in db.runs
    && var d := db.runs[id];
      && Trails(d, file) && ColumnsFit(id, d, archive)
      && (!Terminal(d.state) ==>
            && (file.Some? ==> FileFits(d, file.value, archive))
            && RowsFit(id, db.artifacts, d, file, archive)
            && (d.state == Verifying || d.state == Syncing ==> Three(id, db.artifacts, Local)))
  }

  // ---------------------------------------------------------------- resume never rejects

  lemma {:induction false} GoodEvidence(id: nat, c: Columns, archive: Archive)
    requires GoodColumns(id, c, archive)
    ensures
      EvidenceOf(c) == Present(Evidence(c.migration.value, c.encryptionKey.value, c.localSnapshot.value, "",
          c.manifest.value, c.logical, c.stored, c.localExpires.value, None))
  {
  }

  /** What the file says after a repair, relative to the row. */
  predicate Current(d: Run, f: File) {
    && f.owner == d.owner && f.generation == d.generation && f.state == d.state && ValidFile(f)
    && (d.state == Syncing ==> f.remoteConfigured)
    && (Late(d.state) && d.columns.localSnapshot.Some? && d.columns.manifest.Some? && d.columns.localExpires.Some?
        && d.columns.migration.Some? && d.columns.encryptionKey.Some? ==>
          && f.evidence.encryptionKey == d.columns.encryptionKey.value
          && f.evidence.stored == d.columns.stored
          && f.evidence.localSnapshot == d.columns.localSnapshot.value
          && f.evidence.manifest == d.columns.manifest.value
          && f.evidence.logical == d.columns.logical
          && f.evidence.migration == d.columns.migration.value
          && f.evidence.localExpires == d.columns.localExpires.value)
  }

  /** A repair renews what the row says of a run; what was measured, when, and how the copy went stays. */
  predicate Repaired(f: File, g: File) {
    && g == f.(owner := g.owner, generation := g.generation, state := g.state, remoteConfigured := g.remoteConfigured,
               evidence := g.evidence)
    && g.evidence.remoteSnapshot == f.evidence.remoteSnapshot && g.evidence.remoteExpires == f.evidence.remoteExpires
  }

  /** For every row and file that fit, the check of resume passes and the repaired file fits too. */
  lemma {:induction false} ResumeNeverRejects(id: nat, d: Run, f: File, archive: Archive)
    requires RowOk(d) && d.owner != 0 && Trails(d, Some(f)) && ColumnsFit(id, d, archive) && FileFits(d, f, archive)
    ensures Reconciled(d, f).Some?
    ensures
      var g := Reconciled(d, f).value;
      Current(d, g) && FileFits(d, g, archive) && Trails(d, Some(g)) && Repaired(f, g)
  {
    if Late(d.state) {
      GoodEvidence(id, d.columns, archive);
    }
  }
}
