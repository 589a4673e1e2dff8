/**
 The update agent of cmd/update-agent: the release inspection, the journalled update, the
 reconciliation at start-up, and what any number of interrupted restarts leave behind.

 Every write the agent makes may succeed, fail without effect, or fail after taking effect.
 `Agent.trace` records the world after each write, so a crash between two writes is a cut
 of the trace.
 */
module UpdateAgent {
  import opened Common
  import opened UpdateProtocol

  // ---------------------------------------------------------------- release inspection

  /** What the agent learns from git and the release service about one release. */
  datatype Facts = Facts(
    current: Commit,
    latest: Commit,
    tip: Commit,
    currentVersion: string,
    releaseVersion: string,
    branchMatches: bool,
    dirty: bool
  )

  function Block(s: Status): Status {
    s.(state := Blocked, updateAvailable := false)
  }

  function BlockIf(condition: bool, s: Status): Status {
    if condition then Block(s) else s
  }

  /** None where the inspection ends in an error. */
  function Inspect(repo: Repo, f: Facts): Option<Status> {
    if !ValidCommit(f.current) || !ValidCommit(f.latest) || !ValidCommit(f.tip) then None
    else if f.latest !in repo.trusted then None
    else
      var s0 := Status(Current, f.currentVersion, f.releaseVersion, f.current, f.latest, false, f.dirty, "");
      var s1 :=
        if f.current == f.latest then s0
        else if (f.current, f.latest) in repo.below then s0.(state := Available, updateAvailable := true)
        else if (f.latest, f.current) in repo.below then s0
        else Block(s0);
      var s2 := BlockIf((f.latest, f.tip) !in repo.below, s1);
      var s3 := BlockIf(s2.updateAvailable && (f.current, f.latest) in repo.migrates, s2);
      var s4 := BlockIf(s3.updateAvailable && (f.current, f.latest) in repo.rewires, s3);
      Some(BlockIf(f.dirty, BlockIf(!f.branchMatches, s4)))
  }

  /** The commits are well formed and the release is trusted. */
  predicate Readable(repo: Repo, f: Facts) {
    ValidCommit(f.current) && ValidCommit(f.latest) && ValidCommit(f.tip) && f.latest in repo.trusted
  }

  /** The facts an update is offered for. */
  predicate Offers(repo: Repo, f: Facts) {
    && Readable(repo, f)
    && (f.latest, f.tip) in repo.below && repo.Approved(f.current, f.latest) && f.branchMatches && !f.dirty
  }

  /** The checkout is at the release or past it, and nothing is in the way. */
  predicate UpToDate(repo: Repo, f: Facts) {
    && Readable(repo, f)
    && (f.current == f.latest || ((f.current, f.latest) !in repo.below && (f.latest, f.current) in repo.below))
    && (f.latest, f.tip) in repo.below && f.branchMatches && !f.dirty
  }

  lemma {:induction false} InspectDecides(repo: Repo, f: Facts)
    requires Inspect(repo, f).Some?
    ensures
      var s := Inspect(repo, f).value;
      var ahead := f.current != f.latest && (f.current, f.latest) in repo.below;
      var behind := f.current != f.latest && !ahead && (f.latest, f.current) in repo.below;
      var clear := (f.latest, f.tip) in repo.below && f.branchMatches && !f.dirty;
      var safe := (f.current, f.latest) !in repo.migrates && (f.current, f.latest) !in repo.rewires;
      && (s.updateAvailable <==> ahead && clear && safe)
      && (s.state == Available <==> ahead && clear && safe)
      && (s.state == Current <==> (f.current == f.latest || behind) && clear)
      && s.state in {Available, Current, Blocked}
  {
  }

  lemma {:induction false} ReadableFacts(repo: Repo, f: Facts)
    requires f.tip in repo.tips && Readable(repo, f)
    ensures
      Offers(repo, f) <==>
        && f.current != f.latest && (f.current, f.latest) in repo.below && (f.latest, f.tip) in repo.below
        && (f.current, f.latest) !in repo.migrates && (f.current, f.latest) !in repo.rewires
        && f.branchMatches && !f.dirty
  {
    assert (f.latest, f.tip) in repo.below ==> repo.OnBranch(f.latest);
  }

  /**
   An update is offered exactly for a trusted strict descendant of HEAD on the fetched branch
   tip, with no migration or control-plane change, on a clean checkout of the branch. Everything
   else is current or blocked; an invalid commit or an untrusted release is an error.
   */
  lemma InspectOffersExactlyApproved(repo: Repo, f: Facts)
    requires f.tip in repo.tips
    ensures Offers(repo, f) || UpToDate(repo, f) ==> Inspect(repo, f).Some?
    ensures
      Inspect(repo, f).Some? <==>
        ValidCommit(f.current) && ValidCommit(f.latest) && ValidCommit(f.tip) && f.latest in repo.trusted
    ensures
      Inspect(repo, f).Some? ==>
        var s := Inspect(repo, f).value;
        && (s.updateAvailable <==> Offers(repo, f))
        && (s.state == Available <==> Offers(repo, f))
        && (s.state == Current <==> UpToDate(repo, f))
        && (s.state == Blocked <==> !Offers(repo, f) && !UpToDate(repo, f))
    ensures
      Inspect(repo, f).Some? ==>
        var s := Inspect(repo, f).value;
        && s.currentVersion == f.currentVersion && s.latestVersion == f.releaseVersion && s.dirty == f.dirty
        && s.currentCommit == f.current && s.latestCommit == f.latest && s.previousVersion == ""
  {
    if Readable(repo, f) {
      InspectDecides(repo, f);
      ReadableFacts(repo, f);
    }
  }

  // ---------------------------------------------------------------- status changes

  function Fail(s: Status, available: bool): Status {
    s.(state := Failed, updateAvailable := available)
  }

  function Continue(s: Status): Status {
    s.(state := Updating)
  }

  /** The status the update writes once the release is inspected. */
  function Begin(s: Status, inspected: Status): Status {
    inspected.(state := Updating, previousVersion := s.previousVersion)
  }

  /** The status of an update that ran to its end. */
  function Finish(inspected: Status): Status {
    inspected.(state := Success, currentVersion := inspected.latestVersion, currentCommit := inspected.latestCommit,
    updateAvailable := false, dirty := false, previousVersion := inspected.currentVersion)
  }

  /** Start-up reconciliation with HEAD still on the old commit. */
  function Restore(s: Status, j: Journal): Status {
    s.(state := Failed, currentCommit := j.current, updateAvailable := true)
  }

  /** Start-up reconciliation with HEAD on the candidate. */
  function Finalize(s: Status, j: Journal): Status {
    var previous :=
      if s.state == Success && s.currentCommit == j.candidate then s.previousVersion else s.currentVersion;
    s.(state := Success, currentVersion := s.latestVersion, currentCommit := j.candidate,
    latestCommit := j.candidate, updateAvailable := false, dirty := false, previousVersion := previous)
  }

  function InitialStatus(): Status {
    Status(Unknown, "", "", "", "", false, false, "")
  }

  function RecoveryStatus(j: Journal): Status {
    InitialStatus().(state := Updating, currentCommit := j.current, latestCommit := j.candidate,
        updateAvailable := true)
  }

  /** Start-up without a journal: an operation cut short is reported as failed. */
  function Recover(s: Status): Status {
    if s.state == Checking || s.state == Updating then s.(state := Failed) else s
  }

  /** Two statuses of the same release: they differ at most in state, offer and HEAD's commit. */
  predicate SameRelease(s: Status, s': Status) {
    && s'.currentVersion == s.currentVersion && s'.latestVersion == s.latestVersion
    && s'.latestCommit == s.latestCommit && s'.previousVersion == s.previousVersion && s'.dirty == s.dirty
  }

  /** A rolled-back update is reported as failed, on the old commit, with the release still on offer. */
  predicate RolledBack(s: Status, s': Status, j: Journal) {
    SameRelease(s, s') && s'.state == Failed && s'.currentCommit == j.current && s'.updateAvailable
  }

  /** What each change of status shows. */
  lemma StatusesShow(s: Status, j: Journal, available: bool)
    ensures
      && SameRelease(s, Fail(s, available)) && Fail(s, available).state == Failed
      && Fail(s, available).updateAvailable == available && Fail(s, available).currentCommit == s.currentCommit
    ensures
      && SameRelease(s, Block(s)) && Block(s).state == Blocked && !Block(s).updateAvailable
      && Block(s).currentCommit == s.currentCommit
    ensures
      && SameRelease(s, Continue(s)) && Continue(s).state == Updating
      && Continue(s).currentCommit == s.currentCommit && Continue(s).updateAvailable == s.updateAvailable
    ensures
      var r := Recover(s);
      && SameRelease(s, r) && r.currentCommit == s.currentCommit && r.updateAvailable == s.updateAvailable
      && r.state == if s.state == Checking || s.state == Updating then Failed else s.state
    ensures RolledBack(s, Restore(s, j), j)
  {
  }

  // ---------------------------------------------------------------- crash transparency

  /** The status file still describes the update from version `from` to `to` as unfinished. */
  predicate Underway(s: Status, j: Journal, from: string, to: string) {
    && s.currentVersion == from && s.latestVersion == to
    && !(s.state == Success && s.currentCommit == j.candidate)
  }

  /** Everything an uninterrupted update reports. */
  predicate Finished(s: Status, j: Journal, from: string, to: string) {
    && s.state == Success
    && s.currentCommit == j.candidate && s.latestCommit == j.candidate
    && s.currentVersion == to && s.latestVersion == to && s.previousVersion == from
    && !s.updateAvailable && !s.dirty
  }

  /** What one restart after the merge does to the status file. */
  datatype Restart =
    | Died      // crashed, or failed, before a status was written
    | Saved     // wrote the final status, then crashed or failed before the journal was gone
    | Parked    // found the checkout dirty or off its branch and wrote the blocked status

  function AfterRestart(s: Status, j: Journal, r: Restart): Status {
    match r
    case Died => s
    case Saved => Finalize(s, j)
    case Parked => Block(s)
  }

  function AfterRestarts(s: Status, j: Journal, rs: seq<Restart>): Status
    decreases rs
  {
    if rs == [] then s else AfterRestarts(AfterRestart(s, j, rs[0]), j, rs[1..])
  }

  /** Some restart parks the update after its final status was already written. */
  predicate ParkedAfterSaved(saved: bool, rs: seq<Restart>)
    decreases rs
  {
    rs != [] &&
    match rs[0]
    case Died => ParkedAfterSaved(saved, rs[1..])
    case Saved => ParkedAfterSaved(true, rs[1..])
    case Parked => saved || ParkedAfterSaved(saved, rs[1..])
  }

  lemma FinishIsFinished(inspected: Status, j: Journal)
    requires inspected.latestCommit == j.candidate
    ensures Finished(Finish(inspected), j, inspected.currentVersion, inspected.latestVersion)
  {
  }

  /** The old version is gone from the file: no later restart can bring it back. */
  predicate Forgotten(s: Status, j: Journal, to: string) {
    && s.currentVersion == to && s.latestVersion == to
    && (s.state == Success && s.currentCommit == j.candidate ==> s.previousVersion == to)
  }

  lemma {:induction false} ForgottenStays(s: Status, j: Journal, to: string, rs: seq<Restart>)
    requires Forgotten(s, j, to)
    ensures Forgotten(AfterRestarts(s, j, rs), j, to)
    decreases rs
  {
    if rs != [] {
      ForgottenStays(AfterRestart(s, j, rs[0]), j, to, rs[1..]);
    }
  }

  /**
   Crash transparency: after any number of interrupted restarts, one completed reconciliation
   reports exactly what an uninterrupted update reports if and only if no restart parked the
   update after its final status had been written (or the two versions are the same).
   */
  lemma {:induction false} CrashTransparency(s: Status, j: Journal, from: string, to: string, rs: seq<Restart>)
    requires Underway(s, j, from, to) || Finished(s, j, from, to)
    ensures
      var saved := !Underway(s, j, from, to);
      Finished(Finalize(AfterRestarts(s, j, rs), j), j, from, to) <==> from == to || !ParkedAfterSaved(saved, rs)
    decreases rs
  {
    if rs != [] {
      var s1 := AfterRestart(s, j, rs[0]);
      if rs[0] == Parked && !Underway(s, j, from, to) {
        ForgottenStays(s1, j, to, rs[1..]);
      } else {
        CrashTransparency(s1, j, from, to, rs[1..]);
      }
    }
  }

  /** The concrete way it fails: saved, then parked by a dirty checkout, then finished. */
  lemma ParkingLosesThePreviousVersion(s: Status, j: Journal)
    requires Underway(s, j, "1.0.0", "1.1.0")
    ensures Finalize(AfterRestarts(s, j, [Saved, Parked]), j).previousVersion == "1.1.0"
  {
    assert AfterRestarts(s, j, [Saved, Parked]) == AfterRestarts(Finalize(s, j), j, [Parked]);
    assert AfterRestarts(Finalize(s, j), j, [Parked]) == AfterRestarts(Block(Finalize(s, j)), j, []);
  }

  // ---------------------------------------------------------------- the agent

  /** Two journals of the same operation differ at most in their stage. */
  predicate SameOperation(j: Journal, k: Journal) {
    j == k.(stage := j.stage)
  }

  /** After the merge the disk holds all a restart needs to report the finished update. */
  predicate Resumable(d: Disk, j: Journal, from: string, to: string) {
    && d.status.Some?
    && (d.journal.Some? ==> SameOperation(d.journal.value, j))
    && (Finished(d.status.value, j, from, to) || (Underway(d.status.value, j, from, to) && d.journal.Some?))
  }

  /** From position k on, some world's status file is blocked and already reports the new version. */
  ghost predicate LateBlock(trace: seq<World>, k: nat, to: string) {
    exists i :: k <= i < |trace| && BlockedAt(trace[i].disk, to)
  }

  predicate BlockedAt(d: Disk, to: string) {
    d.status.Some? && d.status.value.state == Blocked && d.status.value.currentVersion == to
  }

  /** One world of an update: HEAD is on one of its commits, a moved HEAD is resumable, no late block. */
  predicate OnTheWay(d: Disk, j: Journal, from: string, to: string) {
    && (d.head == j.current || d.head == j.candidate)
    && (d.head == j.candidate ==> Resumable(d, j, from, to))
    && (from != to ==> !BlockedAt(d, to))
  }

  /** The status between two restarts after the merge; `late` says whether a late block happened. */
  predicate Midway(s: Status, j: Journal, from: string, to: string, late: bool) {
    || ((from == to || !late) && (Underway(s, j, from, to) || Finished(s, j, from, to)))
    || (late && Forgotten(s, j, to))
  }

  lemma {:induction false} MidwayStep(s: Status, j: Journal, from: string, to: string, late: bool, r: Restart)
    requires Midway(s, j, from, to, late)
    ensures
      var s' := AfterRestart(s, j, r);
      Midway(s', j, from, to, late || (s' != s && s'.state == Blocked && s'.currentVersion == to))
  {
  }

  /** One finished reconciliation later, the outcome depends on a late block alone. */
  lemma {:induction false} MidwayEnd(s: Status, j: Journal, from: string, to: string, late: bool)
    requires Midway(s, j, from, to, late)
    ensures Finished(Finalize(s, j), j, from, to) <==> from == to || !late
  {
  }

  /** What a restart finds, and after which world it dies. */
  datatype Round = Round(dirty: bool, onBranch: bool, cut: nat)

  /** A restart on a clean checkout that does not die; no process dies after the very first world. */
  predicate Undisturbed(r: Round) {
    !r.dirty && r.onBranch && r.cut == 0
  }

  class Agent {
    const repo: Repo
    var disk: Disk
    var status: Status
    var pending: bool
    var trace: seq<World>
    var calm: bool // no action fails while it is set

    constructor (repo: Repo, disk: Disk, calm: bool)
      requires Safe(disk) && disk.journal.None?
      ensures Valid() && this.repo == repo && this.disk == disk && this.calm == calm
    {
      this.calm := calm;
      this.repo := repo;
      this.disk := disk;
      status := InitialStatus();
      pending := false;
      trace := [World(disk, Memory(InitialStatus(), false))];
    }

    function Now(): World
      reads this
    {
      World(disk, Memory(status, pending))
    }

    ghost predicate Valid()
      reads this
    {
      Run(repo, trace) && trace[|trace| - 1] == Now()
    }

    /** Every world from position k on, except the last, refuses a second operation. */
    ghost predicate BusyFrom(k: nat)
      reads this
    {
      forall i :: k <= i < |trace| - 1 ==> Busy(trace[i].mem)
    }

    /** From position k on, every world is one of this update's. */
    ghost predicate ResumableFrom(k: nat, j: Journal, from: string, to: string)
      reads this
    {
      forall i :: k <= i < |trace| ==> OnTheWay(trace[i].disk, j, from, to)
    }

    lemma {:induction false} InvariantHolds()
      requires Valid()
      ensures Safe(disk) && Guarded(Now())
    {
      var last := |trace| - 1;
      RunsAreSafe(repo, trace, last);
      assert Safe(trace[last].disk);
      assert trace[last].disk == disk;
    }

    /** The next world of the run. */
    method Record()
      requires Run(repo, trace) && DiskStep(repo, trace[|trace| - 1].disk, disk) && Guarded(Now())
      modifies this`trace
      ensures Valid() && trace == old(trace) + [Now()]
    {
      RunExtends(repo, trace, Now());
      trace := trace + [Now()];
    }

    /** Whether a foreign action succeeds: anything may happen unless all is calm. */
    method Attempt() returns (ok: bool)
      ensures calm ==> ok
    {
      ok := *;
      ok := ok || calm;
    }

    /** transitionLocked: memory follows the file unless the save reports an error. */
    method Transition(next: Status) returns (ok: bool)
      requires Valid()
      requires disk.journal.Some? ==> Busy(Memory(next, pending)) && Busy(Memory(status, pending))
      requires next.state == Success ==> next.currentCommit == disk.head || disk.status == Some(next)
      modifies this`disk, this`status, this`trace
      ensures Valid() && trace == old(trace) + [Now()]
      ensures disk == old(disk).(status := disk.status)
      ensures (calm ==> ok) && (ok ==> status == next && disk.status == Some(next))
      ensures !ok ==> status == old(status) && (disk.status == old(disk.status) || disk.status == Some(next))
    {
      ok := Attempt();
      var landed: bool := *;
      if ok || landed {
        disk := disk.(status := Some(next));
      }
      if ok {
        status := next;
      }
      StatusRun(repo, trace, Now(), old(disk), next);
      trace := trace + [Now()];
    }

    /**
     journal.save followed by the pending flag. A failed save may have landed; the flag is then set
     if the journal is there or cannot be read back.
     */
    method SaveOperation(op: Journal) returns (ok: bool)
      requires Valid() && Covers(disk, op)
      requires Busy(Memory(status, pending))
      modifies this`disk, this`pending, this`trace
      ensures Valid()
      ensures |trace| == |old(trace)| + 2 && trace == old(trace) + [trace[|old(trace)|], Now()]
      ensures Busy(trace[|old(trace)|].mem) && trace[|old(trace)|].disk == disk
      ensures disk == old(disk).(journal := disk.journal)
      ensures calm ==> ok
      ensures ok ==> disk.journal == Some(op) && pending
      ensures !ok ==> disk.journal == old(disk.journal) || disk.journal == Some(op)
      ensures disk.journal.Some? || old(pending) ==> pending
    {
      ok := WriteJournal(op);
      var unreadable: bool := *;
      if disk.journal.Some? || unreadable {
        pending := true;
      }
      Record();
    }

    method WriteJournal(op: Journal) returns (ok: bool)
      requires Valid() && Covers(disk, op)
      requires Busy(Memory(status, pending))
      modifies this`disk, this`trace
      ensures Valid() && trace == old(trace) + [Now()]
      ensures disk == old(disk).(journal := disk.journal)
      ensures calm ==> ok
      ensures ok ==> disk.journal == Some(op)
      ensures !ok ==> disk.journal == old(disk.journal) || disk.journal == Some(op)
    {
      ok := Attempt();
      var landed: bool := *;
      if ok || landed {
        disk := disk.(journal := Some(op));
      }
      JournalRun(repo, trace, Now(), old(disk), op);
      trace := trace + [Now()];
    }

    /** journal.remove followed by clearing the pending flag; a failed removal may have landed. */
    method RemoveOperation() returns (ok: bool)
      requires Valid() && Agree(disk) && pending
      modifies this`disk, this`pending, this`trace
      ensures Valid()
      ensures |trace| == |old(trace)| + 2 && trace == old(trace) + [trace[|old(trace)|], Now()]
      ensures Busy(trace[|old(trace)|].mem) && trace[|old(trace)|].disk == disk
      ensures disk == old(disk).(journal := disk.journal)
      ensures calm ==> ok
      ensures ok ==> disk.journal == None && !pending
      ensures !ok ==> pending && (disk.journal == old(disk.journal) || disk.journal == None)
    {
      ok := Attempt();
      var landed: bool := *;
      if ok || landed {
        disk := disk.(journal := None);
      }
      Record();
      if ok {
        pending := false;
      }
      Record();
    }

    /** Switching containers: a failure leaves whatever is running. */
    method SwitchRuntime(target: Images) returns (ok: bool)
      requires Valid() && disk.journal.Some? && pending
      modifies this`disk, this`trace
      ensures Valid() && trace == old(trace) + [Now()]
      ensures disk == old(disk).(images := disk.images)
      ensures calm ==> ok
      ensures ok ==> disk.images == target
    {
      var leftover: Images := *;
      ok := Attempt();
      disk := disk.(images := if ok then target else leftover);
      Record();
    }

    /** Fast-forwarding the main checkout: a failure may still have moved HEAD. */
    method MergeCandidate(candidate: Commit) returns (ok: bool)
      requires Valid() && disk.journal.Some? && pending && !SaysSuccess(disk)
      requires disk.journal.value.current == disk.head && disk.journal.value.candidate == candidate
      requires repo.Approved(disk.head, candidate)
      modifies this`disk, this`trace
      ensures Valid() && trace == old(trace) + [Now()]
      ensures disk == old(disk).(head := disk.head)
      ensures calm ==> ok
      ensures disk.head == candidate || (!ok && disk.head == old(disk.head))
    {
      ok := Attempt();
      var landed: bool := *;
      if ok || landed {
        disk := disk.(head := candidate);
      }
      MergeRun(repo, trace, Now(), old(disk), candidate);
      trace := trace + [Now()];
    }

    method BuildImages(images: Images, commit: Commit)
      requires Valid() && disk.journal.None?
      modifies this`disk, this`trace
      ensures Valid() && trace == old(trace) + [Now()]
      ensures disk == old(disk).(built := old(disk).built + {(images, commit)})
    {
      disk := disk.(built := disk.built + {(images, commit)});
      Record();
    }

    method FailBeforeSwitch()
      requires Valid() && disk.journal.Some? && pending && Agree(disk)
      requires Busy(Memory(status, pending))
      modifies this`disk, this`status, this`pending, this`trace
      ensures Valid() && old(trace) <= trace && BusyFrom(|old(trace)|)
      ensures disk.head == old(disk.head)
      ensures forall i :: |old(trace)| <= i < |trace| ==>
                && trace[i].disk.head == disk.head
                && trace[i].disk.status in {old(disk).status, Some(Fail(old(status), true))}
      ensures calm ==> disk.journal.None? && !pending && status == Fail(old(status), true)
    {
      var ok := Transition(Fail(status, true));
      if ok {
        var _ := RemoveOperation();
      }
    }

    /** Back to the old images; the journal stays when the checkout needs a human. */
    method RecoverOldRuntime(op: Journal, retainJournal: bool)
      requires Valid() && pending && disk.journal.Some? && SameOperation(disk.journal.value, op)
      requires status.state == Updating
      requires Covers(disk, op)
      requires !retainJournal ==> disk.head == op.current
      modifies this`disk, this`status, this`pending, this`trace
      ensures Valid() && old(trace) <= trace && BusyFrom(|old(trace)|)
      ensures disk.head == old(disk.head)
      ensures forall i :: |old(trace)| <= i < |trace| ==>
          Recovering(trace[i].disk, old(disk), old(status), retainJournal)
      ensures calm ==> disk.images == op.oldImages && Recovered(old(disk), old(status), retainJournal)
    {
      var _ := Transition(Continue(status));
      var ok := SwitchRuntime(op.oldImages);
      AfterSwitchBack(ok, retainJournal);
    }

    /** A recovery that met no failure: blocked under its journal, or failed and over. */
    ghost predicate Recovered(before: Disk, s: Status, retain: bool)
      reads this
    {
      && disk.status == Some(status) && SameRelease(s, status) && status.currentCommit == s.currentCommit
      && if retain then disk.journal == before.journal && status.state == Blocked
         else disk.journal.None? && !pending && status.state == Failed && status.updateAvailable
    }

    /** The status a recovery ends with, and the end of the journal where nobody needs to look. */
    method AfterSwitchBack(ok: bool, retainJournal: bool)
      requires Valid() && pending && disk.journal.Some? && (ok && !retainJournal ==> Agree(disk))
      modifies this`disk, this`status, this`pending, this`trace
      ensures Valid() && old(trace) <= trace && BusyFrom(|old(trace)|)
      ensures disk.head == old(disk.head)
      ensures forall i :: |old(trace)| <= i < |trace| ==>
          Recovering(trace[i].disk, old(disk), old(status), retainJournal)
      ensures disk.images == old(disk).images
      ensures calm && ok ==> Recovered(old(disk), old(status), retainJournal)
    {
      if !ok {
        var _ := Transition(Fail(status, true));
      } else if retainJournal {
        var _ := Transition(Block(status));
      } else {
        var saved := Transition(Fail(status, true));
        if saved {
          var _ := RemoveOperation();
        }
      }
    }

    /** The file and the memory both still describe the update as unfinished. */
    ghost predicate Describes(j: Journal, from: string, to: string)
      reads this
    {
      && disk.status.Some? && Underway(disk.status.value, j, from, to)
      && Underway(status, j, from, to)
    }

    /** The update ran to its end: new images, merged checkout, final status, no journal. */
    ghost predicate Done(op: Journal, inspected: Status)
      reads this
    {
      && disk.head == op.candidate && disk.images == op.newImages && disk.journal.None? && !pending
      && status == Finish(inspected) && disk.status == Some(status)
    }

    /** From the healthy new containers to the merged checkout. */
    method MergeIn(op: Journal, inspected: Status)
      requires Valid() && pending && status.state == Updating
      requires disk.journal == Some(op) && Covers(disk, op)
      requires disk.head == op.current && disk.images == op.newImages
      requires inspected.latestCommit == op.candidate && repo.Approved(op.current, op.candidate)
      requires Describes(op, inspected.currentVersion, inspected.latestVersion)
      modifies this`disk, this`status, this`pending, this`trace
      ensures Valid() && old(trace) <= trace && BusyFrom(|old(trace)|)
      ensures disk.head == op.current || disk.head == op.candidate
      ensures ResumableFrom(|old(trace)|, op, inspected.currentVersion, inspected.latestVersion)
      ensures calm ==> Done(op, inspected)
    {
      var intact := Attempt();
      if !intact {
        RecoverOldRuntime(op, true);
        return;
      }
      var ok := Transition(Continue(status));
      if !ok {
        RecoverOldRuntime(op, false);
        return;
      }
      FastForward(op, inspected);
    }

    /** The fast-forward, then the end of the update; a doubtful checkout keeps the journal. */
    method FastForward(op: Journal, inspected: Status)
      requires Valid() && pending && status.state == Updating
      requires disk.journal == Some(op) && Covers(disk, op)
      requires disk.head == op.current && disk.images == op.newImages
      requires inspected.latestCommit == op.candidate && repo.Approved(op.current, op.candidate)
      requires Describes(op, inspected.currentVersion, inspected.latestVersion)
      requires disk.status == Some(status)
      modifies this`disk, this`status, this`pending, this`trace
      ensures Valid() && old(trace) <= trace && BusyFrom(|old(trace)|)
      ensures disk.head == op.current || disk.head == op.candidate
      ensures ResumableFrom(|old(trace)|, op, inspected.currentVersion, inspected.latestVersion)
      ensures calm ==> Done(op, inspected)
    {
      var ok := MergeCandidate(op.candidate);
      var landed := Attempt();
      if !ok || !landed {
        RecoverOldRuntime(op, true);
        return;
      }
      Conclude(op, inspected);
    }

    /** The merged stage, the final status and the end of the journal; after the merge nothing is undone. */
    method Conclude(op: Journal, inspected: Status)
      requires Valid() && pending && status.state == Updating
      requires disk.journal == Some(op) && Covers(disk, op)
      requires disk.head == op.candidate && disk.images == op.newImages
      requires inspected.latestCommit == op.candidate
      requires Describes(op, inspected.currentVersion, inspected.latestVersion)
      modifies this`disk, this`status, this`pending, this`trace
      ensures Valid() && old(trace) <= trace && BusyFrom(|old(trace)|)
      ensures disk.head == op.candidate && disk.images == op.newImages
      ensures ResumableFrom(|old(trace)|, op, inspected.currentVersion, inspected.latestVersion)
      ensures disk.journal.None? ==> status == Finish(inspected) && disk.status == Some(status)
      ensures calm ==> Done(op, inspected)
    {
      var ok := SaveOperation(op.(stage := Merged));
      if !ok {
        return;
      }
      FinishIsFinished(inspected, op);
      ok := Transition(Finish(inspected));
      if !ok {
        return;
      }
      var _ := RemoveOperation();
    }

    /** From the prepared journal to healthy new containers, then the merge. */
    method SwitchOver(op: Journal, inspected: Status)
      requires Valid() && !pending && status.state == Updating
      requires disk.journal.None? && Covers(disk, op)
      requires disk.head == op.current && disk.images == op.oldImages
      requires inspected.latestCommit == op.candidate && repo.Approved(op.current, op.candidate)
      requires Describes(op, inspected.currentVersion, inspected.latestVersion)
      modifies this`disk, this`status, this`pending, this`trace
      ensures Valid() && old(trace) <= trace && BusyFrom(|old(trace)|)
      ensures disk.head == op.current || disk.head == op.candidate
      ensures ResumableFrom(|old(trace)|, op, inspected.currentVersion, inspected.latestVersion)
      ensures calm ==> Done(op, inspected)
    {
      var ok := SaveOperation(op);
      if !ok {
        var _ := Transition(Fail(status, true));
        return;
      }
      ok := Transition(Continue(status));
      if !ok {
        FailBeforeSwitch();
        return;
      }
      AnnounceSwitch(op, inspected);
    }

    /** The journal reaches the switching stage before any container is touched. */
    method AnnounceSwitch(op: Journal, inspected: Status)
      requires Valid() && pending && status.state == Updating
      requires disk.journal == Some(op) && Covers(disk, op)
      requires disk.head == op.current && disk.images == op.oldImages
      requires inspected.latestCommit == op.candidate && repo.Approved(op.current, op.candidate)
      requires Describes(op, inspected.currentVersion, inspected.latestVersion)
      modifies this`disk, this`status, this`pending, this`trace
      ensures Valid() && old(trace) <= trace && BusyFrom(|old(trace)|)
      ensures disk.head == op.current || disk.head == op.candidate
      ensures ResumableFrom(|old(trace)|, op, inspected.currentVersion, inspected.latestVersion)
      ensures calm ==> Done(op, inspected)
    {
      var current := op.(stage := Switching);
      var ok := SaveOperation(current);
      if !ok {
        FailBeforeSwitch();
        return;
      }
      TellSwitch(current, inspected);
    }

    method TellSwitch(op: Journal, inspected: Status)
      requires Valid() && pending && status.state == Updating
      requires disk.journal == Some(op) && Covers(disk, op)
      requires disk.head == op.current && disk.images == op.oldImages
      requires inspected.latestCommit == op.candidate && repo.Approved(op.current, op.candidate)
      requires Describes(op, inspected.currentVersion, inspected.latestVersion)
      modifies this`disk, this`status, this`pending, this`trace
      ensures Valid() && old(trace) <= trace && BusyFrom(|old(trace)|)
      ensures disk.head == op.current || disk.head == op.candidate
      ensures ResumableFrom(|old(trace)|, op, inspected.currentVersion, inspected.latestVersion)
      ensures calm ==> Done(op, inspected)
    {
      var ok := Transition(Continue(status));
      if !ok {
        FailBeforeSwitch();
        return;
      }
      SwitchContainers(op, inspected);
    }

    method SwitchContainers(op: Journal, inspected: Status)
      requires Valid() && pending && status.state == Updating
      requires disk.journal == Some(op) && Covers(disk, op)
      requires disk.head == op.current && disk.images == op.oldImages
      requires inspected.latestCommit == op.candidate && repo.Approved(op.current, op.candidate)
      requires Describes(op, inspected.currentVersion, inspected.latestVersion)
      modifies this`disk, this`status, this`pending, this`trace
      ensures Valid() && old(trace) <= trace && BusyFrom(|old(trace)|)
      ensures disk.head == op.current || disk.head == op.candidate
      ensures ResumableFrom(|old(trace)|, op, inspected.currentVersion, inspected.latestVersion)
      ensures calm ==> Done(op, inspected)
    {
      var ok := SwitchRuntime(op.newImages);
      if !ok {
        RecoverOldRuntime(op, false);
        return;
      }
      RecordSwitched(op.(stage := Switched), inspected);
    }

    /** The switched stage goes on file before the merge. */
    method RecordSwitched(op: Journal, inspected: Status)
      requires Valid() && pending && status.state == Updating
      requires disk.journal.Some? && SameOperation(disk.journal.value, op) && Covers(disk, op)
      requires disk.head == op.current && disk.images == op.newImages
      requires inspected.latestCommit == op.candidate && repo.Approved(op.current, op.candidate)
      requires Describes(op, inspected.currentVersion, inspected.latestVersion)
      modifies this`disk, this`status, this`pending, this`trace
      ensures Valid() && old(trace) <= trace && BusyFrom(|old(trace)|)
      ensures disk.head == op.current || disk.head == op.candidate
      ensures ResumableFrom(|old(trace)|, op, inspected.currentVersion, inspected.latestVersion)
      ensures calm ==> Done(op, inspected)
    {
      var ok := SaveOperation(op);
      if !ok {
        RecoverOldRuntime(op, false);
        return;
      }
      MergeIn(op, inspected);
    }

    /**
     The whole update. `f` is what git and the release service report, `images` what the build
     produces; all other outcomes are arbitrary.
     */
    method RunUpdate(f: Facts, images: Images)
      requires Valid() && !pending && status.state == Updating && disk.journal.None? && disk.status == Some(status)
      requires f.current == disk.head && f.tip in repo.tips
      modifies this`disk, this`status, this`pending, this`trace
      ensures Valid() && old(trace) <= trace && |old(trace)| < |trace| && BusyFrom(|old(trace)|)
      ensures disk.head == old(disk.head) || (disk.head == f.latest && repo.Approved(f.current, f.latest))
      ensures f.current != f.latest ==>
                ResumableFrom(|old(trace)|, Journal(Prepared, f.current, f.latest, old(disk).images, images),
                              f.currentVersion, f.releaseVersion)
      ensures calm && Offers(repo, f) && ValidImages(old(disk).images) && ValidImages(images) ==>
                && disk.head == f.latest && disk.images == images && disk.journal.None? && !pending
                && disk.status == Some(status)
                && Finished(status, Journal(Merged, f.current, f.latest, old(disk).images, images), f.currentVersion,
                            f.releaseVersion)
      ensures calm && UpToDate(repo, f) ==>
                && disk.status == Some(status) && status.state == Success && !status.updateAvailable
                && status.currentCommit == f.current == disk.head && status.currentVersion == f.currentVersion
      ensures calm && !Offers(repo, f) && !UpToDate(repo, f) ==>
                && disk.head == f.current && disk.status == Some(status) && status.state == Failed
                && !status.updateAvailable
    {
      var inspected := Inspect(repo, f);
      InspectOffersExactlyApproved(repo, f);
      var reached := Attempt(); // git and the release service answered
      if !reached || inspected.None? {
        var _ := Transition(Fail(status, false));
        return;
      }
      UpdateTo(f, inspected.value, images);
    }

    /** The update to an inspected release. */
    method UpdateTo(f: Facts, s: Status, images: Images)
      requires Valid() && !pending && status.state == Updating && disk.journal.None? && disk.status == Some(status)
      requires f.current == disk.head && f.tip in repo.tips && Inspect(repo, f) == Some(s)
      modifies this`disk, this`status, this`pending, this`trace
      ensures Valid() && old(trace) <= trace && |old(trace)| < |trace| && BusyFrom(|old(trace)|)
      ensures disk.head == old(disk.head) || (disk.head == f.latest && repo.Approved(f.current, f.latest))
      ensures f.current != f.latest ==>
                ResumableFrom(|old(trace)|, Journal(Prepared, f.current, f.latest, old(disk).images, images),
                              f.currentVersion, f.releaseVersion)
      ensures calm && Offers(repo, f) && ValidImages(old(disk).images) && ValidImages(images) ==>
                && disk.head == f.latest && disk.images == images && disk.journal.None? && !pending
                && disk.status == Some(status)
                && Finished(status, Journal(Merged, f.current, f.latest, old(disk).images, images), f.currentVersion,
                            f.releaseVersion)
      ensures calm && UpToDate(repo, f) ==>
                && disk.status == Some(status) && status.state == Success && !status.updateAvailable
                && status.currentCommit == f.current == disk.head && status.currentVersion == f.currentVersion
      ensures calm && !Offers(repo, f) && !UpToDate(repo, f) ==>
                && disk.head == f.current && disk.status == Some(status) && status.state == Failed
                && !status.updateAvailable
    {
      ghost var oldImages := disk.images;
      InspectOffersExactlyApproved(repo, f);
      var ok := Transition(Begin(status, s));
      if !ok {
        var _ := Transition(Fail(status, false));
        return;
      }
      if s.dirty || s.state == Blocked {
        var _ := Transition(Fail(status, s.dirty && s.updateAvailable));
        return;
      }
      if !s.updateAvailable {
        var _ := Transition(status.(state := Success, updateAvailable := false));
        return;
      }
      InvariantHolds();
      BuildAndSwitch(s, images);
      FinishIsFinished(s, Journal(Merged, f.current, f.latest, oldImages, images));
    }

    method BuildAndSwitch(s: Status, images: Images)
      requires Valid() && !pending && status.state == Updating && disk.journal.None? && Agree(disk)
      requires s.currentCommit == disk.head && ValidCommit(s.currentCommit) && ValidCommit(s.latestCommit)
      requires repo.Approved(s.currentCommit, s.latestCommit)
      requires status == s.(state := Updating, previousVersion := status.previousVersion) && disk.status == Some(status)
      modifies this`disk, this`status, this`pending, this`trace
      ensures Valid() && old(trace) <= trace && BusyFrom(|old(trace)|)
      ensures disk.head == old(disk.head) || disk.head == s.latestCommit
      ensures ResumableFrom(|old(trace)|, Journal(Prepared, s.currentCommit, s.latestCommit, old(disk).images, images),
                            s.currentVersion, s.latestVersion)
      ensures calm && ValidImages(old(disk).images) && ValidImages(images) ==>
                Done(Journal(Prepared, s.currentCommit, s.latestCommit, old(disk).images, images), s)
    {
      var oldImages := disk.images;
      var prepared := Attempt();  // images captured, worktree created and verified
      if !prepared || !ValidImages(oldImages) {
        var _ := Transition(Fail(status, true));
        return;
      }
      var pinned := Attempt();    // every base image pinned by digest
      if !pinned {
        var _ := Transition(Block(status));
        return;
      }
      var ok := Transition(Continue(status));
      if !ok {
        var _ := Transition(Fail(status, true));
        return;
      }
      BuildThenSwitch(s, images);
    }

    /** The two builds inside the worktree, then the switch. */
    method BuildThenSwitch(s: Status, images: Images)
      requires Valid() && !pending && status.state == Updating && disk.journal.None? && Agree(disk)
      requires s.currentCommit == disk.head && ValidCommit(s.currentCommit) && ValidCommit(s.latestCommit)
          && ValidImages(disk.images)
      requires repo.Approved(s.currentCommit, s.latestCommit)
      requires status == s.(state := Updating, previousVersion := status.previousVersion) && disk.status == Some(status)
      modifies this`disk, this`status, this`pending, this`trace
      ensures Valid() && old(trace) <= trace && BusyFrom(|old(trace)|)
      ensures disk.head == old(disk.head) || disk.head == s.latestCommit
      ensures ResumableFrom(|old(trace)|, Journal(Prepared, s.currentCommit, s.latestCommit, old(disk).images, images),
                            s.currentVersion, s.latestVersion)
      ensures calm && ValidImages(old(disk).images) && ValidImages(images) ==>
                Done(Journal(Prepared, s.currentCommit, s.latestCommit, old(disk).images, images), s)
    {
      var oldImages := disk.images;
      var appBuilt := Attempt();
      if !appBuilt || !ValidImage(images.app) {
        var _ := Transition(Fail(status, true));
        return;
      }
      var ok := Transition(Continue(status));
      if !ok {
        var _ := Transition(Fail(status, true));
        return;
      }
      BuildImages(images, s.latestCommit);
      var buildable := Attempt(); // the worker was built and the checkout is intact
      if !buildable || !ValidImages(images) {
        var _ := Transition(Fail(status, true));
        return;
      }
      SwitchOver(Journal(Prepared, s.currentCommit, s.latestCommit, oldImages, images), s);
    }

    /** reserveOperation: refuses while an operation is pending or a dirty checkout is known. */
    method Reserve(state: State, rejectDirty: bool) returns (ok: bool)
      requires Valid() && state in {Checking, Updating}
      modifies this`disk, this`status, this`trace
      ensures Valid() && old(trace) <= trace
      ensures old(Busy(Memory(status, pending))) || (rejectDirty && old(status).dirty) ==> !ok && trace == old(trace)
      ensures ok ==> !pending && disk.journal.None? && status == old(status).(state := state)
      ensures ok ==> disk.status == Some(status)
      ensures calm && !old(Busy(Memory(status, pending))) && !(rejectDirty && old(status).dirty) ==> ok
      ensures disk == old(disk).(status := disk.status)
      ensures disk.status in {old(disk).status, Some(old(status).(state := state))}
      ensures |trace| <= |old(trace)| + 1 && (|trace| > |old(trace)| ==> trace[|old(trace)|] == Now())
    {
      InvariantHolds();
      if pending || status.state == Checking || status.state == Updating || (rejectDirty && status.dirty) {
        return false;
      }
      ok := Transition(status.(state := state));
    }

    /** What the status file may show during a check: what it was, checking, failed, or what was inspected. */
    predicate DuringCheck(now: Option<Status>, before: Option<Status>, s: Status, f: Facts) {
      || now == before
      || now == Some(s.(state := Checking))
      || now == Some(s.(state := Failed, updateAvailable := false))
      || (Inspect(repo, f).Some? && now == Some(Inspect(repo, f).value.(previousVersion := s.previousVersion)))
    }

    method Check(f: Facts)
      requires Valid()
      requires f.current == disk.head && f.tip in repo.tips
      modifies this`disk, this`status, this`trace
      ensures Valid() && old(trace) <= trace
      ensures disk == old(disk).(status := disk.status)
      ensures old(Busy(Memory(status, pending))) ==> trace == old(trace)
      ensures forall i :: |old(trace)| <= i < |trace| ==>
                DuringCheck(trace[i].disk.status, old(disk).status, old(status), f)
      ensures calm && !old(Busy(Memory(status, pending))) && Inspect(repo, f).Some? ==>
                disk.status == Some(status)
                    && status == Inspect(repo, f).value.(previousVersion := old(status).previousVersion)
    {
      var previous := status.previousVersion;
      var ok := Reserve(Checking, false);
      if !ok {
        return;
      }
      Publish(f, previous);
    }

    /** The outcome of a check: failed, or what was inspected, with the previous version kept. */
    method Publish(f: Facts, previous: string)
      requires Valid() && status.state == Checking && disk.journal.None?
      modifies this`disk, this`status, this`trace
      ensures Valid() && trace == old(trace) + [Now()]
      ensures disk == old(disk).(status := disk.status)
      ensures
        || disk.status == old(disk).status
        || disk.status == Some(Fail(old(status), false))
        || (Inspect(repo, f).Some? && disk.status == Some(Inspect(repo, f).value.(previousVersion := previous)))
      ensures calm && Inspect(repo, f).Some? ==>
                disk.status == Some(status) && status == Inspect(repo, f).value.(previousVersion := previous)
    {
      var inspected := Inspect(repo, f);
      var reached := Attempt(); // git and the release service answered
      if !reached || inspected.None? {
        var _ := Transition(Fail(status, false));
      } else {
        NeverSuccess(f);
        var _ := Transition(inspected.value.(previousVersion := previous));
      }
    }

    lemma {:induction false} NeverSuccess(f: Facts)
      requires Inspect(repo, f).Some?
      ensures Inspect(repo, f).value.state != Success
    {
      InspectDecides(repo, f);
    }

    method Apply(f: Facts, images: Images)
      requires Valid()
      requires f.current == disk.head && f.tip in repo.tips
      modifies this`disk, this`status, this`pending, this`trace
      ensures Valid() && old(trace) <= trace
      ensures disk.head == old(disk.head) || repo.Approved(old(disk.head), disk.head)
      ensures old(Busy(Memory(status, pending))) || old(status).dirty ==> trace == old(trace)
      ensures calm && !old(Busy(Memory(status, pending))) && !old(status).dirty && Offers(repo, f)
              && ValidImages(old(disk).images) && ValidImages(images) ==>
                && disk.head == f.latest && disk.images == images && disk.journal.None? && disk.status == Some(status)
                && Finished(status, Journal(Merged, f.current, f.latest, old(disk).images, images), f.currentVersion,
                            f.releaseVersion)
    {
      var ok := Reserve(Updating, true);
      if ok {
        RunUpdate(f, images);
      }
    }

    /**
     A process starting on whatever the previous one left. `readable` says whether the status
     file loads; `dirty` and `onBranch` describe the checkout.
     */
    method Start(readable: bool, dirty: bool, onBranch: bool) returns (ok: bool)
      requires Valid()
      modifies this`disk, this`status, this`pending, this`trace
      ensures Valid() && old(trace) <= trace && |old(trace)| < |trace|
      ensures disk.head == old(disk.head)
      ensures ok && !dirty && onBranch ==> disk.journal.None? && Agree(disk) && !pending
      ensures HeadMoved(old(disk)) && readable && old(disk).status.Some? ==>
                && (forall i :: |old(trace)| <= i < |trace| ==>
                      RestartOf(old(disk).status.value, old(disk).journal.value, dirty || !onBranch, trace[i].disk))
                && OneStatusWrite(|old(trace)|, old(disk).status)
      ensures calm ==> ok
      ensures ok && !dirty && onBranch && old(disk).journal.Some? ==>
                var op, s := old(disk).journal.value, Loaded(old(disk), readable);
                && disk.status == Some(status)
                && (if disk.head == op.current then disk.images == op.oldImages && RolledBack(s, status, op)
                    else disk.images == op.newImages && RolledForward(s, status, op))
      ensures ok && (dirty || !onBranch) && old(disk).journal.Some? ==>
                disk == old(disk).(status := Some(status)) && pending && status.state == Blocked
      ensures ok && old(disk).journal.None? ==>
                disk == old(disk).(status := Some(status)) && status == Recover(Loaded(old(disk), readable))
      ensures old(disk).journal.Some? && !dirty && onBranch && old(disk).head == old(disk).journal.value.current ==>
                forall i :: |old(trace)| <= i < |trace| ==>
                  Rolling(trace[i].disk.status, old(disk).status, Loaded(old(disk), readable), old(disk).journal.value)
    {
      InvariantHolds();
      LoadMemory(readable);
      match disk.journal {
        case Some(op) => ok := Reconcile(op, dirty, onBranch);
        case None => ok := Transition(status);
      }
    }

    /** The status a process starts with: the file's, or one that says only what the journal knows. */
    static function Loaded(d: Disk, readable: bool): Status {
      if readable && d.status.Some? then d.status.value
      else if d.journal.Some? then
        Status(Updating, "", "", d.journal.value.current, d.journal.value.candidate, true, false, "")
      else Status(Unknown, "", "", "", "", false, false, "")
    }

    /** The update is reported as done: success, on the new commit and version, nothing on offer. */
    static predicate RolledForward(s: Status, s': Status, j: Journal) {
      && s'.state == Success && s'.currentCommit == j.candidate && s'.latestCommit == j.candidate
      && s'.currentVersion == s.latestVersion && s'.latestVersion == s.latestVersion
      && !s'.updateAvailable && !s'.dirty
    }

    /** While an update is rolled back the status file shows what it was or the rolled-back update. */
    static predicate Rolling(now: Option<Status>, before: Option<Status>, s: Status, j: Journal) {
      now == before || (now.Some? && RolledBack(s, now.value, j))
    }

    /** A new process fills its memory from the files; a journal alone sets the pending flag. */
    method LoadMemory(readable: bool)
      requires Valid()
      modifies this`status, this`pending, this`trace
      ensures Valid() && trace == old(trace) + [Now()]
      ensures pending <==> disk.journal.Some?
      ensures status == if disk.journal.Some? then Loaded(disk, readable) else Recover(Loaded(disk, readable))
      ensures disk.journal.None? ==> !Busy(Memory(status, pending))
    {
      var loaded := readable && disk.status.Some?;
      var s := if loaded then disk.status.value else InitialStatus();
      match disk.journal {
        case Some(op) =>
          status := if loaded then s else RecoveryStatus(op);
          pending := true;
        case None =>
          status := Recover(s);
          pending := false;
      }
      Record();
    }

    method Reconcile(op: Journal, dirty: bool, onBranch: bool) returns (ok: bool)
      requires Valid() && pending && disk.journal == Some(op) && Covers(disk, op)
      modifies this`disk, this`status, this`pending, this`trace
      ensures Valid() && old(trace) <= trace
      ensures disk.head == old(disk.head)
      ensures ok && !dirty && onBranch ==> disk.journal.None? && Agree(disk) && !pending
      ensures old(disk).head == op.candidate && old(disk).status == Some(old(status)) ==>
                && (forall i :: |old(trace)| <= i < |trace| ==>
                      RestartOf(old(status), op, dirty || !onBranch, trace[i].disk))
                && OneStatusWrite(|old(trace)|, old(disk).status)
      ensures calm ==> ok
      ensures ok && !dirty && onBranch && old(disk).head == op.current ==>
                disk.images == op.oldImages && disk.status == Some(status) && RolledBack(old(status), status, op)
      ensures ok && !dirty && onBranch && old(disk).head == op.candidate ==>
                disk.images == op.newImages && disk.status == Some(status) && RolledForward(old(status), status, op)
      ensures ok && (dirty || !onBranch) ==>
                && disk == old(disk).(status := Some(status)) && pending && SameRelease(old(status), status)
                && status.state == Blocked && !status.updateAvailable
                    && status.currentCommit == old(status).currentCommit
      ensures !dirty && onBranch && old(disk).head == op.current ==>
                forall i :: |old(trace)| <= i < |trace| ==>
                  Rolling(trace[i].disk.status, old(disk).status, old(status), op)
    {
      var readable := Attempt();
      if !readable {
        return false;
      }
      if dirty || !onBranch {
        ok := Transition(Block(status));
        return;
      }
      ok := Settle(op);
    }

    /** Back to the old images or on to the new ones, by HEAD; then the final status and no journal. */
    method Settle(op: Journal) returns (ok: bool)
      requires Valid() && pending && disk.journal == Some(op) && Covers(disk, op)
      modifies this`disk, this`status, this`pending, this`trace
      ensures Valid() && old(trace) <= trace
      ensures disk.head == old(disk.head)
      ensures ok ==> disk.journal.None? && Agree(disk) && !pending
      ensures old(disk).head == op.candidate && old(disk).status == Some(old(status)) ==>
                && (forall i :: |old(trace)| <= i < |trace| ==>
                      RestartOf(old(status), op, false, trace[i].disk))
                && OneStatusWrite(|old(trace)|, old(disk).status)
      ensures calm ==> ok
      ensures ok && old(disk).head == op.current ==>
                disk.images == op.oldImages && disk.status == Some(status) && RolledBack(old(status), status, op)
      ensures ok && old(disk).head == op.candidate ==>
                disk.images == op.newImages && disk.status == Some(status) && RolledForward(old(status), status, op)
      ensures old(disk).head == op.current ==>
                forall i :: |old(trace)| <= i < |trace| ==>
                  Rolling(trace[i].disk.status, old(disk).status, old(status), op)
    {
      var target := if disk.head == op.current then op.oldImages else op.newImages;
      ok := SwitchRuntime(target);
      if !ok {
        return;
      }
      ok := Transition(if disk.head == op.current then Restore(status, op) else Finalize(status, op));
      if !ok {
        return;
      }
      ok := RemoveOperation();
    }

    /** A journal is there and HEAD is on its candidate. */
    static predicate HeadMoved(d: Disk) {
      d.journal.Some? && d.head == d.journal.value.candidate
    }

    /** From position k on the status file changes at most once. */
    ghost predicate OneStatusWrite(k: nat, before: Option<Status>)
      reads this
    {
      forall i, n :: k <= i <= n < |trace| ==>
        trace[i].disk.status == before || trace[i].disk.status == trace[n].disk.status
    }

    /** What one restart leaves of status file and journal after the merge. */
    static predicate RestartOf(s: Status, j: Journal, parked: bool, d: Disk) {
      && d.status.Some? && d.head == j.candidate
      && (d.journal.Some? ==> d.journal.value == j)
      && (d.status.value == s ||
          d.status.value == AfterRestart(s, j, if parked then Parked else Saved))
      && (d.journal.None? ==> !parked && d.status.value == AfterRestart(s, j, Saved))
    }

    /** The process dies after the write that led to world `cut`. */
    method CrashAt(cut: nat)
      requires Valid() && cut < |trace|
      modifies this`disk, this`status, this`pending, this`trace
      ensures Valid() && trace == old(trace)[..cut + 1] && disk == old(trace)[cut].disk
    {
      PrefixIsRun(repo, trace, cut + 1);
      trace := trace[..cut + 1];
      disk := trace[cut].disk;
      status := trace[cut].mem.status;
      pending := trace[cut].mem.pending;
    }

    /**
     Any life of the agent: checks, updates and restarts in any order and with any outcome, each
     cut short by a crash at any point. Every world it passes through is safe, HEAD only moves
     up through approved commits, and a journal on disk always blocks new operations.
     */
    method Live(rounds: nat)
      requires Valid() && repo.Ordered()
      modifies this`disk, this`status, this`pending, this`trace
      ensures Valid()
      ensures forall i :: 0 <= i < |trace| ==> Safe(trace[i].disk) && Guarded(trace[i])
      ensures Honest(trace[0].disk) ==> forall i :: 0 <= i < |trace| ==> Honest(trace[i].disk)
      ensures forall i, j :: 0 <= i < j < |trace| && trace[i].disk.head != trace[j].disk.head ==>
                (trace[i].disk.head, trace[j].disk.head) in repo.below && trace[j].disk.head in repo.trusted
    {
      var alive := true;
      for round := 0 to rounds
        invariant Valid()
      {
        var f: Facts, action: int, images: Images := *, *, *;
        var readable: bool, dirty: bool, onBranch: bool := *, *, *;
        var before := |trace|;
        if !alive || action == 0 {
          alive := Start(readable, dirty, onBranch);
        } else if f.current == disk.head && f.tip in repo.tips {
          if action == 1 {
            Check(f);
          } else {
            Apply(f, images);
          }
        }
        var cut: int := *;
        if before - 1 <= cut < |trace| {
          CrashAt(cut);
          alive := false;
        }
      }
      forall i | 0 <= i < |trace|
        ensures Safe(trace[i].disk) && Guarded(trace[i])
      {
        RunsAreSafe(repo, trace, i);
      }
      forall i | 0 <= i < |trace| && Honest(trace[0].disk)
        ensures Honest(trace[i].disk)
      {
        RunsAreHonest(repo, trace, i);
      }
      forall i, j | 0 <= i < j < |trace| && trace[i].disk.head != trace[j].disk.head
        ensures (trace[i].disk.head, trace[j].disk.head) in repo.below && trace[j].disk.head in repo.trusted
      {
        HeadsOnlyAdvance(repo, trace, i, j);
      }
    }

    /**
     Restarts after the merge, each dying where its round says, until one gets rid of the journal.
     The update is then reported as if it had never been interrupted exactly when no restart blocked
     it after its final status was written; restarts on a clean checkout never do.
     */
    method ResumeAfterCrash(rounds: seq<Round>, j: Journal, from: string, to: string)
      requires Valid() && disk.head == j.candidate && Resumable(disk, j, from, to)
      modifies this`disk, this`status, this`pending, this`trace
      ensures Valid() && old(trace) <= trace && disk.status.Some? && disk.head == j.candidate
      ensures disk.journal.Some? ==> SameOperation(disk.journal.value, j)
      ensures old(disk).journal.None? ==> disk.journal.None?
      ensures disk.journal.None? ==>
                (Finished(disk.status.value, j, from, to) <==> from == to || !LateBlock(trace, |old(trace)| - 1, to))
      ensures from != to && (forall r :: r in rounds ==> !r.dirty && r.onBranch) ==>
          !LateBlock(trace, |old(trace)| - 1, to)
      ensures calm && (exists r :: r in rounds && Undisturbed(r)) ==> disk.journal.None?
    {
      ghost var start: nat := |trace| - 1;
      for i := 0 to |rounds|
        invariant Valid() && old(trace) <= trace && Resuming(start, j, from, to)
        invariant from != to && (forall r :: r in rounds ==> !r.dirty && r.onBranch) ==> !LateBlock(trace, start, to)
        invariant old(disk).journal.None? ==> disk.journal.None?
        invariant calm && (exists r :: r in rounds[..i] && Undisturbed(r)) ==> disk.journal.None?
      {
        if disk.journal.None? {
          break;
        }
        OneRestart(rounds[i], start, j, from, to);
        assert rounds[..i + 1] == rounds[..i] + [rounds[i]];
      }
      assert rounds[..|rounds|] == rounds;
    }

    /** Where a series of restarts stands, given the worlds since position `start`. */
    ghost predicate Resuming(start: nat, j: Journal, from: string, to: string)
      reads this
    {
      && start < |trace| && disk.status.Some? && disk.head == j.candidate
      && (disk.journal.Some? ==>
            SameOperation(disk.journal.value, j) && Midway(disk.status.value, j, from, to, LateBlock(trace, start, to)))
      && (disk.journal.None? ==>
            (Finished(disk.status.value, j, from, to) <==> from == to || !LateBlock(trace, start, to)))
    }

    method OneRestart(r: Round, ghost start: nat, ghost j: Journal, ghost from: string, ghost to: string)
      requires Valid() && disk.journal.Some? && Resuming(start, j, from, to)
      modifies this`disk, this`status, this`pending, this`trace
      ensures Valid() && old(trace) <= trace && Resuming(start, j, from, to)
      ensures !r.dirty && r.onBranch && from != to && !LateBlock(old(trace), start, to) ==> !LateBlock(trace, start, to)
      ensures calm && Undisturbed(r) ==> disk.journal.None?
    {
      var before := |trace|;
      ghost var s, k := disk.status.value, disk.journal.value;
      var _ := Start(true, r.dirty, r.onBranch);
      if before <= r.cut < |trace| {
        CrashAt(r.cut);
      }
      RoundMeans(before, start, s, k, r.dirty || !r.onBranch, j, from, to, old(trace));
    }

    /** The worlds of one restart, seen from the status it found. */
    lemma {:induction false} RoundMeans(before: nat, start: nat, s: Status, k: Journal, parked: bool, j: Journal,
                                        from: string, to: string, earlier: seq<World>)
      requires Valid() && start < before < |trace| && before == |earlier| && earlier <= trace
      requires SameOperation(k, j) && Midway(s, j, from, to, LateBlock(earlier, start, to))
      requires exists i :: start <= i < before && earlier[i].disk.status == Some(s)
      requires forall i :: before <= i < |trace| ==> RestartOf(s, k, parked, trace[i].disk)
      requires OneStatusWrite(before, Some(s))
      ensures Resuming(start, j, from, to)
      ensures !parked && from != to && !LateBlock(earlier, start, to) ==> !LateBlock(trace, start, to)
    {
      MidwayStep(s, k, from, to, LateBlock(earlier, start, to), if parked then Parked else Saved);
      MidwayEnd(s, k, from, to, LateBlock(earlier, start, to));
    }

    /**
     End to end: an update, a crash in any world in which HEAD has moved, any restarts. Once the
     journal is gone, the status is that of an uninterrupted update exactly when no restart blocked
     it late; it always is when every restart finds a clean checkout.
     */
    method UpdateThroughCrash(f: Facts, images: Images, cut: nat, rounds: seq<Round>)
      requires Valid()
      requires f.current == disk.head && f.tip in repo.tips && f.current != f.latest
      modifies this`disk, this`status, this`pending, this`trace
      ensures Valid() && old(trace) <= trace && (disk.head == old(disk).head || disk.head == f.latest)
      ensures disk.head == f.latest ==> Outcome(|old(trace)|, f, Operation(f, old(disk).images, images), rounds)
      ensures calm && cut == 0 && !old(Busy(Memory(status, pending))) && !old(status).dirty && Offers(repo, f)
              && ValidImages(old(disk).images) && ValidImages(images) ==>
                disk.head == f.latest && disk.journal.None?
    {
      ghost var before := |trace|;
      var ok := Reserve(Updating, true);
      if ok {
        ghost var reserved := trace;
        CrashAndResume(f, images, cut, rounds);
        LateFrom(reserved, trace, before, f.releaseVersion);
      }
    }

    function Operation(f: Facts, oldImages: Images, images: Images): Journal {
      Journal(Prepared, f.current, f.latest, oldImages, images)
    }

    /** What is known once HEAD has moved, given the worlds from position k on. */
    ghost predicate Outcome(k: nat, f: Facts, j: Journal, rounds: seq<Round>)
      reads this
    {
      var from, to := f.currentVersion, f.releaseVersion;
      && disk.status.Some? && (disk.journal.Some? ==> SameOperation(disk.journal.value, j))
      && (calm && (exists r :: r in rounds && Undisturbed(r)) ==> disk.journal.None?)
      && (disk.journal.None? ==>
            && Agree(disk)
            && (Finished(disk.status.value, j, from, to) <==> from == to || !LateBlock(trace, k, to))
            && ((forall r :: r in rounds ==> !r.dirty && r.onBranch) ==> Finished(disk.status.value, j, from, to)))
    }

    /** The update proper, from the reservation on. */
    method CrashAndResume(f: Facts, images: Images, cut: nat, rounds: seq<Round>)
      requires Valid() && !pending && status.state == Updating && disk.journal.None? && disk.status == Some(status)
      requires f.current == disk.head && f.tip in repo.tips && f.current != f.latest
      modifies this`disk, this`status, this`pending, this`trace
      ensures Valid() && old(trace) <= trace && (disk.head == old(disk).head || disk.head == f.latest)
      ensures disk.head == f.latest ==> Outcome(|old(trace)|, f, Operation(f, old(disk).images, images), rounds)
      ensures calm && cut == 0 && Offers(repo, f) && ValidImages(old(disk).images) && ValidImages(images) ==>
                disk.head == f.latest && disk.journal.None?
    {
      var j := Operation(f, disk.images, images);
      ghost var before := |trace|;
      UpdateAndCrash(f, images, cut);
      if disk.head == f.latest {
        ghost var early := trace;
        ResumeAfterCrash(rounds, j, f.currentVersion, f.releaseVersion);
        if f.currentVersion != f.releaseVersion {
          LateFrom(early[..|early| - 1], trace, before, f.releaseVersion);
        }
        InvariantHolds();
      }
    }

    method UpdateAndCrash(f: Facts, images: Images, cut: nat)
      requires Valid() && !pending && status.state == Updating && disk.journal.None? && disk.status == Some(status)
      requires f.current == disk.head && f.tip in repo.tips && f.current != f.latest
      modifies this`disk, this`status, this`pending, this`trace
      ensures Valid() && old(trace) <= trace && |old(trace)| < |trace|
      ensures ResumableFrom(|old(trace)|, Operation(f, old(disk).images, images), f.currentVersion, f.releaseVersion)
      ensures calm && cut == 0 && Offers(repo, f) && ValidImages(old(disk).images) && ValidImages(images) ==>
                disk.head == f.latest && disk.journal.None?
    {
      var before := |trace|;
      RunUpdate(f, images);
      if before <= cut < |trace| {
        CrashAt(cut);
      }
    }

    /** Dropping worlds that are not blocked late from the front changes nothing. */
    static lemma {:induction false} LateFrom(early: seq<World>, all: seq<World>, before: nat, to: string)
      requires before <= |early| && early <= all && !LateBlock(early, before, to)
      ensures LateBlock(all, before, to) <==> LateBlock(all, |early|, to)
    {
    }

    static predicate Recovering(d: Disk, before: Disk, s: Status, retain: bool) {
      && d.head == before.head && (retain ==> d.journal == before.journal)
      && (d.status == before.status ||
          (d.status.Some? && d.status.value in {Continue(s), Fail(s, true), Block(s)}))
    }
  }
}
