/**
 The rules of the over-the-air update protocol, stated over disk contents only.

 A world is what survives a crash (journal, status file, checked-out commit, running
 images) together with what does not (the agent's status and its pending flag). `Step`
 lists the moves the protocol allows; `Safe` is what every reachable world satisfies.
 The agent itself is in UpdateAgent.dfy, where each of its disk writes is shown to be a
 `Step`.
 */
module UpdateProtocol {
  import opened Common

  type Commit = string

  datatype Images = Images(app: string, worker: string)

  datatype Stage = Prepared | Switching | Switched | Merged

  datatype Journal = Journal(stage: Stage, current: Commit, candidate: Commit, oldImages: Images, newImages: Images)

  datatype State = Unknown | Checking | Current | Available | Updating | Success | Failed | Blocked

  datatype Status = Status(
    state: State,
    currentVersion: string,
    latestVersion: string,
    currentCommit: Commit,
    latestCommit: Commit,
    updateAvailable: bool,
    dirty: bool,
    previousVersion: string
  )

  /** `built` records which image pair was built from which commit. */
  datatype Disk = Disk(
    journal: Option<Journal>,
    status: Option<Status>,
    head: Commit,
    images: Images,
    built: set<(Images, Commit)>
  )

  datatype Memory = Memory(status: Status, pending: bool)

  datatype World = World(disk: Disk, mem: Memory)

  /**
   What git knows: `below` holds (a, b) when a is an ancestor of b or b itself; `tips`
   are the commits the configured remote branch has pointed at, `trusted` the commits the
   release service vouches for; `migrates` and `rewires` hold the pairs whose diff touches
   database migrations or the update control plane.
   */
  datatype Repo = Repo(
    below: set<(Commit, Commit)>,
    tips: set<Commit>,
    trusted: set<Commit>,
    migrates: set<(Commit, Commit)>,
    rewires: set<(Commit, Commit)>
  ) {
    ghost predicate Ordered() {
      && (forall a, b, c :: (a, b) in below && (b, c) in below ==> (a, c) in below)
      && (forall a, b :: (a, b) in below && (b, a) in below ==> a == b)
    }

    predicate OnBranch(c: Commit) {
      exists tip :: tip in tips && (c, tip) in below
    }

    /** The only moves of HEAD the agent may make. */
    predicate Approved(from: Commit, to: Commit) {
      && from != to
      && (from, to) in below
      && OnBranch(to)
      && to in trusted
      && (from, to) !in migrates
      && (from, to) !in rewires
    }
  }

  predicate IsHex(s: string) {
    forall i :: 0 <= i < |s| ==> s[i] in "0123456789abcdef"
  }

  predicate ValidCommit(c: Commit) {
    |c| == 40 && IsHex(c)
  }

  predicate ValidImage(id: string) {
    |id| == 71 && "sha256:" <= id && IsHex(id[7..])
  }

  predicate ValidImages(i: Images) {
    ValidImage(i.app) && ValidImage(i.worker)
  }

  predicate ValidJournal(j: Journal) {
    && j.current != j.candidate
    && ValidCommit(j.current) && ValidCommit(j.candidate)
    && ValidImages(j.oldImages) && ValidImages(j.newImages)
  }

  /** Running images and HEAD belong together. */
  predicate Agree(d: Disk) {
    (d.images, d.head) in d.built
  }

  /** A journal that names both commits, an image pair for each, and one of the two commits is HEAD. */
  predicate Covers(d: Disk, j: Journal) {
    && ValidJournal(j)
    && (j.oldImages, j.current) in d.built
    && (j.newImages, j.candidate) in d.built
    && (d.head == j.current || d.head == j.candidate)
  }

  predicate Safe(d: Disk) {
    match d.journal
    case None => Agree(d)
    case Some(j) => Covers(d, j)
  }

  /** The agent refuses to start a check or an update. */
  predicate Busy(m: Memory) {
    m.pending || m.status.state == Checking || m.status.state == Updating
  }

  predicate Guarded(w: World) {
    w.disk.journal.Some? ==> Busy(w.mem)
  }

  predicate SaysSuccess(d: Disk) {
    d.status.Some? && d.status.value.state == Success
  }

  /** A status file that reports success reports it of the commit that is checked out. */
  predicate Honest(d: Disk) {
    SaysSuccess(d) ==> d.status.value.currentCommit == d.head
  }

  ghost predicate DiskStep(repo: Repo, d: Disk, d': Disk) {
    || d' == d
    || (d' == d.(status := d'.status) && Honest(d'))
    || (d'.journal.Some? && d' == d.(journal := d'.journal) && Covers(d, d'.journal.value))
    || (Agree(d) && d' == d.(journal := None))
    || (d.journal.Some? && d' == d.(images := d'.images))
    || (d.journal.Some? && d.head == d.journal.value.current && !SaysSuccess(d) &&
        d' == d.(head := d.journal.value.candidate) && repo.Approved(d.head, d'.head))
    || (d.built <= d'.built && d' == d.(built := d'.built))
  }

  /** One move of the system: a disk write, a change in memory, or a crash and restart. */
  ghost predicate Step(repo: Repo, w: World, w': World) {
    DiskStep(repo, w.disk, w'.disk) && Guarded(w')
  }

  ghost predicate Run(repo: Repo, trace: seq<World>) {
    && |trace| > 0
    && Safe(trace[0].disk)
    && Guarded(trace[0])
    && (forall i, j :: 0 <= i < j < |trace| && j == i + 1 ==> Step(repo, trace[i], trace[j]))
  }

  /** A run goes on with any permitted step. */
  lemma {:induction false} RunExtends(repo: Repo, trace: seq<World>, w: World)
    requires Run(repo, trace) && DiskStep(repo, trace[|trace| - 1].disk, w.disk) && Guarded(w)
    ensures Run(repo, trace + [w])
  {
  }

  lemma {:induction false} JournalRun(repo: Repo, trace: seq<World>, w: World, d: Disk, j: Journal)
    requires |trace| > 0 && Guarded(w) && trace[|trace| - 1].disk == d
    requires Covers(d, j) && (w.disk == d || w.disk == d.(journal := Some(j)))
    ensures Run(repo, trace) ==> Run(repo, trace + [w])
  {
    if Run(repo, trace) {
      RunExtends(repo, trace, w);
    }
  }

  lemma {:induction false} MergeRun(repo: Repo, trace: seq<World>, w: World, d: Disk, candidate: Commit)
    requires |trace| > 0 && Guarded(w) && trace[|trace| - 1].disk == d
    requires
      && d.journal.Some? && d.journal.value.current == d.head && d.journal.value.candidate == candidate
      && !SaysSuccess(d) && repo.Approved(d.head, candidate) && (w.disk == d || w.disk == d.(head := candidate))
    ensures Run(repo, trace) ==> Run(repo, trace + [w])
  {
    if Run(repo, trace) {
      RunExtends(repo, trace, w);
    }
  }

  lemma {:induction false} StatusRun(repo: Repo, trace: seq<World>, w: World, d: Disk, s: Status)
    requires |trace| > 0 && Guarded(w) && trace[|trace| - 1].disk == d
    requires
      && (s.state == Success ==> s.currentCommit == d.head || d.status == Some(s))
      && (w.disk == d || w.disk == d.(status := Some(s)))
    ensures Run(repo, trace) ==> Run(repo, trace + [w])
  {
    if Run(repo, trace) {
      RunExtends(repo, trace, w);
    }
  }

  lemma StepKeepsSafe(repo: Repo, d: Disk, d': Disk)
    requires Safe(d) && DiskStep(repo, d, d')
    ensures Safe(d')
  {
  }

  /**
   Safety over whole runs: in every world of every run, images and HEAD agree whenever no
   journal is on disk, so they can only disagree while a valid journal naming both commits
   and all four images is there to repair them; and whenever a journal is on disk no second
   operation can start.
   */
  lemma {:induction false} RunsAreSafe(repo: Repo, trace: seq<World>, i: nat)
    requires Run(repo, trace) && i < |trace|
    ensures Safe(trace[i].disk)
    ensures !Agree(trace[i].disk) ==> trace[i].disk.journal.Some? && ValidJournal(trace[i].disk.journal.value)
    ensures trace[i].disk.journal.Some? ==> Busy(trace[i].mem)
  {
    if i > 0 {
      RunsAreSafe(repo, trace, i - 1);
      assert Step(repo, trace[i - 1], trace[i]);
      StepKeepsSafe(repo, trace[i - 1].disk, trace[i].disk);
    }
  }

  /** From an honest start, no world of any run reports success of a commit that is not checked out. */
  lemma {:induction false} RunsAreHonest(repo: Repo, trace: seq<World>, i: nat)
    requires Run(repo, trace) && Honest(trace[0].disk) && i < |trace|
    ensures Honest(trace[i].disk)
  {
    if i > 0 {
      RunsAreHonest(repo, trace, i - 1);
      assert Step(repo, trace[i - 1], trace[i]);
    }
  }

  /** HEAD never goes back: later commits in a run are equal to or strictly above earlier ones. */
  lemma {:induction false} HeadsOnlyAdvance(repo: Repo, trace: seq<World>, i: nat, j: nat)
    requires repo.Ordered() && Run(repo, trace) && i <= j < |trace|
    ensures
      var a, b := trace[i].disk.head, trace[j].disk.head;
      && (a == b || (a != b && (a, b) in repo.below && b in repo.trusted && repo.OnBranch(b)))
      && (j == i + 1 && a != b ==> repo.Approved(a, b))
    decreases j - i
  {
    if i < j {
      HeadsOnlyAdvance(repo, trace, i, j - 1);
      assert Step(repo, trace[j - 1], trace[j]);
    }
  }

  /** A commit that HEAD has left is never checked out again. */
  lemma HeadNeverReturns(repo: Repo, trace: seq<World>, i: nat, j: nat, k: nat)
    requires repo.Ordered() && Run(repo, trace) && i <= j <= k < |trace|
    requires trace[i].disk.head != trace[j].disk.head
    ensures trace[i].disk.head != trace[k].disk.head
  {
    HeadsOnlyAdvance(repo, trace, i, j);
    HeadsOnlyAdvance(repo, trace, j, k);
  }

  /** Any prefix of a run is a run: a crash may fall between any two steps. */
  lemma PrefixIsRun(repo: Repo, trace: seq<World>, n: nat)
    requires Run(repo, trace) && 0 < n <= |trace|
    ensures Run(repo, trace[..n])
  {
  }
}
