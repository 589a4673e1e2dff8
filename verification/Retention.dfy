/**
 Which recovery points the retention policy deletes: the map-and-loop selector of
 internal/backup/postgres_store.go against its declarative meaning. Times are instants, run ids
 compare as their canonical strings do.
 */
module Retention {
  import opened Common
  import opened BackupModel

  datatype Artifact = Artifact(run: nat, kind: Kind, repository: Repository, snapshot: string)

  datatype Point = Point(run: nat, trigger: Trigger, requestedAt: int, present: bool, artifact: Artifact)

  /** `day` and `month` name the calendar day and month of an instant in the policy's location. */
  datatype Policy = Policy(
    now: int,
    localDaily: int,
    remoteDaily: int,
    remoteMonthly: int,
    protectFor: int,
    day: int -> int,
    month: int -> int
  )

  datatype Key = Key(run: nat, repository: Repository)

  datatype Group = Group(trigger: Trigger, requestedAt: int, artifacts: seq<Artifact>)

  function KeyOf(p: Point): Key {
    Key(p.run, p.artifact.repository)
  }

  // ---------------------------------------------------------------- grouping

  /** A point joins its run's group; the first point of a run sets trigger and time. */
  function AddPoint(groups: map<Key, Group>, p: Point): map<Key, Group> {
    var k := KeyOf(p);
    var g := if k in groups then groups[k] else Group(p.trigger, p.requestedAt, []);
    groups[k := g.(artifacts := g.artifacts + [p.artifact])]
  }

  function Groups(points: seq<Point>, n: nat): map<Key, Group>
    requires n <= |points|
  {
    if n == 0 then map[] else AddPoint(Groups(points, n - 1), points[n - 1])
  }

  // ---------------------------------------------------------------- the policy, declaratively

  /** One run's recovery point in one repository. */
  datatype Item = Item(run: nat, requestedAt: int, trigger: Trigger)

  predicate Newer(a: Item, b: Item) {
    a.requestedAt > b.requestedAt || (a.requestedAt == b.requestedAt && a.run > b.run)
  }

  function Items(groups: map<Key, Group>, r: Repository): set<Item> {
    set k | k in groups && k.repository == r :: Item(k.run, groups[k].requestedAt, groups[k].trigger)
  }

  function NewerPeriods(items: set<Item>, x: Item, period: int -> int): set<int> {
    set y | y in items && Newer(y, x) :: period(y.requestedAt)
  }

  /** Newest of its calendar period, with fewer than `limit` distinct periods among newer points. */
  predicate KeptByCalendar(items: set<Item>, x: Item, period: int -> int, limit: int) {
    period(x.requestedAt) !in NewerPeriods(items, x, period) && |NewerPeriods(items, x, period)| < limit
  }

  predicate Newest(items: set<Item>, x: Item) {
    forall y :: y in items ==> !Newer(y, x)
  }

  predicate Protected(policy: Policy, x: Item) {
    x.trigger == PreRelease && x.requestedAt >= policy.now - policy.protectFor
  }

  function DailyLimit(policy: Policy, r: Repository): int {
    if r == Remote then policy.remoteDaily else policy.localDaily
  }

  /** What the policy keeps among the points of repository r. */
  predicate Kept(items: set<Item>, policy: Policy, r: Repository, x: Item) {
    || Newest(items, x)
    || KeptByCalendar(items, x, policy.day, DailyLimit(policy, r))
    || (r == Remote && KeptByCalendar(items, x, policy.month, policy.remoteMonthly))
    || Protected(policy, x)
  }

  predicate KeptKey(groups: map<Key, Group>, policy: Policy, k: Key)
    requires k in groups
  {
    Kept(Items(groups, k.repository), policy, k.repository, Item(k.run, groups[k].requestedAt, groups[k].trigger))
  }

  // ---------------------------------------------------------------- stability

  lemma {:induction false} FewerPeriods(items: set<Item>, fewer: set<Item>, x: Item, period: int -> int, limit: int)
    requires fewer <= items && KeptByCalendar(items, x, period, limit)
    ensures KeptByCalendar(fewer, x, period, limit)
  {
    var all, some := NewerPeriods(items, x, period), NewerPeriods(fewer, x, period);
    assert some <= all;
    SubsetSize(some, all);
  }

  lemma {:induction false} SubsetSize(a: set<int>, b: set<int>)
    requires a <= b
    ensures |a| <= |b|
  {
    assert b == a + (b - a);
  }

  /** A kept point stays kept when any other points are removed. */
  lemma {:induction false} KeptSurvives(items: set<Item>, fewer: set<Item>, policy: Policy, r: Repository, x: Item)
    requires fewer <= items && Kept(items, policy, r, x)
    ensures Kept(fewer, policy, r, x)
  {
    if KeptByCalendar(items, x, policy.day, DailyLimit(policy, r)) {
      FewerPeriods(items, fewer, x, policy.day, DailyLimit(policy, r));
    } else if r == Remote && KeptByCalendar(items, x, policy.month, policy.remoteMonthly) {
      FewerPeriods(items, fewer, x, policy.month, policy.remoteMonthly);
    }
  }

  /** The points of the runs in `keys`, in their order. */
  function PointsOf(points: seq<Point>, n: nat, keys: set<Key>): seq<Point>
    requires n <= |points|
  {
    if n == 0 then []
    else PointsOf(points, n - 1, keys) + (if KeyOf(points[n - 1]) in keys then [points[n - 1]] else [])
  }

  lemma {:induction false} GroupsAppend(points: seq<Point>, p: Point, n: nat)
    requires n <= |points|
    ensures Groups(points + [p], n) == Groups(points, n)
  {
    if n > 0 {
      GroupsAppend(points, p, n - 1);
    }
  }

  /** Grouping the surviving points is restricting the groups to the surviving keys. */
  lemma {:induction false} GroupsOfSurvivors(points: seq<Point>, n: nat, keys: set<Key>)
    requires n <= |points|
    ensures
      var kept := PointsOf(points, n, keys);
      Groups(kept, |kept|) == map k | k in Groups(points, n) && k in keys :: Groups(points, n)[k]
  {
    if n > 0 {
      GroupsOfSurvivors(points, n - 1, keys);
      var kept := PointsOf(points, n - 1, keys);
      var p := points[n - 1];
      if KeyOf(p) in keys {
        GroupsAppend(kept, p, |kept|);
        assert Groups(kept + [p], |kept| + 1) == AddPoint(Groups(kept, |kept|), p);
      } else {
        assert kept + [] == kept;
      }
    }
  }

  function KeptKeys(groups: map<Key, Group>, policy: Policy): set<Key> {
    set k | k in groups && KeptKey(groups, policy, k)
  }

  /** Stability: run again on the survivors, the policy deletes nothing. */
  lemma {:induction false} SelectionIsStable(points: seq<Point>, policy: Policy, k: Key)
    ensures
      var groups := Groups(points, |points|);
      var kept := PointsOf(points, |points|, KeptKeys(groups, policy));
      var survivors := Groups(kept, |kept|);
      k in survivors ==> KeptKey(survivors, policy, k)
  {
    var groups := Groups(points, |points|);
    var keys := KeptKeys(groups, policy);
    var kept := PointsOf(points, |points|, keys);
    var survivors := Groups(kept, |kept|);
    GroupsOfSurvivors(points, |points|, keys);
    if k in survivors {
      forall x | x in Items(survivors, k.repository)
        ensures x in Items(groups, k.repository)
      {
        var j :| j in survivors && j.repository == k.repository
            && x == Item(j.run, survivors[j].requestedAt, survivors[j].trigger);
        assert j in groups && groups[j] == survivors[j];
      }
      KeptSurvives(Items(groups, k.repository), Items(survivors, k.repository), policy, k.repository,
                   Item(k.run, groups[k].requestedAt, groups[k].trigger));
    }
  }

  // ---------------------------------------------------------------- the selector

  predicate NewestFirst(xs: seq<Item>) {
    forall i, j :: 0 <= i < j < |xs| ==> Newer(xs[i], xs[j])
  }

  ghost predicate OnePerRun(items: set<Item>) {
    forall x, y :: x in items && y in items && x.run == y.run ==> x == y
  }

  /** sort.Slice over the runs of one repository. */
  method SortNewestFirst(items: set<Item>) returns (xs: seq<Item>)
    requires OnePerRun(items)
    ensures NewestFirst(xs) && forall x :: x in xs <==> x in items
  {
    xs := [];
    var rest := items;
    while rest != {}
      invariant rest <= items && NewestFirst(xs)
      invariant forall x :: x in xs <==> x in items && x !in rest
      decreases rest
    {
      var x :| x in rest;
      var n := 0;
      while n < |xs| && Newer(xs[n], x)
        invariant n <= |xs| && forall i :: 0 <= i < n ==> Newer(xs[i], x)
      {
        n := n + 1;
      }
      assert n < |xs| ==> xs[n] in items && xs[n].run != x.run;
      xs := xs[..n] + [x] + xs[n..];
      rest := rest - {x};
    }
  }

  /** The calendar period of every point. */
  function PeriodsOf(xs: seq<Item>, period: int -> int): (periods: seq<int>)
    ensures |periods| == |xs| && forall j :: 0 <= j < |xs| ==> periods[j] == period(xs[j].requestedAt)
  {
    seq(|xs|, j requires 0 <= j < |xs| => period(xs[j].requestedAt))
  }

  function Seen(periods: seq<int>, n: nat): set<int>
    requires n <= |periods|
  {
    if n == 0 then {} else Seen(periods, n - 1) + {periods[n - 1]}
  }

  lemma {:induction false} SeenMembers(periods: seq<int>, n: nat)
    requires n <= |periods|
    ensures forall p :: p in Seen(periods, n) <==> exists j :: 0 <= j < n && periods[j] == p
  {
    if n > 0 {
      SeenMembers(periods, n - 1);
    }
  }

  /** In a list sorted newest first, the newer points are the earlier ones. */
  lemma {:induction false} EarlierIsNewer(xs: seq<Item>, items: set<Item>, i: nat, period: int -> int)
    requires NewestFirst(xs) && i < |xs| && forall x :: x in xs <==> x in items
    ensures NewerPeriods(items, xs[i], period) == Seen(PeriodsOf(xs, period), i)
  {
    var periods := PeriodsOf(xs, period);
    SeenMembers(periods, i);
    forall p | p in NewerPeriods(items, xs[i], period)
      ensures p in Seen(periods, i)
    {
      var y :| y in items && Newer(y, xs[i]) && period(y.requestedAt) == p;
      var j :| 0 <= j < |xs| && xs[j] == y;
      assert j < i && periods[j] == p;
    }
    forall p | p in Seen(periods, i)
      ensures p in NewerPeriods(items, xs[i], period)
    {
      var j :| 0 <= j < i && periods[j] == p;
      assert xs[j] in items && Newer(xs[j], xs[i]);
    }
  }

  /** How many of n periods a limit lets through. */
  function Capped(n: nat, limit: int): int {
    if n <= limit then n else if limit < 0 then 0 else limit
  }

  /** The j-th point is the first of its period, and the limit lets that period through. */
  predicate NewPeriodAt(periods: seq<int>, j: nat, limit: int)
    requires j < |periods|
  {
    periods[j] !in Seen(periods, j) && |Seen(periods, j)| < limit
  }

  lemma {:induction false} OneMoreSeen(periods: seq<int>, i: nat)
    requires i < |periods|
    ensures
      var seen, p := Seen(periods, i), periods[i];
      && Seen(periods, i + 1) == (if p in seen then seen else seen + {p})
      && |Seen(periods, i + 1)| == (if p in seen then |seen| else |seen| + 1)
  {
    var seen, p := Seen(periods, i), periods[i];
    if p in seen {
      assert seen + {p} == seen;
    }
  }

  function NewPeriods(periods: seq<int>, limit: int): (marks: seq<bool>)
    ensures |marks| == |periods| && forall j :: 0 <= j < |periods| ==> marks[j] == NewPeriodAt(periods, j, limit)
  {
    seq(|periods|, j requires 0 <= j < |periods| => NewPeriodAt(periods, j, limit))
  }

  /** The marked points among the first n. */
  function Marked(xs: seq<Item>, n: nat, marks: seq<bool>): set<Item>
    requires n <= |xs| == |marks|
  {
    if n == 0 then {} else Marked(xs, n - 1, marks) + (if marks[n - 1] then {xs[n - 1]} else {})
  }

  lemma {:induction false} OneMoreMarked(xs: seq<Item>, i: nat, marks: seq<bool>)
    requires i < |xs| == |marks|
    ensures Marked(xs, i + 1, marks) == if marks[i] then Marked(xs, i, marks) + {xs[i]} else Marked(xs, i, marks)
  {
  }

  lemma {:induction false} MarkedAt(xs: seq<Item>, n: nat, marks: seq<bool>, x: Item)
    requires n <= |xs| == |marks|
    ensures x in Marked(xs, n, marks) <==> exists j :: 0 <= j < n && xs[j] == x && marks[j]
  {
    if n > 0 {
      MarkedAt(xs, n - 1, marks, x);
    }
  }

  lemma {:induction false} NewPeriodsAreKept(xs: seq<Item>, items: set<Item>, period: int -> int, limit: int, x: Item)
    requires NewestFirst(xs) && forall x :: x in xs <==> x in items
    ensures x in Marked(xs, |xs|, NewPeriods(PeriodsOf(xs, period), limit)) <==>
        x in items && KeptByCalendar(items, x, period, limit)
  {
    MarkedAt(xs, |xs|, NewPeriods(PeriodsOf(xs, period), limit), x);
    if x in items {
      var i :| 0 <= i < |xs| && xs[i] == x;
      EarlierIsNewer(xs, items, i, period);
      assert forall j :: 0 <= j < |xs| && xs[j] == x ==> j == i;
    }
  }

  /** The daily and monthly loops: a seen set and a counter. */
  method KeepByCalendar(xs: seq<Item>, ghost items: set<Item>, period: int -> int, limit: int) returns (kept: set<Item>)
    requires NewestFirst(xs) && forall x :: x in xs <==> x in items
    ensures forall x :: x in kept <==> x in items && KeptByCalendar(items, x, period, limit)
  {
    kept := FirstPerPeriod(xs, period, limit);
    forall x
      ensures x in kept <==> x in items && KeptByCalendar(items, x, period, limit)
    {
      NewPeriodsAreKept(xs, items, period, limit, x);
    }
  }

  method FirstPerPeriod(xs: seq<Item>, period: int -> int, limit: int) returns (kept: set<Item>)
    ensures kept == Marked(xs, |xs|, NewPeriods(PeriodsOf(xs, period), limit))
  {
    var periods := PeriodsOf(xs, period);
    kept := TakeMarked(xs, periods, limit, NewPeriods(periods, limit));
  }

  method TakeMarked(xs: seq<Item>, periods: seq<int>, limit: int, ghost marks: seq<bool>) returns (kept: set<Item>)
    requires |periods| == |marks| == |xs|
    requires forall j :: 0 <= j < |marks| ==> marks[j] == NewPeriodAt(periods, j, limit)
    ensures kept == Marked(xs, |xs|, marks)
  {
    kept := {};
    var seen: set<int>, count := {}, 0;
    for i := 0 to |xs|
      invariant seen == Seen(periods, i)
      invariant count == Capped(|seen|, limit)
      invariant kept == Marked(xs, i, marks)
    {
      OneMoreSeen(periods, i);
      OneMoreMarked(xs, i, marks);
      assert marks[i] == NewPeriodAt(periods, i, limit);
      if periods[i] !in seen {
        seen := seen + {periods[i]};
        if count < limit {
          kept := kept + {xs[i]};
          count := count + 1;
        }
      }
    }
  }

  /** What one repository's pass keeps, given its runs. */
  method KeepRepository(items: set<Item>, policy: Policy, r: Repository) returns (kept: set<Item>)
    requires OnePerRun(items)
    ensures forall x :: x in kept <==> x in items && Kept(items, policy, r, x)
  {
    var xs := SortNewestFirst(items);
    if |xs| == 0 {
      assert forall x :: x !in items;
      return {};
    }
    var newest := xs[0];
    NewestIsFirst(xs, items);
    var daily := KeepByCalendar(xs, items, policy.day, DailyLimit(policy, r));
    var monthly := {};
    if r == Remote {
      monthly := KeepByCalendar(xs, items, policy.month, policy.remoteMonthly);
    }
    var release := KeepProtected(xs, policy);
    kept := {newest} + daily + monthly + release;
  }

  lemma {:induction false} NewestIsFirst(xs: seq<Item>, items: set<Item>)
    requires NewestFirst(xs) && xs != [] && forall x :: x in xs <==> x in items
    ensures xs[0] in items && forall x :: x in items && Newest(items, x) <==> x == xs[0]
  {
    assert xs[0] in xs;
    forall y | y in items
      ensures !Newer(y, xs[0])
    {
      var j :| 0 <= j < |xs| && xs[j] == y;
      assert j == 0 || Newer(xs[0], xs[j]);
    }
    forall x | x in items && Newest(items, x)
      ensures x == xs[0]
    {
      assert !Newer(xs[0], x);
    }
  }

  method KeepProtected(xs: seq<Item>, policy: Policy) returns (kept: set<Item>)
    ensures forall x :: x in kept <==> x in xs && Protected(policy, x)
  {
    kept := {};
    for i := 0 to |xs|
      invariant forall x :: x in kept <==> x in xs[..i] && Protected(policy, x)
    {
      assert xs[..i + 1] == xs[..i] + [xs[i]];
      var starts := policy.now - policy.protectFor;
      if xs[i].trigger == PreRelease && !(xs[i].requestedAt < starts) {
        kept := kept + {xs[i]};
      }
    }
    assert xs[..|xs|] == xs;
  }

  /** The artifacts of the points whose run is in `keys`, in their order. */
  function ArtifactsOf(points: seq<Point>, n: nat, keys: set<Key>): seq<Artifact>
    requires n <= |points|
  {
    if n == 0 then []
    else ArtifactsOf(points, n - 1, keys) + (if KeyOf(points[n - 1]) in keys then [points[n - 1].artifact] else [])
  }

  lemma {:induction false} GroupArtifacts(points: seq<Point>, n: nat, k: Key)
    requires n <= |points|
    ensures k !in Groups(points, n) ==> ArtifactsOf(points, n, {k}) == []
    ensures k in Groups(points, n) ==> Groups(points, n)[k].artifacts == ArtifactsOf(points, n, {k})
  {
    if n > 0 {
      GroupArtifacts(points, n - 1, k);
    }
  }

  lemma {:induction false} OneMoreKey(points: seq<Point>, n: nat, keys: set<Key>, k: Key)
    requires n <= |points| && k !in keys
    ensures multiset(ArtifactsOf(points, n, keys + {k}))
        == multiset(ArtifactsOf(points, n, keys)) + multiset(ArtifactsOf(points, n, {k}))
  {
    if n > 0 {
      OneMoreKey(points, n - 1, keys, k);
    }
  }

  lemma {:induction false} NoKeys(points: seq<Point>, n: nat)
    requires n <= |points|
    ensures ArtifactsOf(points, n, {}) == []
  {
    if n > 0 {
      NoKeys(points, n - 1);
    }
  }

  lemma {:induction false} ItemsAreOnePerRun(groups: map<Key, Group>, r: Repository)
    ensures OnePerRun(Items(groups, r))
  {
    forall x, y | x in Items(groups, r) && y in Items(groups, r) && x.run == y.run
      ensures x == y
    {
      assert x == Item(x.run, groups[Key(x.run, r)].requestedAt, groups[Key(x.run, r)].trigger);
      assert y == Item(y.run, groups[Key(y.run, r)].requestedAt, groups[Key(y.run, r)].trigger);
    }
  }

  method GroupPoints(points: seq<Point>) returns (groups: Option<map<Key, Group>>)
    ensures groups == if forall p :: p in points ==> p.present then Some(Groups(points, |points|)) else None
  {
    var byRun: map<Key, Group> := map[];
    for i := 0 to |points|
      invariant byRun == Groups(points, i)
      invariant forall p :: p in points[..i] ==> p.present
    {
      if !points[i].present {
        assert points[i] in points;
        return None;
      }
      assert points[..i + 1] == points[..i] + [points[i]];
      byRun := AddPoint(byRun, points[i]);
    }
    assert points[..|points|] == points;
    return Some(byRun);
  }

  /** The keys of the runs both repository passes keep. */
  method KeepMap(groups: map<Key, Group>, policy: Policy) returns (keep: set<Key>)
    ensures keep == KeptKeys(groups, policy)
  {
    ItemsAreOnePerRun(groups, Local);
    ItemsAreOnePerRun(groups, Remote);
    var local := KeepRepository(Items(groups, Local), policy, Local);
    var remote := KeepRepository(Items(groups, Remote), policy, Remote);
    keep := (set x | x in local :: Key(x.run, Local)) + (set x | x in remote :: Key(x.run, Remote));
    forall k
      ensures k in keep <==> k in groups && KeptKey(groups, policy, k)
    {
      KeyOfItem(groups, policy, if k.repository == Local then local else remote, k);
    }
  }

  lemma {:induction false} KeyOfItem(groups: map<Key, Group>, policy: Policy, kept: set<Item>, k: Key)
    requires forall x :: x in kept <==>
        x in Items(groups, k.repository) && Kept(Items(groups, k.repository), policy, k.repository, x)
    ensures (exists x :: x in kept && x.run == k.run) <==> k in groups && KeptKey(groups, policy, k)
  {
    if k in groups && KeptKey(groups, policy, k) {
      assert Item(k.run, groups[k].requestedAt, groups[k].trigger) in kept;
    }
    forall x | x in kept && x.run == k.run
      ensures k in groups && KeptKey(groups, policy, k)
    {
      assert k == Key(x.run, k.repository);
    }
  }

  /** selectRetentionCandidates: exactly the artifacts of the runs the policy does not keep. */
  method SelectCandidates(points: seq<Point>, policy: Policy) returns (candidates: Option<seq<Artifact>>)
    ensures candidates.None? <==> exists p :: p in points && !p.present
    ensures
      var groups := Groups(points, |points|);
      candidates.Some? ==>
        multiset(candidates.value) == multiset(ArtifactsOf(points, |points|, groups.Keys - KeptKeys(groups, policy)))
  {
    var grouped := GroupPoints(points);
    if grouped.None? {
      return None;
    }
    var keep := KeepMap(grouped.value, policy);
    var selected := CollectDropped(points, keep);
    return Some(selected);
  }

  method CollectDropped(points: seq<Point>, keep: set<Key>) returns (selected: seq<Artifact>)
    ensures multiset(selected) == multiset(ArtifactsOf(points, |points|, Groups(points, |points|).Keys - keep))
  {
    var byRun := Groups(points, |points|);
    selected := [];
    var rest := byRun.Keys;
    ghost var done: set<Key> := {};
    NoKeys(points, |points|);
    while rest != {}
      invariant rest <= byRun.Keys && done == byRun.Keys - rest - keep
      invariant multiset(selected) == multiset(ArtifactsOf(points, |points|, done))
      decreases rest
    {
      var k :| k in rest;
      if k !in keep {
        GroupArtifacts(points, |points|, k);
        OneMoreKey(points, |points|, done, k);
        selected := selected + byRun[k].artifacts;
        done := done + {k};
      }
      rest := rest - {k};
      assert done == byRun.Keys - rest - keep;
    }
    assert done == byRun.Keys - keep;
  }

  /** The points of the runs the policy keeps. */
  function Survivors(points: seq<Point>, policy: Policy): seq<Point> {
    PointsOf(points, |points|, KeptKeys(Groups(points, |points|), policy))
  }

  lemma {:induction false} SurvivorsPresent(points: seq<Point>, n: nat, keys: set<Key>)
    requires n <= |points| && forall p :: p in points ==> p.present
    ensures forall p :: p in PointsOf(points, n, keys) ==> p.present
  {
    if n > 0 {
      SurvivorsPresent(points, n - 1, keys);
      assert points[n - 1] in points;
    }
  }

  /** Selecting again among the survivors of a selection selects nothing. */
  method SelectAgain(points: seq<Point>, policy: Policy) returns (candidates: Option<seq<Artifact>>)
    requires forall p :: p in points ==> p.present
    ensures candidates == Some([])
  {
    var kept := Survivors(points, policy);
    SurvivorsPresent(points, |points|, KeptKeys(Groups(points, |points|), policy));
    candidates := SelectCandidates(kept, policy);
    NothingDropped(points, policy);
    NoKeys(kept, |kept|);
    assert multiset(candidates.value) == multiset([]);
    assert |candidates.value| == |multiset(candidates.value)|;
  }

  lemma {:induction false} NothingDropped(points: seq<Point>, policy: Policy)
    ensures
      var kept := Survivors(points, policy);
      Groups(kept, |kept|).Keys - KeptKeys(Groups(kept, |kept|), policy) == {}
  {
    var kept := Survivors(points, policy);
    forall k | k in Groups(kept, |kept|)
      ensures KeptKey(Groups(kept, |kept|), policy, k)
    {
      SelectionIsStable(points, policy, k);
    }
  }

  // ---------------------------------------------------------------- what the policy promises

  /** No point of the repository was requested later; of two at one time the one with the greater run counts. */
  ghost predicate Latest(items: set<Item>, x: Item) {
    forall y :: y in items ==> y.requestedAt < x.requestedAt || (y.requestedAt == x.requestedAt && y.run <= x.run)
  }

  /** The latest of its period, and fewer than `limit` periods, not its own, hold everything later. */
  ghost predicate LatestOfPeriod(items: set<Item>, x: Item, period: int -> int, limit: int) {
    exists periods: set<int> ::
      && |periods| < limit && period(x.requestedAt) !in periods
      && forall y :: y in items ==>
           || y.requestedAt < x.requestedAt || (y.requestedAt == x.requestedAt && y.run <= x.run)
           || period(y.requestedAt) in periods
  }

  /** Made before a release that is still protected. */
  predicate BeforeRelease(policy: Policy, x: Item) {
    x.trigger == PreRelease && policy.now - x.requestedAt <= policy.protectFor
  }

  lemma {:induction false} CalendarMeans(items: set<Item>, x: Item, period: int -> int, limit: int)
    ensures KeptByCalendar(items, x, period, limit) <==> LatestOfPeriod(items, x, period, limit)
  {
    var newer := NewerPeriods(items, x, period);
    assert forall y :: y in items && Newer(y, x) ==> period(y.requestedAt) in newer;
    if LatestOfPeriod(items, x, period, limit) {
      var periods: set<int> :|
        && |periods| < limit && period(x.requestedAt) !in periods
        && forall y :: y in items ==>
             || y.requestedAt < x.requestedAt || (y.requestedAt == x.requestedAt && y.run <= x.run)
             || period(y.requestedAt) in periods;
      assert newer <= periods;
      SubsetSize(newer, periods);
    }
  }

  /** The retention policy, repository by repository. */
  lemma {:induction false} KeptMeans(items: set<Item>, policy: Policy, x: Item)
    ensures Kept(items, policy, Local, x) <==>
              Latest(items, x) || LatestOfPeriod(items, x, policy.day, policy.localDaily) || BeforeRelease(policy, x)
    ensures Kept(items, policy, Remote, x) <==>
              || Latest(items, x) || LatestOfPeriod(items, x, policy.day, policy.remoteDaily)
              || LatestOfPeriod(items, x, policy.month, policy.remoteMonthly) || BeforeRelease(policy, x)
  {
    CalendarMeans(items, x, policy.day, policy.localDaily);
    CalendarMeans(items, x, policy.day, policy.remoteDaily);
    CalendarMeans(items, x, policy.month, policy.remoteMonthly);
  }

  function CalendarItems(items: set<Item>, period: int -> int, limit: int): set<Item> {
    set x | x in items && KeptByCalendar(items, x, period, limit)
  }

  ghost predicate OnePerPeriod(items: set<Item>, period: int -> int) {
    forall x, y :: x in items && y in items && period(x.requestedAt) == period(y.requestedAt) ==> x == y
  }

  lemma {:induction false} HasOldest(items: set<Item>) returns (oldest: Item)
    requires OnePerRun(items) && items != {}
    ensures oldest in items && forall y :: y in items && y != oldest ==> Newer(y, oldest)
    decreases items
  {
    var some :| some in items;
    var rest := items - {some};
    oldest := some;
    if rest == {} {
      assert items == {some};
    } else {
      var next := HasOldest(rest);
      oldest := if Newer(some, next) then next else some;
      forall y | y in items && y != oldest
        ensures Newer(y, oldest)
      {
        assert y == some || y in rest;
        assert next in rest && next.run != some.run;
      }
    }
  }

  lemma {:induction false} PeriodsCount(items: set<Item>, period: int -> int)
    requires OnePerPeriod(items, period)
    ensures |set x | x in items :: period(x.requestedAt)| == |items|
    decreases items
  {
    var periods := set x | x in items :: period(x.requestedAt);
    if x :| x in items {
      var rest := items - {x};
      PeriodsCount(rest, period);
      assert periods == (set y | y in rest :: period(y.requestedAt)) + {period(x.requestedAt)};
    } else {
      assert periods == {};
    }
  }

  /** A calendar rule keeps one point a period and no more points than its limit. */
  lemma {:induction false} CalendarKeepsAtMost(items: set<Item>, period: int -> int, limit: nat)
    requires OnePerRun(items)
    ensures |CalendarItems(items, period, limit)| <= limit
    ensures OnePerPeriod(CalendarItems(items, period, limit), period)
  {
    var kept := CalendarItems(items, period, limit);
    forall x, y | x in kept && y in kept && period(x.requestedAt) == period(y.requestedAt)
      ensures x == y
    {
      assert !Newer(x, y) && !Newer(y, x);
    }
    if kept != {} {
      var oldest := HasOldest(kept);
      var others := kept - {oldest};
      PeriodsCount(others, period);
      var periods := set y | y in others :: period(y.requestedAt);
      assert periods <= NewerPeriods(items, oldest, period);
      SubsetSize(periods, NewerPeriods(items, oldest, period));
    }
  }
}
