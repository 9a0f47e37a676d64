/** Building blocks of histories: what one more action, a whole run, or a compaction up to its first
    rename adds to a history. */
module Histories {
  import opened Rows
  import opened Dedup
  import opened Backfill
  import opened Compaction
  import opened Convergence
  import opened Warehouse
  import opened FileHistory

  // ----- States some history ends in -----

  ghost predicate EndsIn(states: seq<State>, s: State) {
    states != [] && states[|states| - 1] == s
  }

  /** Some clean history ends in `s`. */
  ghost predicate Reached(s: State) {
    exists states, actions :: CleanBehavior(states, actions) && EndsIn(states, s)
  }

  lemma StartIsReached()
    ensures Reached(EMPTY)
  {
    assert CleanBehavior([EMPTY], []) && EndsIn([EMPTY], EMPTY);
  }

  lemma {:induction false} BehaviorGrows(states: seq<State>, actions: seq<Action>, a: Action, t: State)
    requires Behavior(states, actions) && Next(states[|states| - 1], a, t)
    ensures Behavior(states + [t], actions + [a])
    ensures CleanBehavior(states, actions) && Clean(states[|states| - 1], a) ==> CleanBehavior(states + [t], actions + [a])
  {
    hide Next, Clean;
    var more, all := states + [t], actions + [a];
    assert forall i :: 0 <= i < |states| ==> more[i] == states[i];
    assert forall i :: 0 <= i < |actions| ==> all[i] == actions[i];
    forall i | 0 <= i < |all| ensures Next(more[i], all[i], more[i + 1]) {
      if i < |actions| {
        assert Next(states[i], actions[i], states[i + 1]);
      }
    }
  }

  lemma ReachedNext(s: State, a: Action, t: State)
    requires Reached(s) && Next(s, a, t) && Clean(s, a)
    ensures Reached(t)
  {
    hide Next, Clean, Behavior;
    var states, actions :| CleanBehavior(states, actions) && EndsIn(states, s);
    BehaviorGrows(states, actions, a, t);
    assert EndsIn(states + [t], t);
  }

  lemma ReachedInv(s: State)
    requires Reached(s)
    ensures Inv(s)
  {
    hide CleanBehavior, Inv;
    var states, actions :| CleanBehavior(states, actions) && EndsIn(states, s);
    InvHolds(states, actions, |states| - 1);
  }

  // ----- A run -----

  /** The state after run `r` was left alone for `k` steps. */
  ghost function RunFor(s: State, r: string, k: nat): State
    requires r in s.runs
  {
    WithWorld(s, r, Alone(WorldOf(s, r), k))
  }

  /** A clean history goes on with `k` steps of the run. */
  lemma {:induction false} RunForExtends(states: seq<State>, actions: seq<Action>, r: string, k: nat)
    returns (more: seq<State>, all: seq<Action>)
    requires CleanBehavior(states, actions) && r in states[|states| - 1].runs
    ensures CleanBehavior(more, all) && EndsIn(more, RunFor(states[|states| - 1], r, k))
    ensures states <= more && actions <= all
  {
    hide Step, Next;
    var s := states[|states| - 1];
    if k == 0 {
      assert s.runs[r := s.runs[r]] == s.runs;
      assert RunFor(s, r, 0) == s;
      more, all := states, actions;
    } else {
      more, all := RunForExtends(states, actions, r, k - 1);
      OneMoreStep(s, r, k - 1);
      BehaviorGrows(more, all, RunStep(r), RunFor(s, r, k));
      more, all := more + [RunFor(s, r, k)], all + [RunStep(r)];
    }
  }

  lemma OneMoreStep(s: State, r: string, k: nat)
    requires r in s.runs
    ensures Next(RunFor(s, r, k), RunStep(r), RunFor(s, r, k + 1))
  {
    hide Step;
    var u := RunFor(s, r, k);
    assert s.runs[r := u.runs[r]][r := Step(WorldOf(u, r)).proc] == s.runs[r := Step(WorldOf(u, r)).proc];
  }

  /** The run is started and left alone for `k` steps. */
  ghost function RunFrom(s: State, job: Job, k: nat): State {
    s.(disk := Alone(World(s.disk, Start(job)), k).disk,
       runs := s.runs[job.runId := Alone(World(s.disk, Start(job)), k).proc])
  }

  /** A clean history goes on with a new run and `k` steps of it. */
  lemma RunFromExtends(states: seq<State>, actions: seq<Action>, job: Job, k: nat)
    returns (more: seq<State>, all: seq<Action>)
    requires CleanBehavior(states, actions) && job.runId !in states[|states| - 1].runs && JobOk(job)
    ensures CleanBehavior(more, all) && EndsIn(more, RunFrom(states[|states| - 1], job, k))
    ensures states <= more && actions <= all
  {
    hide JobOk, Alone, Clean, Next;
    var s := states[|states| - 1];
    var t := s.(runs := s.runs[job.runId := Start(job)]);
    StartIsClean(s, job);
    BehaviorGrows(states, actions, StartRun(job), t);
    more, all := RunForExtends(states + [t], actions + [StartRun(job)], job.runId, k);
    assert t.runs[job.runId := RunFor(t, job.runId, k).runs[job.runId]]
        == s.runs[job.runId := RunFor(t, job.runId, k).runs[job.runId]];
    assert RunFor(t, job.runId, k) == RunFrom(s, job, k);
  }

  lemma StartIsClean(s: State, job: Job)
    requires job.runId !in s.runs && JobOk(job)
    ensures Next(s, StartRun(job), s.(runs := s.runs[job.runId := Start(job)])) && Clean(s, StartRun(job))
  {
    hide JobOk;
  }

  lemma RunFromIsReached(s: State, job: Job, k: nat)
    requires Reached(s) && job.runId !in s.runs && JobOk(job)
    ensures Reached(RunFrom(s, job, k))
  {
    hide CleanBehavior, JobOk, Alone;
    var states, actions :| CleanBehavior(states, actions) && EndsIn(states, s);
    var more, all := RunFromExtends(states, actions, job, k);
  }

  lemma {:induction false} AloneKeeps(w: World, k: nat)
    ensures Alone(w, k).disk.locks == w.disk.locks && Alone(w, k).disk.archives == w.disk.archives
    ensures Alone(w, k).proc.job == w.proc.job
  {
    hide Step;
    if k > 0 {
      AloneKeeps(w, k - 1);
      RunStepFootprint(Alone(w, k - 1));
    }
  }

  /** No row of the batch has a key the lake shows. */
  ghost predicate AllNew(t: Tree, job: Job) {
    forall i :: 0 <= i < |job.accepted| ==> job.accepted[i].Key() !in Keys(TreeCanons(t))
  }

  lemma {:induction false} UnseenIsAll(rows: seq<Row>, existing: map<Key, Canon>)
    requires forall i :: 0 <= i < |rows| ==> rows[i].Key() !in existing
    ensures Unseen(rows, existing) == rows
  {
    if rows != [] {
      UnseenIsAll(rows[1..], existing);
    }
  }

  /** A run that has read the lake adds its whole batch, or failed. */
  ghost predicate AddsAll(t0: Tree, w: World) {
    match w.proc.phase
    case Quarantining => w.disk.tree == t0
    case Reading => w.disk.tree == t0
    case Failed(_) => true
    case _ => w.proc.plan.added == w.proc.job.accepted
  }

  lemma ReadingAddsAll(t0: Tree, w: World)
    requires AddsAll(t0, w) && JobOk(w.proc.job) && AllNew(t0, w.proc.job) && w.proc.phase.Reading?
    ensures AddsAll(t0, StepRead(w))
  {
    hide TreeCanons, Unseen, Deduplicate, Months, View, Consistent;
    var seen, batch := TreeCanons(t0), w.proc.job.accepted;
    if Consistent(seen) {
      DeduplicateMeaning(batch, View(seen));
      if Agrees(batch, View(seen)) {
        UnseenIsAll(batch, View(seen));
      }
    }
  }

  lemma StepAddsAll(t0: Tree, w: World)
    requires AddsAll(t0, w) && JobOk(w.proc.job) && AllNew(t0, w.proc.job)
    ensures AddsAll(t0, Step(w))
  {
    hide StepQuarantine, StepRead, StepStage, StepPromote, StepReread, StepAudit, StepPublish, StepAdvance, AllNew, JobOk;
    match w.proc.phase {
      case Quarantining => assert Step(w) == StepQuarantine(w);
      case Reading => ReadingAddsAll(t0, w);
      case Staging(i) => if i < |w.proc.plan.months| { assert Step(w) == StepStage(w, i); }
      case Promoting(i) => if i < |w.proc.plan.months| { assert Step(w) == StepPromote(w, i); }
      case Rereading => assert Step(w) == StepReread(w);
      case Auditing => assert Step(w) == StepAudit(w);
      case Publishing => assert Step(w) == StepPublish(w);
      case Advancing => assert Step(w) == StepAdvance(w);
      case _ =>
    }
  }

  lemma {:induction false} AloneAddsAll(d: Disk, job: Job, k: nat)
    requires JobOk(job) && AllNew(d.tree, job)
    ensures AddsAll(d.tree, Alone(World(d, Start(job)), k))
  {
    hide Step, AddsAll, AllNew, JobOk;
    var w := World(d, Start(job));
    if k == 0 {
      Beginning(w);
    } else {
      AloneAddsAll(d, job, k - 1);
      AloneKeeps(w, k - 1);
      StepAddsAll(d.tree, Alone(w, k - 1));
    }
  }

  lemma Beginning(w: World)
    requires w.proc.phase.Quarantining?
    ensures Alone(w, 0) == w && AddsAll(w.disk.tree, w)
  {
  }

  // ----- Batches of one row -----

  function OneRow(runId: string, row: Row, incremental: bool): Job {
    Job(runId, row.canon.source, 1, [row], [], incremental)
  }

  /** The lake can take the row: nothing contradicts it, its month is not locked, its key is new. */
  ghost predicate Takes(d: Disk, row: Row) {
    && MonthOf(row.canon) !in d.locks
    && Consistent(TreeCanons(d.tree)) && row.Key() !in Keys(TreeCanons(d.tree))
  }

  lemma NothingShown(t: Tree)
    requires forall m :: DirOf(t, m) == map[]
    ensures TreeCanons(t) == {} && forall row: Row :: row.Key() !in Keys(TreeCanons(t))
  {
    forall v ensures v !in TreeCanons(t) {
      TreeByDirs(t, v);
    }
  }

  ghost predicate FreshName(t: Tree, runId: string) {
    forall m :: Part(runId) !in DirOf(t, m)
  }

  /** In a history a new run id never names an artifact. */
  lemma NewRunIdIsFresh(s: State, runId: string)
    requires Reached(s) && runId !in s.runs
    ensures FreshName(s.disk.tree, runId)
  {
    hide CleanBehavior, Inv, DirOf;
    var states, actions :| CleanBehavior(states, actions) && EndsIn(states, s);
    FilesInvHolds(states, actions, |states| - 1);
    forall m ensures Part(runId) !in DirOf(s.disk.tree, m) {
      assert !Known(s, m, Part(runId));
      assert !InTree(s.disk, m, Part(runId));
    }
  }

  /** The state after the row was ingested. */
  ghost function Ingested1(s: State, runId: string, row: Row, incremental: bool): State {
    RunFrom(s, OneRow(runId, row, incremental), Remaining(Start(OneRow(runId, row, incremental))))
  }

  lemma OneRowOffered(d: Disk, runId: string, row: Row, incremental: bool)
    requires Takes(d, row) && FreshName(d.tree, runId)
    ensures var job := OneRow(runId, row, incremental);
      && Canons(job.accepted) == {row.canon} && News(d.tree, job) == {row.canon}
      && Offered(d.tree, job) && !Blocked(d, job) && Unlocked(d.locks, News(d.tree, job)) && AllNew(d.tree, job)
  {
    hide TreeCanons;
    var job := OneRow(runId, row, incremental);
    CanonsAppend([], row);
    assert Canons(job.accepted) == {row.canon};
    assert row.canon !in TreeCanons(d.tree);
  }

  /** Ingesting one new row ends in success, adds exactly that row, in one new file of its month. */
  lemma OneRowIsIngested(s: State, runId: string, row: Row, incremental: bool)
    requires Reached(s) && runId !in s.runs && Takes(s.disk, row)
    ensures var t := Ingested1(s, runId, row, incremental);
      && Reached(t) && t.compactors == s.compactors && t.runs == s.runs[runId := t.runs[runId]]
      && t.runs[runId].phase.Done? && t.runs[runId].plan.added == [row]
      && t.runs[runId].job == OneRow(runId, row, incremental)
      && t.disk.locks == s.disk.locks && t.disk.archives == s.disk.archives
      && TreeCanons(t.disk.tree) == TreeCanons(s.disk.tree) + {row.canon}
      && OneFileMore(s.disk.tree, t.disk.tree, MonthOf(row.canon))
  {
    hide Reached, TreeCanons, Offered, Blocked, Unlocked, AllNew, Alone, Step, Finish, Ingested, Takes, Attempting;
    var d, job := s.disk, OneRow(runId, row, incremental);
    var k := Remaining(Start(job));
    NewRunIdIsFresh(s, runId);
    OneRowOffered(d, runId, row, incremental);
    OfferedIsOk(d.tree, job);
    RunFromIsReached(s, job, k);
    UndisturbedRun(d, job);
    FinishIs(d, job);
    AloneKeeps(World(d, Start(job)), k);
    AloneAddsAll(d, job, k);
    NothingLanded(d.tree, {row.canon});
    AttemptProgress(d.tree, d, {row.canon}, job, k);
    DoneMeans(d.tree, {row.canon}, Alone(World(d, Start(job)), k));
    OneMonthLanded(d.tree, Alone(World(d, Start(job)), k).disk.tree, row.canon);
  }

  lemma FinishIs(d: Disk, job: Job)
    ensures Finish(d, job) == Alone(World(d, Start(job)), Remaining(Start(job)))
  {
    hide Alone;
  }

  lemma OfferedIsOk(t: Tree, job: Job)
    requires Offered(t, job)
    ensures JobOk(job)
  {
  }

  lemma NothingLanded(t: Tree, news: set<Canon>)
    ensures Progress(t, t, news)
  {
    hide Landed;
  }

  lemma DoneMeans(t0: Tree, news: set<Canon>, w: World)
    requires Attempting(t0, news, w) && w.proc.phase.Done?
    ensures Progress(t0, w.disk.tree, news) && AllLanded(t0, w.disk.tree, news)
    ensures TreeCanons(w.disk.tree) == TreeCanons(t0) + news
  {
    hide TreeCanons, Landed, Setting, Progress, Unlocked;
    AllLandedCanons(t0, w.disk.tree, news);
  }

  ghost predicate OneFileMore(t: Tree, u: Tree, m: Month) {
    |DirOf(u, m)| == |DirOf(t, m)| + 1 && forall x :: x != m ==> DirOf(u, x) == DirOf(t, x)
  }

  lemma OneMonthLanded(t: Tree, u: Tree, v: Canon)
    requires Progress(t, u, {v}) && AllLanded(t, u, {v})
    ensures OneFileMore(t, u, MonthOf(v))
  {
    var m := MonthOf(v);
    assert v in Slice({v}, m);
    var r: string, rows: seq<Row> :| LandedAs(t, u, m, {v}, r, rows);
    assert DirOf(u, m).Keys == DirOf(t, m).Keys + {Part(r)};
    assert |DirOf(u, m)| == |DirOf(u, m).Keys| && |DirOf(t, m)| == |DirOf(t, m).Keys|;
    forall x | x != m ensures DirOf(u, x) == DirOf(t, x) {
      assert Slice({v}, x) == {};
      assert Pristine(t, u, x);
    }
  }

  // ----- A compaction up to its first rename -----

  lemma {:induction false} RowsOfDirExist(dir: Dir) returns (rows: seq<Row>)
    ensures forall r :: r in rows <==> RowOfDir(dir, r)
    decreases |dir|
  {
    if dir == map[] {
      rows := [];
    } else {
      var n :| n in dir;
      assert |dir - {n}| < |dir| by {
        assert (dir - {n}).Keys == dir.Keys - {n};
        assert |(dir - {n}).Keys| == |dir - {n}| && |dir.Keys| == |dir|;
      }
      var rest := RowsOfDirExist(dir - {n});
      rows := rest + dir[n];
      forall r ensures r in rows <==> RowOfDir(dir, r) {
        if r in rest {
          var x :| x in dir - {n} && r in (dir - {n})[x];
          assert x in dir && r in dir[x];
        }
        if RowOfDir(dir, r) && r !in dir[n] {
          var x :| x in dir && r in dir[x];
          assert x in dir - {n} && r in (dir - {n})[x];
          assert RowOfDir(dir - {n}, r);
        }
      }
    }
  }

  /** The partition is ready to be compacted by a compaction nobody knows yet. */
  ghost predicate CanPark(s: State, id: string, m: Month) {
    && id !in s.compactors && m in s.disk.tree && |s.disk.tree[m]| >= 2
    && m !in s.disk.locks && Consistent(DirCanons(s.disk.tree[m]))
  }

  /** Month `m` is in the archive of compaction `id`, which is between its two renames. */
  ghost predicate ParkedBy(s: State, t: State, id: string, m: Month) {
    && m in s.disk.tree && id in t.compactors
    && t.runs == s.runs && t.builds == s.builds && t.disk.tree == s.disk.tree - {m}
    && t.disk.compactions == s.disk.compactions
    && t.disk.locks == s.disk.locks[m := id] && t.disk.archives == s.disk.archives[id := Archive(m, s.disk.tree[m])]
    && t.compactors[id].stage.Swapping? && t.compactors[id].alive
    && t.compactors[id].id == id && t.compactors[id].month == m && t.compactors[id].before == s.disk.tree[m]
  }

  lemma CompactionIsReached(s: State, id: string, u: Site)
    requires Reached(s) && id in s.compactors && s.compactors[id].alive && Steps(SiteOf(s, id), u)
    requires !Abandons(SiteOf(s, id))
    ensures Reached(WithSite(s, id, u))
  {
    hide Reached, Steps, Abandons;
    ReachedNext(s, CompactionStep(id), WithSite(s, id, u));
  }

  lemma Parks(s: State, id: string, m: Month) returns (t: State)
    requires Reached(s) && CanPark(s, id, m)
    ensures Reached(t) && ParkedBy(s, t, id, m)
  {
    hide Reached, Steps, DirCanons, Consistent, Compacts, Inv, Keys;
    NoArchiveYet(s, id);
    var s1 := s.(compactors := s.compactors[id := Begin(id, m, 2)]);
    ReachedNext(s, StartCompaction(id, m, 2), s1);
    var a := LockedSite(SiteOf(s1, id));
    CompactionIsReached(s1, id, a);
    var s2 := WithSite(s1, id, a);
    var b := RewrittenSite(SiteOf(s2, id));
    CompactionIsReached(s2, id, b);
    var s3 := WithSite(s2, id, b);
    var c := ArchivedSite(SiteOf(s3, id));
    CompactionIsReached(s3, id, c);
    t := WithSite(s3, id, c);
  }

  lemma NoArchiveYet(s: State, id: string)
    requires Reached(s) && id !in s.compactors
    ensures id !in s.disk.archives
  {
    hide Reached, RunsInv, CompactorsInv;
    ReachedInv(s);
  }

  lemma LockedSite(s: Site) returns (t: Site)
    requires s.job.stage.Locking? && |DirOf(s.disk.tree, s.job.month)| >= s.job.minFiles && s.job.month !in s.disk.locks
    ensures Steps(s, t) && t.disk == s.disk.(locks := s.disk.locks[s.job.month := s.job.id])
    ensures t.job == s.job.(stage := Rewriting, before := DirOf(s.disk.tree, s.job.month))
  {
    t := StepLock(s);
  }

  lemma RewrittenSite(s: Site) returns (t: Site)
    requires s.job.stage.Rewriting? && Consistent(DirCanons(DirOf(s.disk.tree, s.job.month)))
    ensures Steps(s, t) && t.disk == s.disk.(rewrites := t.disk.rewrites)
    ensures t.job == s.job.(stage := Archiving, out := t.job.out)
  {
    hide Winners, DirCanons, Consistent, Keys, Compacts;
    var dir := DirOf(s.disk.tree, s.job.month);
    var rows := RowsOfDirExist(dir);
    WinnersCompact(dir, rows);
    RowCountCheckNeverFires(dir, Winners(rows));
    t := RewriteResult(s, Winners(rows));
  }

  lemma ArchivedSite(s: Site) returns (t: Site)
    requires s.job.stage.Archiving? && s.job.month in s.disk.tree && s.job.id !in s.disk.archives
    ensures Steps(s, t)
    ensures t.disk == s.disk.(tree := s.disk.tree - {s.job.month},
                              archives := s.disk.archives[s.job.id := Archive(s.job.month, s.disk.tree[s.job.month])])
    ensures t.job == s.job.(stage := Swapping)
  {
    t := StepArchive(s);
  }
}
