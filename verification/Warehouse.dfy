/** Any number of runs and compactions over one lake, interleaved step by step, stopped anywhere. */
module Warehouse {
  import opened Rows
  import opened Dedup
  import opened Backfill
  import opened Compaction

  /** A source partition recorded by a dataset build: where a file was and what it held. */
  datatype Item = Item(month: Month, name: Name, rows: seq<Row>)

  datatype State = State(
    disk: Disk, runs: map<string, Proc>, compactors: map<string, Compactor>, builds: set<Item>)

  datatype Action =
    | StartRun(job: Job)
    | RunStep(run: string)
    | KillRun(run: string)
    | StartCompaction(compaction: string, month: Month, minFiles: nat)
    | CompactionStep(compaction: string)
    | CompactionRaises(compaction: string)
    | KillCompaction(compaction: string)
    | RecordBuild

  const EMPTY_DISK := Disk(map[], map[], map[], map[], map[], map[], map[], map[], map[], map[])

  const EMPTY := State(EMPTY_DISK, map[], map[], {})

  function Snapshot(t: Tree): set<Item> {
    set m, n | m in t && n in t[m] :: Item(m, n, t[m][n])
  }

  ghost function WorldOf(s: State, r: string): World
    requires r in s.runs
  {
    World(s.disk, s.runs[r])
  }

  ghost function SiteOf(s: State, id: string): Site
    requires id in s.compactors
  {
    Site(s.disk, s.compactors[id])
  }

  ghost function WithWorld(s: State, r: string, w: World): State {
    s.(disk := w.disk, runs := s.runs[r := w.proc])
  }

  ghost function WithSite(s: State, id: string, t: Site): State {
    s.(disk := t.disk, compactors := s.compactors[id := t.job])
  }

  /** One action; run ids and compaction ids are used once. */
  ghost predicate Next(s: State, a: Action, t: State) {
    match a
    case StartRun(job) =>
      job.runId !in s.runs && JobOk(job) && t == s.(runs := s.runs[job.runId := Start(job)])
    case RunStep(r) => r in s.runs && t == WithWorld(s, r, Step(WorldOf(s, r)))
    case KillRun(r) => r in s.runs && !Ended(s.runs[r]) && t == WithWorld(s, r, Fail(WorldOf(s, r), Killed))
    case StartCompaction(id, m, n) =>
      id !in s.compactors && n >= 2 && t == s.(compactors := s.compactors[id := Begin(id, m, n)])
    case CompactionStep(id) =>
      id in s.compactors && s.compactors[id].alive &&
      exists u :: Steps(SiteOf(s, id), u) && t == WithSite(s, id, u)
    case CompactionRaises(id) =>
      id in s.compactors && s.compactors[id].alive &&
      exists u :: Raises(SiteOf(s, id), u) && t == WithSite(s, id, u)
    case KillCompaction(id) =>
      id in s.compactors && t == s.(compactors := s.compactors[id := s.compactors[id].(alive := false)])
    case RecordBuild => t == s.(builds := s.builds + Snapshot(s.disk.tree))
  }

  /** The records of a partition are all held by other partitions as well. */
  ghost predicate HeldElsewhere(d: Disk, dir: Dir, m: Month) {
    forall v :: v in DirCanons(dir) ==> exists x :: x != m && v in DirCanons(LogicalDir(d, x))
  }

  /** Not the one action that loses records: releasing the lock of a partition that was left in the
      archive and that held something nobody else holds. */
  ghost predicate Clean(s: State, a: Action) {
    a.CompactionStep? && a.compaction in s.compactors && Abandons(SiteOf(s, a.compaction)) ==>
      HeldElsewhere(s.disk, s.compactors[a.compaction].before, s.compactors[a.compaction].month)
  }

  /** A history: the actions taken and the states passed through. */
  ghost predicate Behavior(states: seq<State>, actions: seq<Action>) {
    && |states| == |actions| + 1 && states[0] == EMPTY
    && forall i :: 0 <= i < |actions| ==> Next(states[i], actions[i], states[i + 1])
  }

  ghost predicate CleanBehavior(states: seq<State>, actions: seq<Action>) {
    && Behavior(states, actions)
    && forall i :: 0 <= i < |actions| ==> Clean(states[i], actions[i])
  }

  // ----- The logical content of the lake -----

  /** Some partition, in the lake or parked by a compaction, holds the canonical record `v`. */
  ghost predicate Holds(d: Disk, v: Canon) {
    exists m :: v in DirCanons(LogicalDir(d, m))
  }

  /** No partition is parked: a reader of the lake sees every record. */
  ghost predicate NothingParked(d: Disk) {
    forall m :: !SwappedOut(d, m)
  }

  ghost predicate Grows(d: Disk, e: Disk) {
    && (forall v :: Holds(d, v) ==> Holds(e, v))
    && d.manifests.Keys <= e.manifests.Keys
  }

  lemma VisibleIsHeld(d: Disk, v: Canon)
    requires v in TreeCanons(d.tree)
    ensures Holds(d, v)
  {
    var m :| m in d.tree && v in DirCanons(d.tree[m]);
    assert DirOf(d.tree, m) != map[];
    assert LogicalDir(d, m) == d.tree[m];
  }

  lemma HeldIsVisible(d: Disk, v: Canon)
    requires NothingParked(d) && Holds(d, v)
    ensures v in TreeCanons(d.tree)
  {
    var m :| v in DirCanons(LogicalDir(d, m));
    assert !SwappedOut(d, m);
    assert m in d.tree;
  }

  lemma SameDirsGrow(d: Disk, e: Disk)
    requires forall m :: DirCanons(LogicalDir(d, m)) <= DirCanons(LogicalDir(e, m))
    requires d.manifests.Keys <= e.manifests.Keys
    ensures Grows(d, e)
  {
    hide DirCanons, LogicalDir;
  }

  // ----- What is true of a run at every instant -----

  ghost predicate AllHeld(d: Disk, canons: set<Canon>) {
    forall v :: v in canons ==> Holds(d, v)
  }

  /** Every accepted row is either a replay of a held record or planned. */
  ghost predicate PlanOk(d: Disk, job: Job, plan: Plan) {
    && DistinctKeys(plan.added) && plan.months == Months(plan.added) && Ascending(plan.months)
    && |plan.added| + plan.duplicates == |job.accepted|
    && (forall v :: v in Canons(job.accepted) ==> v in plan.pre.Values || v in Canons(plan.added))
    && Canons(plan.added) <= Canons(job.accepted)
    && (forall k :: k in plan.pre ==> plan.pre[k].key == k && Holds(d, plan.pre[k]))
    && (forall v :: v in Canons(plan.added) ==> v.key !in plan.pre)
  }

  ghost predicate MonthsHeld(d: Disk, plan: Plan, upTo: nat) {
    forall j :: 0 <= j < upTo && j < |plan.months| ==> AllHeld(d, Canons(InMonth(plan.added, plan.months[j])))
  }

  /** Every planned file was promoted. */
  predicate Complete(p: Proc) {
    p.written == |p.plan.months|
  }

  /** The two reads of the run differ by what it added. */
  predicate Balanced(p: Proc) {
    p.post == |p.plan.pre| + |p.plan.added|
  }

  ghost predicate RunOk(d: Disk, p: Proc) {
    && JobOk(p.job)
    && match p.phase
       case Quarantining => p.written == 0
       case Reading => p.written == 0
       case Staging(i) =>
         p.written == 0 && i <= |p.plan.months| && PlanOk(d, p.job, p.plan) && Ready(d, p.job.runId, p.plan, 0, i)
       case Promoting(i) =>
         p.written == i && i <= |p.plan.months| && PlanOk(d, p.job, p.plan)
         && Ready(d, p.job.runId, p.plan, i, |p.plan.months|) && MonthsHeld(d, p.plan, i)
       case Rereading => PlanOk(d, p.job, p.plan) && AllHeld(d, Canons(p.plan.added)) && Complete(p)
       case Auditing => PlanOk(d, p.job, p.plan) && AllHeld(d, Canons(p.plan.added)) && Complete(p)
       case Publishing =>
         PlanOk(d, p.job, p.plan) && AllHeld(d, Canons(p.plan.added)) && Complete(p) && Balanced(p)
       case Advancing =>
         PlanOk(d, p.job, p.plan) && AllHeld(d, Canons(p.plan.added)) && p.job.runId in d.manifests
       case Done =>
         PlanOk(d, p.job, p.plan) && AllHeld(d, Canons(p.plan.added)) && p.job.runId in d.manifests
       case Failed(_) => true
  }

  /** A run is not disturbed by others: they only add to the lake and stage under their own id. */
  lemma RunSurvives(d: Disk, e: Disk, p: Proc)
    requires RunOk(d, p) && Grows(d, e)
    requires forall m :: (p.job.runId, m) in d.staged ==>
               (p.job.runId, m) in e.staged && e.staged[(p.job.runId, m)] == d.staged[(p.job.runId, m)]
    ensures RunOk(e, p)
  {
    hide Holds, Months, InMonth, JobOk, DistinctKeys, Ascending;
    assert PlanOk(d, p.job, p.plan) ==> PlanOk(e, p.job, p.plan);
    assert forall canons :: AllHeld(d, canons) ==> AllHeld(e, canons);
  }

  // ----- A run's own steps -----

  lemma SameTreeGrows(d: Disk, e: Disk)
    requires forall m :: DirOf(e.tree, m) == DirOf(d.tree, m)
    requires e.locks == d.locks && e.archives == d.archives && d.manifests.Keys <= e.manifests.Keys
    ensures Grows(d, e)
  {
    hide DirCanons, DirOf;
    forall m ensures LogicalDir(d, m) == LogicalDir(e, m) {
    }
    SameDirsGrow(d, e);
  }

  lemma ReadingIsOk(w: World)
    requires RunOk(w.disk, w.proc) && w.proc.phase.Reading?
    ensures RunOk(w.disk, StepRead(w).proc)
  {
    hide TreeCanons, Holds, Months, Deduplicate, Unseen, View;
    var d, batch := w.disk, w.proc.job.accepted;
    var seen := TreeCanons(d.tree);
    if Consistent(seen) {
      DeduplicateMeaning(batch, View(seen));
      if Agrees(batch, View(seen)) {
        var plan := StepRead(w).proc.plan;
        PlanningIsOk(d, w.proc.job, plan);
      }
    }
  }

  lemma PlanningIsOk(d: Disk, job: Job, plan: Plan)
    requires JobOk(job) && Consistent(TreeCanons(d.tree))
    requires plan.pre == View(TreeCanons(d.tree)) && Agrees(job.accepted, plan.pre)
    requires plan.added == Unseen(job.accepted, plan.pre) && plan.months == Months(plan.added)
    requires |plan.added| + plan.duplicates == |job.accepted|
    ensures PlanOk(d, job, plan)
  {
    hide TreeCanons, Holds, Months, Unseen, View;
    var seen := TreeCanons(d.tree);
    UnseenMembers(job.accepted, plan.pre);
    UnseenCanons(job.accepted, seen);
    MonthsOfRows(plan.added);
    forall k | k in plan.pre ensures plan.pre[k].key == k && Holds(d, plan.pre[k]) {
      assert plan.pre[k] in plan.pre.Values;
      VisibleIsHeld(d, plan.pre[k]);
    }
    forall v | v in Canons(plan.added) ensures v.key !in plan.pre {
      var i :| 0 <= i < |plan.added| && plan.added[i].canon == v;
      assert plan.added[i] in plan.added;
    }
  }

  lemma StagingIsOk(w: World, i: nat)
    requires RunOk(w.disk, w.proc) && w.proc.phase == Staging(i) && i < |w.proc.plan.months|
    ensures RunOk(StepStage(w, i).disk, StepStage(w, i).proc) && Grows(w.disk, StepStage(w, i).disk)
  {
    hide Holds, Months, InMonth, JobOk, DistinctKeys, Ascending;
    var u := StepStage(w, i);
    SameTreeGrows(w.disk, u.disk);
    assert PlanOk(u.disk, u.proc.job, u.proc.plan);
  }

  /** A refused promotion changes no file. */
  lemma RefusedPromotion(w: World, i: nat)
    requires i < |w.proc.plan.months| && StepPromote(w, i).proc.phase.Failed?
    ensures forall x :: DirOf(StepPromote(w, i).disk.tree, x) == DirOf(w.disk.tree, x)
    ensures StepPromote(w, i).disk.staged == w.disk.staged && StepPromote(w, i).proc.written == w.proc.written
  {
    hide StepPromote;
  }

  /** A successful promotion adds its rows to an unlocked partition. */
  lemma SuccessfulPromotion(w: World, i: nat)
    requires i < |w.proc.plan.months| && !StepPromote(w, i).proc.phase.Failed?
    ensures var u, m, n := StepPromote(w, i), w.proc.plan.months[i], Part(w.proc.job.runId);
        && n !in DirOf(w.disk.tree, m) && m !in w.disk.locks && u.proc.written == w.proc.written + 1
        && (w.proc.job.runId, m) in w.disk.staged
        && DirOf(u.disk.tree, m) == DirOf(w.disk.tree, m)[n := w.disk.staged[(w.proc.job.runId, m)]]
        && (forall x :: x != m ==> DirOf(u.disk.tree, x) == DirOf(w.disk.tree, x))
        && u.disk.staged == w.disk.staged - {(w.proc.job.runId, m)}
  {
    hide InMonth;
    var m := w.proc.plan.months[i];
    assert MakeDir(w.disk.tree, m)[m] == DirOf(w.disk.tree, m);
  }

  lemma DirGrowth(dir: Dir, n: Name, rows: seq<Row>)
    requires n !in dir
    ensures DirCanons(dir) <= DirCanons(dir[n := rows]) && Canons(rows) <= DirCanons(dir[n := rows])
  {
    var big := dir[n := rows];
    forall v | v in DirCanons(dir) ensures v in DirCanons(big) {
      var x :| x in dir && v in Canons(dir[x]);
      assert x in big && big[x] == dir[x];
    }
    assert big[n] == rows;
  }

  lemma PromotionGrows(d: Disk, e: Disk, m: Month, n: Name, rows: seq<Row>)
    requires n !in DirOf(d.tree, m) && m !in d.locks
    requires DirOf(e.tree, m) == DirOf(d.tree, m)[n := rows]
    requires forall x :: x != m ==> DirOf(e.tree, x) == DirOf(d.tree, x)
    requires e.locks == d.locks && e.archives == d.archives && e.manifests == d.manifests
    ensures Grows(d, e) && AllHeld(e, Canons(rows))
  {
    hide DirCanons, DirOf;
    DirGrowth(DirOf(d.tree, m), n, rows);
    assert LogicalDir(e, m) == DirOf(e.tree, m) && LogicalDir(d, m) == DirOf(d.tree, m);
    forall x | x != m ensures LogicalDir(e, x) == LogicalDir(d, x) {
    }
    SameDirsGrow(d, e);
  }

  lemma PromotingIsOk(w: World, i: nat)
    requires RunOk(w.disk, w.proc) && w.proc.phase == Promoting(i) && i < |w.proc.plan.months|
    ensures RunOk(StepPromote(w, i).disk, StepPromote(w, i).proc) && Grows(w.disk, StepPromote(w, i).disk)
  {
    hide Holds, Months, InMonth, JobOk, DistinctKeys, StepPromote, AllHeld, DirOf, Grows;
    var u, plan := StepPromote(w, i), w.proc.plan;
    var m := plan.months[i];
    assert IsStaged(w.disk, w.proc.job.runId, plan, m);
    if u.proc.phase.Failed? {
      RefusedPromotion(w, i);
      SameTreeGrows(w.disk, u.disk);
    } else {
      SuccessfulPromotion(w, i);
      PromotionGrows(w.disk, u.disk, m, Part(w.proc.job.runId), InMonth(plan.added, m));
      PromotedPlan(w.disk, u.disk, w.proc.job, plan, i);
    }
  }

  lemma PromotedPlan(d: Disk, e: Disk, job: Job, plan: Plan, i: nat)
    requires i < |plan.months| && PlanOk(d, job, plan) && MonthsHeld(d, plan, i)
    requires Ready(d, job.runId, plan, i, |plan.months|)
    requires e.staged == d.staged - {(job.runId, plan.months[i])}
    requires Grows(d, e) && AllHeld(e, Canons(InMonth(plan.added, plan.months[i])))
    ensures PlanOk(e, job, plan) && MonthsHeld(e, plan, i + 1) && Ready(e, job.runId, plan, i + 1, |plan.months|)
  {
    hide Holds, Months, InMonth, DistinctKeys;
    assert forall canons :: AllHeld(d, canons) ==> AllHeld(e, canons);
    assert forall j :: i < j < |plan.months| ==> plan.months[j] != plan.months[i];
  }

  /** Once every planned month is held, every planned row is. */
  lemma AllMonthsHeld(d: Disk, job: Job, plan: Plan)
    requires PlanOk(d, job, plan) && MonthsHeld(d, plan, |plan.months|)
    ensures AllHeld(d, Canons(plan.added))
  {
    hide Holds, InMonth, Months, DistinctKeys;
    MonthsOfRows(plan.added);
    forall v | v in Canons(plan.added) ensures Holds(d, v) {
      var m := MonthOf(v);
      assert m in plan.months;
      var j :| 0 <= j < |plan.months| && plan.months[j] == m;
      InMonthCanons(plan.added, m);
      assert v in Canons(InMonth(plan.added, m));
    }
  }

  /** A run's own step keeps its facts and only adds to the lake. */
  lemma OwnStepIsOk(w: World)
    requires RunOk(w.disk, w.proc)
    ensures RunOk(Step(w).disk, Step(w).proc) && Grows(w.disk, Step(w).disk)
  {
    hide Holds, StepRead, StepStage, StepPromote, StepReread, InMonth, JobOk, DistinctKeys, PlanOk, MonthsHeld, Ready, AllHeld, DirOf;
    var u := Step(w);
    match w.proc.phase {
      case Reading => ReadingIsOk(w);
      case Staging(i) =>
        if i < |w.proc.plan.months| {
          StagingIsOk(w, i);
        } else {
          StagingEnds(w.disk, w.proc.job.runId, w.proc.plan);
        }
      case Promoting(i) =>
        if i < |w.proc.plan.months| {
          PromotingIsOk(w, i);
        } else {
          AllMonthsHeld(w.disk, w.proc.job, w.proc.plan);
        }
      case _ => LateStepIsOk(w);
    }
  }

  lemma StagingEnds(d: Disk, runId: string, plan: Plan)
    requires Ready(d, runId, plan, 0, |plan.months|)
    ensures MonthsHeld(d, plan, 0)
  {
    hide InMonth;
  }

  lemma LateStepIsOk(w: World)
    requires RunOk(w.disk, w.proc)
    requires !w.proc.phase.Reading? && !w.proc.phase.Staging? && !w.proc.phase.Promoting?
    ensures RunOk(Step(w).disk, Step(w).proc) && Grows(w.disk, Step(w).disk)
  {
    hide StepQuarantine, StepReread, StepAudit, StepPublish, StepAdvance, Holds, JobOk, DistinctKeys, PlanOk, AllHeld, Grows;
    var u := Step(w);
    match w.proc.phase {
      case Quarantining => assert u == StepQuarantine(w);
      case Rereading => assert u == StepReread(w);
      case Auditing =>
        assert u == StepAudit(w);
        AuditBalances(w);
      case Publishing =>
        assert u == StepPublish(w);
        Published(w);
      case Advancing => assert u == StepAdvance(w);
      case Done => assert u == w;
      case Failed(_) => assert u == w;
      case _ =>
    }
    SameTreeGrows(w.disk, u.disk);
    if PlanOk(w.disk, w.proc.job, w.proc.plan) {
      PlanSurvives(w.disk, u.disk, w.proc.job, w.proc.plan);
    }
  }

  lemma AuditBalances(w: World)
    ensures StepAudit(w).proc.phase.Publishing? ==> Balanced(StepAudit(w).proc)
  {
  }

  lemma Published(w: World)
    ensures StepPublish(w).disk.manifests.Keys == w.disk.manifests.Keys + {w.proc.job.runId}
  {
    hide ManifestOf;
  }

  lemma PlanSurvives(d: Disk, e: Disk, job: Job, plan: Plan)
    requires PlanOk(d, job, plan) && Grows(d, e)
    ensures PlanOk(e, job, plan) && (AllHeld(d, Canons(plan.added)) ==> AllHeld(e, Canons(plan.added)))
  {
    hide Holds, Months, DistinctKeys, Ascending;
  }

  // ----- The invariant of every clean history -----

  ghost predicate RunsInv(s: State) {
    forall r :: r in s.runs ==> s.runs[r].job.runId == r && RunOk(s.disk, s.runs[r])
  }

  ghost predicate CompactorsInv(s: State) {
    forall id :: id in s.compactors ==> s.compactors[id].id == id && CompactorOk(s.disk, s.compactors[id])
  }

  /** Every lock and every archive belongs to a known compaction, and a lock to one under way. */
  ghost predicate LocksInv(s: State) {
    && (forall m :: m in s.disk.locks ==>
          var id := s.disk.locks[m];
          id in s.compactors && s.compactors[id].month == m && Holding(s.compactors[id]))
    && (forall id :: id in s.disk.archives ==> id in s.compactors)
  }

  ghost predicate Inv(s: State) {
    RunsInv(s) && CompactorsInv(s) && LocksInv(s)
  }

  /** What a run's step cannot touch. */
  ghost predicate RunFootprint(d: Disk, e: Disk, r: string) {
    && e.locks == d.locks && e.archives == d.archives && e.compactions == d.compactions
    && (forall m :: m in d.locks ==> DirOf(e.tree, m) == DirOf(d.tree, m))
    && (forall id :: id in d.staged && id.0 != r ==> id in e.staged && e.staged[id] == d.staged[id])
  }

  lemma RunStepFootprint(w: World)
    ensures RunFootprint(w.disk, Step(w).disk, w.proc.job.runId) && Step(w).proc.job == w.proc.job
  {
    hide StepQuarantine, StepRead, StepReread, StepAudit, StepPublish, StepAdvance, StepStage, StepPromote, DirOf;
    match w.proc.phase {
      case Quarantining => assert Step(w) == StepQuarantine(w);
      case Reading => assert Step(w) == StepRead(w);
      case Staging(i) => if i < |w.proc.plan.months| { StagingFootprint(w, i); }
      case Promoting(i) => if i < |w.proc.plan.months| { PromotionFootprint(w, i); }
      case Rereading => assert Step(w) == StepReread(w);
      case Auditing => assert Step(w) == StepAudit(w);
      case Publishing => assert Step(w) == StepPublish(w);
      case Advancing => assert Step(w) == StepAdvance(w);
      case _ =>
    }
  }

  lemma StagingFootprint(w: World, i: nat)
    requires i < |w.proc.plan.months|
    ensures RunFootprint(w.disk, StepStage(w, i).disk, w.proc.job.runId)
  {
    hide InMonth;
  }

  lemma PromotionFootprint(w: World, i: nat)
    requires i < |w.proc.plan.months|
    ensures RunFootprint(w.disk, StepPromote(w, i).disk, w.proc.job.runId)
  {
    hide StepPromote, DirOf;
    if StepPromote(w, i).proc.phase.Failed? {
      RefusedPromotion(w, i);
    } else {
      SuccessfulPromotion(w, i);
    }
  }

  lemma CompactorUndisturbed(d: Disk, e: Disk, k: Compactor)
    requires CompactorOk(d, k)
    requires k.id in d.archives <==> k.id in e.archives
    requires k.id in d.archives ==> e.archives[k.id] == d.archives[k.id]
    requires k.id in d.compactions ==> k.id in e.compactions
    requires Holding(k) ==> DirOf(e.tree, k.month) == DirOf(d.tree, k.month)
    requires Holding(k) ==> k.month in e.locks && e.locks[k.month] == d.locks[k.month]
    ensures CompactorOk(e, k)
  {
    hide DirOf, Rewritten;
  }

  lemma RunStepKeepsInv(s: State, r: string, t: State)
    requires Inv(s) && r in s.runs && t == WithWorld(s, r, Step(WorldOf(s, r)))
    ensures Inv(t) && Grows(s.disk, t.disk)
  {
    hide RunOk, CompactorOk, DirOf, Grows, Step;
    var w := WorldOf(s, r);
    OwnStepIsOk(w);
    RunStepFootprint(w);
    forall q | q in t.runs ensures t.runs[q].job.runId == q && RunOk(t.disk, t.runs[q]) {
      if q != r {
        RunSurvives(s.disk, t.disk, s.runs[q]);
      }
    }
    forall id | id in t.compactors ensures t.compactors[id].id == id && CompactorOk(t.disk, t.compactors[id]) {
      HoldersAreLocked(s.disk, s.compactors[id]);
      CompactorUndisturbed(s.disk, t.disk, s.compactors[id]);
    }
  }

  lemma HoldersAreLocked(d: Disk, k: Compactor)
    requires CompactorOk(d, k)
    ensures Holding(k) ==> k.month in d.locks && d.locks[k.month] == k.id
  {
  }

  /** What a compaction's step cannot touch: other partitions, other archives, and the runs. */
  ghost predicate CompactionFootprint(s: Site, t: Site) {
    var d, e, m, id := s.disk, t.disk, s.job.month, s.job.id;
    && t.job.id == id && t.job.month == m
    && e.staged == d.staged && e.manifests == d.manifests && e.checkpoints == d.checkpoints
    && e.audits == d.audits && e.quarantine == d.quarantine
    && (forall x :: x != m ==> DirOf(e.tree, x) == DirOf(d.tree, x) && (x in e.locks <==> x in d.locks))
    && (forall x :: x != m && x in d.locks ==> e.locks[x] == d.locks[x])
    && (forall c :: c != id ==> (c in e.archives <==> c in d.archives))
    && (forall c :: c != id && c in d.archives ==> e.archives[c] == d.archives[c])
    && RecordMoves(s, t)
    && (e.tree == d.tree || Holding(s.job))
    && LockMoves(s, t)
  }

  /** At most the compaction's own record is written, and it names its partition. */
  ghost predicate RecordMoves(s: Site, t: Site) {
    var old_, new_, id := s.disk.compactions, t.disk.compactions, s.job.id;
    new_ == old_ || (id in new_ && new_[id].month == s.job.month && new_ == old_[id := new_[id]])
  }

  /** The lock is taken from nobody, or released at the end, or left alone. */
  ghost predicate LockMoves(s: Site, t: Site) {
    var m, id := s.job.month, s.job.id;
    || (t.disk.locks == s.disk.locks && (Holding(t.job) <==> Holding(s.job)))
    || (m !in s.disk.locks && t.disk.locks == s.disk.locks[m := id] && !Holding(s.job) && Holding(t.job))
    || (s.job.stage.Unlocking? && t.disk.locks == s.disk.locks - {m} && !Holding(t.job))
  }

  lemma LockFootprint(s: Site)
    requires s.job.stage.Locking?
    ensures CompactionFootprint(s, StepLock(s))
  {
  }

  lemma ArchiveFootprint(s: Site)
    requires s.job.stage.Archiving?
    ensures CompactionFootprint(s, StepArchive(s))
  {
    hide DirOf;
    var t := StepArchive(s);
    if !t.job.stage.Swapping? {
      QuietFootprint(s, t);
    } else {
      RemovedMonth(s.disk.tree, s.job.month);
      assert RecordMoves(s, t) && LockMoves(s, t);
    }
  }

  lemma RemovedMonth(t: Tree, m: Month)
    ensures forall x :: x != m ==> DirOf(t - {m}, x) == DirOf(t, x)
  {
  }

  lemma SwapFootprint(s: Site)
    requires s.job.stage.Swapping?
    ensures CompactionFootprint(s, StepSwap(s))
  {
  }

  lemma RestoreFootprint(s: Site)
    requires Holding(s.job) && s.job.id in s.disk.archives
    ensures CompactionFootprint(s, Restore(s))
  {
  }

  lemma QuietFootprint(s: Site, t: Site)
    requires t.job.id == s.job.id && t.job.month == s.job.month && (Holding(t.job) <==> Holding(s.job))
    requires t.disk == s.disk.(rewrites := t.disk.rewrites)
    ensures CompactionFootprint(s, t)
  {
  }

  lemma RecordFootprint(s: Site)
    requires s.job.stage.Recording?
    ensures CompactionFootprint(s, StepRecord(s))
  {
  }

  lemma UnlockFootprint(s: Site, e: Option<CompactionError>)
    requires s.job.stage == Unlocking(e)
    ensures CompactionFootprint(s, StepUnlock(s, e))
  {
  }

  lemma CompactionStepFootprint(s: Site, t: Site)
    requires CompactorOk(s.disk, s.job) && (Steps(s, t) || Raises(s, t))
    ensures CompactionFootprint(s, t)
  {
    hide CompactorOk, StepRewrite, StepLock, StepArchive, StepSwap, StepRecord, Restore, StepUnlock, CompactionFootprint;
    match s.job.stage {
      case Locking => LockFootprint(s);
      case Rewriting =>
        if Steps(s, t) {
          RewriteLeaves(s, t);
        }
        QuietFootprint(s, t);
      case Archiving =>
        ArchiveFootprint(s);
        QuietFootprint(s, Leave(s, Raised));
      case Swapping =>
        SwapFootprint(s);
        QuietFootprint(s, At(s, RollingBack));
        if s.job.id in s.disk.archives { RestoreFootprint(s); }
      case Recording =>
        RecordFootprint(s);
        QuietFootprint(s, Leave(s, Raised));
      case RollingBack =>
        QuietFootprint(s, Leave(s, Raised));
        if s.job.id in s.disk.archives { RestoreFootprint(s); }
      case Unlocking(e) => UnlockFootprint(s, e);
      case Closed(_) => QuietFootprint(s, s);
    }
  }

  /** A compaction only moves its own partition around, so the lake loses nothing. */
  lemma CompactionGrows(s: Site, t: Site)
    requires CompactionFootprint(s, t) && KeepsPartition(s, t)
    requires forall m :: m in s.disk.locks && s.disk.locks[m] == s.job.id ==> m == s.job.month
    ensures Grows(s.disk, t.disk)
  {
    hide DirCanons, DirOf, CompactorOk, LockMoves;
    forall m ensures DirCanons(LogicalDir(s.disk, m)) <= DirCanons(LogicalDir(t.disk, m)) {
      if m != s.job.month {
        assert LogicalDir(s.disk, m) == LogicalDir(t.disk, m);
      }
    }
    SameDirsGrow(s.disk, t.disk);
  }

  /** Releasing the lock of an abandoned partition loses exactly what no other partition holds. */
  lemma AbandoningLoses(s: Site, t: Site)
    requires CompactorOk(s.disk, s.job) && s.job.stage.Unlocking? && Steps(s, t) && Abandons(s)
    ensures Grows(s.disk, t.disk) <==> HeldElsewhere(s.disk, s.job.before, s.job.month)
    ensures CompactorOk(t.disk, t.job) && t.job.id == s.job.id
  {
    hide DirCanons, CompactorOk;
    var m := s.job.month;
    AbandonedPartition(s, t, s.job.stage.failure);
    forall x | x != m ensures LogicalDir(t.disk, x) == LogicalDir(s.disk, x) {
    }
    NothingInEmpty();
    if HeldElsewhere(s.disk, s.job.before, m) {
      forall v | Holds(s.disk, v) ensures Holds(t.disk, v) {
        var x :| v in DirCanons(LogicalDir(s.disk, x));
        if x == m {
          var y :| y != m && v in DirCanons(LogicalDir(s.disk, y));
          assert v in DirCanons(LogicalDir(t.disk, y));
        } else {
          assert v in DirCanons(LogicalDir(t.disk, x));
        }
      }
    } else {
      var v :| v in DirCanons(s.job.before) && forall x :: x != m ==> v !in DirCanons(LogicalDir(s.disk, x));
      assert v in DirCanons(LogicalDir(s.disk, m));
      assert Holds(s.disk, v);
      assert forall x :: v !in DirCanons(LogicalDir(t.disk, x));
    }
  }

  lemma NothingInEmpty()
    ensures DirCanons(map[]) == {}
  {
  }

  lemma CompactionKeepsInv(s: State, id: string, u: Site, t: State)
    requires Inv(s) && id in s.compactors && t == WithSite(s, id, u)
    requires Steps(SiteOf(s, id), u) || Raises(SiteOf(s, id), u)
    requires Abandons(SiteOf(s, id)) ==> HeldElsewhere(s.disk, s.compactors[id].before, s.compactors[id].month)
    ensures Inv(t) && Grows(s.disk, t.disk)
  {
    hide RunOk, CompactorOk, DirOf, Grows, Steps, Raises, KeepsPartition, HeldElsewhere;
    var site := SiteOf(s, id);
    CompactionStepFootprint(site, u);
    SiteStepGrows(site, u);
    forall r | r in t.runs ensures t.runs[r].job.runId == r && RunOk(t.disk, t.runs[r]) {
      RunSurvives(s.disk, t.disk, s.runs[r]);
    }
    forall c | c in t.compactors ensures t.compactors[c].id == c && CompactorOk(t.disk, t.compactors[c]) {
      if c != id {
        OtherCompactor(s, id, u, c);
      }
    }
    LocksStay(s, id, u, t);
  }

  lemma SiteStepGrows(s: Site, t: Site)
    requires CompactorOk(s.disk, s.job) && (Steps(s, t) || Raises(s, t)) && CompactionFootprint(s, t)
    requires forall m :: m in s.disk.locks && s.disk.locks[m] == s.job.id ==> m == s.job.month
    requires Abandons(s) ==> HeldElsewhere(s.disk, s.job.before, s.job.month)
    ensures Grows(s.disk, t.disk) && CompactorOk(t.disk, t.job) && t.job.id == s.job.id
  {
    hide CompactorOk, CompactionFootprint, Grows, Steps, Raises, KeepsPartition, HeldElsewhere;
    if Abandons(s) {
      UnlockingDoesNotRaise(s, t);
      AbandoningLoses(s, t);
    } else {
      EveryStepKeepsThePartition(s, t);
      CompactionGrows(s, t);
      KeptCompactor(s, t);
    }
  }

  lemma UnlockingDoesNotRaise(s: Site, t: Site)
    requires s.job.stage.Unlocking?
    ensures !Raises(s, t)
  {
  }

  lemma KeptCompactor(s: Site, t: Site)
    requires KeepsPartition(s, t)
    ensures CompactorOk(t.disk, t.job) && t.job.id == s.job.id
  {
  }

  lemma OtherCompactor(s: State, id: string, u: Site, c: string)
    requires CompactorsInv(s) && LocksInv(s) && id in s.compactors && c in s.compactors && c != id
    requires CompactionFootprint(SiteOf(s, id), u)
    ensures CompactorOk(u.disk, s.compactors[c])
  {
    hide DirOf, StageOk;
    var k := s.compactors[c];
    HoldersAreLocked(s.disk, k);
    HoldersAreLocked(s.disk, s.compactors[id]);
    assert s.compactors[id].id == id && k.id == c;
    CompactorUndisturbed(s.disk, u.disk, k);
  }

  lemma LocksStay(s: State, id: string, u: Site, t: State)
    requires CompactorsInv(s) && LocksInv(s) && id in s.compactors && t == WithSite(s, id, u)
    requires CompactionFootprint(SiteOf(s, id), u)
    ensures LocksInv(t)
  {
    hide DirOf, CompactorOk;
    var k := s.compactors[id];
    HoldersAreLocked(s.disk, k);
    assert k.id == id;
    forall m | m in t.disk.locks
      ensures var c := t.disk.locks[m];
        c in t.compactors && t.compactors[c].month == m && Holding(t.compactors[c])
    {
    }
    forall c | c in t.disk.archives ensures c in t.compactors {
    }
  }

  lemma QuietActionKeepsInv(s: State, a: Action, t: State)
    requires Inv(s) && Next(s, a, t)
    requires !a.RunStep? && !a.CompactionStep? && !a.CompactionRaises?
    ensures Inv(t) && Grows(s.disk, t.disk)
  {
    hide RunsInv, CompactorsInv, LocksInv, Grows, JobOk, Snapshot;
    SameTreeGrows(s.disk, t.disk);
    if a.StartRun? || a.KillRun? {
      RunActionKeepsInv(s, a, t);
    } else if a.StartCompaction? || a.KillCompaction? {
      CompactorActionKeepsInv(s, a, t);
    } else {
      SameInv(s, t);
    }
  }

  lemma SameInv(s: State, t: State)
    requires t.disk == s.disk && t.runs == s.runs && t.compactors == s.compactors && Inv(s)
    ensures Inv(t)
  {
    hide RunOk, CompactorOk, DirOf;
  }

  lemma RunActionKeepsInv(s: State, a: Action, t: State)
    requires Inv(s) && Next(s, a, t) && (a.StartRun? || a.KillRun?)
    ensures Inv(t)
  {
    hide RunOk, CompactorOk, JobOk, Holding;
    match a {
      case StartRun(job) => StartedRun(s.disk, job);
      case KillRun(r) => KilledRun(s.disk, s.runs[r]);
    }
  }

  lemma CompactorActionKeepsInv(s: State, a: Action, t: State)
    requires Inv(s) && Next(s, a, t) && (a.StartCompaction? || a.KillCompaction?)
    ensures Inv(t)
  {
    hide RunOk, CompactorOk;
    match a {
      case StartCompaction(id, m, n) => StartedCompactor(s.disk, id, m, n);
      case KillCompaction(id) => KilledCompactor(s.disk, s.compactors[id]);
    }
  }

  lemma StartedRun(d: Disk, job: Job)
    requires JobOk(job)
    ensures RunOk(d, Start(job))
  {
    hide JobOk;
  }

  lemma KilledRun(d: Disk, p: Proc)
    requires RunOk(d, p)
    ensures RunOk(d, Fail(World(d, p), Killed).proc)
  {
    hide JobOk;
  }

  lemma StartedCompactor(d: Disk, id: string, m: Month, n: nat)
    requires id !in d.archives && n >= 2
    ensures CompactorOk(d, Begin(id, m, n))
  {
  }

  lemma KilledCompactor(d: Disk, k: Compactor)
    requires CompactorOk(d, k)
    ensures CompactorOk(d, k.(alive := false))
  {
  }

  lemma RunStepIs(s: State, a: Action, t: State)
    requires Next(s, a, t) && a.RunStep?
    ensures a.run in s.runs && t == WithWorld(s, a.run, Step(WorldOf(s, a.run)))
  {
    hide Step;
  }

  lemma NextKeepsInv(s: State, a: Action, t: State)
    requires Inv(s) && Next(s, a, t) && Clean(s, a)
    ensures Inv(t) && Grows(s.disk, t.disk)
  {
    hide Inv, Grows, Step, Steps, Raises, HeldElsewhere;
    match a {
      case RunStep(r) => RunStepKeepsInv(s, r, t);
      case CompactionStep(id) =>
        var u :| Steps(SiteOf(s, id), u) && t == WithSite(s, id, u);
        CompactionKeepsInv(s, id, u, t);
      case CompactionRaises(id) =>
        var u :| Raises(SiteOf(s, id), u) && t == WithSite(s, id, u);
        RaisingDoesNotAbandon(SiteOf(s, id), u);
        CompactionKeepsInv(s, id, u, t);
      case _ => QuietActionKeepsInv(s, a, t);
    }
  }

  lemma RaisingDoesNotAbandon(s: Site, t: Site)
    requires Raises(s, t)
    ensures !Abandons(s)
  {
  }

  /** Exactly when an action loses nothing. */
  lemma ActionLosesNothing(s: State, a: Action, t: State)
    requires Inv(s) && Next(s, a, t)
    ensures Grows(s.disk, t.disk) <==> Clean(s, a)
  {
    hide Inv, Grows, Steps, Raises, HeldElsewhere, Step;
    if Clean(s, a) {
      NextKeepsInv(s, a, t);
    } else {
      var id := a.compaction;
      var u :| Steps(SiteOf(s, id), u) && t == WithSite(s, id, u);
      CompactorIs(s, id);
      AbandoningLoses(SiteOf(s, id), u);
    }
  }

  lemma CompactorIs(s: State, id: string)
    requires Inv(s) && id in s.compactors
    ensures CompactorOk(s.disk, s.compactors[id]) && s.compactors[id].id == id
  {
    hide RunsInv, LocksInv, CompactorOk;
  }

  /** The invariant holds at every instant of every clean history. */
  lemma {:induction false} InvHolds(states: seq<State>, actions: seq<Action>, i: nat)
    requires CleanBehavior(states, actions) && i < |states|
    ensures Inv(states[i])
  {
    hide Next, Clean;
    if i == 0 {
      EmptyIsOk();
    } else {
      InvHolds(states, actions, i - 1);
      NextKeepsInv(states[i - 1], actions[i - 1], states[i]);
    }
  }

  lemma EmptyIsOk()
    ensures Inv(EMPTY)
  {
  }

  /** Nothing that was ever ingested is lost: along a clean history the logical content and the
      manifests only grow. */
  lemma {:induction false} NothingIsLost(states: seq<State>, actions: seq<Action>, i: nat, j: nat)
    requires CleanBehavior(states, actions) && i <= j < |states|
    ensures Grows(states[i].disk, states[j].disk)
  {
    hide Next, Clean, Holds, Inv;
    if i < j {
      NothingIsLost(states, actions, i, j - 1);
      InvHolds(states, actions, j - 1);
      NextKeepsInv(states[j - 1], actions[j - 1], states[j]);
    }
  }
}
