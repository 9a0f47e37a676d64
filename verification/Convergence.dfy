/** Crash and retry: any number of interrupted attempts at one batch, then one that completes,
    leave what a single undisturbed run leaves. */
module Convergence {
  import opened Rows
  import opened Dedup
  import opened Contracts
  import opened Backfill

  // ----- What a partly promoted batch looks like -----

  ghost function Slice(canons: set<Canon>, m: Month): set<Canon> {
    set v | v in canons && MonthOf(v) == m
  }

  /** Month `m` is as it was before the first attempt. */
  ghost predicate Pristine(t0: Tree, t: Tree, m: Month) {
    DirOf(t, m) == DirOf(t0, m)
  }

  /** The new records of month `m` arrived, all of them, once each, in one extra file. */
  ghost predicate Landed(t0: Tree, t: Tree, m: Month, news: set<Canon>) {
    && Slice(news, m) != {}
    && exists r, rows :: LandedAs(t0, t, m, news, r, rows)
  }

  ghost predicate LandedAs(t0: Tree, t: Tree, m: Month, news: set<Canon>, r: string, rows: seq<Row>) {
    && Part(r) !in DirOf(t0, m)
    && DirOf(t, m) == DirOf(t0, m)[Part(r) := rows]
    && DistinctKeys(rows) && Canons(rows) == Slice(news, m)
  }

  /** Months are all-or-nothing. */
  ghost predicate Progress(t0: Tree, t: Tree, news: set<Canon>) {
    forall m :: Pristine(t0, t, m) || Landed(t0, t, m, news)
  }

  lemma DirGrows(dir: Dir, n: Name, rows: seq<Row>)
    requires n !in dir
    ensures DirCanons(dir[n := rows]) == DirCanons(dir) + Canons(rows)
  {
    var big := dir[n := rows];
    forall v | v in DirCanons(dir) + Canons(rows) ensures v in DirCanons(big) {
      if v in DirCanons(dir) {
        var x :| x in dir && v in Canons(dir[x]);
        assert x in big && big[x] == dir[x];
      } else {
        assert big[n] == rows;
      }
    }
  }

  lemma TreeByDirs(t: Tree, v: Canon)
    ensures v in TreeCanons(t) <==> exists m :: v in DirCanons(DirOf(t, m))
  {
    if m :| v in DirCanons(DirOf(t, m)) {
      assert m in t;
    }
    if v in TreeCanons(t) {
      var m :| m in t && v in DirCanons(t[m]);
      assert DirOf(t, m) == t[m];
    }
  }

  ghost function Arrived(t0: Tree, t: Tree, news: set<Canon>): set<Canon> {
    set v | v in news && Landed(t0, t, MonthOf(v), news)
  }

  lemma ProgressInMonth(t0: Tree, t: Tree, news: set<Canon>, m: Month)
    requires Progress(t0, t, news)
    ensures DirCanons(DirOf(t, m)) ==
            DirCanons(DirOf(t0, m)) + if Landed(t0, t, m, news) then Slice(news, m) else {}
  {
    if Landed(t0, t, m, news) {
      var r: string, rows: seq<Row> :| LandedAs(t0, t, m, news, r, rows);
      DirGrows(DirOf(t0, m), Part(r), rows);
    }
  }

  /** A reader sees the old records and those of the months that landed. */
  lemma ProgressCanons(t0: Tree, t: Tree, news: set<Canon>)
    requires Progress(t0, t, news)
    ensures TreeCanons(t) == TreeCanons(t0) + Arrived(t0, t, news)
  {
    hide Landed, DirCanons, TreeCanons, Progress, DirOf;
    forall v ensures v in TreeCanons(t) <==> v in TreeCanons(t0) + Arrived(t0, t, news) {
      TreeByDirs(t, v);
      TreeByDirs(t0, v);
      if v in TreeCanons(t) {
        var m :| v in DirCanons(DirOf(t, m));
        ProgressInMonth(t0, t, news, m);
      }
      if v in TreeCanons(t0) {
        var m :| v in DirCanons(DirOf(t0, m));
        ProgressInMonth(t0, t, news, m);
      }
      if v in Arrived(t0, t, news) {
        ProgressInMonth(t0, t, news, MonthOf(v));
        assert v in DirCanons(DirOf(t, MonthOf(v)));
      }
    }
  }

  // ----- One attempt -----

  /** The batch, and the lake before the first attempt: no partition is being compacted, the batch
      contradicts nothing retained, and `news` is what it adds. */
  ghost predicate Setting(t0: Tree, news: set<Canon>, job: Job) {
    && JobOk(job)
    && Consistent(TreeCanons(t0) + Canons(job.accepted))
    && news == Canons(job.accepted) - TreeCanons(t0)
    && forall m :: Part(job.runId) !in DirOf(t0, m)
  }

  /** The plan of a run that has read the lake: the months still missing, and nothing else. */
  ghost predicate Planned(t0: Tree, news: set<Canon>, tree: Tree, job: Job, plan: Plan) {
    && DistinctKeys(plan.added) && Ascending(plan.months)
    && |plan.added| + plan.duplicates == |job.accepted|
    && (forall m :: m in plan.months ==> PlannedFile(news, plan, m))
    && (forall m :: m !in plan.months && Slice(news, m) != {} ==> Landed(t0, tree, m, news))
    && |plan.pre| + |plan.added| == |Keys(TreeCanons(t0) + news)|
  }

  /** The file planned for month `m` holds all the new records of that month, once each. */
  ghost predicate PlannedFile(news: set<Canon>, plan: Plan, m: Month) {
    && DistinctKeys(InMonth(plan.added, m))
    && Canons(InMonth(plan.added, m)) == Slice(news, m)
    && Slice(news, m) != {}
  }

  ghost predicate Missing(t0: Tree, tree: Tree, plan: Plan, from: nat) {
    forall j :: from <= j < |plan.months| ==> Pristine(t0, tree, plan.months[j])
  }

  ghost predicate InPlace(t0: Tree, news: set<Canon>, tree: Tree, plan: Plan, upTo: nat) {
    forall j :: 0 <= j < upTo && j < |plan.months| ==> Landed(t0, tree, plan.months[j], news)
  }

  ghost predicate AllLanded(t0: Tree, t: Tree, news: set<Canon>) {
    forall m :: Slice(news, m) != {} ==> Landed(t0, t, m, news)
  }

  /** No month that receives a new record is being compacted. */
  ghost predicate Unlocked(locks: map<Month, string>, news: set<Canon>) {
    forall v :: v in news ==> MonthOf(v) !in locks
  }

  /** What holds at every instant of an attempt. */
  ghost predicate Attempting(t0: Tree, news: set<Canon>, w: World) {
    && Setting(t0, news, w.proc.job)
    && Unlocked(w.disk.locks, news)
    && Progress(t0, w.disk.tree, news)
    && var d, job, plan := w.disk, w.proc.job, w.proc.plan;
       match w.proc.phase
       case Quarantining => true
       case Reading => true
       case Staging(i) =>
         i <= |plan.months| && Planned(t0, news, d.tree, job, plan) && Missing(t0, d.tree, plan, 0)
         && Ready(d, job.runId, plan, 0, i)
       case Promoting(i) =>
         i <= |plan.months| && Planned(t0, news, d.tree, job, plan) && InPlace(t0, news, d.tree, plan, i)
         && Missing(t0, d.tree, plan, i) && Ready(d, job.runId, plan, i, |plan.months|)
       case Rereading => Planned(t0, news, d.tree, job, plan) && AllLanded(t0, d.tree, news)
       case Auditing =>
         Planned(t0, news, d.tree, job, plan) && AllLanded(t0, d.tree, news)
         && w.proc.post == |plan.pre| + |plan.added|
       case Publishing => AllLanded(t0, d.tree, news)
       case Advancing => AllLanded(t0, d.tree, news)
       case Done => AllLanded(t0, d.tree, news)
       case Failed(e) => e == QuarantineExists
  }

  /** Deduplicating a batch against a lake that already holds part of it leaves the other part. */
  lemma RestOfBatch(retained: set<Canon>, seen: set<Canon>, batch: seq<Row>)
    requires DistinctKeys(batch) && Consistent(retained + Canons(batch))
    requires retained <= seen <= retained + Canons(batch)
    ensures Consistent(seen) && Retained(seen) == Some(View(seen))
    ensures var added := Unseen(batch, View(seen));
      && |added| <= |batch|
      && Deduplicate(batch, View(seen)) == Deduplicated(added, |batch| - |added|)
      && DistinctKeys(added)
      && Canons(added) == Canons(batch) - seen
      && |View(seen)| + |added| == |Keys(retained + Canons(batch))|
  {
    hide Unseen, Deduplicate, View, Keys;
    assert Consistent(seen) && seen + Canons(batch) == retained + Canons(batch);
    AgreesMeansConsistent(batch, seen);
    DeduplicateMeaning(batch, View(seen));
    UnseenMembers(batch, View(seen));
    UnseenCanons(batch, seen);
    CountAfter(seen, Unseen(batch, View(seen)), View(seen));
    assert seen + Canons(Unseen(batch, View(seen))) == retained + Canons(batch);
  }

  /** What a retry reads: the batch conflicts with nothing, and what is left of it is exactly the
      records of the months that did not land. */
  lemma ReadingFinds(t0: Tree, news: set<Canon>, w: World)
    requires Setting(t0, news, w.proc.job) && Progress(t0, w.disk.tree, news)
    ensures var batch, seen := w.proc.job.accepted, TreeCanons(w.disk.tree);
      && Consistent(seen) && Retained(seen) == Some(View(seen))
      && var added := Unseen(batch, View(seen));
      && |added| <= |batch|
      && Deduplicate(batch, View(seen)) == Deduplicated(added, |batch| - |added|)
      && DistinctKeys(added)
      && Canons(added) == news - Arrived(t0, w.disk.tree, news)
      && |View(seen)| + |added| == |Keys(TreeCanons(t0) + news)|
  {
    hide *;
    var t, batch := w.disk.tree, w.proc.job.accepted;
    ProgressCanons(t0, t, news);
    SettingSets(t0, t, news, w.proc.job);
    RestOfBatch(TreeCanons(t0), TreeCanons(t), batch);
  }

  lemma SettingSets(t0: Tree, t: Tree, news: set<Canon>, job: Job)
    requires Setting(t0, news, job) && TreeCanons(t) == TreeCanons(t0) + Arrived(t0, t, news)
    ensures DistinctKeys(job.accepted) && Consistent(TreeCanons(t0) + Canons(job.accepted))
    ensures TreeCanons(t0) <= TreeCanons(t) <= TreeCanons(t0) + Canons(job.accepted)
    ensures Canons(job.accepted) - TreeCanons(t) == news - Arrived(t0, t, news)
    ensures TreeCanons(t0) + Canons(job.accepted) == TreeCanons(t0) + news
  {
    hide TreeCanons, Canons, Landed, Consistent;
    var arrived := Arrived(t0, t, news);
    assert arrived <= news;
  }

  /** Reading plans exactly the months that did not land. */
  lemma ReadingPlans(t0: Tree, news: set<Canon>, w: World)
    requires Attempting(t0, news, w) && w.proc.phase.Reading?
    ensures Attempting(t0, news, StepRead(w))
  {
    hide Unlocked, TreeCanons, Unseen, Deduplicate, Months, View, Setting, Retained, Progress, Planned, Missing, DirOf;
    ReadingFinds(t0, news, w);
    var seen := TreeCanons(w.disk.tree);
    var added := Unseen(w.proc.job.accepted, View(seen));
    var plan := Plan(View(seen), added, |w.proc.job.accepted| - |added|, Months(added));
    assert StepRead(w).proc == w.proc.(phase := Staging(0), plan := plan);
    PlanFits(t0, news, w.disk.tree, w.proc.job, plan);
  }

  /** What deduplication leaves of the batch is a plan for the missing months. */
  lemma PlanFits(t0: Tree, news: set<Canon>, tree: Tree, job: Job, plan: Plan)
    requires Progress(t0, tree, news) && DistinctKeys(plan.added) && plan.months == Months(plan.added)
    requires |plan.added| + plan.duplicates == |job.accepted|
    requires Canons(plan.added) == news - Arrived(t0, tree, news)
    requires |plan.pre| + |plan.added| == |Keys(TreeCanons(t0) + news)|
    ensures Planned(t0, news, tree, job, plan) && Missing(t0, tree, plan, 0)
  {
    hide TreeCanons, Landed, Months, InMonth, Arrived, Pristine, Progress, Keys, DistinctKeys;
    PlanIsMissingMonths(t0, tree, news, plan.added);
    MonthsOfRows(plan.added);
  }

  lemma KeysJoin(a: set<Canon>, b: set<Canon>)
    ensures Keys(a + b) == Keys(a) + Keys(b)
  {
  }

  lemma CountAfter(seen: set<Canon>, added: seq<Row>, existing: map<Key, Canon>)
    requires DistinctKeys(added) && existing.Keys == Keys(seen)
    requires forall r :: r in added ==> r.Key() !in existing
    ensures |existing| + |added| == |Keys(seen + Canons(added))|
  {
    hide DistinctKeys;
    DistinctKeyCount(added);
    KeysJoin(seen, Canons(added));
    forall k | k in Keys(Canons(added)) ensures k !in existing.Keys {
      var i :| 0 <= i < |added| && added[i].canon.key == k;
      assert added[i] in added;
    }
    assert |existing| == |existing.Keys|;
  }

  lemma PlanIsMissingMonths(t0: Tree, t: Tree, news: set<Canon>, added: seq<Row>)
    requires Progress(t0, t, news) && DistinctKeys(added)
    requires Canons(added) == news - Arrived(t0, t, news)
    ensures forall m :: m in Months(added) ==>
              DistinctKeys(InMonth(added, m)) && Canons(InMonth(added, m)) == Slice(news, m)
              && Slice(news, m) != {} && Pristine(t0, t, m)
    ensures forall m :: m !in Months(added) && Slice(news, m) != {} ==> Landed(t0, t, m, news)
  {
    hide Landed, Months, InMonth, Pristine;
    MonthsOfRows(added);
    forall m | m in Months(added)
      ensures DistinctKeys(InMonth(added, m)) && Canons(InMonth(added, m)) == Slice(news, m)
              && Slice(news, m) != {} && Pristine(t0, t, m)
    {
      var v :| v in Canons(added) && MonthOf(v) == m;
      assert !Landed(t0, t, m, news);
      InMonthCanons(added, m);
      InMonthKeys(added, m);
      assert v in Slice(news, m);
    }
    forall m | m !in Months(added) && Slice(news, m) != {} ensures Landed(t0, t, m, news) {
      var v :| v in Slice(news, m);
      assert v !in Canons(added);
    }
  }

  lemma StagingKeeps(t0: Tree, news: set<Canon>, w: World, i: nat)
    requires Attempting(t0, news, w) && w.proc.phase == Staging(i) && i < |w.proc.plan.months|
    ensures Attempting(t0, news, StepStage(w, i))
  {
    hide TreeCanons, Landed, InMonth, Progress, Planned;
    var m := w.proc.plan.months[i];
    assert Pristine(t0, w.disk.tree, m);
    assert Part(w.proc.job.runId) !in DirOf(t0, m);
  }

  lemma OtherMonths(t0: Tree, t: Tree, u: Tree, news: set<Canon>, m: Month)
    requires DirOf(t, m) == DirOf(u, m)
    ensures Pristine(t0, t, m) <==> Pristine(t0, u, m)
    ensures Landed(t0, t, m, news) <==> Landed(t0, u, m, news)
  {
    if Landed(t0, t, m, news) {
      var r: string, rows: seq<Row> :| LandedAs(t0, t, m, news, r, rows);
      assert LandedAs(t0, u, m, news, r, rows);
    }
    if Landed(t0, u, m, news) {
      var r, rows :| LandedAs(t0, u, m, news, r, rows);
      assert LandedAs(t0, t, m, news, r, rows);
    }
  }

  /** A promotion that finds its month pristine lands it. */
  lemma PromotionLands(t0: Tree, t: Tree, u: Tree, news: set<Canon>, plan: Plan, r: string, m: Month)
    requires Pristine(t0, t, m) && Part(r) !in DirOf(t0, m) && PlannedFile(news, plan, m)
    requires u == MakeDir(t, m)[m := DirOf(t, m)[Part(r) := InMonth(plan.added, m)]]
    ensures Landed(t0, u, m, news)
    ensures forall x :: x != m ==> DirOf(u, x) == DirOf(t, x)
  {
    hide InMonth;
    assert LandedAs(t0, u, m, news, r, InMonth(plan.added, m));
  }

  /** Landing month `i` of the plan moves the frontier between landed and missing by one. */
  lemma FrontierMoves(t0: Tree, t: Tree, u: Tree, news: set<Canon>, job: Job, plan: Plan, i: nat)
    requires i < |plan.months|
    requires Planned(t0, news, t, job, plan) && Progress(t0, t, news)
    requires InPlace(t0, news, t, plan, i) && Missing(t0, t, plan, i)
    requires Landed(t0, u, plan.months[i], news)
    requires forall x :: x != plan.months[i] ==> DirOf(u, x) == DirOf(t, x)
    ensures Planned(t0, news, u, job, plan) && Progress(t0, u, news)
    ensures InPlace(t0, news, u, plan, i + 1) && Missing(t0, u, plan, i + 1)
  {
    hide Landed, InMonth, PlannedFile, Pristine, Slice, Keys, TreeCanons;
    forall x | x != plan.months[i]
      ensures Pristine(t0, t, x) <==> Pristine(t0, u, x)
      ensures Landed(t0, t, x, news) <==> Landed(t0, u, x, news)
    {
      OtherMonths(t0, t, u, news, x);
    }
    assert forall j :: i < j < |plan.months| ==> plan.months[j] != plan.months[i];
  }

  lemma PromotingKeeps(t0: Tree, news: set<Canon>, w: World, i: nat)
    requires Attempting(t0, news, w) && w.proc.phase == Promoting(i) && i < |w.proc.plan.months|
    ensures Attempting(t0, news, StepPromote(w, i))
  {
    hide TreeCanons, Landed, InMonth, PlannedFile, Pristine, Slice, Keys, Setting, Planned, InPlace, Missing, Progress, StepPromote;
    var plan, t := w.proc.plan, w.disk.tree;
    var m, r := plan.months[i], w.proc.job.runId;
    PromotionGoesThrough(t0, news, w, i);
    var u := StepPromote(w, i).disk.tree;
    PromotionLands(t0, t, u, news, plan, r, m);
    FrontierMoves(t0, t, u, news, w.proc.job, plan, i);
    MonthsDiffer(t0, news, t, w.proc.job, plan, i);
  }

  lemma MonthsDiffer(t0: Tree, news: set<Canon>, t: Tree, job: Job, plan: Plan, i: nat)
    requires i < |plan.months| && Planned(t0, news, t, job, plan)
    ensures forall j :: 0 <= j < |plan.months| && j != i ==> plan.months[j] != plan.months[i]
  {
    hide PlannedFile, Landed, TreeCanons;
  }

  lemma PlannedMonthIsFree(locks: map<Month, string>, news: set<Canon>, plan: Plan, m: Month)
    requires Unlocked(locks, news) && PlannedFile(news, plan, m)
    ensures m !in locks
  {
    hide InMonth;
    var v :| v in Slice(news, m);
  }

  /** With its partition not locked and no artifact of that name, the rename happens. */
  lemma PromotionGoesThrough(t0: Tree, news: set<Canon>, w: World, i: nat)
    requires Attempting(t0, news, w) && w.proc.phase == Promoting(i) && i < |w.proc.plan.months|
    ensures var plan, t, m, r := w.proc.plan, w.disk.tree, w.proc.plan.months[i], w.proc.job.runId;
      && Pristine(t0, t, m) && Part(r) !in DirOf(t0, m) && PlannedFile(news, plan, m)
      && StepPromote(w, i) ==
         World(w.disk.(tree := MakeDir(t, m)[m := DirOf(t, m)[Part(r) := InMonth(plan.added, m)]],
                       staged := w.disk.staged - {(r, m)}),
               w.proc.(phase := Promoting(i + 1), written := w.proc.written + 1))
  {
    hide TreeCanons, Landed, InMonth, PlannedFile, Slice, Keys, Unlocked;
    PlannedMonthIsFree(w.disk.locks, news, w.proc.plan, w.proc.plan.months[i]);
    assert IsStaged(w.disk, w.proc.job.runId, w.proc.plan, w.proc.plan.months[i]);
  }

  /** Once every new record landed, a reader sees the old records and the whole batch. */
  lemma AllLandedCanons(t0: Tree, t: Tree, news: set<Canon>)
    requires Progress(t0, t, news) && AllLanded(t0, t, news)
    ensures TreeCanons(t) == TreeCanons(t0) + news
  {
    hide Landed, TreeCanons, Progress;
    ProgressCanons(t0, t, news);
    forall v | v in news ensures v in Arrived(t0, t, news) {
      assert v in Slice(news, MonthOf(v));
    }
  }

  lemma ReadsBack(t0: Tree, news: set<Canon>, t: Tree, job: Job)
    requires Setting(t0, news, job) && Progress(t0, t, news) && AllLanded(t0, t, news)
    ensures Retained(TreeCanons(t)).Some?
    ensures |Retained(TreeCanons(t)).value| == |Keys(TreeCanons(t0) + news)|
  {
    hide TreeCanons, Landed, Progress, AllLanded, Canons, View, JobOk;
    AllLandedCanons(t0, t, news);
    assert TreeCanons(t0) + news == TreeCanons(t0) + Canons(job.accepted);
    var view := View(TreeCanons(t));
    assert |view| == |view.Keys|;
  }

  lemma RereadingKeeps(t0: Tree, news: set<Canon>, w: World)
    requires Attempting(t0, news, w) && w.proc.phase.Rereading?
    ensures Attempting(t0, news, StepReread(w))
  {
    hide TreeCanons, Landed, Progress, AllLanded, Setting, PlannedFile, Retained;
    ReadsBack(t0, news, w.disk.tree, w.proc.job);
  }

  lemma AuditingKeeps(t0: Tree, news: set<Canon>, w: World)
    requires Attempting(t0, news, w) && w.proc.phase.Auditing?
    ensures Attempting(t0, news, StepAudit(w)) && StepAudit(w).proc.phase.Publishing?
  {
    hide TreeCanons, Landed, Progress, AllLanded, PlannedFile;
    assert Accounting(w.proc).passed;
  }

  lemma AttemptingKept(t0: Tree, news: set<Canon>, w: World)
    requires Attempting(t0, news, w)
    ensures Attempting(t0, news, Step(w))
  {
    hide StepRead, StepStage, StepPromote, StepReread, StepAudit, Progress, Setting, Landed, PlannedFile;
    match w.proc.phase {
      case Reading => ReadingPlans(t0, news, w);
      case Staging(i) =>
        if i < |w.proc.plan.months| {
          StagingKeeps(t0, news, w, i);
        }
      case Promoting(i) =>
        if i < |w.proc.plan.months| {
          PromotingKeeps(t0, news, w, i);
        }
      case Rereading => RereadingKeeps(t0, news, w);
      case Auditing => AuditingKeeps(t0, news, w);
      case _ =>
    }
  }

  lemma StepKeepsLocks(w: World)
    ensures Step(w).disk.locks == w.disk.locks
  {
    hide StepQuarantine, StepRead, StepStage, StepPromote, StepReread, StepAudit, StepPublish, StepAdvance;
    match w.proc.phase {
      case Quarantining => assert Step(w) == StepQuarantine(w);
      case Reading => assert Step(w) == StepRead(w);
      case Staging(i) =>
      case Promoting(i) =>
      case Rereading => assert Step(w) == StepReread(w);
      case Auditing => assert Step(w) == StepAudit(w);
      case Publishing => assert Step(w) == StepPublish(w);
      case Advancing => assert Step(w) == StepAdvance(w);
      case _ =>
    }
  }

  lemma {:induction false} LocksNeverMove(w: World, k: nat)
    ensures Alone(w, k).disk.locks == w.disk.locks
  {
    hide Step;
    if k > 0 {
      LocksNeverMove(w, k - 1);
      StepKeepsLocks(Alone(w, k - 1));
    }
  }

  lemma {:induction false} AttemptHolds(t0: Tree, news: set<Canon>, w: World, k: nat)
    requires Attempting(t0, news, w)
    ensures Attempting(t0, news, Alone(w, k))
  {
    hide Attempting, Step;
    if k > 0 {
      AttemptHolds(t0, news, w, k - 1);
      AttemptingKept(t0, news, Alone(w, k - 1));
    }
  }

  // ----- The quarantine file -----

  /** The exclusive creation of the quarantine file would fail. */
  predicate Blocked(d: Disk, job: Job) {
    job.rejected != [] && QuarantineName(job) in d.quarantine
  }

  ghost predicate PastQuarantine(w: World) {
    !w.proc.phase.Quarantining? && w.proc.phase != Failed(QuarantineExists)
  }

  lemma LaterStepsLeaveQuarantine(w: World)
    requires !w.proc.phase.Quarantining?
    ensures Step(w).disk.quarantine == w.disk.quarantine && Step(w).proc.job == w.proc.job
    ensures PastQuarantine(w) ==> PastQuarantine(Step(w))
  {
    hide StepQuarantine, StepRead, StepStage, StepPromote, StepReread, StepAudit, StepPublish, StepAdvance;
    match w.proc.phase {
      case Reading => assert Step(w) == StepRead(w);
      case Staging(i) =>
      case Promoting(i) =>
      case Rereading => assert Step(w) == StepReread(w);
      case Auditing => assert Step(w) == StepAudit(w);
      case Publishing => assert Step(w) == StepPublish(w);
      case Advancing => assert Step(w) == StepAdvance(w);
      case _ =>
    }
  }

  /** A blocked attempt changes nothing; any other writes its rejects first and is never blocked. */
  lemma {:induction false} QuarantineDecides(d: Disk, job: Job, k: nat)
    requires k > 0
    ensures var w := Alone(World(d, Start(job)), k);
      && w.proc.job == job
      && (Blocked(d, job) ==> w == Fail(World(d, Start(job)), QuarantineExists))
      && (!Blocked(d, job) ==> PastQuarantine(w))
      && w.disk.quarantine ==
         if job.rejected == [] || Blocked(d, job) then d.quarantine else d.quarantine[QuarantineName(job) := job.rejected]
  {
    hide Step, StepQuarantine;
    var w := World(d, Start(job));
    if k == 1 {
      assert Alone(w, 0) == w;
      FirstStep(d, job);
    } else {
      QuarantineDecides(d, job, k - 1);
      var u := Alone(w, k - 1);
      if Blocked(d, job) {
        EndedRunsStay(u);
      }
      LaterStepsLeaveQuarantine(u);
    }
  }

  lemma FirstStep(d: Disk, job: Job)
    ensures Step(World(d, Start(job))) == StepQuarantine(World(d, Start(job)))
    ensures var w := Step(World(d, Start(job)));
      && w.proc.job == job
      && (Blocked(d, job) ==> w == Fail(World(d, Start(job)), QuarantineExists))
      && (!Blocked(d, job) ==> PastQuarantine(w))
      && w.disk.quarantine ==
         if job.rejected == [] || Blocked(d, job) then d.quarantine else d.quarantine[QuarantineName(job) := job.rejected]
  {
    hide Step, QuarantineName;
    BeginsWithQuarantine(World(d, Start(job)));
  }

  lemma BeginsWithQuarantine(w: World)
    requires w.proc.phase.Quarantining?
    ensures Step(w) == StepQuarantine(w)
  {
    hide StepQuarantine;
  }

  // ----- Histories of attempts -----

  /** An attempt that is interrupted after `steps` steps. */
  datatype Try = Try(job: Job, steps: nat)

  ghost function After(d: Disk, tries: seq<Try>): Disk {
    if tries == [] then d
    else
      var last := tries[|tries| - 1];
      Alone(World(After(d, tries[..|tries| - 1]), Start(last.job)), last.steps).disk
  }

  /** An attempt that nobody interrupts. */
  ghost function Finish(d: Disk, job: Job): World {
    Alone(World(d, Start(job)), Remaining(Start(job)))
  }

  /** A batch a healthy lake can take: it contradicts nothing, and its run id names no artifact. */
  ghost predicate Offered(t0: Tree, job: Job) {
    && JobOk(job)
    && Consistent(TreeCanons(t0) + Canons(job.accepted))
    && forall m :: Part(job.runId) !in DirOf(t0, m)
  }

  /** Attempts at the same records: they may differ in run id, clock and rejected records. */
  ghost predicate SameBatch(a: Job, b: Job) {
    Canons(a.accepted) == Canons(b.accepted)
  }

  ghost predicate History(t0: Tree, tries: seq<Try>, last: Job) {
    && Offered(t0, last)
    && forall i :: 0 <= i < |tries| ==> Offered(t0, tries[i].job) && SameBatch(tries[i].job, last)
  }

  ghost function News(t0: Tree, job: Job): set<Canon> {
    Canons(job.accepted) - TreeCanons(t0)
  }

  lemma {:induction false} HistoryProgress(d: Disk, tries: seq<Try>, last: Job)
    requires Unlocked(d.locks, News(d.tree, last)) && History(d.tree, tries, last)
    ensures After(d, tries).locks == d.locks && Progress(d.tree, After(d, tries).tree, News(d.tree, last))
  {
    hide Step, Alone, Landed, TreeCanons, Canons, JobOk;
    var news := News(d.tree, last);
    if tries == [] {
    } else {
      var n := |tries| - 1;
      HistoryProgress(d, tries[..n], last);
      AttemptProgress(d.tree, After(d, tries[..n]), news, tries[n].job, tries[n].steps);
    }
  }

  lemma AttemptProgress(t0: Tree, d: Disk, news: set<Canon>, job: Job, k: nat)
    requires Unlocked(d.locks, news) && Progress(t0, d.tree, news)
    requires Offered(t0, job) && news == News(t0, job)
    ensures Attempting(t0, news, Alone(World(d, Start(job)), k))
    ensures Alone(World(d, Start(job)), k).disk.locks == d.locks
    ensures Progress(t0, Alone(World(d, Start(job)), k).disk.tree, news)
  {
    hide Step, Alone, Progress, TreeCanons, Canons, JobOk, Unlocked;
    assert Setting(t0, news, job);
    AttemptHolds(t0, news, World(d, Start(job)), k);
    LocksNeverMove(World(d, Start(job)), k);
  }

  /** No attempt, at any instant of any history, meets an artifact that already exists, a conflict,
      a locked partition or a failed reconciliation. */
  lemma OnlyQuarantineStopsARetry(d: Disk, tries: seq<Try>, last: Job, k: nat)
    requires Unlocked(d.locks, News(d.tree, last)) && History(d.tree, tries, last)
    ensures var w := Alone(World(After(d, tries), Start(last)), k);
      w.proc.phase.Failed? ==> w.proc.phase.error == QuarantineExists && Blocked(After(d, tries), last)
  {
    hide Step, Alone, Progress, TreeCanons, Canons, JobOk, History;
    var c := After(d, tries);
    HistoryProgress(d, tries, last);
    assert Offered(d.tree, last) by { OfferedLast(d.tree, tries, last); }
    AttemptProgress(d.tree, c, News(d.tree, last), last, k);
    if k > 0 {
      QuarantineDecides(c, last, k);
    } else {
      AloneZero(World(c, Start(last)));
    }
  }

  lemma OfferedLast(t0: Tree, tries: seq<Try>, last: Job)
    requires History(t0, tries, last)
    ensures Offered(t0, last)
  {
  }

  lemma AloneZero(w: World)
    ensures Alone(w, 0) == w
  {
  }

  /** Row `i` of file `n` of month `m` has key `k`. */
  ghost predicate CopyAt(t: Tree, k: Key, m: Month, n: Name, i: nat) {
    m in t && n in t[m] && i < |t[m][n]| && t[m][n][i].Key() == k
  }

  /** Exactly one physical row of the lake has key `k`. */
  ghost predicate OnePhysicalRow(t: Tree, k: Key) {
    exists m: Month, n: Name, i: nat :: CopyAt(t, k, m, n, i) &&
      forall x: Month, y: Name, j: nat :: CopyAt(t, k, x, y, j) ==> x == m && y == n && j == i
  }

  /** No file that was there has been touched. */
  ghost predicate OldFilesKept(t0: Tree, t: Tree) {
    forall m: Month, n: Name :: n in DirOf(t0, m) ==> n in DirOf(t, m) && DirOf(t, m)[n] == DirOf(t0, m)[n]
  }

  lemma ProgressKeepsOldFiles(t0: Tree, t: Tree, news: set<Canon>)
    requires Progress(t0, t, news)
    ensures OldFilesKept(t0, t)
  {
    hide Slice;
    forall m: Month, n: Name | n in DirOf(t0, m) ensures n in DirOf(t, m) && DirOf(t, m)[n] == DirOf(t0, m)[n] {
      if !Pristine(t0, t, m) {
        var r: string, rows: seq<Row> :| LandedAs(t0, t, m, news, r, rows);
      }
    }
  }

  lemma NewRowsAreWrittenOnce(t0: Tree, t: Tree, news: set<Canon>, v: Canon)
    requires Progress(t0, t, news) && AllLanded(t0, t, news)
    requires Consistent(TreeCanons(t0) + news) && v in news && v !in TreeCanons(t0)
    ensures OnePhysicalRow(t, v.key)
  {
    hide TreeCanons, Progress;
    var m := MonthOf(v);
    assert v in Slice(news, m);
    var r: string, rows: seq<Row> :| LandedAs(t0, t, m, news, r, rows);
    var i: nat :| i < |rows| && rows[i].canon == v;
    assert DirOf(t, m)[Part(r)] == rows;
    assert m in t;
    assert CopyAt(t, v.key, m, Part(r), i);
    forall x: Month, y: Name, j: nat | CopyAt(t, v.key, x, y, j) ensures x == m && y == Part(r) && j == i {
      CopyIsNew(t0, t, news, v, x, y, j);
      assert x == m;
    }
  }

  /** Any physical row with a new record's key carries that record, in a file that was not there. */
  lemma CopyIsNew(t0: Tree, t: Tree, news: set<Canon>, v: Canon, x: Month, y: Name, j: nat)
    requires Progress(t0, t, news) && AllLanded(t0, t, news)
    requires Consistent(TreeCanons(t0) + news) && v in news && v !in TreeCanons(t0)
    requires CopyAt(t, v.key, x, y, j)
    ensures t[x][y][j].canon == v && y !in DirOf(t0, x) && x == MonthOf(v)
  {
    hide TreeCanons;
    AllLandedCanons(t0, t, news);
    assert t[x][y][j].canon in Canons(DirOf(t, x)[y]);
    assert t[x][y][j].canon in DirCanons(DirOf(t, x));
    TreeByDirs(t, t[x][y][j].canon);
    assert t[x][y][j].canon == v;
    if y in DirOf(t0, x) {
      ProgressKeepsOldFiles(t0, t, news);
      assert v in Canons(DirOf(t0, x)[y]);
      assert v in DirCanons(DirOf(t0, x));
      TreeByDirs(t0, v);
    }
    assert !Pristine(t0, t, x);
    var r, rows :| LandedAs(t0, t, x, news, r, rows);
    assert v in Slice(news, x);
  }

  /** What a completed ingestion of `job` into the lake `t0` leaves behind. */
  ghost predicate Ingested(t0: Tree, job: Job, t: Tree) {
    && Consistent(TreeCanons(t0) + Canons(job.accepted))
    && Retained(TreeCanons(t)) == Some(View(TreeCanons(t0) + Canons(job.accepted)))
    && OldFilesKept(t0, t)
    && forall v :: v in News(t0, job) ==> OnePhysicalRow(t, v.key)
  }

  lemma DoneMeansIngested(t0: Tree, news: set<Canon>, w: World)
    requires Attempting(t0, news, w) && w.proc.phase.Done?
    ensures Ingested(t0, w.proc.job, w.disk.tree)
  {
    hide TreeCanons, Landed, OnePhysicalRow, OldFilesKept, Canons, Progress, AllLanded, View;
    var t, job := w.disk.tree, w.proc.job;
    AllLandedCanons(t0, t, news);
    assert TreeCanons(t0) + news == TreeCanons(t0) + Canons(job.accepted);
    ProgressKeepsOldFiles(t0, t, news);
    forall v | v in News(t0, job) ensures OnePhysicalRow(t, v.key) {
      NewRowsAreWrittenOnce(t0, t, news, v);
    }
  }

  /** Crash and retry converge. Whatever the interruptions, an attempt that is then left alone ends
      in success exactly when its quarantine file can be created, and success leaves exactly the
      view of one undisturbed run over the original lake, every new row written once. */
  lemma RetriesConverge(d: Disk, tries: seq<Try>, last: Job)
    requires Unlocked(d.locks, News(d.tree, last)) && History(d.tree, tries, last)
    ensures var end := Finish(After(d, tries), last);
      && (end.proc.phase.Done? <==> !Blocked(After(d, tries), last))
      && (end.proc.phase.Done? ==> Ingested(d.tree, last, end.disk.tree))
      && (!end.proc.phase.Done? ==> end.disk == After(d, tries))
  {
    hide Step, Alone, Progress, TreeCanons, Canons, JobOk, History, Attempting, Ingested;
    var c := After(d, tries);
    var k := Remaining(Start(last));
    HistoryProgress(d, tries, last);
    OfferedLast(d.tree, tries, last);
    AttemptProgress(d.tree, c, News(d.tree, last), last, k);
    RunsEnd(World(c, Start(last)), k);
    OnlyQuarantineStopsARetry(d, tries, last, k);
    QuarantineDecides(c, last, k);
    if Finish(c, last).proc.phase.Done? {
      DoneMeansIngested(d.tree, News(d.tree, last), Finish(c, last));
    }
  }

  /** The undisturbed run is the history without interruptions. */
  lemma UndisturbedRun(d: Disk, job: Job)
    requires Unlocked(d.locks, News(d.tree, job)) && Offered(d.tree, job) && !Blocked(d, job)
    ensures Finish(d, job).proc.phase.Done? && Ingested(d.tree, job, Finish(d, job).disk.tree)
  {
    hide Step, Alone, Ingested, Finish, Offered;
    assert History(d.tree, [], job);
    assert After(d, []) == d;
    RetriesConverge(d, [], job);
  }

  /** The retried and the undisturbed run agree on every key. */
  lemma SameViewAsUndisturbed(d: Disk, tries: seq<Try>, last: Job)
    requires Unlocked(d.locks, News(d.tree, last)) && History(d.tree, tries, last)
    requires !Blocked(After(d, tries), last) && !Blocked(d, last)
    ensures Retained(TreeCanons(Finish(After(d, tries), last).disk.tree))
            == Retained(TreeCanons(Finish(d, last).disk.tree))
  {
    hide Finish, After, Blocked, TreeCanons, Retained, Offered, OldFilesKept, OnePhysicalRow;
    RetriesConverge(d, tries, last);
    OfferedLast(d.tree, tries, last);
    UndisturbedRun(d, last);
  }

  /** Which attempts left a quarantine file behind. */
  ghost predicate Quarantined(tries: seq<Try>, name: (string, string)) {
    exists i :: 0 <= i < |tries| && tries[i].steps > 0 && tries[i].job.rejected != []
                && QuarantineName(tries[i].job) == name
  }

  lemma {:induction false} QuarantineNames(d: Disk, tries: seq<Try>, name: (string, string))
    ensures name in After(d, tries).quarantine <==> name in d.quarantine || Quarantined(tries, name)
  {
    hide Step, Alone, QuarantineName;
    if tries != [] {
      var n := |tries| - 1;
      QuarantineNames(d, tries[..n], name);
      var c, t := After(d, tries[..n]), tries[n];
      if t.steps > 0 {
        QuarantineDecides(c, t.job, t.steps);
      } else {
        AloneZero(World(c, Start(t.job)));
      }
      assert forall i :: 0 <= i < n ==> tries[..n][i] == tries[i];
    }
  }

  /** Exactly when the last attempt is blocked: it rejects something, and the file-name form of its
      source and run id was used before, by the original lake or by an attempt that got going. */
  lemma WhenARetryIsBlocked(d: Disk, tries: seq<Try>, last: Job)
    ensures Blocked(After(d, tries), last) <==>
      last.rejected != [] && (QuarantineName(last) in d.quarantine || Quarantined(tries, QuarantineName(last)))
  {
    QuarantineNames(d, tries, QuarantineName(last));
  }

  /** A fresh run id is not enough: two different valid run ids can share their file-name form. */
  lemma FreshRunIdsCanCollide()
    ensures exists a, b :: ValidRunId(a) && ValidRunId(b) && a != b && Safe(a) == Safe(b)
  {
    var a, b := "a.b", "a_b";
    assert a[1] != b[1];
    assert Safe(a) == Safe(b);
    assert ValidRunId(a) && ValidRunId(b);
  }
}
