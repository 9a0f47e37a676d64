/** The raw lake as it is updated in place: one ingestion run, action by action, over mutable state. */
module LakeStore {
  import opened Rows
  import opened Dedup
  import opened Contracts
  import opened Backfill
  import opened Compaction

  // ----- Reading files -----

  /** All the rows of a directory's files, files in any order. */
  method RowsOfDir(dir: Dir) returns (rows: seq<Row>)
    ensures forall r :: r in rows <==> RowOfDir(dir, r)
    ensures Canons(rows) == DirCanons(dir)
  {
    rows := [];
    var names := dir.Keys;
    while names != {}
      invariant names <= dir.Keys
      invariant forall r :: r in rows <==> exists n :: n in dir && n !in names && r in dir[n]
      decreases |names|
    {
      var n :| n in names;
      rows := rows + dir[n];
      names := names - {n};
    }
    SameRowsSameCanons(dir, rows);
  }

  lemma SameRowsSameCanons(dir: Dir, rows: seq<Row>)
    requires forall r :: r in rows <==> RowOfDir(dir, r)
    ensures Canons(rows) == DirCanons(dir)
  {
    forall v | v in Canons(rows) ensures v in DirCanons(dir) {
      var i :| 0 <= i < |rows| && rows[i].canon == v;
      assert rows[i] in rows;
      RowCanon(dir, rows[i]);
    }
    forall v | v in DirCanons(dir) ensures v in Canons(rows) {
      var n :| n in dir && v in Canons(dir[n]);
      var i :| 0 <= i < |dir[n]| && dir[n][i].canon == v;
      assert RowOfDir(dir, dir[n][i]);
      var j :| 0 <= j < |rows| && rows[j] == dir[n][i];
    }
  }

  /** The rows of every partition of the lake. */
  method RowsOfTree(tree: Tree) returns (rows: seq<Row>)
    ensures Canons(rows) == TreeCanons(tree)
  {
    rows := [];
    var months := tree.Keys;
    assert Canons(rows) == {};
    while months != {}
      invariant months <= tree.Keys
      invariant forall v :: v in Canons(rows) <==> exists m :: m in tree && m !in months && v in DirCanons(tree[m])
      decreases |months|
    {
      var m :| m in months;
      var part := RowsOfDir(tree[m]);
      CanonsSplit(rows, part);
      rows := rows + part;
      months := months - {m};
    }
  }

  lemma NoRowsNoMonth()
    ensures forall m :: InMonth([], m) == []
  {
  }

  lemma OneMoreInMonth(rows: seq<Row>, n: nat)
    requires n < |rows|
    ensures InMonth(rows[..n + 1], MonthOf(rows[n].canon)) == InMonth(rows[..n], MonthOf(rows[n].canon)) + [rows[n]]
    ensures forall m :: m != MonthOf(rows[n].canon) ==> InMonth(rows[..n + 1], m) == InMonth(rows[..n], m)
  {
    assert rows[..n + 1][..n] == rows[..n];
  }

  /** Group by event month; the months come out sorted. */
  method GroupByMonth(rows: seq<Row>) returns (groups: map<Month, seq<Row>>, months: seq<Month>)
    ensures months == Months(rows)
    ensures forall m :: m in months ==> m in groups && groups[m] == InMonth(rows, m)
  {
    hide InMonth, Insert, Ascending;
    groups, months := map[], [];
    NoRowsNoMonth();
    for n := 0 to |rows|
      invariant months == Months(rows[..n])
      invariant forall m :: m in months <==> m in groups
      invariant forall m :: m in groups ==> groups[m] == InMonth(rows[..n], m)
      invariant forall m :: m !in groups ==> InMonth(rows[..n], m) == []
    {
      assert rows[..n + 1][..n] == rows[..n];
      var m := MonthOf(rows[n].canon);
      MonthsOfRows(rows[..n]);
      InsertAscending(months, m);
      OneMoreInMonth(rows, n);
      groups := groups[m := (if m in groups then groups[m] else []) + [rows[n]]];
      months := Insert(months, m);
    }
    assert rows[..|rows|] == rows;
  }

  /** The latest event date of a batch. */
  method LatestDate(rows: seq<Row>) returns (latest: Option<int>)
    ensures latest == MaxDate(rows)
  {
    latest := None;
    for n := 0 to |rows|
      invariant latest == MaxDate(rows[..n])
    {
      assert rows[..n + 1][..n] == rows[..n];
      var d := rows[n].canon.date.ordinal;
      if latest.None? || d > latest.value {
        latest := Some(d);
      }
    }
    assert rows[..|rows|] == rows;
  }

  // ----- Steps compose -----

  lemma {:induction false} AloneAdds(w: World, a: nat, b: nat)
    ensures Alone(w, a + b) == Alone(Alone(w, a), b)
  {
    hide Step;
    if b > 0 {
      AloneAdds(w, a, b - 1);
    }
  }

  lemma {:induction false} EndedAlone(w: World, k: nat)
    requires Ended(w.proc)
    ensures Alone(w, k) == w
  {
    hide Step;
    if k > 0 {
      EndedAlone(w, k - 1);
      EndedRunsStay(w);
    }
  }

  class RawLake {
    var tree: Tree
    var staged: map<(string, Month), seq<Row>>
    var quarantine: map<(string, string), seq<Reject>>
    var audits: map<string, Reconciliation>
    var manifests: map<string, Manifest>
    var checkpoints: map<string, Checkpoint>
    var locks: map<Month, string>
    var archives: map<string, Archive>
    var rewrites: map<string, seq<Row>>
    var compactions: map<string, CompactionRecord>

    ghost function View(): Disk
      reads this
    {
      Disk(tree, staged, quarantine, audits, manifests, checkpoints, locks, archives, rewrites, compactions)
    }

    constructor ()
      ensures View() == Disk(map[], map[], map[], map[], map[], map[], map[], map[], map[], map[])
    {
      tree, staged, quarantine, audits, manifests := map[], map[], map[], map[], map[];
      checkpoints, locks, archives, rewrites, compactions := map[], map[], map[], map[], map[];
    }

    /** `write_quarantine`. */
    method WriteQuarantine(job: Job, ghost p: Proc) returns (ok: bool, ghost q: Proc)
      requires p.job == job
      modifies this`quarantine
      ensures World(View(), q) == StepQuarantine(World(old(View()), p))
      ensures ok <==> q.phase.Reading?
    {
      var name := (Safe(job.source), Safe(job.runId));
      q := StepQuarantine(World(View(), p)).proc;
      ok := job.rejected == [] || name !in quarantine;
      if ok && job.rejected != [] {
        quarantine := quarantine[name := job.rejected];
      }
    }

    /** `_existing_rows` over the whole dataset. */
    method ReadLake() returns (existing: Option<map<Key, Canon>>)
      ensures existing == Retained(TreeCanons(tree))
    {
      var rows := RowsOfTree(tree);
      existing := ExistingRows(rows);
    }

    /** Read, deduplicate and group: nothing is written. */
    method PlanRun(accepted: seq<Row>, ghost p: Proc)
      returns (error: Option<Error>, plan: Plan, groups: map<Month, seq<Row>>, ghost q: Proc)
      requires p.job.accepted == accepted
      ensures World(View(), q) == StepRead(World(View(), p))
      ensures error == if q.phase.Failed? then Some(q.phase.error) else None
      ensures error.None? ==> q.phase == Staging(0) && q.plan == plan
      ensures error.None? ==> forall m :: m in plan.months ==> m in groups && groups[m] == InMonth(plan.added, m)
    {
      hide Retained, TreeCanons, Deduplicate, Months, InMonth;
      q := StepRead(World(View(), p)).proc;
      plan, groups := Plan(map[], [], 0, []), map[];
      var existing := ReadLake();
      match existing {
        case None => error := Some(RetainedConflict);
        case Some(view) =>
          var outcome := DeduplicateRows(accepted, view);
          match outcome {
            case Conflict(_) => error := Some(ReplayConflict);
            case Deduplicated(added, duplicates) =>
              var months;
              groups, months := GroupByMonth(added);
              plan := Plan(view, added, duplicates, months);
              error := None;
          }
      }
    }

    /** `_stage_partition`. */
    method StagePartition(runId: string, m: Month, rows: seq<Row>, i: nat, ghost p: Proc) returns (ok: bool, ghost q: Proc)
      requires i < |p.plan.months| && p.plan.months[i] == m && p.job.runId == runId && rows == InMonth(p.plan.added, m)
      modifies this`staged
      ensures World(View(), q) == StepStage(World(old(View()), p), i)
      ensures ok <==> !q.phase.Failed?
      ensures q.phase.Failed? ==> q.phase.error == ArtifactExists
    {
      hide InMonth, StepStage;
      StageEffect(World(View(), p), i);
      q := StepStage(World(View(), p), i).proc;
      ok := !Exists(tree, m, Part(runId));
      if ok {
        staged := staged[(runId, m) := rows];
      }
    }

    /** `_promote_partition`: the directory, the lock test, the existence test, the rename. */
    method PromotePartition(runId: string, m: Month, i: nat, ghost p: Proc) returns (error: Option<Error>, ghost q: Proc)
      requires i < |p.plan.months| && p.plan.months[i] == m && p.job.runId == runId
      modifies this`tree, this`staged
      ensures World(View(), q) == StepPromote(World(old(View()), p), i)
      ensures error == if q.phase.Failed? then Some(q.phase.error) else None
    {
      hide StepPromote, MakeDir;
      PromoteEffect(World(View(), p), i);
      MakesDir(tree, m);
      q := StepPromote(World(View(), p), i).proc;
      tree := MakeDir(tree, m);
      if m in locks {
        return Some(PartitionLocked), q;
      }
      if Part(runId) in tree[m] {
        return Some(ArtifactExists), q;
      }
      if (runId, m) !in staged {
        return Some(StagingMissing), q;
      }
      tree := tree[m := tree[m][Part(runId) := staged[(runId, m)]]];
      staged := staged - {(runId, m)};
      error := None;
    }

    /** Stage every month, oldest first, while the budget of actions lasts. */
    method StageAll(runId: string, months: seq<Month>, groups: map<Month, seq<Row>>, budget: nat, ghost p: Proc)
      returns (error: Option<Error>, used: nat, ghost q: Proc)
      requires p.phase == Staging(0) && p.plan.months == months && p.job.runId == runId
      requires forall m :: m in months ==> m in groups && groups[m] == InMonth(p.plan.added, m)
      modifies this`staged
      ensures used <= budget && World(View(), q) == Alone(World(old(View()), p), used)
      ensures error == if q.phase.Failed? then Some(q.phase.error) else None
      ensures q.plan == p.plan && q.job == p.job && q.written == p.written
      ensures error.None? && used < budget ==> used == |months| && q.phase == Staging(|months|)
    {
      hide Alone, Step, StepStage, InMonth;
      ghost var w := World(View(), p);
      q, used, error := p, 0, None;
      AloneNone(w);
      while used < |months| && used < budget
        invariant used <= |months| && used <= budget
        invariant World(View(), q) == Alone(w, used)
        invariant q == p.(phase := Staging(used))
        invariant error.None?
      {
        ghost var before := World(View(), q);
        var ok;
        ok, q := StagePartition(runId, months[used], groups[months[used]], used, q);
        StagingStep(before, used);
        AloneStep(w, used);
        used := used + 1;
        if !ok {
          return Some(ArtifactExists), used, q;
        }
      }
    }

    /** Promote the staged files in the same order. */
    method PromoteAll(runId: string, months: seq<Month>, budget: nat, ghost p: Proc)
      returns (error: Option<Error>, used: nat, ghost q: Proc)
      requires p.phase == Promoting(0) && p.written == 0 && p.plan.months == months && p.job.runId == runId
      modifies this`tree, this`staged
      ensures used <= budget && World(View(), q) == Alone(World(old(View()), p), used)
      ensures error == if q.phase.Failed? then Some(q.phase.error) else None
      ensures q.plan == p.plan && q.job == p.job
      ensures error.None? && used < budget ==> used == |months| && q.phase == Promoting(|months|) && q.written == |months|
    {
      hide Alone, Step, StepPromote;
      ghost var w := World(View(), p);
      q, used, error := p, 0, None;
      AloneNone(w);
      while used < |months| && used < budget
        invariant used <= |months| && used <= budget
        invariant World(View(), q) == Alone(w, used)
        invariant q == p.(phase := Promoting(used), written := used)
        invariant error.None?
      {
        ghost var before := World(View(), q);
        PromoteEffect(before, used);
        error, q := PromotePartition(runId, months[used], used, q);
        PromotingStep(before, used);
        AloneStep(w, used);
        used := used + 1;
        if error.Some? {
          return error, used, q;
        }
      }
    }

    /** Read the lake back. */
    method Reread(ghost p: Proc) returns (error: Option<Error>, post: nat, ghost q: Proc)
      requires p.phase.Rereading?
      ensures World(View(), q) == Step(World(View(), p))
      ensures q == p.(phase := q.phase, post := q.post)
      ensures error == if q.phase.Failed? then Some(q.phase.error) else None
      ensures error.None? ==> q.phase.Auditing? && q.post == post
    {
      hide Step, Retained, TreeCanons, StepReread;
      var view := ReadLake();
      RereadStep(World(View(), p));
      q := StepReread(World(View(), p)).proc;
      match view {
        case None => error, post := Some(RetainedConflict), 0;
        case Some(m) => error, post := None, |m|;
      }
    }

    /** Reconcile and write the audit. */
    method WriteAudit(job: Job, plan: Plan, post: nat, ghost p: Proc) returns (error: Option<Error>, ghost q: Proc)
      requires p.phase.Auditing? && p.job == job && p.plan == plan && p.post == post
      modifies this`audits
      ensures World(View(), q) == Step(World(old(View()), p))
      ensures q == p.(phase := q.phase)
      ensures error == if q.phase.Failed? then Some(q.phase.error) else None
      ensures error.None? ==> q.phase.Publishing?
    {
      hide Step, StepAudit;
      var added := |plan.added|;
      var r := ReconcileRun(job.fetched, added, |job.rejected|, plan.duplicates, added, |plan.pre|, post);
      AuditStep(World(View(), p));
      q := StepAudit(World(View(), p)).proc;
      audits := audits[job.runId := r];
      error := if r.passed then None else Some(ReconciliationFailed);
    }

    method WriteManifest(job: Job, plan: Plan, written: nat, post: nat, ghost p: Proc) returns (latest: Option<int>, ghost q: Proc)
      requires p.phase.Publishing? && p.job == job && p.plan == plan && p.written == written && p.post == post
      modifies this`manifests
      ensures World(View(), q) == Step(World(old(View()), p))
      ensures q == p.(phase := if job.incremental && latest.Some? then Advancing else Done)
      ensures latest == MaxDate(job.accepted)
    {
      hide Step, StepPublish, MaxDate;
      latest := LatestDate(job.accepted);
      NoDateNoRows(job.accepted);
      PublishStep(World(View(), p));
      q := StepPublish(World(View(), p)).proc;
      manifests := manifests[job.runId := Manifest(job.rejected != [], job.fetched, |plan.added|, |job.rejected|,
                                                   plan.duplicates, written, latest, |plan.pre|, post)];
    }

    method AdvanceCheckpoint(job: Job, latest: int, ghost p: Proc) returns (ghost q: Proc)
      requires p.phase.Advancing? && p.job == job && MaxDate(job.accepted) == Some(latest)
      modifies this`checkpoints
      ensures World(View(), q) == Step(World(old(View()), p)) && q.phase.Done?
    {
      hide Step, StepAdvance, MaxDate;
      AdvanceStep(World(View(), p));
      q := StepAdvance(World(View(), p)).proc;
      var current := if job.source in checkpoints then Some(checkpoints[job.source]) else None;
      checkpoints := checkpoints[job.source := Advanced(current, latest, job.runId)];
    }

    /** From the re-read to the end of the run. */
    method CloseRun(job: Job, plan: Plan, written: nat, budget: nat, ghost p: Proc) returns (error: Option<Error>, ghost q: Proc)
      requires p.phase.Rereading? && p.job == job && p.plan == plan && p.written == written
      modifies this`audits, this`manifests, this`checkpoints
      ensures World(View(), q) == Alone(World(old(View()), p), budget)
      ensures error == if q.phase.Failed? then Some(q.phase.error) else None
      ensures !job.incremental ==> checkpoints == old(checkpoints)
    {
      hide Alone, Step, MaxDate;
      ghost var w := World(View(), p);
      q, error := p, None;
      AloneNone(w);
      if budget == 0 { return; }
      var post;
      error, post, q := Reread(q);
      AloneStep(w, 0);
      StopsHere(w, 1, budget);
      if error.Some? || budget == 1 { return; }
      error, q := WriteAudit(job, plan, post, q);
      AloneStep(w, 1);
      StopsHere(w, 2, budget);
      if error.Some? || budget == 2 { return; }
      var latest;
      latest, q := WriteManifest(job, plan, written, post, q);
      AloneStep(w, 2);
      StopsHere(w, 3, budget);
      if !job.incremental || latest.None? || budget == 3 { return; }
      q := AdvanceCheckpoint(job, latest.value, q);
      AloneStep(w, 3);
      StopsHere(w, 4, budget);
    }

    /** `run_backfill` after validation. The process dies once `budget` actions are done; otherwise
        the run ends in success or with an error. */
    method RunBackfill(job: Job, budget: nat) returns (error: Option<Error>, ghost p: Proc)
      modifies this`tree, this`staged, this`quarantine, this`audits, this`manifests, this`checkpoints
      ensures World(View(), p) == Alone(World(old(View()), Start(job)), budget)
      ensures error == if p.phase.Failed? then Some(p.phase.error) else None
      ensures !job.incremental ==> checkpoints == old(checkpoints)
    {
      hide Alone, Step, StepQuarantine, StepRead, Safe;
      ghost var w := World(View(), Start(job));
      p, error := Start(job), None;
      AloneNone(w);
      if budget == 0 {
        return;
      }
      var ok;
      ok, p := WriteQuarantine(job, p);
      QuarantineStep(w);
      AloneStep(w, 0);
      if !ok {
        EndedEarly(w, 1, budget);
        return Some(QuarantineExists), p;
      }
      if budget == 1 {
        return;
      }
      ghost var reading := World(View(), p);
      var plan, groups;
      error, plan, groups, p := PlanRun(job.accepted, p);
      ReadStep(reading);
      AloneStep(w, 1);
      if error.Some? {
        EndedEarly(w, 2, budget);
        return error, p;
      }
      error, p := WriteRun(job, plan, groups, budget - 2, p);
      AloneAdds(w, 2, budget - 2);
    }

    /** The writing half of a run, from staging to the manifest. */
    method WriteRun(job: Job, plan: Plan, groups: map<Month, seq<Row>>, budget: nat, ghost p: Proc)
      returns (error: Option<Error>, ghost q: Proc)
      requires p.phase == Staging(0) && p.written == 0 && p.plan == plan && p.job == job
      requires forall m :: m in plan.months ==> m in groups && groups[m] == InMonth(plan.added, m)
      modifies this`tree, this`staged, this`audits, this`manifests, this`checkpoints
      ensures World(View(), q) == Alone(World(old(View()), p), budget)
      ensures error == if q.phase.Failed? then Some(q.phase.error) else None
      ensures !job.incremental ==> checkpoints == old(checkpoints)
    {
      hide Alone, Step, InMonth;
      ghost var w := World(View(), p);
      var used, rest := 0, budget;
      error, used, q := StageAll(job.runId, plan.months, groups, rest, p);
      ghost var sum := used;
      rest := rest - used;
      if error.Some? || rest == 0 {
        StopsHere(w, sum, budget);
        return error, q;
      }
      StagedAll(World(View(), q));
      AloneStep(w, sum);
      sum, q, rest := sum + 1, q.(phase := Promoting(0)), rest - 1;
      ghost var mid := World(View(), q);
      error, used, q := PromoteAll(job.runId, plan.months, rest, q);
      AloneAdds(w, sum, used);
      sum := sum + used;
      rest := rest - used;
      if error.Some? || rest == 0 {
        StopsHere(w, sum, budget);
        return error, q;
      }
      PromotedAll(World(View(), q));
      AloneStep(w, sum);
      sum, q, rest := sum + 1, q.(phase := Rereading), rest - 1;
      error, q := CloseRun(job, plan, |plan.months|, rest, q);
      AloneAdds(w, sum, rest);
    }
  }

  // ----- One lemma a step -----

  lemma AloneNone(w: World)
    ensures Alone(w, 0) == w
  {
  }

  lemma AloneStep(w: World, k: nat)
    ensures Alone(w, k + 1) == Step(Alone(w, k))
  {
  }

  lemma EndedEarly(w: World, k: nat, n: nat)
    requires k <= n && Ended(Alone(w, k).proc)
    ensures Alone(w, n) == Alone(w, k)
  {
    hide Alone;
    AloneAdds(w, k, n - k);
    EndedAlone(Alone(w, k), n - k);
  }

  lemma StopsHere(w: World, k: nat, n: nat)
    requires k <= n
    ensures Ended(Alone(w, k).proc) || k == n ==> Alone(w, n) == Alone(w, k)
  {
    hide Alone;
    if k < n && Ended(Alone(w, k).proc) {
      EndedEarly(w, k, n);
    }
  }

  lemma QuarantineStep(w: World)
    requires w.proc.phase.Quarantining?
    ensures Step(w) == StepQuarantine(w)
  {
    hide StepQuarantine;
  }

  lemma ReadStep(w: World)
    requires w.proc.phase.Reading?
    ensures Step(w) == StepRead(w)
  {
    hide StepRead;
  }

  lemma StagingStep(w: World, i: nat)
    requires w.proc.phase == Staging(i) && i < |w.proc.plan.months|
    ensures Step(w) == StepStage(w, i)
  {
    hide StepStage;
  }

  lemma StageEffect(w: World, i: nat)
    requires i < |w.proc.plan.months|
    ensures var m, r := w.proc.plan.months[i], w.proc.job.runId;
      && (Exists(w.disk.tree, m, Part(r)) ==> StepStage(w, i) == Fail(w, ArtifactExists))
      && (!Exists(w.disk.tree, m, Part(r)) ==>
            && StepStage(w, i).disk == w.disk.(staged := w.disk.staged[(r, m) := InMonth(w.proc.plan.added, m)])
            && StepStage(w, i).proc == w.proc.(phase := Staging(i + 1)))
  {
    hide InMonth;
  }

  lemma StagedAll(w: World)
    requires w.proc.phase == Staging(|w.proc.plan.months|)
    ensures Step(w) == To(w, Promoting(0))
  {
  }

  lemma PromotingStep(w: World, i: nat)
    requires w.proc.phase == Promoting(i) && i < |w.proc.plan.months|
    ensures Step(w) == StepPromote(w, i)
  {
    hide StepPromote;
  }

  lemma MakesDir(t: Tree, m: Month)
    ensures m in MakeDir(t, m)
  {
  }

  lemma PromoteEffect(w: World, i: nat)
    requires i < |w.proc.plan.months|
    ensures var u, d, p, m, n := StepPromote(w, i), w.disk, w.proc, w.proc.plan.months[i], Part(w.proc.job.runId);
      var made := MakeDir(d.tree, m);
      && u.proc.phase == (if m in d.locks then Failed(PartitionLocked) else if n in made[m] then Failed(ArtifactExists)
           else if (p.job.runId, m) !in d.staged then Failed(StagingMissing) else Promoting(i + 1))
      && u.proc == p.(phase := u.proc.phase, written := if u.proc.phase.Failed? then p.written else p.written + 1)
      && (u.proc.phase.Failed? ==> u.disk.tree == made && u.disk.staged == d.staged)
      && (!u.proc.phase.Failed? ==>
            && u.disk.tree == made[m := made[m][n := d.staged[(p.job.runId, m)]]]
            && u.disk.staged == d.staged - {(p.job.runId, m)})
      && u.disk == d.(tree := u.disk.tree, staged := u.disk.staged)
  {
  }

  lemma PromotedAll(w: World)
    requires w.proc.phase == Promoting(|w.proc.plan.months|)
    ensures Step(w) == To(w, Rereading)
  {
  }

  lemma RereadStep(w: World)
    requires w.proc.phase.Rereading?
    ensures Step(w) == StepReread(w)
    ensures Retained(TreeCanons(w.disk.tree)).None? ==> StepReread(w) == Fail(w, RetainedConflict)
    ensures Retained(TreeCanons(w.disk.tree)).Some? ==>
      StepReread(w) == w.(proc := w.proc.(phase := Auditing, post := |Retained(TreeCanons(w.disk.tree)).value|))
  {
    hide Retained, TreeCanons;
  }

  lemma AuditStep(w: World)
    requires w.proc.phase.Auditing?
    ensures Step(w) == StepAudit(w)
    ensures StepAudit(w).disk == w.disk.(audits := w.disk.audits[w.proc.job.runId := Accounting(w.proc)])
    ensures StepAudit(w).proc.phase == if Accounting(w.proc).passed then Publishing else Failed(ReconciliationFailed)
  {
    hide Accounting;
  }

  lemma PublishStep(w: World)
    requires w.proc.phase.Publishing?
    ensures Step(w) == StepPublish(w)
    ensures StepPublish(w).disk == w.disk.(manifests := w.disk.manifests[w.proc.job.runId := ManifestOf(w.proc)])
    ensures StepPublish(w).proc.phase == if w.proc.job.incremental && w.proc.job.accepted != [] then Advancing else Done
  {
    hide ManifestOf;
  }

  lemma AdvanceStep(w: World)
    requires w.proc.phase.Advancing? && MaxDate(w.proc.job.accepted).Some?
    ensures Step(w) == StepAdvance(w)
    ensures StepAdvance(w).disk == w.disk.(checkpoints := w.disk.checkpoints[
              w.proc.job.source := Advanced(CheckpointOf(w.disk, w.proc.job.source), MaxDate(w.proc.job.accepted).value, w.proc.job.runId)])
  {
    hide MaxDate;
  }

  lemma NoDateNoRows(rows: seq<Row>)
    ensures MaxDate(rows).None? <==> rows == []
  {
    MaxDateIsReached(rows);
  }
}
