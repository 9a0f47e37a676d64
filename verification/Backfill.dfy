/** The disk of the raw lake and one ingestion run over it, one durable action at a time. */
module Backfill {
  import opened Rows
  import opened Dedup
  import opened Contracts

  // ----- The disk -----

  /** `part-<run_id>.parquet` or `compact-<compaction_id>.parquet`. */
  datatype Name = Part(runId: string) | Compact(compactionId: string)

  type Dir = map<Name, seq<Row>>
  /** The partition directories of one dataset: a month is a key when its directory exists. */
  type Tree = map<Month, Dir>

  datatype Manifest = Manifest(
    degraded: bool, inputRows: nat, acceptedRows: nat, quarantinedRows: nat, duplicateRows: nat,
    filesWritten: nat, maxEventDate: Option<int>, preWriteRows: nat, postWriteRows: nat)

  datatype Checkpoint = Checkpoint(date: int, runId: string)

  /** A whole partition directory moved out of the lake by a compaction. */
  datatype Archive = Archive(month: Month, files: Dir)

  datatype CompactionRecord = CompactionRecord(month: Month, filesBefore: nat, rowsAfter: nat)

  datatype Disk = Disk(
    tree: Tree,
    staged: map<(string, Month), seq<Row>>,
    quarantine: map<(string, string), seq<Reject>>,
    audits: map<string, Reconciliation>,
    manifests: map<string, Manifest>,
    checkpoints: map<string, Checkpoint>,
    locks: map<Month, string>,
    archives: map<string, Archive>,
    rewrites: map<string, seq<Row>>,
    compactions: map<string, CompactionRecord>)

  function DirOf(tree: Tree, m: Month): Dir {
    if m in tree then tree[m] else map[]
  }

  function DirCanons(dir: Dir): set<Canon> {
    set n, v | n in dir && v in Canons(dir[n]) :: v
  }

  /** Every canonical record a reader of the lake sees. */
  function TreeCanons(tree: Tree): set<Canon> {
    set m, v | m in tree && v in DirCanons(tree[m]) :: v
  }

  // ----- Partitioning a batch by month -----

  predicate Before(a: Month, b: Month) {
    a.year < b.year || (a.year == b.year && a.month < b.month)
  }

  function Insert(months: seq<Month>, m: Month): seq<Month> {
    if months == [] then [m]
    else if months[0] == m then months
    else if Before(m, months[0]) then [m] + months
    else [months[0]] + Insert(months[1..], m)
  }

  /** The partitions a batch touches, in the order they are staged and promoted. */
  function Months(rows: seq<Row>): seq<Month> {
    if rows == [] then []
    else Insert(Months(rows[..|rows| - 1]), MonthOf(rows[|rows| - 1].canon))
  }

  function InMonth(rows: seq<Row>, m: Month): seq<Row> {
    if rows == [] then []
    else InMonth(rows[..|rows| - 1], m) +
         if MonthOf(rows[|rows| - 1].canon) == m then [rows[|rows| - 1]] else []
  }

  function MaxDate(rows: seq<Row>): Option<int> {
    if rows == [] then None
    else
      var d := rows[|rows| - 1].canon.date.ordinal;
      match MaxDate(rows[..|rows| - 1])
      case None => Some(d)
      case Some(e) => Some(if d > e then d else e)
  }

  ghost predicate Ascending(months: seq<Month>) {
    forall i, j :: 0 <= i < j < |months| ==> Before(months[i], months[j])
  }

  lemma {:induction false} InsertAscending(months: seq<Month>, m: Month)
    requires Ascending(months)
    ensures Ascending(Insert(months, m))
    ensures forall x :: x in Insert(months, m) <==> x in months || x == m
    ensures |Insert(months, m)| <= |months| + 1
  {
    if months != [] && months[0] != m && !Before(m, months[0]) {
      var rest := months[1..];
      InsertAscending(rest, m);
      assert forall x :: x in months <==> x == months[0] || x in rest;
      var r := Insert(rest, m);
      forall j | 0 <= j < |r| ensures Before(months[0], r[j]) {
        assert r[j] in r;
      }
    }
  }

  lemma {:induction false} MonthsOfRows(rows: seq<Row>)
    ensures Ascending(Months(rows)) && |Months(rows)| <= |rows|
    ensures forall m :: m in Months(rows) <==> exists v :: v in Canons(rows) && MonthOf(v) == m
  {
    if rows != [] {
      var n := |rows| - 1;
      MonthsOfRows(rows[..n]);
      InsertAscending(Months(rows[..n]), MonthOf(rows[n].canon));
      assert rows == rows[..n] + [rows[n]];
      CanonsAppend(rows[..n], rows[n]);
    }
  }

  lemma {:induction false} InMonthCanons(rows: seq<Row>, m: Month)
    ensures Canons(InMonth(rows, m)) == set v | v in Canons(rows) && MonthOf(v) == m
  {
    if rows != [] {
      var n := |rows| - 1;
      var front, part := rows[..n], InMonth(rows[..n], m);
      InMonthCanons(front, m);
      assert rows == front + [rows[n]];
      CanonsAppend(front, rows[n]);
      CanonsAppend(part, rows[n]);
      assert InMonth(rows, m) == if MonthOf(rows[n].canon) == m then part + [rows[n]] else part;
    }
  }

  lemma {:induction false} InMonthKeys(rows: seq<Row>, m: Month)
    requires DistinctKeys(rows)
    ensures DistinctKeys(InMonth(rows, m))
    ensures forall r :: r in InMonth(rows, m) ==> r in rows
  {
    if rows != [] {
      var n := |rows| - 1;
      var front, part := rows[..n], InMonth(rows[..n], m);
      InMonthKeys(front, m);
      forall i | 0 <= i < |part| ensures part[i].Key() != rows[n].Key() {
        assert part[i] in front;
        var j :| 0 <= j < |front| && front[j] == part[i];
        assert front[j] == rows[j];
      }
    }
  }

  lemma {:induction false} MaxDateIsReached(rows: seq<Row>)
    ensures rows == [] <==> MaxDate(rows).None?
    ensures rows != [] ==> exists i :: 0 <= i < |rows| && rows[i].canon.date.ordinal == MaxDate(rows).value
    ensures forall i :: 0 <= i < |rows| ==> rows[i].canon.date.ordinal <= MaxDate(rows).value
  {
    if rows != [] {
      MaxDateIsReached(rows[..|rows| - 1]);
    }
  }

  // ----- A run -----

  /** What a run carries once its batch is validated; `incremental` runs advance the checkpoint. */
  datatype Job = Job(
    runId: string, source: string, fetched: nat, accepted: seq<Row>, rejected: seq<Reject>, incremental: bool)

  ghost predicate JobOk(job: Job) {
    && job.fetched == |job.accepted| + |job.rejected|
    && DistinctKeys(job.accepted)
    && forall i :: 0 <= i < |job.accepted| ==> job.accepted[i].canon.source == job.source
  }

  datatype Error =
    | QuarantineExists | RetainedConflict | ReplayConflict | ArtifactExists | PartitionLocked
    | StagingMissing | ReconciliationFailed | Killed

  /** The next durable action, or read, of a run. */
  datatype Phase =
    | Quarantining
    | Reading
    | Staging(next: nat)
    | Promoting(next: nat)
    | Rereading
    | Auditing
    | Publishing
    | Advancing
    | Done
    | Failed(error: Error)

  /** What a run decided when it read the lake: the retained view, the rows to add, the number of
      replays, and the partitions to write in order. */
  datatype Plan = Plan(pre: map<Key, Canon>, added: seq<Row>, duplicates: nat, months: seq<Month>)

  /** `written` counts the artifacts promoted so far; `post` is the row count read back. */
  datatype Proc = Proc(job: Job, phase: Phase, plan: Plan, written: nat, post: nat)

  datatype World = World(disk: Disk, proc: Proc)

  function Start(job: Job): Proc {
    Proc(job, Quarantining, Plan(map[], [], 0, []), 0, 0)
  }

  predicate Alnum(ch: char) {
    'a' <= ch <= 'z' || 'A' <= ch <= 'Z' || '0' <= ch <= '9'
  }

  /** The file-name form of an identifier: it is not injective. */
  function Safe(id: string): string {
    seq(|id|, i requires 0 <= i < |id| => if Alnum(id[i]) || id[i] == '-' || id[i] == '_' then id[i] else '_')
  }

  function QuarantineName(job: Job): (string, string) {
    (Safe(job.source), Safe(job.runId))
  }

  predicate ValidRunId(id: string) {
    && 1 <= |id| <= 128 && Alnum(id[0])
    && forall i :: 0 <= i < |id| ==> Alnum(id[i]) || id[i] in "._-"
  }

  /** Valid run ids, one character at a time: a letter or digit first, then up to 127 more that may be dots,
      dashes and underscores as well. */
  lemma ValidRunIdsAre(id: string, ch: char)
    ensures !ValidRunId("") && (ValidRunId([ch]) <==> Alnum(ch))
    ensures id != "" ==>
      (ValidRunId(id + [ch]) <==> ValidRunId(id) && |id| <= 127 && (Alnum(ch) || ch == '.' || ch == '_' || ch == '-'))
  {
    var longer := id + [ch];
    if id != "" {
      assert longer[0] == id[0];
      assert forall i :: 0 <= i < |id| ==> longer[i] == id[i];
      assert longer[|id|] == ch;
    }
  }

  function Fail(w: World, e: Error): World {
    w.(proc := w.proc.(phase := Failed(e)))
  }

  function To(w: World, phase: Phase): World {
    w.(proc := w.proc.(phase := phase))
  }

  /** `write_quarantine`: exclusive creation, and no file when nothing was rejected. */
  function StepQuarantine(w: World): (r: World)
    ensures r.disk == w.disk.(quarantine := r.disk.quarantine)
    ensures r.proc == w.proc.(phase := r.proc.phase)
    ensures r.proc.phase == Reading || r.proc.phase == Failed(QuarantineExists)
  {
    var job := w.proc.job;
    if job.rejected == [] then To(w, Reading)
    else if QuarantineName(job) in w.disk.quarantine then Fail(w, QuarantineExists)
    else World(w.disk.(quarantine := w.disk.quarantine[QuarantineName(job) := job.rejected]),
               w.proc.(phase := Reading))
  }

  /** Read the retained view, deduplicate against it, and plan the monthly files. */
  ghost function StepRead(w: World): (r: World)
    ensures r.disk == w.disk
    ensures r.proc == w.proc.(phase := r.proc.phase, plan := r.proc.plan)
    ensures r.proc.phase == Failed(RetainedConflict) || r.proc.phase == Failed(ReplayConflict) || r.proc.phase == Staging(0)
  {
    match Retained(TreeCanons(w.disk.tree))
    case None => Fail(w, RetainedConflict)
    case Some(existing) =>
      match Deduplicate(w.proc.job.accepted, existing)
      case Conflict(_) => Fail(w, ReplayConflict)
      case Deduplicated(added, duplicates) =>
        w.(proc := w.proc.(phase := Staging(0), plan := Plan(existing, added, duplicates, Months(added))))
  }

  predicate Exists(tree: Tree, m: Month, n: Name) {
    m in tree && n in tree[m]
  }

  function StepStage(w: World, i: nat): (r: World)
    requires i < |w.proc.plan.months|
    ensures r.disk == w.disk.(staged := r.disk.staged)
    ensures r.proc == w.proc.(phase := r.proc.phase)
    ensures r.proc.phase == Failed(ArtifactExists) || r.proc.phase == Staging(i + 1)
  {
    var p, m := w.proc, w.proc.plan.months[i];
    if Exists(w.disk.tree, m, Part(p.job.runId)) then Fail(w, ArtifactExists)
    else World(w.disk.(staged := w.disk.staged[(p.job.runId, m) := InMonth(p.plan.added, m)]),
               p.(phase := Staging(i + 1)))
  }

  /** The partition directory is created before the lock is looked at. */
  function MakeDir(tree: Tree, m: Month): Tree {
    if m in tree then tree else tree[m := map[]]
  }

  /** `_promote_partition`: the lock test and the rename are one step. */
  function StepPromote(w: World, i: nat): (r: World)
    requires i < |w.proc.plan.months|
    ensures r.disk == w.disk.(tree := r.disk.tree, staged := r.disk.staged)
    ensures r.proc == w.proc.(phase := r.proc.phase, written := r.proc.written)
    ensures r.proc.phase == Failed(PartitionLocked) || r.proc.phase == Failed(ArtifactExists)
         || r.proc.phase == Failed(StagingMissing) || r.proc.phase == Promoting(i + 1)
    ensures r.proc.phase.Failed? ==> r.disk == w.disk.(tree := MakeDir(w.disk.tree, w.proc.plan.months[i]))
    ensures r.proc.phase.Failed? ==> r.proc.written == w.proc.written
  {
    var p, m := w.proc, w.proc.plan.months[i];
    var id := (p.job.runId, m);
    var made := w.(disk := w.disk.(tree := MakeDir(w.disk.tree, m)));
    if m in w.disk.locks then Fail(made, PartitionLocked)
    else if Exists(w.disk.tree, m, Part(p.job.runId)) then Fail(made, ArtifactExists)
    else if id !in w.disk.staged then Fail(made, StagingMissing)
    else
      var dir := made.disk.tree[m][Part(p.job.runId) := w.disk.staged[id]];
      World(made.disk.(tree := made.disk.tree[m := dir], staged := made.disk.staged - {id}),
            p.(phase := Promoting(i + 1), written := p.written + 1))
  }

  ghost function StepReread(w: World): (r: World)
    ensures r.disk == w.disk
    ensures r.proc == w.proc.(phase := r.proc.phase, post := r.proc.post)
    ensures r.proc.phase == Failed(RetainedConflict) || r.proc.phase == Auditing
  {
    match Retained(TreeCanons(w.disk.tree))
    case None => Fail(w, RetainedConflict)
    case Some(view) => w.(proc := w.proc.(phase := Auditing, post := |view|))
  }

  function Accounting(p: Proc): Reconciliation {
    Reconcile(p.job.fetched, |p.plan.added|, |p.job.rejected|, p.plan.duplicates, |p.plan.added|, |p.plan.pre|, p.post)
  }

  /** The audit is written whether or not the run reconciles. */
  function StepAudit(w: World): (r: World)
    ensures r.disk == w.disk.(audits := r.disk.audits)
    ensures r.proc == w.proc.(phase := r.proc.phase)
    ensures r.proc.phase == Failed(ReconciliationFailed) || r.proc.phase == Publishing
  {
    var r := Accounting(w.proc);
    var audited := w.(disk := w.disk.(audits := w.disk.audits[w.proc.job.runId := r]));
    if r.passed then To(audited, Publishing) else Fail(audited, ReconciliationFailed)
  }

  function ManifestOf(p: Proc): Manifest {
    Manifest(p.job.rejected != [], p.job.fetched, |p.plan.added|, |p.job.rejected|, p.plan.duplicates,
             p.written, MaxDate(p.job.accepted), |p.plan.pre|, p.post)
  }

  function StepPublish(w: World): (r: World)
    ensures r.disk == w.disk.(manifests := r.disk.manifests)
    ensures r.proc == w.proc.(phase := r.proc.phase)
    ensures r.proc.phase == Advancing || r.proc.phase == Done
  {
    var p := w.proc;
    World(w.disk.(manifests := w.disk.manifests[p.job.runId := ManifestOf(p)]),
          p.(phase := if p.job.incremental && p.job.accepted != [] then Advancing else Done))
  }

  /** `CheckpointStore.advance`: the date never moves back, the run id always changes. */
  function Advanced(current: Option<Checkpoint>, date: int, runId: string): Checkpoint {
    match current
    case Some(c) => Checkpoint(if c.date > date then c.date else date, runId)
    case None => Checkpoint(date, runId)
  }

  function CheckpointOf(d: Disk, source: string): Option<Checkpoint> {
    if source in d.checkpoints then Some(d.checkpoints[source]) else None
  }

  function StepAdvance(w: World): (r: World)
    ensures r.disk == w.disk.(checkpoints := r.disk.checkpoints)
    ensures r.proc == w.proc.(phase := Done)
  {
    var p := w.proc;
    match MaxDate(p.job.accepted)
    case None => To(w, Done)
    case Some(date) =>
      var c := Advanced(CheckpointOf(w.disk, p.job.source), date, p.job.runId);
      World(w.disk.(checkpoints := w.disk.checkpoints[p.job.source := c]), p.(phase := Done))
  }

  /** One step of a run. */
  ghost function Step(w: World): World {
    match w.proc.phase
    case Quarantining => StepQuarantine(w)
    case Reading => StepRead(w)
    case Staging(i) => if i < |w.proc.plan.months| then StepStage(w, i) else To(w, Promoting(0))
    case Promoting(i) => if i < |w.proc.plan.months| then StepPromote(w, i) else To(w, Rereading)
    case Rereading => StepReread(w)
    case Auditing => StepAudit(w)
    case Publishing => StepPublish(w)
    case Advancing => StepAdvance(w)
    case Done => w
    case Failed(_) => w
  }

  /** A run left alone for `k` steps. */
  ghost function Alone(w: World, k: nat): World {
    if k == 0 then w else Step(Alone(w, k - 1))
  }

  predicate Ended(p: Proc) {
    p.phase.Done? || p.phase.Failed?
  }

  predicate IsStaged(d: Disk, runId: string, plan: Plan, m: Month) {
    (runId, m) in d.staged && d.staged[(runId, m)] == InMonth(plan.added, m)
  }

  /** The planned files numbered `from` up to `upTo` are staged. */
  ghost predicate Ready(d: Disk, runId: string, plan: Plan, from: nat, upTo: nat) {
    forall j :: from <= j < upTo && j < |plan.months| ==> IsStaged(d, runId, plan, plan.months[j])
  }

  /** An upper bound on the steps a run still takes. */
  function Remaining(p: Proc): nat {
    match p.phase
    case Quarantining => 2 * |p.job.accepted| + 8
    case Reading => 2 * |p.job.accepted| + 7
    case Staging(i) => if i <= |p.plan.months| then 2 * |p.plan.months| - i + 6 else 6 + |p.plan.months|
    case Promoting(i) => if i <= |p.plan.months| then |p.plan.months| - i + 5 else 5
    case Rereading => 4
    case Auditing => 3
    case Publishing => 2
    case Advancing => 1
    case Done => 0
    case Failed(_) => 0
  }

  lemma {:induction false} AddedIsNoLonger(rows: seq<Row>, existing: map<Key, Canon>)
    requires Deduplicate(rows, existing).Deduplicated?
    ensures |Deduplicate(rows, existing).added| <= |rows|
  {
    if rows != [] {
      var r := rows[0];
      if r.Key() !in existing {
        AddedIsNoLonger(rows[1..], existing[r.Key() := r.canon]);
      } else {
        AddedIsNoLonger(rows[1..], existing);
      }
    }
  }

  lemma ReadShortens(w: World)
    requires w.proc.phase.Reading?
    ensures Remaining(StepRead(w).proc) < Remaining(w.proc)
  {
    hide Retained, Deduplicate, Months, TreeCanons;
    var r := Retained(TreeCanons(w.disk.tree));
    if r.Some? && Deduplicate(w.proc.job.accepted, r.value).Deduplicated? {
      AddedIsNoLonger(w.proc.job.accepted, r.value);
      MonthsOfRows(Deduplicate(w.proc.job.accepted, r.value).added);
    }
  }

  lemma StepShortens(w: World)
    requires !Ended(w.proc)
    ensures Remaining(Step(w).proc) < Remaining(w.proc)
  {
    hide StepRead, Retained, TreeCanons, InMonth, Accounting, ManifestOf, MaxDate, Safe;
    match w.proc.phase {
      case Reading => ReadShortens(w);
      case Staging(i) =>
        if i < |w.proc.plan.months| {
          assert Step(w) == StepStage(w, i);
        }
      case Promoting(i) =>
        if i < |w.proc.plan.months| {
          assert Step(w) == StepPromote(w, i);
        }
      case _ =>
    }
  }

  lemma EndedRunsStay(w: World)
    requires Ended(w.proc)
    ensures Step(w) == w
  {
  }

  lemma {:induction false} RemainingAfter(w: World, k: nat)
    ensures Ended(Alone(w, k).proc) || Remaining(Alone(w, k).proc) + k <= Remaining(w.proc)
  {
    hide Step;
    if k > 0 {
      RemainingAfter(w, k - 1);
      var u := Alone(w, k - 1);
      assert Alone(w, k) == Step(u);
      if Ended(u.proc) {
        EndedRunsStay(u);
      } else {
        StepShortens(u);
      }
    }
  }

  /** A run left alone always comes to an end. */
  lemma RunsEnd(w: World, k: nat)
    requires k >= Remaining(w.proc)
    ensures Ended(Alone(w, k).proc)
  {
    RemainingAfter(w, k);
  }

  // ----- Artifacts are immutable -----

  /** Only a promotion writes to the lake. */
  lemma OnlyPromotionsWrite(w: World)
    requires !(w.proc.phase.Promoting? && w.proc.phase.next < |w.proc.plan.months|)
    ensures Step(w).disk.tree == w.disk.tree
  {
    hide StepQuarantine, StepRead, StepStage, StepReread, StepAudit, StepPublish, StepAdvance;
    match w.proc.phase {
      case Quarantining => assert Step(w) == StepQuarantine(w);
      case Reading => assert Step(w) == StepRead(w);
      case Staging(i) => if i < |w.proc.plan.months| { assert Step(w) == StepStage(w, i); }
      case Promoting(i) =>
      case Rereading => assert Step(w) == StepReread(w);
      case Auditing => assert Step(w) == StepAudit(w);
      case Publishing => assert Step(w) == StepPublish(w);
      case Advancing => assert Step(w) == StepAdvance(w);
      case _ =>
    }
  }

  lemma PromotionAddsAFile(w: World, i: nat, m: Month, n: Name)
    requires i < |w.proc.plan.months| && Exists(w.disk.tree, m, n)
    ensures Exists(StepPromote(w, i).disk.tree, m, n) && StepPromote(w, i).disk.tree[m][n] == w.disk.tree[m][n]
  {
  }

  /** No step of any run, whatever its id, changes or removes a file of the lake. */
  lemma ArtifactsAreImmutable(w: World, m: Month, n: Name)
    requires Exists(w.disk.tree, m, n)
    ensures Exists(Step(w).disk.tree, m, n) && Step(w).disk.tree[m][n] == w.disk.tree[m][n]
  {
    if w.proc.phase.Promoting? && w.proc.phase.next < |w.proc.plan.months| {
      PromotionAddsAFile(w, w.proc.phase.next, m, n);
      hide StepPromote;
      assert Step(w) == StepPromote(w, w.proc.phase.next);
    } else {
      hide Step;
      OnlyPromotionsWrite(w);
    }
  }

  /** None of the first `upTo` planned months has an artifact of the run. */
  ghost predicate FreeMonths(t: Tree, p: Proc, upTo: nat) {
    forall j :: 0 <= j < upTo && j < |p.plan.months| ==> !Exists(t, p.plan.months[j], Part(p.job.runId))
  }

  /** A run gets to its promotions only when no planned month had an artifact of its id. */
  ghost predicate Careful(t0: Tree, w: World) {
    match w.proc.phase
    case Quarantining => w.disk.tree == t0
    case Reading => w.disk.tree == t0
    case Staging(i) => w.disk.tree == t0 && FreeMonths(t0, w.proc, i)
    case Failed(_) => w.disk.tree == t0 || FreeMonths(t0, w.proc, |w.proc.plan.months|)
    case _ => FreeMonths(t0, w.proc, |w.proc.plan.months|)
  }

  lemma CarefulStaging(t0: Tree, w: World, i: nat)
    requires Careful(t0, w) && w.proc.phase == Staging(i)
    ensures Careful(t0, Step(w))
  {
    hide InMonth;
    if i < |w.proc.plan.months| {
      assert Step(w) == StepStage(w, i);
    }
  }

  lemma LaterIsCareful(t0: Tree, w: World)
    requires Careful(t0, w) && !w.proc.phase.Staging? && !w.proc.phase.Quarantining? && !w.proc.phase.Reading?
    ensures Careful(t0, Step(w))
  {
    hide StepPromote, StepReread, StepAudit, StepPublish, StepAdvance, FreeMonths;
    assert FreeMonths(t0, w.proc, |w.proc.plan.months|) ==>
      FreeMonths(t0, Step(w).proc, |Step(w).proc.plan.months|) by { SamePlan(w, t0); }
    match w.proc.phase {
      case Promoting(i) => if i < |w.proc.plan.months| { assert Step(w) == StepPromote(w, i); }
      case Rereading => assert Step(w) == StepReread(w);
      case Auditing => assert Step(w) == StepAudit(w);
      case Publishing => assert Step(w) == StepPublish(w);
      case Advancing => assert Step(w) == StepAdvance(w);
      case _ =>
    }
  }

  /** From its promotions on a run keeps its plan. */
  lemma SamePlan(w: World, t0: Tree)
    requires !w.proc.phase.Reading?
    ensures Step(w).proc.plan == w.proc.plan && Step(w).proc.job == w.proc.job
    ensures FreeMonths(t0, w.proc, |w.proc.plan.months|) ==> FreeMonths(t0, Step(w).proc, |w.proc.plan.months|)
  {
    hide StepQuarantine, StepStage, StepPromote, StepReread, StepAudit, StepPublish, StepAdvance;
    match w.proc.phase {
      case Quarantining => assert Step(w) == StepQuarantine(w);
      case Staging(i) => if i < |w.proc.plan.months| { assert Step(w) == StepStage(w, i); }
      case Promoting(i) => if i < |w.proc.plan.months| { assert Step(w) == StepPromote(w, i); }
      case Rereading => assert Step(w) == StepReread(w);
      case Auditing => assert Step(w) == StepAudit(w);
      case Publishing => assert Step(w) == StepPublish(w);
      case Advancing => assert Step(w) == StepAdvance(w);
      case _ =>
    }
  }

  lemma CarefulStep(t0: Tree, w: World)
    requires Careful(t0, w)
    ensures Careful(t0, Step(w))
  {
    hide StepQuarantine, StepRead, StepStage, StepPromote, StepReread, StepAudit, StepPublish, StepAdvance;
    match w.proc.phase {
      case Quarantining => assert Step(w) == StepQuarantine(w);
      case Reading => assert Step(w) == StepRead(w);
      case Staging(i) => CarefulStaging(t0, w, i);
      case _ => LaterIsCareful(t0, w);
    }
  }

  lemma {:induction false} CarefulThroughout(d: Disk, job: Job, k: nat)
    ensures Careful(d.tree, Alone(World(d, Start(job)), k))
  {
    hide Step, Careful;
    if k == 0 {
      CarefulAtFirst(d, job);
    } else {
      CarefulThroughout(d, job, k - 1);
      CarefulStep(d.tree, Alone(World(d, Start(job)), k - 1));
    }
  }

  lemma CarefulAtFirst(d: Disk, job: Job)
    ensures Alone(World(d, Start(job)), 0) == World(d, Start(job)) && Careful(d.tree, World(d, Start(job)))
  {
  }

  /** A run whose id already names an artifact of a month it plans to write changes no file: it has at most
      staged something, and left alone it fails. */
  lemma ReusedRunIdChangesNothing(d: Disk, job: Job, k: nat, m: Month)
    requires var w := Alone(World(d, Start(job)), k); m in w.proc.plan.months && Exists(d.tree, m, Part(w.proc.job.runId))
    ensures Alone(World(d, Start(job)), k).disk.tree == d.tree
    ensures k >= Remaining(Start(job)) ==> Alone(World(d, Start(job)), k).proc.phase.Failed?
  {
    hide Alone, Step;
    CarefulThroughout(d, job, k);
    var w := Alone(World(d, Start(job)), k);
    var j :| 0 <= j < |w.proc.plan.months| && w.proc.plan.months[j] == m;
    if k >= Remaining(Start(job)) {
      RunsEnd(World(d, Start(job)), k);
    }
  }
}
