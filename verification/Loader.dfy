/** The entry points of ingestion: the checkpoint-driven run and the explicitly bounded backfill. */
module Loader {
  import opened Rows
  import opened Contracts
  import opened Backfill
  import opened Incremental
  import opened LakeStore
  import opened Datasets
  import opened Agreement

  datatype Outcome =
    | BadWindow(window: WindowResult)
    | BadRunId
    | NothingToLoad(absent: set<string>)
    | Ran(fetchFrom: int, through: int, error: Option<Error>)


  /** Enrich and validate a selection, and turn the verdict into a job. */
  method PrepareJob(c: Contract, selected: seq<Record>, source: string, now: Raw, runId: string, incremental: bool)
    returns (absent: set<string>, job: Job)
    requires WellFormed(c)
    ensures absent == Absent(c, EnrichAll(c, selected, source, now))
    ensures absent == {} ==>
      var offered := EnrichAll(c, selected, source, now);
      && job.runId == runId && job.source == source && job.incremental == incremental
      && job.fetched == |offered| && job.accepted == RowsOf(c, Accepted(c, offered, source))
      && Payloads(job.rejected) == Rejected(c, offered, source)
  {
    hide Enrich, Valid;
    var offered := EnrichAll(c, selected, source, now);
    var verdict := Validate(c, offered, source);
    match verdict {
      case MissingRequiredField(names) =>
        absent, job := names, Job(runId, source, |offered|, [], [], incremental);
      case Validated(accepted, rejected) =>
        absent, job := {}, Job(runId, source, |offered|, RowsOf(c, accepted), rejected, incremental);
    }
  }

  /** One selection carried through the lake, unless it is refused before anything is written. */
  method Load(
    lake: RawLake, c: Contract, records: seq<Record>, start: int, end: int, source: string, now: Raw,
    runId: string, incremental: bool, budget: nat)
    returns (outcome: Outcome, job: Job, ghost p: Proc)
    requires WellFormed(c)
    modifies lake`tree, lake`staged, lake`quarantine, lake`audits, lake`manifests, lake`checkpoints
    ensures outcome == (
      var absent := Absent(c, EnrichAll(c, Select(c, records, {(start, end)}), source, now));
      if !ValidRunId(runId) then BadRunId
      else if absent != {} then NothingToLoad(absent)
      else Ran(start, end, if p.phase.Failed? then Some(p.phase.error) else None))
    ensures !outcome.Ran? ==> lake.View() == old(lake.View())
    ensures outcome.Ran? ==>
      && JobFor(c, records, {(start, end)}, source, now, job) && job.runId == runId && job.incremental == incremental
      && World(lake.View(), p) == Alone(World(old(lake.View()), Start(job)), budget)
    ensures !incremental ==> lake.checkpoints == old(lake.checkpoints)
  {
    hide Alone, Enrich, Valid, Select, Absent, Accepted, Rejected;
    var selected := SelectRange(c, records, start, end);
    var absent;
    absent, job := PrepareJob(c, selected, source, now, runId, incremental);
    p := Start(job);
    if !ValidRunId(runId) {
      return BadRunId, job, p;
    }
    if absent != {} {
      return NothingToLoad(absent), job, p;
    }
    var error;
    error, p := lake.RunBackfill(job, budget);
    outcome := Ran(start, end, error);
  }

  /** `run_incremental`: the window follows the checkpoint, and a finished run moves it. */
  method RunIncremental(
    lake: RawLake, c: Contract, records: seq<Record>, source: string, initialStart: Option<int>, through: int,
    overlap: int, now: Raw, runId: string, budget: nat)
    returns (outcome: Outcome, job: Job, ghost p: Proc)
    requires WellFormed(c)
    modifies lake`tree, lake`staged, lake`quarantine, lake`audits, lake`manifests, lake`checkpoints
    ensures var w := FetchWindow(WatermarkOf(old(lake.checkpoints), source), initialStart, through, overlap);
      && (outcome.BadWindow? <==> !w.Window?)
      && (outcome.BadWindow? ==> outcome.window == w)
      && (outcome.Ran? ==>
            && outcome.fetchFrom == w.fetchFrom && outcome.through == w.through
            && JobFor(c, records, {(w.fetchFrom, w.through)}, source, now, job) && job.incremental && job.runId == runId
            && World(lake.View(), p) == Alone(World(old(lake.View()), Start(job)), budget))
    ensures !outcome.Ran? ==> lake.View() == old(lake.View())
  {
    hide Alone, JobFor, Select, Absent;
    var checkpoint := WatermarkOf(lake.checkpoints, source);
    var w := FetchWindow(checkpoint, initialStart, through, overlap);
    if !w.Window? {
      outcome, job := BadWindow(w), Job(runId, source, 0, [], [], true);
      p := Start(job);
      return;
    }
    outcome, job, p := Load(lake, c, records, w.fetchFrom, w.through, source, now, runId, true, budget);
  }

  /** `execute_backfill`: an explicit range; the checkpoint is not touched, whatever happens. */
  method ExecuteBackfill(
    lake: RawLake, c: Contract, records: seq<Record>, start: int, end: int, source: string, now: Raw,
    runId: string, budget: nat)
    returns (outcome: Outcome, job: Job, ghost p: Proc)
    requires WellFormed(c)
    modifies lake`tree, lake`staged, lake`quarantine, lake`audits, lake`manifests, lake`checkpoints
    ensures lake.checkpoints == old(lake.checkpoints)
    ensures outcome.BadWindow? <==> end < start
    ensures !outcome.Ran? ==> lake.View() == old(lake.View())
    ensures outcome.Ran? ==>
      && JobFor(c, records, {(start, end)}, source, now, job) && !job.incremental && job.runId == runId
      && World(lake.View(), p) == Alone(World(old(lake.View()), Start(job)), budget)
  {
    hide Alone, JobFor, Select, Absent;
    if end < start {
      outcome, job := BadWindow(ThroughBeforeStart), Job(runId, source, 0, [], [], false);
      p := Start(job);
      return;
    }
    outcome, job, p := Load(lake, c, records, start, end, source, now, runId, false, budget);
  }

  function WatermarkOf(checkpoints: map<string, Checkpoint>, source: string): Option<int> {
    if source in checkpoints then Some(checkpoints[source].date) else None
  }

  /** What an incremental run that ended in success did to the watermark: it moved to the latest
      accepted date unless it was there or later already, and that date lies in the run's window. */
  lemma FinishedRunMovesTheWatermark(
    c: Contract, records: seq<Record>, start: int, end: int, source: string, now: Raw, job: Job, d: Disk, k: nat)
    requires WellFormed(c) && JobFor(c, records, {(start, end)}, source, now, job) && job.incremental
    requires Alone(World(d, Start(job)), k).proc.phase.Done?
    ensures var e := Alone(World(d, Start(job)), k).disk;
      match MaxDate(job.accepted)
      case None => e.checkpoints == d.checkpoints
      case Some(date) =>
        && start <= date <= end
        && e.checkpoints == d.checkpoints[source := Advanced(CheckpointOf(d, source), date, job.runId)]
  {
    hide Alone, Step, Batch, MaxDate, Advanced;
    CheckpointsWhileRunning(World(d, Start(job)), k);
    JobIsBatch(c, records, {(start, end)}, source, now, job);
    if MaxDate(job.accepted).Some? {
      LatestDateIsInTheWindow(c, records, start, end, source, now);
    }
  }

  lemma JobIsBatch(c: Contract, records: seq<Record>, windows: set<(int, int)>, source: string, now: Raw, job: Job)
    requires WellFormed(c) && JobFor(c, records, windows, source, now, job)
    ensures job.source == source && job.accepted == Batch(c, records, windows, source, now)
  {
    hide Batch, WellFormed;
  }

  /** The premise under which concurrent runs agree without any other holds of every run over prices. */
  lemma PriceRunsFixMonths(
    p: Parsers, stableId: Record -> string, records: seq<Record>, windows: set<(int, int)>, source: string, now: Raw, job: Job)
    requires WellFormed(Prices(p, stableId)) && JobFor(Prices(p, stableId), records, windows, source, now, job)
    ensures KeysFixMonths(PriceMonth, job)
  {
    hide CanonOf, Prices, PriceMonth;
    var c := Prices(p, stableId);
    var a := Accepted(c, EnrichAll(c, Select(c, records, windows), source, now), source);
    assert job.accepted == RowsOf(c, a);
    forall v | v in Canons(job.accepted) ensures MonthOf(v) == PriceMonth(v.key) {
      var i :| 0 <= i < |job.accepted| && job.accepted[i].canon == v;
      PriceKeysFixMonths(p, stableId, a[i]);
    }
  }

  /** The checkpoints of `d` with the run's own moved, as the run leaves them. */
  ghost function Moved(d: Disk, job: Job): map<string, Checkpoint> {
    match MaxDate(job.accepted)
    case None => d.checkpoints
    case Some(date) => d.checkpoints[job.source := Advanced(CheckpointOf(d, job.source), date, job.runId)]
  }

  /** A run alone touches the checkpoints in its last action only. */
  lemma {:induction false} CheckpointsWhileRunning(w: World, k: nat)
    requires w.proc.phase.Quarantining? && w.proc.job.incremental
    ensures var u := Alone(w, k);
      && u.proc.job == w.proc.job
      && u.disk.checkpoints == (if u.proc.phase.Done? then Moved(w.disk, w.proc.job) else w.disk.checkpoints)
      && (u.proc.phase.Advancing? ==> w.proc.job.accepted != [])
  {
    hide Step, Moved, MaxDate;
    AloneNone(w);
    if k > 0 {
      CheckpointsWhileRunning(w, k - 1);
      AloneStep(w, k - 1);
      CheckpointStep(Alone(w, k - 1), w.disk);
    }
  }

  lemma CheckpointStep(u: World, d: Disk)
    requires u.proc.job.incremental
    requires u.disk.checkpoints == if u.proc.phase.Done? then Moved(d, u.proc.job) else d.checkpoints
    ensures Step(u).proc.job == u.proc.job
    ensures Step(u).disk.checkpoints == if Step(u).proc.phase.Done? then Moved(d, u.proc.job) else d.checkpoints
    ensures Step(u).proc.phase.Advancing? && !u.proc.phase.Advancing? ==> u.proc.job.accepted != []
  {
    hide Step, MaxDate, Moved, StepPublish, StepAdvance, ManifestOf;
    if u.proc.phase.Publishing? {
      PublishStep(u);
      NothingMoved(d, u.proc.job);
    } else if u.proc.phase.Advancing? {
      AdvancingStep(u, d);
    } else {
      OtherStep(u);
    }
  }

  lemma NothingMoved(d: Disk, job: Job)
    ensures job.accepted == [] ==> Moved(d, job) == d.checkpoints
  {
    hide MaxDate;
    NoDateNoRows(job.accepted);
  }

  lemma AdvancingStep(u: World, d: Disk)
    requires u.proc.phase.Advancing? && u.disk.checkpoints == d.checkpoints
    ensures Step(u).proc == u.proc.(phase := Done) && Step(u).disk.checkpoints == Moved(d, u.proc.job)
  {
    hide MaxDate, Advanced;
    assert Step(u) == StepAdvance(u);
  }

  /** Every other action leaves the checkpoints and the job alone. */
  lemma OtherStep(u: World)
    requires !u.proc.phase.Publishing? && !u.proc.phase.Advancing?
    ensures Step(u).proc.job == u.proc.job && Step(u).disk.checkpoints == u.disk.checkpoints
    ensures !Step(u).proc.phase.Advancing? && (Step(u).proc.phase.Done? <==> u.proc.phase.Done?)
  {
    hide StepQuarantine, StepRead, StepStage, StepPromote, StepReread, StepAudit;
    match u.proc.phase {
      case Quarantining => assert Step(u) == StepQuarantine(u);
      case Reading => assert Step(u) == StepRead(u);
      case Staging(i) => if i < |u.proc.plan.months| { assert Step(u) == StepStage(u, i); }
      case Promoting(i) => if i < |u.proc.plan.months| { assert Step(u) == StepPromote(u, i); }
      case Rereading => assert Step(u) == StepReread(u);
      case Auditing => assert Step(u) == StepAudit(u);
      case _ =>
    }
  }
}
