/** The ingestion watermark: one checkpoint per source, moved only by finished incremental runs. */
module Checkpoints {
  import opened Rows
  import opened Backfill
  import opened Compaction
  import opened Warehouse

  /** The checkpoint table; each call is one transaction. */
  class CheckpointStore {
    var rows: map<string, Checkpoint>

    constructor ()
      ensures rows == map[]
    {
      rows := map[];
    }

    function Get(source: string): (c: Option<Checkpoint>)
      reads this
      ensures c.Some? <==> source in rows
      ensures c.Some? ==> c.value == rows[source]
    {
      if source in rows then Some(rows[source]) else None
    }

    /** The stored date is the later of the two; the run id is always the caller's; no other
        source is touched. */
    method Advance(source: string, date: int, runId: string) returns (c: Checkpoint)
      modifies this
      ensures rows == old(rows)[source := c]
      ensures c == Advanced(old(Get(source)), date, runId)
      ensures c.date >= date && c.runId == runId
      ensures source in old(rows) ==> c.date >= old(rows)[source].date
      ensures c.date == date || (source in old(rows) && c.date == old(rows)[source].date)
    {
      var eventDate := date;
      if source in rows && rows[source].date > eventDate {
        eventDate := rows[source].date;
      }
      c := Checkpoint(eventDate, runId);
      rows := rows[source := c];
    }
  }

  /** Advancing is idempotent and insensitive to order, up to the run id it remembers. */
  lemma AdvanceTwice(current: Option<Checkpoint>, a: int, b: int, r: string, q: string)
    ensures Advanced(Some(Advanced(current, a, r)), b, q).date == Advanced(Some(Advanced(current, b, q)), a, r).date
    ensures Advanced(Some(Advanced(current, a, r)), a, r) == Advanced(current, a, r)
  {
  }

  // ----- Soundness over every history -----

  /** Some held record of `source` has this event date. */
  ghost predicate Witnessed(d: Disk, source: string, date: int) {
    exists v :: Holds(d, v) && v.source == source && v.date.ordinal == date
  }

  ghost predicate CheckpointOk(d: Disk, source: string, c: Checkpoint) {
    c.runId in d.manifests && Witnessed(d, source, c.date)
  }

  ghost predicate CheckpointsOk(d: Disk) {
    forall source :: source in d.checkpoints ==> CheckpointOk(d, source, d.checkpoints[source])
  }

  /** No checkpoint disappears or moves back. */
  ghost predicate NeverBack(d: Disk, e: Disk) {
    forall source :: source in d.checkpoints ==>
      source in e.checkpoints && e.checkpoints[source].date >= d.checkpoints[source].date
  }

  lemma CheckpointSurvives(d: Disk, e: Disk, source: string, c: Checkpoint)
    requires CheckpointOk(d, source, c) && Grows(d, e)
    ensures CheckpointOk(e, source, c)
  {
    hide Holds;
  }

  lemma CheckpointsSurvive(d: Disk, e: Disk)
    requires CheckpointsOk(d) && Grows(d, e) && e.checkpoints == d.checkpoints
    ensures CheckpointsOk(e) && NeverBack(d, e)
  {
    hide Holds, CheckpointOk, Grows;
    forall source | source in e.checkpoints ensures CheckpointOk(e, source, e.checkpoints[source]) {
      CheckpointSurvives(d, e, source, d.checkpoints[source]);
    }
  }

  lemma OnlyAdvancingMovesCheckpoints(w: World)
    requires !w.proc.phase.Advancing?
    ensures Step(w).disk.checkpoints == w.disk.checkpoints
  {
    hide StepQuarantine, StepRead, StepStage, StepPromote, StepReread, StepAudit, StepPublish;
    match w.proc.phase {
      case Quarantining => assert Step(w) == StepQuarantine(w);
      case Reading => assert Step(w) == StepRead(w);
      case Rereading => assert Step(w) == StepReread(w);
      case Auditing => assert Step(w) == StepAudit(w);
      case Publishing => assert Step(w) == StepPublish(w);
      case _ =>
    }
  }

  /** The latest accepted date is the event date of a record the lake holds by then. */
  lemma LatestDateIsWitnessed(d: Disk, p: Proc)
    requires RunOk(d, p) && p.phase.Advancing? && MaxDate(p.job.accepted).Some?
    ensures Witnessed(d, p.job.source, MaxDate(p.job.accepted).value)
  {
    hide Holds, Months, DistinctKeys;
    MaxDateIsReached(p.job.accepted);
    var i :| 0 <= i < |p.job.accepted| && p.job.accepted[i].canon.date.ordinal == MaxDate(p.job.accepted).value;
    var v := p.job.accepted[i].canon;
    assert v in Canons(p.job.accepted);
    if v !in Canons(p.plan.added) {
      assert v in p.plan.pre.Values;
    }
    assert Holds(d, v);
  }

  lemma AdvancingIsSound(w: World)
    requires RunOk(w.disk, w.proc) && w.proc.phase.Advancing? && CheckpointsOk(w.disk)
    ensures CheckpointsOk(Step(w).disk) && NeverBack(w.disk, Step(w).disk)
  {
    hide RunOk, Witnessed, MaxDate, Grows;
    var d, e, p := w.disk, Step(w).disk, w.proc;
    OwnStepIsOk(w);
    ManifestIsThere(d, p);
    assert Step(w) == StepAdvance(w);
    if MaxDate(p.job.accepted).Some? {
      LatestDateIsWitnessed(d, p);
      var c := Advanced(CheckpointOf(d, p.job.source), MaxDate(p.job.accepted).value, p.job.runId);
      assert CheckpointOk(d, p.job.source, c);
      assert e.checkpoints == d.checkpoints[p.job.source := c];
    }
    forall source | source in e.checkpoints ensures CheckpointOk(e, source, e.checkpoints[source]) {
      CheckpointSurvives(d, e, source, e.checkpoints[source]);
    }
  }

  lemma ManifestIsThere(d: Disk, p: Proc)
    requires RunOk(d, p) && p.phase.Advancing?
    ensures p.job.runId in d.manifests
  {
    hide PlanOk, AllHeld, JobOk;
  }

  lemma NextKeepsCheckpoints(s: State, a: Action, t: State)
    requires Inv(s) && Next(s, a, t) && Clean(s, a) && CheckpointsOk(s.disk)
    ensures CheckpointsOk(t.disk) && NeverBack(s.disk, t.disk)
  {
    hide CheckpointsOk, NeverBack, Step, Grows, CompactorsInv, LocksInv, RunOk;
    NextKeepsInv(s, a, t);
    if a.RunStep? && s.runs[a.run].phase.Advancing? {
      AdvancingIsSound(WorldOf(s, a.run));
    } else {
      CheckpointsUntouched(s, a, t);
      CheckpointsSurvive(s.disk, t.disk);
    }
  }

  lemma CheckpointsUntouched(s: State, a: Action, t: State)
    requires CompactorsInv(s) && Next(s, a, t)
    requires !(a.RunStep? && s.runs[a.run].phase.Advancing?)
    ensures t.disk.checkpoints == s.disk.checkpoints
  {
    hide Step, Steps, Raises, CompactorOk;
    match a {
      case RunStep(r) => OnlyAdvancingMovesCheckpoints(WorldOf(s, r));
      case CompactionStep(id) =>
        var u :| Steps(SiteOf(s, id), u) && t == WithSite(s, id, u);
        CompactionStepFootprint(SiteOf(s, id), u);
      case CompactionRaises(id) =>
        var u :| Raises(SiteOf(s, id), u) && t == WithSite(s, id, u);
        CompactionStepFootprint(SiteOf(s, id), u);
      case _ =>
    }
  }

  /** In every reachable state a checkpoint is the event date of a record of its source that the
      lake holds, its run has a manifest, ... */
  lemma {:induction false} CheckpointsAreSound(states: seq<State>, actions: seq<Action>, i: nat)
    requires CleanBehavior(states, actions) && i < |states|
    ensures CheckpointsOk(states[i].disk)
  {
    hide Next, Clean, Inv, CheckpointOk;
    if i > 0 {
      CheckpointsAreSound(states, actions, i - 1);
      InvHolds(states, actions, i - 1);
      NextKeepsCheckpoints(states[i - 1], actions[i - 1], states[i]);
    }
  }

  /** ... and it never moves back. */
  lemma {:induction false} CheckpointsNeverMoveBack(states: seq<State>, actions: seq<Action>, i: nat, j: nat)
    requires CleanBehavior(states, actions) && i <= j < |states|
    ensures NeverBack(states[i].disk, states[j].disk)
  {
    hide Next, Clean, Inv, CheckpointsOk;
    if i < j {
      CheckpointsNeverMoveBack(states, actions, i, j - 1);
      CheckpointsAreSound(states, actions, j - 1);
      InvHolds(states, actions, j - 1);
      NextKeepsCheckpoints(states[j - 1], actions[j - 1], states[j]);
    }
  }

  /** With no partition parked, the witness is in the view a reader gets. */
  lemma CheckpointIsVisible(states: seq<State>, actions: seq<Action>, i: nat, source: string)
    requires CleanBehavior(states, actions) && i < |states|
    requires source in states[i].disk.checkpoints && NothingParked(states[i].disk)
    ensures exists v :: v in TreeCanons(states[i].disk.tree) && v.source == source
                     && v.date.ordinal == states[i].disk.checkpoints[source].date
  {
    hide CleanBehavior, Holds, NothingParked, TreeCanons;
    CheckpointsAreSound(states, actions, i);
    var d := states[i].disk;
    assert CheckpointOk(d, source, d.checkpoints[source]);
    var v :| Holds(d, v) && v.source == source && v.date.ordinal == d.checkpoints[source].date;
    HeldIsVisible(d, v);
  }
}
