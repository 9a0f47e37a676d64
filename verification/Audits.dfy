/** What the reconciliation audits and the quarantine files on disk say, in every history. */
module Audits {
  import opened Rows
  import opened Dedup
  import opened Contracts
  import opened Backfill
  import opened Compaction
  import opened Warehouse
  import opened Placement

  // ----- Audits -----

  predicate PastAuditing(phase: Phase) {
    phase.Publishing? || phase.Advancing? || phase.Done? || phase.Failed?
  }

  /** The audit counts what its run fetched, quarantined, added and found again, and the rows it saw before
      and after; it passed exactly when the run may publish. */
  ghost predicate AuditIsTrue(a: Reconciliation, p: Proc) {
    && a.fetched == p.job.fetched && a.rejected == |p.job.rejected|
    && a.accepted == |p.plan.added| && a.written == |p.plan.added| && a.deduplicated == |p.job.accepted| - |p.plan.added|
    && a.preWriteRows == |p.plan.pre| && a.postWriteRows == p.post
    && a.expectedDelta == |p.plan.added| && a.actualDelta == p.post - |p.plan.pre|
    && a.fetched == a.accepted + a.rejected + a.deduplicated
    && (a.passed <==> a.postWriteRows == a.preWriteRows + a.accepted)
    && (a.passed <==> a.discrepancies == []) && (!a.passed ==> a.discrepancies == [DeltaMismatch])
  }

  /** Every audit is that of its run, and every run that got a verdict has one. */
  ghost predicate AuditsOk(s: State) {
    && (forall r :: r in s.disk.audits ==>
          r in s.runs && PastAuditing(s.runs[r].phase) && AuditIsTrue(s.disk.audits[r], s.runs[r]))
    && (forall r :: r in s.runs ==> Verdict(s.disk, r, s.runs[r]))
  }

  ghost predicate Verdict(d: Disk, r: string, p: Proc) {
    && (p.phase.Publishing? || p.phase.Advancing? || p.phase.Done? ==> r in d.audits && d.audits[r].passed)
    && (p.phase == Failed(ReconciliationFailed) ==> r in d.audits && !d.audits[r].passed)
  }

  lemma AuditOfRun(d: Disk, p: Proc)
    requires RunOk(d, p) && p.phase.Auditing?
    ensures AuditIsTrue(Accounting(p), p)
  {
    hide Holds, Months, DistinctKeys;
  }

  /** Only the audit step writes an audit, its own, and whether it passed or not; nothing else decides. */
  lemma AuditStep(w: World)
    ensures w.proc.phase.Auditing? ==>
      var t := Step(w);
      && t.proc == w.proc.(phase := t.proc.phase) && t.disk.audits == w.disk.audits[w.proc.job.runId := Accounting(w.proc)]
      && t.proc.phase == if Accounting(w.proc).passed then Publishing else Failed(ReconciliationFailed)
    ensures !w.proc.phase.Auditing? ==>
      && Step(w).disk.audits == w.disk.audits
      && (Step(w).proc.phase.Publishing? || Step(w).proc.phase.Advancing? || Step(w).proc.phase.Done? ==>
            w.proc.phase.Publishing? || w.proc.phase.Advancing? || w.proc.phase.Done?)
      && (Step(w).proc.phase == Failed(ReconciliationFailed) ==> w.proc.phase == Failed(ReconciliationFailed))
    ensures PastAuditing(w.proc.phase) ==> Step(w).proc == w.proc.(phase := Step(w).proc.phase) && PastAuditing(Step(w).proc.phase)
  {
    hide StepQuarantine, StepRead, StepStage, StepPromote, StepReread, StepPublish, StepAdvance, Accounting;
    match w.proc.phase {
      case Quarantining => assert Step(w) == StepQuarantine(w);
      case Reading => assert Step(w) == StepRead(w);
      case Rereading => assert Step(w) == StepReread(w);
      case Auditing => assert Step(w) == StepAudit(w);
      case Publishing => assert Step(w) == StepPublish(w);
      case Advancing => assert Step(w) == StepAdvance(w);
      case _ =>
    }
  }

  lemma RunIs(s: State, r: string)
    requires Inv(s) && r in s.runs
    ensures RunOk(s.disk, s.runs[r]) && s.runs[r].job.runId == r
  {
    hide RunOk, CompactorsInv, LocksInv;
  }

  /** The run's own audit and verdict after its step. */
  lemma OwnAudit(d: Disk, p: Proc)
    requires RunOk(d, p) && Verdict(d, p.job.runId, p)
    requires p.job.runId in d.audits ==> PastAuditing(p.phase) && AuditIsTrue(d.audits[p.job.runId], p)
    ensures var t, r := Step(World(d, p)), p.job.runId;
      && Verdict(t.disk, r, t.proc)
      && (r in t.disk.audits ==> PastAuditing(t.proc.phase) && AuditIsTrue(t.disk.audits[r], t.proc))
      && forall q :: q != r ==> (q in t.disk.audits <==> q in d.audits) && (q in d.audits ==> t.disk.audits[q] == d.audits[q])
  {
    hide Step, Accounting, AuditIsTrue, RunOk;
    var w := World(d, p);
    AuditStep(w);
    if p.phase.Auditing? {
      AuditOfRun(d, p);
      SameAudit(Accounting(p), p, Step(w).proc);
    } else if p.job.runId in d.audits {
      SameAudit(d.audits[p.job.runId], p, Step(w).proc);
    }
  }

  lemma RunKeepsAudits(s: State, r: string)
    requires Inv(s) && AuditsOk(s) && r in s.runs
    ensures AuditsOk(WithWorld(s, r, Step(WorldOf(s, r))))
  {
    hide Step, AuditIsTrue, Inv, RunOk, PastAuditing;
    RunIs(s, r);
    OwnAudit(s.disk, s.runs[r]);
  }

  lemma SameAudit(a: Reconciliation, p: Proc, q: Proc)
    requires AuditIsTrue(a, p) && q == p.(phase := q.phase)
    ensures AuditIsTrue(a, q)
  {
  }

  /** Nothing but a run's own step touches the audits or makes a verdict. */
  lemma OthersKeepAudits(s: State, a: Action, t: State)
    requires Inv(s) && Next(s, a, t) && !a.RunStep? && AuditsOk(s)
    ensures AuditsOk(t)
  {
    hide AuditIsTrue, Inv, Next;
    OthersKeepFiles(s, a, t);
    RunsOfOthers(s, a, t);
    forall r | r in t.runs ensures Verdict(t.disk, r, t.runs[r]) {
    }
    forall r | r in t.disk.audits
      ensures r in t.runs && PastAuditing(t.runs[r].phase) && AuditIsTrue(t.disk.audits[r], t.runs[r])
    {
      SameAuditIfAny(s, r, t.runs[r]);
    }
  }

  /** Other actions start a run or kill one; ended or not, a killed run keeps everything but its phase. */
  lemma RunsOfOthers(s: State, a: Action, t: State)
    requires Next(s, a, t) && !a.RunStep?
    ensures forall r :: r in s.runs ==> r in t.runs && t.runs[r] == s.runs[r].(phase := t.runs[r].phase)
    ensures forall r :: r in s.runs ==> t.runs[r] == s.runs[r] || t.runs[r].phase == Failed(Killed)
    ensures forall r :: r in t.runs && r !in s.runs ==> t.runs[r].phase.Quarantining?
  {
    hide Steps, Raises;
  }

  lemma SameAuditIfAny(s: State, r: string, q: Proc)
    requires AuditsOk(s) && r in s.runs && q == s.runs[r].(phase := q.phase)
    ensures r in s.disk.audits ==> AuditIsTrue(s.disk.audits[r], q)
  {
    hide AuditIsTrue;
    if r in s.disk.audits {
      SameAudit(s.disk.audits[r], s.runs[r], q);
    }
  }

  lemma OthersKeepFiles(s: State, a: Action, t: State)
    requires Inv(s) && Next(s, a, t) && !a.RunStep?
    ensures t.disk.audits == s.disk.audits && t.disk.quarantine == s.disk.quarantine
  {
    hide Steps, Raises, RunsInv, LocksInv, CompactorOk, DirOf, LockMoves;
    match a {
      case CompactionStep(id) =>
        var u :| Steps(SiteOf(s, id), u) && t == WithSite(s, id, u);
        CompactionStepFootprint(SiteOf(s, id), u);
      case CompactionRaises(id) =>
        var u :| Raises(SiteOf(s, id), u) && t == WithSite(s, id, u);
        CompactionStepFootprint(SiteOf(s, id), u);
      case _ =>
    }
  }

  lemma {:induction false} EveryAuditIsTrue(states: seq<State>, actions: seq<Action>, i: nat)
    requires CleanBehavior(states, actions) && i < |states|
    ensures AuditsOk(states[i])
  {
    hide Next, Clean, Inv, AuditsOk;
    if i == 0 {
      NothingAudited();
    } else {
      EveryAuditIsTrue(states, actions, i - 1);
      InvHolds(states, actions, i - 1);
      var s, a, t := states[i - 1], actions[i - 1], states[i];
      if a.RunStep? {
        RunStepIs(s, a, t);
        RunKeepsAudits(s, a.run);
      } else {
        OthersKeepAudits(s, a, t);
      }
    }
  }

  lemma NothingAudited()
    ensures AuditsOk(EMPTY)
  {
  }

  // ----- Quarantine files -----

  /** The run rejected something and got past the creation of its quarantine file. */
  predicate HasRejected(p: Proc) {
    p.job.rejected != [] && !p.phase.Quarantining? && !p.phase.Failed?
  }

  predicate FileOf(p: Proc, name: (string, string), rows: seq<Reject>) {
    p.job.rejected != [] && name == QuarantineName(p.job) && rows == p.job.rejected
  }

  /** Every quarantine file holds exactly what some run rejected, and every run that goes on after rejecting
      something finds all of it in the file of its name. */
  ghost predicate QuarantineOk(s: State) {
    && (forall name :: name in s.disk.quarantine ==> exists r :: r in s.runs && FileOf(s.runs[r], name, s.disk.quarantine[name]))
    && (forall r :: r in s.runs && HasRejected(s.runs[r]) ==>
          QuarantineName(s.runs[r].job) in s.disk.quarantine
          && s.disk.quarantine[QuarantineName(s.runs[r].job)] == s.runs[r].job.rejected)
  }

  /** A quarantine file is created exclusively: no step changes or removes one. */
  lemma QuarantineStep(w: World)
    ensures var d, e := w.disk.quarantine, Step(w).disk.quarantine;
      && (forall name :: name in d ==> name in e && e[name] == d[name])
      && (forall name :: name in e && name !in d ==> FileOf(w.proc, name, e[name]))
    ensures Step(w).proc.job == w.proc.job
    ensures HasRejected(Step(w).proc) && !HasRejected(w.proc) ==>
      && QuarantineName(w.proc.job) in Step(w).disk.quarantine
      && Step(w).disk.quarantine[QuarantineName(w.proc.job)] == w.proc.job.rejected
  {
    hide StepRead, StepStage, StepPromote, StepReread, StepAudit, StepPublish, StepAdvance, QuarantineName;
    RunStepFootprint(w);
    match w.proc.phase {
      case Reading => assert Step(w) == StepRead(w);
      case Rereading => assert Step(w) == StepReread(w);
      case Auditing => assert Step(w) == StepAudit(w);
      case Publishing => assert Step(w) == StepPublish(w);
      case Advancing => assert Step(w) == StepAdvance(w);
      case _ =>
    }
  }

  lemma RunKeepsQuarantine(s: State, r: string)
    requires QuarantineOk(s) && r in s.runs
    ensures QuarantineOk(WithWorld(s, r, Step(WorldOf(s, r))))
  {
    hide Step, QuarantineName;
    var t := WithWorld(s, r, Step(WorldOf(s, r)));
    QuarantineStep(WorldOf(s, r));
    forall name | name in t.disk.quarantine
      ensures exists q :: q in t.runs && FileOf(t.runs[q], name, t.disk.quarantine[name])
    {
      if name in s.disk.quarantine {
        var q :| q in s.runs && FileOf(s.runs[q], name, s.disk.quarantine[name]);
        assert q in t.runs && FileOf(t.runs[q], name, t.disk.quarantine[name]);
      } else {
        assert FileOf(t.runs[r], name, t.disk.quarantine[name]);
      }
    }
  }

  lemma OthersKeepQuarantine(s: State, a: Action, t: State)
    requires Inv(s) && Next(s, a, t) && !a.RunStep? && QuarantineOk(s)
    ensures QuarantineOk(t)
  {
    hide Inv, Next, QuarantineName;
    OthersKeepFiles(s, a, t);
    RunsOfOthers(s, a, t);
    forall name | name in t.disk.quarantine
      ensures exists q :: q in t.runs && FileOf(t.runs[q], name, t.disk.quarantine[name])
    {
      var q :| q in s.runs && FileOf(s.runs[q], name, s.disk.quarantine[name]);
      assert q in t.runs && FileOf(t.runs[q], name, t.disk.quarantine[name]);
    }
  }

  /** In every clean history no quarantined record is lost: the files hold what the runs rejected, all of it
      and in order, and nothing else. */
  lemma {:induction false} QuarantineIsComplete(states: seq<State>, actions: seq<Action>, i: nat)
    requires CleanBehavior(states, actions) && i < |states|
    ensures QuarantineOk(states[i])
  {
    hide Next, Clean, Inv, QuarantineOk;
    if i == 0 {
      NothingQuarantined();
    } else {
      QuarantineIsComplete(states, actions, i - 1);
      InvHolds(states, actions, i - 1);
      var s, a, t := states[i - 1], actions[i - 1], states[i];
      if a.RunStep? {
        RunStepIs(s, a, t);
        RunKeepsQuarantine(s, a.run);
      } else {
        OthersKeepQuarantine(s, a, t);
      }
    }
  }

  lemma NothingQuarantined()
    ensures QuarantineOk(EMPTY)
  {
  }

  /** And none of them ever changes. */
  lemma {:induction false} QuarantineIsImmutable(states: seq<State>, actions: seq<Action>, i: nat, j: nat)
    requires CleanBehavior(states, actions) && i <= j < |states|
    ensures forall name :: name in states[i].disk.quarantine ==>
      name in states[j].disk.quarantine && states[j].disk.quarantine[name] == states[i].disk.quarantine[name]
  {
    hide Next, Clean, Inv;
    if i < j {
      QuarantineIsImmutable(states, actions, i, j - 1);
      InvHolds(states, actions, j - 1);
      var s, a, t := states[j - 1], actions[j - 1], states[j];
      if a.RunStep? {
        RunStepIs(s, a, t);
        OnlyGrows(s, a.run);
      } else {
        OthersKeepFiles(s, a, t);
      }
    }
  }

  lemma OnlyGrows(s: State, r: string)
    requires r in s.runs
    ensures var t := WithWorld(s, r, Step(WorldOf(s, r)));
      forall name :: name in s.disk.quarantine ==>
        name in t.disk.quarantine && t.disk.quarantine[name] == s.disk.quarantine[name]
  {
    hide Step, FileOf;
    QuarantineStep(WorldOf(s, r));
  }

  // ----- File names -----

  /** Two valid run ids share a quarantine file name exactly when they differ only in a dot against an
      underscore. */
  lemma NamesCollideExactly(a: string, b: string)
    requires ValidRunId(a) && ValidRunId(b)
    ensures Safe(a) == Safe(b) <==>
      |a| == |b| && forall i :: 0 <= i < |a| ==> a[i] == b[i] || (a[i] == '.' && b[i] == '_') || (a[i] == '_' && b[i] == '.')
  {
    if Safe(a) == Safe(b) {
      forall i | 0 <= i < |a| ensures a[i] == b[i] || (a[i] == '.' && b[i] == '_') || (a[i] == '_' && b[i] == '.') {
        assert Safe(a)[i] == Safe(b)[i];
      }
    }
  }

  /** A name consists of letters, digits, dashes and underscores, and those are never replaced. */
  lemma NamesAreSafe(id: string, i: nat)
    requires i < |id|
    ensures |Safe(id)| == |id|
    ensures Safe(id)[i] == if 'a' <= id[i] <= 'z' || 'A' <= id[i] <= 'Z' || '0' <= id[i] <= '9' || id[i] == '-' then id[i] else '_'
  {
  }

  /** One file for each pair of source and run, up to what a name can hold. */
  lemma NamesTellSourceAndRun(a: Job, b: Job)
    ensures QuarantineName(a) == QuarantineName(b) <==> Safe(a.source) == Safe(b.source) && Safe(a.runId) == Safe(b.runId)
  {
    hide Safe;
  }

  // ----- Staged files -----

  /** The staged files of a run are those of the months between what it staged and what it promoted. */
  ghost predicate StagedAre(d: Disk, p: Proc) {
    match p.phase
    case Quarantining => NoneStaged(d, p, 0, 0)
    case Reading => NoneStaged(d, p, 0, 0)
    case Staging(i) => NoneStaged(d, p, 0, i)
    case Promoting(i) => NoneStaged(d, p, i, |p.plan.months|)
    case Failed(_) => true
    case _ => NoneStaged(d, p, 0, 0)
  }

  /** Nothing is staged for the run except months numbered `from` up to `upTo`. */
  ghost predicate NoneStaged(d: Disk, p: Proc, from: nat, upTo: nat) {
    forall m :: (p.job.runId, m) in d.staged ==> exists j :: from <= j < upTo && j < |p.plan.months| && p.plan.months[j] == m
  }

  lemma PromotionUnstages(w: World, i: nat)
    requires w.proc.phase == Promoting(i) && StagedAre(w.disk, w.proc) && i <= |w.proc.plan.months|
    requires Ascending(w.proc.plan.months)
    ensures StagedAre(Step(w).disk, Step(w).proc)
  {
    if i < |w.proc.plan.months| {
      var t := StepPromote(w, i);
      assert Step(w) == t;
      hide StepPromote;
      if t.proc.phase == Promoting(i + 1) {
        PromotionTakesTheFile(w, i);
      }
    }
  }

  lemma PromotionTakesTheFile(w: World, i: nat)
    requires i < |w.proc.plan.months| && StepPromote(w, i).proc.phase == Promoting(i + 1)
    ensures StepPromote(w, i).disk.staged == w.disk.staged - {(w.proc.job.runId, w.proc.plan.months[i])}
    ensures StepPromote(w, i).proc.plan == w.proc.plan && StepPromote(w, i).proc.job == w.proc.job
  {
  }

  lemma StagingStages(w: World, i: nat)
    requires w.proc.phase == Staging(i) && StagedAre(w.disk, w.proc) && i <= |w.proc.plan.months|
    ensures StagedAre(Step(w).disk, Step(w).proc)
  {
    hide InMonth;
    if i < |w.proc.plan.months| {
      var t := StepStage(w, i);
      assert Step(w) == t;
      forall m | (w.proc.job.runId, m) in t.disk.staged && t.proc.phase == Staging(i + 1)
        ensures exists j :: 0 <= j < i + 1 && j < |w.proc.plan.months| && w.proc.plan.months[j] == m
      {
        if (w.proc.job.runId, m) in w.disk.staged {
          var j :| 0 <= j < i && j < |w.proc.plan.months| && w.proc.plan.months[j] == m;
        }
      }
    }
  }

  lemma OtherStepsStageNothing(w: World)
    requires StagedAre(w.disk, w.proc) && !w.proc.phase.Staging? && !w.proc.phase.Promoting?
    ensures StagedAre(Step(w).disk, Step(w).proc)
  {
    hide StepQuarantine, StepRead, StepReread, StepAudit, StepPublish, StepAdvance;
    match w.proc.phase {
      case Quarantining => assert Step(w) == StepQuarantine(w);
      case Reading => assert Step(w) == StepRead(w);
      case Rereading => assert Step(w) == StepReread(w);
      case Auditing => assert Step(w) == StepAudit(w);
      case Publishing => assert Step(w) == StepPublish(w);
      case Advancing => assert Step(w) == StepAdvance(w);
      case _ =>
    }
  }

  lemma PlanIsAscending(d: Disk, p: Proc)
    requires RunOk(d, p)
    ensures p.phase.Staging? ==> p.phase.next <= |p.plan.months|
    ensures p.phase.Promoting? ==> p.phase.next <= |p.plan.months| && Ascending(p.plan.months)
  {
    hide Holds, Months, JobOk, DistinctKeys, InMonth;
  }

  lemma StepKeepsStaged(w: World)
    requires RunOk(w.disk, w.proc) && StagedAre(w.disk, w.proc)
    ensures StagedAre(Step(w).disk, Step(w).proc)
  {
    hide RunOk, Step, StagedAre;
    PlanIsAscending(w.disk, w.proc);
    match w.proc.phase {
      case Staging(i) => StagingStages(w, i);
      case Promoting(i) => PromotionUnstages(w, i);
      case _ => OtherStepsStageNothing(w);
    }
  }

  /** A run and its staged files, in every state of every clean history: when a run is done nothing of it
      is left in the staging area. */
  ghost predicate StagingOk(s: State) {
    && (forall r :: r in s.runs ==> StagedAre(s.disk, s.runs[r]))
    && forall x :: x in s.disk.staged ==> x.0 in s.runs
  }

  /** A run's step stages and removes files of its own id only. */
  lemma StagesItsOwn(w: World)
    ensures forall x: (string, Month) :: x.0 != w.proc.job.runId ==> (x in Step(w).disk.staged <==> x in w.disk.staged)
  {
    hide StepQuarantine, StepRead, StepReread, StepAudit, StepPublish, StepAdvance, InMonth;
    match w.proc.phase {
      case Quarantining => assert Step(w) == StepQuarantine(w);
      case Reading => assert Step(w) == StepRead(w);
      case Staging(i) => if i < |w.proc.plan.months| { assert Step(w) == StepStage(w, i); }
      case Promoting(i) => if i < |w.proc.plan.months| { assert Step(w) == StepPromote(w, i); }
      case Rereading => assert Step(w) == StepReread(w);
      case Auditing => assert Step(w) == StepAudit(w);
      case Publishing => assert Step(w) == StepPublish(w);
      case Advancing => assert Step(w) == StepAdvance(w);
      case _ =>
    }
  }

  lemma SameStaged(d: Disk, e: Disk, p: Proc)
    requires StagedAre(d, p) && forall m :: (p.job.runId, m) in e.staged <==> (p.job.runId, m) in d.staged
    ensures StagedAre(e, p)
  {
  }

  lemma RunKeepsStaging(s: State, r: string)
    requires Inv(s) && StagingOk(s) && r in s.runs
    ensures StagingOk(WithWorld(s, r, Step(WorldOf(s, r))))
  {
    hide Step, Inv, RunOk, StagedAre;
    var w, t := WorldOf(s, r), WithWorld(s, r, Step(WorldOf(s, r)));
    RunIs(s, r);
    StepKeepsStaged(w);
    StagesItsOwn(w);
    forall q | q in s.runs && q != r ensures StagedAre(t.disk, s.runs[q]) {
      RunIs(s, q);
      SameStaged(s.disk, t.disk, s.runs[q]);
    }
    forall x | x in t.disk.staged ensures x.0 in t.runs {
      assert x.0 != r ==> x in s.disk.staged;
    }
  }

  lemma OthersKeepStaging(s: State, a: Action, t: State)
    requires Inv(s) && Next(s, a, t) && !a.RunStep? && StagingOk(s)
    ensures StagingOk(t)
  {
    hide Inv, Next, StagedAre;
    RunsOfOthers(s, a, t);
    OthersKeepStaged(s, a, t);
    forall r | r in t.runs ensures StagedAre(t.disk, t.runs[r]) {
      if r in s.runs {
        if t.runs[r] == s.runs[r] { SameStaged(s.disk, t.disk, s.runs[r]); } else { KilledIsAny(t.disk, t.runs[r]); }
      } else {
        NewRunIsStart(s, a, t, r);
      }
    }
  }

  lemma KilledIsAny(d: Disk, p: Proc)
    requires p.phase.Failed?
    ensures StagedAre(d, p)
  {
  }

  lemma NewRunIsStart(s: State, a: Action, t: State, r: string)
    requires Inv(s) && Next(s, a, t) && !a.RunStep? && StagingOk(s) && r in t.runs && r !in s.runs
    ensures StagedAre(t.disk, t.runs[r])
  {
    hide Steps, Raises, RunOk, CompactorsInv, LocksInv;
  }

  lemma OthersKeepStaged(s: State, a: Action, t: State)
    requires Inv(s) && Next(s, a, t) && !a.RunStep?
    ensures t.disk.staged == s.disk.staged
  {
    hide Steps, Raises, RunsInv, LocksInv, CompactorOk, DirOf, LockMoves;
    match a {
      case CompactionStep(id) =>
        var u :| Steps(SiteOf(s, id), u) && t == WithSite(s, id, u);
        CompactionStepFootprint(SiteOf(s, id), u);
      case CompactionRaises(id) =>
        var u :| Raises(SiteOf(s, id), u) && t == WithSite(s, id, u);
        CompactionStepFootprint(SiteOf(s, id), u);
      case _ =>
    }
  }

  lemma {:induction false} StagingIsEmptied(states: seq<State>, actions: seq<Action>, i: nat)
    requires CleanBehavior(states, actions) && i < |states|
    ensures StagingOk(states[i])
    ensures forall r, m :: r in states[i].runs && states[i].runs[r].phase.Done? ==> (r, m) !in states[i].disk.staged
  {
    hide Next, Clean, Inv, StagingOk;
    if i == 0 {
      NothingStaged();
    } else {
      StagingIsEmptied(states, actions, i - 1);
      InvHolds(states, actions, i - 1);
      var s, a, t := states[i - 1], actions[i - 1], states[i];
      if a.RunStep? {
        RunStepIs(s, a, t);
        RunKeepsStaging(s, a.run);
      } else {
        OthersKeepStaging(s, a, t);
      }
    }
    InvHolds(states, actions, i);
    forall r, m | r in states[i].runs && states[i].runs[r].phase.Done? ensures (r, m) !in states[i].disk.staged {
      RunIs(states[i], r);
      DoneStagedNothing(states[i], r, m);
    }
  }

  lemma DoneStagedNothing(s: State, r: string, m: Month)
    requires StagingOk(s) && r in s.runs && s.runs[r].phase.Done? && s.runs[r].job.runId == r
    ensures (r, m) !in s.disk.staged
  {
  }

  lemma NothingStaged()
    ensures StagingOk(EMPTY)
  {
  }
}
