/** What the manifests on disk say, in every history. */
module Manifests {
  import opened Rows
  import opened Backfill
  import opened Compaction
  import opened Warehouse

  /** Every fetched record is added, quarantined or a replay; the lake grew by what was added; there is
      at most one file a row added; degraded means that something was quarantined. */
  predicate Balances(m: Manifest) {
    && m.inputRows == m.acceptedRows + m.quarantinedRows + m.duplicateRows
    && m.postWriteRows == m.preWriteRows + m.acceptedRows
    && m.filesWritten <= m.acceptedRows && (m.filesWritten == 0 <==> m.acceptedRows == 0)
    && (m.degraded <==> m.quarantinedRows > 0)
  }

  /** The numbers of a run add up. */
  ghost predicate Sound(p: Proc) {
    && JobOk(p.job) && |p.plan.added| + p.plan.duplicates == |p.job.accepted|
    && p.plan.months == Months(p.plan.added) && Complete(p) && Balanced(p)
  }

  predicate PastPublishing(phase: Phase) {
    phase.Advancing? || phase.Done? || phase.Failed?
  }

  /** The manifest is that of its run, whose numbers add up and whose rows the lake holds. */
  ghost predicate ManifestOk(s: State, r: string)
    requires r in s.disk.manifests
  {
    && r in s.runs && PastPublishing(s.runs[r].phase) && Sound(s.runs[r])
    && s.disk.manifests[r] == ManifestOf(s.runs[r]) && AllHeld(s.disk, Canons(s.runs[r].plan.added))
  }

  ghost predicate ManifestsOk(s: State) {
    forall r :: r in s.disk.manifests ==> ManifestOk(s, r)
  }

  lemma PublishingIsSound(d: Disk, p: Proc)
    requires RunOk(d, p) && p.phase.Publishing?
    ensures Sound(p) && AllHeld(d, Canons(p.plan.added))
  {
    hide Holds, Months, AllHeld, DistinctKeys, JobOk;
  }

  /** Past its publication a run only changes its phase. */
  lemma LateStep(w: World)
    requires PastPublishing(w.proc.phase)
    ensures Step(w).proc == w.proc.(phase := Step(w).proc.phase) && PastPublishing(Step(w).proc.phase)
    ensures Step(w).disk.manifests == w.disk.manifests
  {
    hide StepAdvance;
    if w.proc.phase.Advancing? {
      assert Step(w) == StepAdvance(w);
    }
  }

  /** Only a publication writes a manifest, and only its own. */
  lemma EarlyStep(w: World)
    requires !PastPublishing(w.proc.phase) && !w.proc.phase.Publishing?
    ensures Step(w).disk.manifests == w.disk.manifests
  {
    hide StepQuarantine, StepRead, StepStage, StepPromote, StepReread, StepAudit;
    match w.proc.phase {
      case Quarantining => assert Step(w) == StepQuarantine(w);
      case Reading => assert Step(w) == StepRead(w);
      case Staging(i) =>
      case Promoting(i) =>
      case Rereading => assert Step(w) == StepReread(w);
      case Auditing => assert Step(w) == StepAudit(w);
    }
  }

  lemma PublishingStep(w: World)
    requires w.proc.phase.Publishing?
    ensures Step(w).proc == w.proc.(phase := Step(w).proc.phase) && PastPublishing(Step(w).proc.phase)
    ensures Step(w).disk.manifests == w.disk.manifests[w.proc.job.runId := ManifestOf(w.proc)]
  {
    hide ManifestOf;
  }

  lemma ManifestSurvives(s: State, t: State, r: string)
    requires r in s.disk.manifests && ManifestOk(s, r) && Grows(s.disk, t.disk)
    requires r in t.runs && t.runs[r] == s.runs[r].(phase := t.runs[r].phase) && PastPublishing(t.runs[r].phase)
    requires r in t.disk.manifests && t.disk.manifests[r] == s.disk.manifests[r]
    ensures ManifestOk(t, r)
  {
    hide Holds, Months, JobOk, MaxDate;
  }

  lemma RunKeepsManifests(s: State, r: string)
    requires Inv(s) && ManifestsOk(s) && r in s.runs
    ensures ManifestsOk(WithWorld(s, r, Step(WorldOf(s, r))))
  {
    hide Step, Grows, CompactorsInv, LocksInv, ManifestOk, ManifestOf, Sound, AllHeld, RunOk;
    var w := WorldOf(s, r);
    var t := WithWorld(s, r, Step(w));
    RunStepKeepsInv(s, r, t);
    if w.proc.phase.Publishing? {
      PublishingIsSound(s.disk, w.proc);
      PublishingStep(w);
      HeldStays(s.disk, t.disk, Canons(w.proc.plan.added));
      NewManifest(t, r, w.proc);
    } else if PastPublishing(w.proc.phase) {
      LateStep(w);
    } else {
      EarlyStep(w);
    }
    forall q | q in t.disk.manifests ensures ManifestOk(t, q) {
      if q in s.disk.manifests && !(q == r && w.proc.phase.Publishing?) {
        WasPublished(s, q);
        ManifestSurvives(s, t, q);
      }
    }
  }

  lemma WasPublished(s: State, r: string)
    requires r in s.disk.manifests && ManifestOk(s, r)
    ensures r in s.runs && PastPublishing(s.runs[r].phase)
  {
  }

  lemma HeldStays(d: Disk, e: Disk, canons: set<Canon>)
    requires AllHeld(d, canons) && Grows(d, e)
    ensures AllHeld(e, canons)
  {
    hide Holds;
  }

  lemma NewManifest(t: State, r: string, p: Proc)
    requires r in t.runs && t.runs[r] == p.(phase := t.runs[r].phase) && PastPublishing(t.runs[r].phase)
    requires Sound(p) && AllHeld(t.disk, Canons(p.plan.added))
    requires r in t.disk.manifests && t.disk.manifests[r] == ManifestOf(p)
    ensures ManifestOk(t, r)
  {
    hide Holds, Months, JobOk, MaxDate;
  }

  /** Nothing but a run's own step touches its manifest. */
  lemma OthersKeepManifests(s: State, a: Action, t: State)
    requires Inv(s) && Next(s, a, t) && !a.RunStep?
    ensures t.disk.manifests == s.disk.manifests
    ensures forall r :: r in s.runs && PastPublishing(s.runs[r].phase) ==>
      r in t.runs && t.runs[r] == s.runs[r].(phase := t.runs[r].phase) && PastPublishing(t.runs[r].phase)
  {
    hide Steps, Raises, RunsInv, LocksInv, CompactorOk, DirOf, LockMoves;
    match a {
      case CompactionStep(id) =>
        var u :| Steps(SiteOf(s, id), u) && t == WithSite(s, id, u);
        assert s.compactors[id].id == id;
        CompactionStepFootprint(SiteOf(s, id), u);
      case CompactionRaises(id) =>
        var u :| Raises(SiteOf(s, id), u) && t == WithSite(s, id, u);
        assert s.compactors[id].id == id;
        CompactionStepFootprint(SiteOf(s, id), u);
      case _ =>
    }
  }

  lemma NextKeepsManifests(s: State, a: Action, t: State)
    requires Inv(s) && ManifestsOk(s) && Next(s, a, t) && Clean(s, a)
    ensures ManifestsOk(t)
  {
    hide Inv, Step, Next, Clean, ManifestOk, Grows;
    NextKeepsInv(s, a, t);
    if a.RunStep? {
      RunStepIs(s, a, t);
      RunKeepsManifests(s, a.run);
    } else {
      OthersKeepManifests(s, a, t);
      forall r | r in t.disk.manifests ensures ManifestOk(t, r) {
        WasPublished(s, r);
        ManifestSurvives(s, t, r);
      }
    }
  }

  lemma {:induction false} ManifestsHold(states: seq<State>, actions: seq<Action>, i: nat)
    requires CleanBehavior(states, actions) && i < |states|
    ensures ManifestsOk(states[i])
  {
    hide Next, Clean, Inv, ManifestOk;
    if i > 0 {
      ManifestsHold(states, actions, i - 1);
      InvHolds(states, actions, i - 1);
      NextKeepsManifests(states[i - 1], actions[i - 1], states[i]);
    }
  }

  lemma SoundManifestBalances(p: Proc)
    requires Sound(p)
    ensures Balances(ManifestOf(p))
  {
    hide Months, MaxDate, DistinctKeys;
    MonthsOfRows(p.plan.added);
    if p.plan.added != [] {
      assert p.plan.added[0].canon in Canons(p.plan.added);
      assert MonthOf(p.plan.added[0].canon) in Months(p.plan.added);
    }
  }

  /** In every clean history, whatever ran beside it and wherever it was stopped afterwards, every
      manifest on disk balances, names the rows its run added, and the lake holds all of them. */
  lemma EveryManifestIsTrue(states: seq<State>, actions: seq<Action>, i: nat, r: string)
    requires CleanBehavior(states, actions) && i < |states| && r in states[i].disk.manifests
    ensures Balances(states[i].disk.manifests[r])
    ensures r in states[i].runs && states[i].disk.manifests[r].acceptedRows == |states[i].runs[r].plan.added|
    ensures states[i].disk.manifests[r].filesWritten == |Months(states[i].runs[r].plan.added)|
    ensures states[i].disk.manifests[r].inputRows == states[i].runs[r].job.fetched
    ensures states[i].disk.manifests[r].quarantinedRows == |states[i].runs[r].job.rejected|
    ensures states[i].disk.manifests[r].preWriteRows == |states[i].runs[r].plan.pre|
    ensures states[i].disk.manifests[r].maxEventDate == MaxDate(states[i].runs[r].job.accepted)
    ensures AllHeld(states[i].disk, Canons(states[i].runs[r].plan.added))
  {
    hide CleanBehavior, Balances, AllHeld, MaxDate, Months, JobOk;
    ManifestsHold(states, actions, i);
    assert ManifestOk(states[i], r);
    SoundManifestBalances(states[i].runs[r]);
  }
}
