/** Where records are: every record in the partition of its month, and a parked partition free of
    conflicts. */
module Placement {
  import opened Rows
  import opened Backfill
  import opened Compaction
  import opened Convergence
  import opened Warehouse

  /** Every record a partition holds, in the lake or parked, is dated in its month. */
  ghost predicate InItsMonth(d: Disk) {
    forall m, v :: v in DirCanons(LogicalDir(d, m)) ==> MonthOf(v) == m
  }

  /** Partitions gain records of their own month only, and of `canons` only. */
  ghost predicate Gains(d: Disk, e: Disk, canons: set<Canon>) {
    forall m, v :: v in DirCanons(LogicalDir(e, m)) ==> v in DirCanons(LogicalDir(d, m)) || (MonthOf(v) == m && v in canons)
  }

  lemma RunGains(s: State, r: string)
    requires Inv(s) && r in s.runs
    ensures Gains(s.disk, Step(WorldOf(s, r)).disk, Canons(s.runs[r].job.accepted))
  {
    hide Step, RunOk, CompactorsInv, LocksInv, DirCanons, DirOf;
    var w := WorldOf(s, r);
    RunStepFootprint(w);
    if w.proc.phase.Promoting? && w.proc.phase.next < |w.proc.plan.months| && !Step(w).proc.phase.Failed? {
      PromotionGains(w, w.proc.phase.next);
    } else {
      QuietRunStep(w);
      forall m ensures LogicalDir(Step(w).disk, m) == LogicalDir(w.disk, m) {
      }
    }
  }

  lemma QuietRunStep(w: World)
    requires w.proc.phase.Promoting? && w.proc.phase.next < |w.proc.plan.months| ==> Step(w).proc.phase.Failed?
    ensures forall m :: DirOf(Step(w).disk.tree, m) == DirOf(w.disk.tree, m)
  {
    hide StepQuarantine, StepRead, StepStage, StepPromote, StepReread, StepAudit, StepPublish, StepAdvance, DirOf;
    match w.proc.phase {
      case Quarantining => assert Step(w) == StepQuarantine(w);
      case Reading => assert Step(w) == StepRead(w);
      case Promoting(i) => if i < |w.proc.plan.months| { RefusedPromotion(w, i); }
      case Rereading => assert Step(w) == StepReread(w);
      case Auditing => assert Step(w) == StepAudit(w);
      case Publishing => assert Step(w) == StepPublish(w);
      case Advancing => assert Step(w) == StepAdvance(w);
      case _ =>
    }
  }

  lemma PromotionGains(w: World, i: nat)
    requires RunOk(w.disk, w.proc) && w.proc.phase == Promoting(i) && i < |w.proc.plan.months|
    requires !Step(w).proc.phase.Failed?
    ensures Gains(w.disk, Step(w).disk, Canons(w.proc.job.accepted))
  {
    hide StepPromote, PlanOk, MonthsHeld, JobOk, DirCanons, InMonth, DirOf;
    AddedIsAccepted(w.disk, w.proc.job, w.proc.plan);
    var plan := w.proc.plan;
    var m, n := plan.months[i], Part(w.proc.job.runId);
    assert Step(w) == StepPromote(w, i);
    SuccessfulPromotion(w, i);
    RunStepFootprint(w);
    assert IsStaged(w.disk, w.proc.job.runId, plan, m);
    DirGrows(DirOf(w.disk.tree, m), n, InMonth(plan.added, m));
    InMonthCanons(plan.added, m);
    forall x ensures x != m ==> LogicalDir(Step(w).disk, x) == LogicalDir(w.disk, x) {
    }
    assert LogicalDir(Step(w).disk, m) == DirOf(Step(w).disk.tree, m) && LogicalDir(w.disk, m) == DirOf(w.disk.tree, m);
  }

  lemma AddedIsAccepted(d: Disk, job: Job, plan: Plan)
    requires PlanOk(d, job, plan)
    ensures Canons(plan.added) <= Canons(job.accepted)
  {
    hide Holds, Months;
  }

  lemma CompactionGainsNothing(s: State, id: string, u: Site)
    requires Inv(s) && id in s.compactors && (Steps(SiteOf(s, id), u) || Raises(SiteOf(s, id), u))
    ensures Gains(s.disk, u.disk, {})
  {
    hide Steps, Raises, DirCanons, DirOf, CompactorOk, RunsInv, LockMoves, Abandons;
    var site := SiteOf(s, id);
    CompactionStepFootprint(site, u);
    HoldersAreLocked(s.disk, s.compactors[id]);
    var m := s.compactors[id].month;
    forall x ensures x != m ==> LogicalDir(u.disk, x) == LogicalDir(s.disk, x) {
    }
    if Abandons(site) {
      UnlockingSite(site);
      UnlockingDoesNotRaise(site, u);
      UnlockIs(site, u);
      AbandonedPartition(site, u, site.job.stage.failure);
      NothingInEmpty();
    } else {
      EveryStepKeepsThePartition(site, u);
    }
  }

  lemma UnlockingSite(s: Site)
    requires Abandons(s)
    ensures s.job.stage.Unlocking?
  {
  }

  lemma UnlockIs(s: Site, u: Site)
    requires s.job.stage.Unlocking? && Steps(s, u)
    ensures u == StepUnlock(s, s.job.stage.failure)
  {
    hide StepUnlock;
  }

  /** The records an action may add: those its run accepted. */
  ghost function Bringing(s: State, a: Action): set<Canon> {
    if a.RunStep? && a.run in s.runs then Canons(s.runs[a.run].job.accepted) else {}
  }

  lemma NextGains(s: State, a: Action, t: State)
    requires Inv(s) && Next(s, a, t)
    ensures Gains(s.disk, t.disk, Bringing(s, a))
  {
    hide Inv, Step, Steps, Raises, LogicalDir, DirCanons;
    match a {
      case RunStep(r) => RunGains(s, r);
      case CompactionStep(id) =>
        var u :| Steps(SiteOf(s, id), u) && t == WithSite(s, id, u);
        CompactionGainsNothing(s, id, u);
      case CompactionRaises(id) =>
        var u :| Raises(SiteOf(s, id), u) && t == WithSite(s, id, u);
        CompactionGainsNothing(s, id, u);
      case _ => assert t.disk == s.disk;
    }
  }

  /** In every clean history every record is in the partition of its month. */
  lemma {:induction false} RecordsAreInTheirMonths(states: seq<State>, actions: seq<Action>, i: nat)
    requires CleanBehavior(states, actions) && i < |states|
    ensures InItsMonth(states[i].disk)
  {
    hide Next, Clean, Inv, LogicalDir, DirCanons;
    if i == 0 {
      NothingPlaced();
    } else {
      RecordsAreInTheirMonths(states, actions, i - 1);
      InvHolds(states, actions, i - 1);
      NextGains(states[i - 1], actions[i - 1], states[i]);
    }
  }

  lemma NothingPlaced()
    ensures InItsMonth(EMPTY.disk)
  {
    NothingInEmpty();
  }

  /** The runs of `earlier` have ended, and every held record was held on `d0` already or was accepted by
      another run. */
  ghost predicate AllAccepted(s: State, d0: Disk, earlier: set<string>) {
    && (forall r :: r in earlier ==> r in s.runs && Ended(s.runs[r]))
    && forall v :: Holds(s.disk, v) ==>
         Holds(d0, v) || exists r :: r in s.runs && r !in earlier && v in Canons(s.runs[r].job.accepted)
  }

  /** An ended run does nothing any more. */
  lemma EndedIsStill(s: State, a: Action, t: State)
    requires Next(s, a, t)
    ensures forall r :: r in s.runs && Ended(s.runs[r]) ==> r in t.runs && Ended(t.runs[r])
    ensures a.RunStep? && Ended(s.runs[a.run]) ==> t.disk == s.disk
  {
    hide StepQuarantine, StepRead, StepStage, StepPromote, StepReread, StepAudit, StepPublish, StepAdvance, Steps, Raises;
  }

  lemma NextKeepsAccepted(s: State, a: Action, t: State, d0: Disk, earlier: set<string>)
    requires Inv(s) && Next(s, a, t) && AllAccepted(s, d0, earlier)
    ensures AllAccepted(t, d0, earlier)
  {
    hide Inv, Next, LogicalDir, DirCanons, Canons, Ended;
    NextGains(s, a, t);
    JobsStay(s, a, t);
    EndedIsStill(s, a, t);
    forall v | Holds(t.disk, v) && !Holds(d0, v)
      ensures exists r :: r in t.runs && r !in earlier && v in Canons(t.runs[r].job.accepted)
    {
      var m :| v in DirCanons(LogicalDir(t.disk, m));
      if v in DirCanons(LogicalDir(s.disk, m)) {
        assert Holds(s.disk, v);
        var r :| r in s.runs && r !in earlier && v in Canons(s.runs[r].job.accepted);
        assert r in t.runs && v in Canons(t.runs[r].job.accepted);
      } else {
        assert v in Bringing(s, a);
        assert a.RunStep? && a.run in s.runs && a.run !in earlier;
        assert v in Canons(t.runs[a.run].job.accepted);
      }
    }
  }

  lemma JobsStay(s: State, a: Action, t: State)
    requires Next(s, a, t)
    ensures forall r :: r in s.runs ==> r in t.runs && t.runs[r].job == s.runs[r].job
  {
    hide Step, Steps, Raises;
    if a.RunStep? {
      RunStepFootprint(WorldOf(s, a.run));
    }
  }

  /** What holds of every job that is started from state `k` on holds of every run started since. */
  lemma {:induction false} JobsSatisfy(ok: Job -> bool, states: seq<State>, actions: seq<Action>, k: nat, i: nat)
    requires Behavior(states, actions) && k <= i < |states|
    requires forall j :: k <= j < |actions| && actions[j].StartRun? ==> ok(actions[j].job)
    ensures forall r :: r in states[i].runs && r !in states[k].runs ==> ok(states[i].runs[r].job)
  {
    hide Step, Steps, Raises;
    if i > k {
      JobsSatisfy(ok, states, actions, k, i - 1);
      var s, a := states[i - 1], actions[i - 1];
      assert Next(s, a, states[i]);
      if a.RunStep? {
        RunStepFootprint(WorldOf(s, a.run));
      }
    }
  }

  ghost predicate AllEnded(s: State) {
    forall r :: r in s.runs ==> Ended(s.runs[r])
  }

  /** From any state in which no run is under way, the lake gains only what later runs accept. */
  lemma {:induction false} HeldRecordsWereAccepted(states: seq<State>, actions: seq<Action>, k: nat, i: nat)
    requires CleanBehavior(states, actions) && k <= i < |states| && AllEnded(states[k])
    ensures AllAccepted(states[i], states[k].disk, states[k].runs.Keys)
  {
    hide Next, Clean, Inv, Holds, Ended;
    if i > k {
      HeldRecordsWereAccepted(states, actions, k, i - 1);
      InvHolds(states, actions, i - 1);
      NextKeepsAccepted(states[i - 1], actions[i - 1], states[i], states[k].disk, states[k].runs.Keys);
    }
  }

  lemma SwappedInIsThere(d: Disk, k: Compactor)
    ensures SwappedIn(d, k) ==> DirOf(d.tree, k.month) != map[]
  {
    hide Rewritten;
    assert Compact(k.id) in map[Compact(k.id) := k.out];
  }

  /** A partition that a compaction took out of the lake holds no conflict: it was rewritten first. */
  lemma ParkedIsConsistent(s: State, m: Month)
    requires Inv(s) && SwappedOut(s.disk, m)
    ensures Consistent(DirCanons(LogicalDir(s.disk, m)))
  {
    hide DirCanons, Consistent, Compacts, RunsInv;
    var k := s.compactors[s.disk.locks[m]];
    assert k.id == s.disk.locks[m] && CompactorOk(s.disk, k);
    SwappedInIsThere(s.disk, k);
    assert Rewritten(k) && s.disk.archives[k.id].files == k.before;
  }
}
