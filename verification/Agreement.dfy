/** What the second read of a run detects when other runs write at the same time. */
module Agreement {
  import opened Rows
  import opened Dedup
  import opened Backfill
  import opened Compaction
  import opened Convergence
  import opened Warehouse
  import opened Placement

  /** The canonical records a run adds. */
  ghost function Own(p: Proc): set<Canon> {
    Canons(p.plan.added)
  }

  /** The run has read the lake back after its last promotion without finding a conflict. */
  predicate Passed(p: Proc) {
    p.phase.Auditing? || p.phase.Publishing? || p.phase.Advancing? || p.phase.Done?
  }

  /** A run passes its second read only by making it. */
  lemma PassingIsRereading(w: World)
    requires Passed(Step(w).proc)
    ensures w.proc.phase.Rereading? || (Passed(w.proc) && Step(w).proc.plan == w.proc.plan)
    ensures Step(w).proc.phase.Auditing? && w.proc.phase.Rereading? ==> Consistent(TreeCanons(w.disk.tree))
    ensures w.proc.phase.Rereading? ==> Step(w).proc.phase.Auditing? && Step(w).proc.plan == w.proc.plan
  {
    hide StepQuarantine, StepRead, StepStage, StepPromote, StepAudit, StepPublish, StepAdvance, TreeCanons, View;
    match w.proc.phase {
      case Auditing => assert Step(w) == StepAudit(w);
      case Publishing => assert Step(w) == StepPublish(w);
      case Advancing => assert Step(w) == StepAdvance(w);
      case _ =>
    }
  }

  lemma PassedIsHeld(d: Disk, p: Proc)
    requires RunOk(d, p) && (Passed(p) || p.phase.Rereading?)
    ensures AllHeld(d, Own(p)) && Consistent(Own(p)) && Own(p) <= Canons(p.job.accepted)
  {
    hide AllHeld, Holds, JobOk, Months;
  }

  lemma SameOwn(p: Proc, q: Proc)
    requires p.plan == q.plan
    ensures Own(p) == Own(q)
  {
  }

  // ----- What all runs that passed have in common -----

  type Relation = (set<Canon>, set<Canon>) -> bool

  /** Any two runs that passed their second reads wrote related records. */
  ghost predicate AllRelated(ok: Relation, s: State) {
    forall a, b :: a in s.runs && b in s.runs && Passed(s.runs[a]) && Passed(s.runs[b]) ==>
      ok(Own(s.runs[a]), Own(s.runs[b]))
  }

  /** What run `r` wrote is related to itself and to what every run wrote that passed before. */
  ghost predicate RelatedTo(ok: Relation, s: State, r: string)
    requires r in s.runs
  {
    forall a :: a in s.runs && (a == r || Passed(s.runs[a])) ==>
      ok(Own(s.runs[a]), Own(s.runs[r])) && ok(Own(s.runs[r]), Own(s.runs[a]))
  }

  /** Run `r` is about to read the lake back, and will find no conflict. */
  ghost predicate Passing(s: State, a: Action) {
    a.RunStep? && a.run in s.runs && s.runs[a.run].phase.Rereading? && Consistent(TreeCanons(s.disk.tree))
  }

  ghost predicate PassingRelates(ok: Relation, s: State, a: Action) {
    Passing(s, a) ==> RelatedTo(ok, s, a.run)
  }

  lemma WasPassed(s: State, a: Action, t: State, x: string)
    requires Next(s, a, t) && x in t.runs && Passed(t.runs[x])
    ensures x in s.runs && Own(s.runs[x]) == Own(t.runs[x])
    ensures Passed(s.runs[x]) || (Passing(s, a) && a.run == x)
  {
    hide Step, TreeCanons;
    if a.RunStep? && a.run == x {
      PassingIsRereading(WorldOf(s, x));
    }
    SameOwn(s.runs[x], t.runs[x]);
  }

  lemma NextKeepsRelated(ok: Relation, s: State, a: Action, t: State)
    requires AllRelated(ok, s) && Next(s, a, t) && PassingRelates(ok, s, a)
    ensures AllRelated(ok, t)
  {
    hide Own, Next, TreeCanons, Consistent;
    forall x, y | x in t.runs && y in t.runs && Passed(t.runs[x]) && Passed(t.runs[y])
      ensures ok(Own(t.runs[x]), Own(t.runs[y]))
    {
      WasPassed(s, a, t, x);
      WasPassed(s, a, t, y);
    }
  }

  /** A relation that every conflict-free second read establishes holds throughout a history. */
  lemma {:induction false} RelatedThroughout(ok: Relation, states: seq<State>, actions: seq<Action>, i: nat)
    requires Behavior(states, actions) && i < |states|
    requires forall j :: 0 <= j < |actions| ==> PassingRelates(ok, states[j], actions[j])
    ensures AllRelated(ok, states[i])
  {
    hide Next, PassingRelates;
    if i > 0 {
      RelatedThroughout(ok, states, actions, i - 1);
      NextKeepsRelated(ok, states[i - 1], actions[i - 1], states[i]);
    }
  }

  // ----- One key, one month -----

  /** Records of one key and one month are the same record. */
  ghost predicate MonthlySame(x: set<Canon>, y: set<Canon>) {
    forall v, w :: v in x && w in y && v.key == w.key && MonthOf(v) == MonthOf(w) ==> v == w
  }

  /** Every key that both wrote is dated in the same month by both. */
  ghost predicate SameMonths(x: set<Canon>, y: set<Canon>) {
    forall v, w :: v in x && w in y && v.key == w.key ==> MonthOf(v) == MonthOf(w)
  }

  lemma HeldInItsMonth(d: Disk, v: Canon)
    requires InItsMonth(d) && Holds(d, v)
    ensures v in DirCanons(LogicalDir(d, MonthOf(v)))
  {
    hide LogicalDir, DirCanons;
  }

  lemma OnePartitionIsConsistent(s: State, m: Month, v: Canon, w: Canon)
    requires Inv(s) && Consistent(TreeCanons(s.disk.tree)) && v.key == w.key
    requires v in DirCanons(LogicalDir(s.disk, m)) && w in DirCanons(LogicalDir(s.disk, m))
    ensures v == w
  {
    hide TreeCanons, DirCanons, Inv;
    if SwappedOut(s.disk, m) {
      ParkedIsConsistent(s, m);
    } else {
      TreeByDirs(s.disk.tree, v);
      TreeByDirs(s.disk.tree, w);
    }
  }

  /** Two copies of a key in one month share a partition: if it is in the lake the second read compares
      them, and if it is parked its rewrite did. */
  lemma PassingComparesMonths(s: State, a: Action)
    requires Inv(s) && InItsMonth(s.disk) && Passing(s, a)
    ensures PassingRelates(MonthlySame, s, a)
  {
    hide RunOk, TreeCanons, CompactorsInv, LocksInv, Own, Consistent, DirCanons, LogicalDir, Canons, SwappedOut, InItsMonth;
    PassedIsHeld(s.disk, s.runs[a.run]);
    forall x, v, w | x in s.runs && (x == a.run || Passed(s.runs[x])) && v in Own(s.runs[x]) && w in Own(s.runs[a.run])
      && v.key == w.key && MonthOf(v) == MonthOf(w) ensures v == w
    {
      PassedIsHeld(s.disk, s.runs[x]);
      HeldInItsMonth(s.disk, v);
      HeldInItsMonth(s.disk, w);
      OnePartitionIsConsistent(s, MonthOf(v), v, w);
    }
  }

  /** In every clean history, compactions included, two runs that have read the lake back never wrote
      different values of one key in one month. */
  lemma MonthlyAgreementHolds(states: seq<State>, actions: seq<Action>, i: nat)
    requires CleanBehavior(states, actions) && i < |states|
    ensures AllRelated(MonthlySame, states[i])
  {
    hide Next, Clean, Inv, InItsMonth, Passing, RelatedTo;
    forall j | 0 <= j < |actions| ensures PassingRelates(MonthlySame, states[j], actions[j]) {
      if Passing(states[j], actions[j]) {
        InvHolds(states, actions, j);
        RecordsAreInTheirMonths(states, actions, j);
        PassingComparesMonths(states[j], actions[j]);
      }
    }
    RelatedThroughout(MonthlySame, states, actions, i);
  }

  /** The run has written its manifest. */
  predicate HasManifest(p: Proc) {
    p.phase.Advancing? || p.phase.Done?
  }

  lemma PassedIsConsistent(s: State, r: string)
    requires Inv(s) && r in s.runs && Passed(s.runs[r])
    ensures Consistent(Own(s.runs[r]))
  {
    hide RunOk, CompactorsInv, LocksInv, Own, Consistent;
    PassedIsHeld(s.disk, s.runs[r]);
  }

  /** In every clean history, however runs and compactions were interleaved and stopped, two runs that
      reached their manifests agree on all keys if and only if they date every key they share in the
      same month. */
  lemma PublishedRunsAgree(states: seq<State>, actions: seq<Action>, i: nat, a: string, b: string)
    requires CleanBehavior(states, actions) && i < |states|
    requires a in states[i].runs && b in states[i].runs
    requires HasManifest(states[i].runs[a]) && HasManifest(states[i].runs[b])
    ensures Consistent(Own(states[i].runs[a]) + Own(states[i].runs[b]))
       <==> SameMonths(Own(states[i].runs[a]), Own(states[i].runs[b]))
  {
    hide CleanBehavior, Own, Inv;
    MonthlyAgreementHolds(states, actions, i);
    InvHolds(states, actions, i);
    PassedIsConsistent(states[i], a);
    PassedIsConsistent(states[i], b);
    assert MonthlySame(Own(states[i].runs[a]), Own(states[i].runs[b]));
  }

  // ----- Two cases in which the condition holds by itself -----

  /** The records a batch may carry have months their keys determine. */
  ghost predicate KeysFixMonths(month: Key -> Month, job: Job) {
    forall v :: v in Canons(job.accepted) ==> MonthOf(v) == month(v.key)
  }

  ghost predicate AllKeysFixMonths(month: Key -> Month, actions: seq<Action>) {
    forall i :: 0 <= i < |actions| && actions[i].StartRun? ==> KeysFixMonths(month, actions[i].job)
  }

  lemma OwnFixesMonths(month: Key -> Month, s: State, r: string)
    requires Inv(s) && r in s.runs && Passed(s.runs[r]) && KeysFixMonths(month, s.runs[r].job)
    ensures forall v :: v in Own(s.runs[r]) ==> MonthOf(v) == month(v.key)
  {
    hide RunOk, CompactorsInv, LocksInv, Own, Consistent, Canons;
    PassedIsHeld(s.disk, s.runs[r]);
  }

  /** In a dataset whose keys determine their months two published runs always agree. */
  lemma MonthlyRunsAgree(
    month: Key -> Month, states: seq<State>, actions: seq<Action>, i: nat, a: string, b: string)
    requires CleanBehavior(states, actions) && AllKeysFixMonths(month, actions) && i < |states|
    requires a in states[i].runs && b in states[i].runs
    requires HasManifest(states[i].runs[a]) && HasManifest(states[i].runs[b])
    ensures Consistent(Own(states[i].runs[a]) + Own(states[i].runs[b]))
  {
    hide Next, Clean, Own, Inv, KeysFixMonths, Consistent;
    JobsSatisfy(job => KeysFixMonths(month, job), states, actions, 0, i);
    InvHolds(states, actions, i);
    OwnFixesMonths(month, states[i], a);
    OwnFixesMonths(month, states[i], b);
    PublishedRunsAgree(states, actions, i, a, b);
  }

  ghost predicate Joint(x: set<Canon>, y: set<Canon>) {
    Consistent(x + y)
  }

  /** Over a lake with nothing parked the second read sees every record that matters. */
  lemma PassingSeesAll(s: State, a: Action)
    requires Inv(s) && Passing(s, a) && NothingParked(s.disk)
    ensures PassingRelates(Joint, s, a)
  {
    hide RunOk, Holds, TreeCanons, NothingParked, CompactorsInv, LocksInv, Own;
    PassedIsHeld(s.disk, s.runs[a.run]);
    forall x | x in s.runs && (x == a.run || Passed(s.runs[x]))
      ensures Joint(Own(s.runs[x]), Own(s.runs[a.run])) && Joint(Own(s.runs[a.run]), Own(s.runs[x]))
    {
      PassedIsHeld(s.disk, s.runs[x]);
      forall v | v in Own(s.runs[x]) + Own(s.runs[a.run]) ensures v in TreeCanons(s.disk.tree) {
        HeldIsVisible(s.disk, v);
      }
    }
  }

  /** Where nothing is parked whenever a run passes its second read, all runs that passed agree, on keys
      of different months too. */
  lemma UnparkedRunsAgree(states: seq<State>, actions: seq<Action>, i: nat)
    requires CleanBehavior(states, actions) && i < |states|
    requires forall j :: 0 <= j < |actions| && Passing(states[j], actions[j]) ==> NothingParked(states[j].disk)
    ensures AllRelated(Joint, states[i])
  {
    hide Next, Clean, Inv, Passing, RelatedTo, NothingParked;
    forall j | 0 <= j < |actions| ensures PassingRelates(Joint, states[j], actions[j]) {
      if Passing(states[j], actions[j]) {
        InvHolds(states, actions, j);
        PassingSeesAll(states[j], actions[j]);
      }
    }
    RelatedThroughout(Joint, states, actions, i);
  }

  predicate IngestionOnly(actions: seq<Action>) {
    forall i :: 0 <= i < |actions| ==> !actions[i].StartCompaction?
  }

  lemma {:induction false} IngestionNeverLocks(states: seq<State>, actions: seq<Action>, i: nat)
    requires Behavior(states, actions) && IngestionOnly(actions) && i < |states|
    ensures states[i].compactors == map[] && states[i].disk.locks == map[]
  {
    hide Step, Steps, Raises;
    if i > 0 {
      IngestionNeverLocks(states, actions, i - 1);
      var s, a := states[i - 1], actions[i - 1];
      assert Next(s, a, states[i]);
      if a.RunStep? {
        RunStepFootprint(WorldOf(s, a.run));
      }
    }
  }

  /** Without compaction every history is clean, and all runs that passed their second reads agree. */
  lemma IngestionAgrees(states: seq<State>, actions: seq<Action>, i: nat)
    requires Behavior(states, actions) && IngestionOnly(actions) && i < |states|
    ensures CleanBehavior(states, actions) && AllRelated(Joint, states[i])
  {
    hide Next, Inv, Passing, AllRelated;
    forall j | 0 <= j < |actions| ensures Clean(states[j], actions[j]) && NothingParked(states[j].disk) {
      IngestionNeverLocks(states, actions, j);
    }
    UnparkedRunsAgree(states, actions, i);
  }

  // ----- Reconciliation, exactly -----

  /** Keys visible now that the run neither found at its first read nor wrote itself. */
  ghost function Foreign(d: Disk, p: Proc): set<Key> {
    Keys(TreeCanons(d.tree)) - (p.plan.pre.Keys + Keys(Own(p)))
  }

  /** Keys the run found or wrote that it cannot see now, because their partition is parked. */
  ghost function Hidden(d: Disk, p: Proc): set<Key> {
    p.plan.pre.Keys + Keys(Own(p)) - Keys(TreeCanons(d.tree))
  }

  lemma CountsDiffer<T>(a: set<T>, b: set<T>)
    ensures |a| == |b| <==> |a - b| == |b - a|
  {
    assert a == (a - b) + (a * b) && b == (b - a) + (a * b);
    assert |a| == |a - b| + |a * b| && |b| == |b - a| + |a * b|;
  }

  lemma CountedKeys(d: Disk, p: Proc)
    requires RunOk(d, p) && p.phase.Rereading?
    ensures |p.plan.pre.Keys + Keys(Own(p))| == |p.plan.pre| + |p.plan.added|
  {
    hide TreeCanons, Holds, Months, JobOk;
    DistinctKeyCount(p.plan.added);
    forall k | k in Keys(Own(p)) ensures k !in p.plan.pre {
      var v :| v in Own(p) && v.key == k;
    }
    assert |p.plan.pre| == |p.plan.pre.Keys|;
  }

  /** A run whose promotions are finished reconciles if and only if the lake reads back without a
      conflict and as many foreign keys appeared as keys of its own account are hidden. */
  lemma ReconciliationIsExact(w: World)
    requires RunOk(w.disk, w.proc) && w.proc.phase.Rereading?
    ensures Step(Step(w)).proc.phase.Publishing? <==>
      Consistent(TreeCanons(w.disk.tree)) && |Foreign(w.disk, w.proc)| == |Hidden(w.disk, w.proc)|
  {
    hide TreeCanons, Canons, RunOk, Keys, View;
    var d, p, seen := w.disk, w.proc, TreeCanons(w.disk.tree);
    var u := Step(w);
    assert u == StepReread(w);
    if Consistent(seen) {
      assert Step(u) == StepAudit(u);
      CountedKeys(d, p);
      BooksBalance(d, p);
      assert u.proc.post == |View(seen)| == |View(seen).Keys|;
      CountsDiffer(p.plan.pre.Keys + Keys(Own(p)), Keys(seen));
    }
  }

  /** With no partition parked nothing is hidden: the run reconciles exactly when every key that
      appeared since its first read is one it wrote. */
  lemma NothingParkedNothingHidden(d: Disk, p: Proc)
    requires RunOk(d, p) && p.phase.Rereading? && NothingParked(d)
    ensures Hidden(d, p) == {}
    ensures |Foreign(d, p)| == |Hidden(d, p)| <==> Foreign(d, p) == {}
  {
    hide TreeCanons, Holds, NothingParked, Months, JobOk;
    forall k | k in p.plan.pre ensures k in Keys(TreeCanons(d.tree)) {
      HeldIsVisible(d, p.plan.pre[k]);
    }
    forall k | k in Keys(Own(p)) ensures k in Keys(TreeCanons(d.tree)) {
      var v :| v in Own(p) && v.key == k;
      HeldIsVisible(d, v);
    }
  }

  /** The same in every clean interleaving: whatever other runs and compactions did between the two
      reads, the second read decides the verdict. */
  lemma EveryReconciliationIsExact(states: seq<State>, actions: seq<Action>, i: nat, r: string)
    requires CleanBehavior(states, actions) && i < |states|
    requires r in states[i].runs && states[i].runs[r].phase.Rereading?
    ensures var p, d := Step(WorldOf(states[i], r)).proc, states[i].disk;
      p.phase.Auditing? && Accounting(p).passed <==>
      Consistent(TreeCanons(d.tree)) && |Foreign(d, states[i].runs[r])| == |Hidden(d, states[i].runs[r])|
  {
    hide CleanBehavior, RunOk, TreeCanons, Accounting, Foreign, Hidden;
    InvHolds(states, actions, i);
    ReconciliationIsExact(WorldOf(states[i], r));
    AuditDecides(WorldOf(states[i], r));
  }

  lemma AuditDecides(w: World)
    requires w.proc.phase.Rereading?
    ensures Step(Step(w)).proc.phase.Publishing? <==> Step(w).proc.phase.Auditing? && Accounting(Step(w).proc).passed
  {
    hide TreeCanons, View, Accounting, Retained;
    assert Step(w) == StepReread(w);
    if Step(w).proc.phase.Auditing? {
      assert Step(Step(w)) == StepAudit(Step(w));
    }
  }

  /** The first identity of the accounting can never fail. */
  lemma BooksBalance(d: Disk, p: Proc)
    requires RunOk(d, p) && (p.phase.Rereading? || p.phase.Auditing?)
    ensures p.job.fetched == |p.plan.added| + |p.job.rejected| + p.plan.duplicates
    ensures Accounting(p).passed <==> p.post == |p.plan.pre| + |p.plan.added|
  {
    hide Holds, Months, DistinctKeys;
  }
}
