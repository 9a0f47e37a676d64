/** What the windows of the incremental runs of a history cover. */
module Coverage {
  import opened Rows
  import opened Dedup
  import opened Contracts
  import opened Backfill
  import opened Compaction
  import opened Convergence
  import opened Warehouse
  import opened Checkpoints
  import opened Incremental
  import opened Loader
  import opened Placement
  import opened Histories

  /** What an incremental run settled before it started: in which state of the history it read the
      checkpoint of its source, and the window that came of it. */
  datatype Fetch = Fetch(at: nat, initialStart: Option<int>, overlap: int, fetchFrom: int, through: int)

  function Watermark(s: State, source: string): Option<int> {
    WatermarkOf(s.disk.checkpoints, source)
  }

  ghost predicate DatedIn(job: Job, fetchFrom: int, through: int) {
    forall i :: 0 <= i < |job.accepted| ==> fetchFrom <= job.accepted[i].canon.date.ordinal <= through
  }

  ghost predicate FetchedAs(states: seq<State>, f: Fetch, job: Job) {
    && f.at < |states|
    && FetchWindow(Watermark(states[f.at], job.source), f.initialStart, f.through, f.overlap) == Window(f.fetchFrom, f.through)
    && DatedIn(job, f.fetchFrom, f.through)
  }

  /** A clean history in which every incremental run took its window from the checkpoint it had read
      in some state up to its start. Reading and starting may lie apart, and runs may overlap. */
  ghost predicate Watched(states: seq<State>, actions: seq<Action>, plans: map<string, Fetch>) {
    && CleanBehavior(states, actions)
    && forall j :: 0 <= j < |actions| && actions[j].StartRun? && actions[j].job.incremental ==>
         StartFetched(states, plans, j, actions[j].job)
  }

  ghost predicate StartFetched(states: seq<State>, plans: map<string, Fetch>, j: nat, job: Job) {
    job.runId in plans && plans[job.runId].at <= j && FetchedAs(states, plans[job.runId], job)
  }

  /** The batch of an incremental run is dated in its window, whatever the feed. */
  lemma WindowedJobIsDated(
    c: Contract, records: seq<Record>, start: int, end: int, source: string, now: Raw, job: Job)
    requires WellFormed(c) && JobFor(c, records, {(start, end)}, source, now, job)
    ensures DatedIn(job, start, end)
  {
    hide WellFormed, Batch;
    JobIsBatch(c, records, {(start, end)}, source, now, job);
    forall i | 0 <= i < |job.accepted| ensures start <= job.accepted[i].canon.date.ordinal <= end {
      AcceptedRowsAreInTheWindow(c, records, {(start, end)}, source, now, i);
    }
  }

  // ----- What is true of every run -----

  ghost predicate RunFetched(states: seq<State>, plans: map<string, Fetch>, i: nat, p: Proc) {
    && (p.job.incremental ==> StartFetched(states, plans, i, p.job))
    && (p.phase.Advancing? ==> p.job.incremental && p.job.accepted != [])
  }

  lemma RunStepAdvances(w: World)
    ensures Step(w).proc.job == w.proc.job
    ensures Step(w).proc.phase.Advancing? ==> w.proc.job.incremental && w.proc.job.accepted != []
  {
    hide Step;
    RunStepFootprint(w);
    if w.proc.phase.Publishing? {
      PublishAdvances(w);
    } else if w.proc.phase.Advancing? {
      AdvancingStep(w, w.disk);
    } else {
      OtherStep(w);
    }
  }

  lemma PublishAdvances(w: World)
    requires w.proc.phase.Publishing?
    ensures Step(w).proc.phase.Advancing? ==> w.proc.job.incremental && w.proc.job.accepted != []
  {
    hide ManifestOf;
  }

  lemma {:induction false} RunsWereFetched(states: seq<State>, actions: seq<Action>, plans: map<string, Fetch>, i: nat, r: string)
    requires Watched(states, actions, plans) && i < |states| && r in states[i].runs
    ensures states[i].runs[r].job.runId == r && RunFetched(states, plans, i, states[i].runs[r])
  {
    hide Inv, FetchedAs, Step, Steps, Raises, Clean;
    InvHolds(states, actions, i);
    NamedRun(states[i], r);
    if i > 0 {
      var s, a := states[i - 1], actions[i - 1];
      assert Next(s, a, states[i]);
      if r in s.runs {
        RunsWereFetched(states, actions, plans, i - 1, r);
        if a == RunStep(r) {
          RunStepAdvances(WorldOf(s, r));
        }
      }
    }
  }

  lemma NamedRun(s: State, r: string)
    requires Inv(s) && r in s.runs
    ensures s.runs[r].job.runId == r
  {
    hide RunOk, CompactorsInv, LocksInv;
  }

  // ----- Coverage -----

  ghost predicate Covers(s: State, plans: map<string, Fetch>, source: string, r: string) {
    && r in s.runs && r in plans
    && s.runs[r].phase.Done? && s.runs[r].job.incremental && s.runs[r].job.source == source
  }

  /** The windows of the incremental runs of a source that ended in success. */
  ghost function Covered(s: State, plans: map<string, Fetch>, source: string): set<(int, int)> {
    set r | r in s.runs && Covers(s, plans, source, r) :: (plans[r].fetchFrom, plans[r].through)
  }

  /** Every day from `origin` to the checkpoint was in the window of a run that succeeded. */
  ghost predicate NoGaps(s: State, plans: map<string, Fetch>, source: string, origin: int) {
    && Watermark(s, source).Some? && origin <= Watermark(s, source).value
    && forall day :: origin <= day <= Watermark(s, source).value ==> InWindows(day, Covered(s, plans, source))
  }

  /** The action moves the checkpoint of `source`. */
  ghost predicate Succeeds(s: State, a: Action, source: string) {
    a.RunStep? && a.run in s.runs && s.runs[a.run].phase.Advancing? && s.runs[a.run].job.source == source
  }

  /** A success adds its window, moves the checkpoint to the later of the two dates, and its own date
      lies in its window. */
  lemma SuccessEffect(
    states: seq<State>, actions: seq<Action>, plans: map<string, Fetch>, source: string, i: nat) returns (date: int)
    requires Watched(states, actions, plans) && i < |actions| && Succeeds(states[i], actions[i], source)
    ensures var s, t, r := states[i], states[i + 1], actions[i].run;
      && r in plans && plans[r].at <= i && s.runs[r].job.incremental
      && plans[r].fetchFrom <= date <= plans[r].through
      && Covered(t, plans, source) == Covered(s, plans, source) + {(plans[r].fetchFrom, plans[r].through)}
      && Watermark(t, source) == Some(match Watermark(s, source) case None => date case Some(w) => if w > date then w else date)
  {
    hide Clean, Step, MaxDate, FetchWindow;
    var s, t, r := states[i], states[i + 1], actions[i].run;
    assert Next(s, actions[i], t);
    RunsWereFetched(states, actions, plans, i, r);
    var p := s.runs[r];
    MaxDateIsReached(p.job.accepted);
    date := MaxDate(p.job.accepted).value;
    AdvancingStep(WorldOf(s, r), s.disk);
    assert t == s.(disk := t.disk, runs := s.runs[r := p.(phase := Done)]);
    OneMoreWindow(s, t, plans, source, r);
  }

  lemma OneMoreWindow(s: State, t: State, plans: map<string, Fetch>, source: string, r: string)
    requires r in s.runs && r in plans && t.runs == s.runs[r := s.runs[r].(phase := Done)]
    requires s.runs[r].job.incremental && s.runs[r].job.source == source
    ensures Covered(t, plans, source) == Covered(s, plans, source) + {(plans[r].fetchFrom, plans[r].through)}
  {
    var window := (plans[r].fetchFrom, plans[r].through);
    assert Covers(t, plans, source, r) && window in Covered(t, plans, source);
    forall q | q in s.runs && Covers(s, plans, source, q) ensures Covers(t, plans, source, q) {
    }
    forall q | q in t.runs && Covers(t, plans, source, q) && q != r ensures Covers(s, plans, source, q) {
    }
  }

  /** Any other action leaves the checkpoint of the source alone and takes no window away. */
  lemma OtherEffect(s: State, a: Action, t: State, plans: map<string, Fetch>, source: string)
    requires Inv(s) && Next(s, a, t) && !Succeeds(s, a, source)
    ensures Watermark(t, source) == Watermark(s, source)
    ensures Covered(s, plans, source) <= Covered(t, plans, source)
  {
    hide RunsInv, CompactorsInv, LocksInv, Next, Step;
    NamedRuns(s);
    DoneStays(s, a, t);
    if a.RunStep? && s.runs[a.run].phase.Advancing? {
      ForeignSuccess(s, a.run, t, source);
    } else {
      CheckpointsUntouched(s, a, t);
    }
    forall r | r in s.runs && Covers(s, plans, source, r) ensures r in t.runs && Covers(t, plans, source, r) {
    }
  }

  lemma NamedRuns(s: State)
    requires Inv(s)
    ensures forall r :: r in s.runs ==> s.runs[r].job.runId == r
  {
    hide RunOk;
  }

  lemma DoneStays(s: State, a: Action, t: State)
    requires Next(s, a, t)
    ensures forall r :: r in s.runs && s.runs[r].phase.Done? ==> r in t.runs && t.runs[r] == s.runs[r]
    ensures a.RunStep? ==> a.run in s.runs && t == WithWorld(s, a.run, Step(WorldOf(s, a.run)))
  {
    hide StepQuarantine, StepRead, StepStage, StepPromote, StepReread, StepAudit, StepPublish, StepAdvance, Steps, Raises;
  }

  lemma ForeignSuccess(s: State, r: string, t: State, source: string)
    requires r in s.runs && s.runs[r].phase.Advancing? && s.runs[r].job.source != source
    requires t == WithWorld(s, r, Step(WorldOf(s, r)))
    ensures Watermark(t, source) == Watermark(s, source)
  {
    hide Step, MaxDate;
    AdvancingStep(WorldOf(s, r), s.disk);
  }

  /** The window of a run that saw a checkpoint starts no later than the day after it. */
  lemma WindowMeetsCheckpoint(states: seq<State>, actions: seq<Action>, plans: map<string, Fetch>, source: string, i: nat, r: string)
    requires Watched(states, actions, plans) && i < |states| && r in states[i].runs
    requires states[i].runs[r].job.incremental && states[i].runs[r].job.source == source
    requires r in plans && plans[r].at <= i && Watermark(states[plans[r].at], source).Some?
    ensures Watermark(states[i], source).Some? && plans[r].fetchFrom <= Watermark(states[i], source).value + 1
  {
    hide CleanBehavior;
    RunsWereFetched(states, actions, plans, i, r);
    CheckpointsNeverMoveBack(states, actions, plans[r].at, i);
  }

  lemma WindowsAfterSuccess(a: set<(int, int)>, w: (int, int), day: int)
    ensures InWindows(day, a + {w}) <==> InWindows(day, a) || w.0 <= day <= w.1
  {
    if InWindows(day, a) {
      var x :| x in a && x.0 <= day <= x.1;
      assert x in a + {w};
    }
    assert w in a + {w};
  }

  /** The exact condition: a success over a gapless history leaves no gap if and only if the days
      between the checkpoint it meets and its own window were covered already. Only a run that read no
      checkpoint can fail it. */
  lemma WhenASuccessLeavesAGap(
    states: seq<State>, actions: seq<Action>, plans: map<string, Fetch>, source: string, i: nat, origin: int)
    requires Watched(states, actions, plans) && i < |actions| && Succeeds(states[i], actions[i], source)
    requires NoGaps(states[i], plans, source, origin)
    ensures actions[i].run in plans && plans[actions[i].run].at <= i
    ensures NoGaps(states[i + 1], plans, source, origin) <==>
      forall day :: Watermark(states[i], source).value < day < plans[actions[i].run].fetchFrom ==>
        InWindows(day, Covered(states[i], plans, source))
    ensures Watermark(states[plans[actions[i].run].at], source).Some? ==> NoGaps(states[i + 1], plans, source, origin)
  {
    hide Clean, Next, Covered, InWindows, FetchedAs;
    var s, t, r := states[i], states[i + 1], actions[i].run;
    var date := SuccessEffect(states, actions, plans, source, i);
    forall day ensures InWindows(day, Covered(t, plans, source)) <==>
      InWindows(day, Covered(s, plans, source)) || plans[r].fetchFrom <= day <= plans[r].through {
      WindowsAfterSuccess(Covered(s, plans, source), (plans[r].fetchFrom, plans[r].through), day);
    }
    if Watermark(states[plans[r].at], source).Some? {
      WindowMeetsCheckpoint(states, actions, plans, source, i, r);
    }
  }

  /** A run that read no checkpoint does not move one that another run created meanwhile. */
  ghost predicate FirstRunsAlone(states: seq<State>, actions: seq<Action>, plans: map<string, Fetch>, source: string) {
    forall j :: 0 <= j < |actions| && j < |states| && Succeeds(states[j], actions[j], source) ==>
      FirstAlone(states, plans, source, j, actions[j].run)
  }

  ghost predicate FirstAlone(states: seq<State>, plans: map<string, Fetch>, source: string, j: nat, r: string)
    requires j < |states|
  {
    r in plans && plans[r].at < |states| && Watermark(states[plans[r].at], source).None? ==>
      Watermark(states[j], source).None?
  }

  /** Run `actions[j].run` created the checkpoint of the source. */
  ghost predicate Creates(states: seq<State>, actions: seq<Action>, source: string, j: nat) {
    j < |actions| && j < |states| && Succeeds(states[j], actions[j], source) && Watermark(states[j], source).None?
  }

  /** If the action is a success, the days between the checkpoint it meets and its window are covered. */
  ghost predicate Bridges(states: seq<State>, actions: seq<Action>, plans: map<string, Fetch>, source: string, x: nat)
    requires x < |actions| && x < |states|
  {
    Succeeds(states[x], actions[x], source) && Watermark(states[x], source).Some? && actions[x].run in plans ==>
      forall day :: Watermark(states[x], source).value < day < plans[actions[x].run].fetchFrom ==>
        InWindows(day, Covered(states[x], plans, source))
  }

  /** One action after the checkpoint exists keeps the coverage exactly when it bridges. */
  lemma NextKeepsCoverage(
    states: seq<State>, actions: seq<Action>, plans: map<string, Fetch>, source: string, x: nat, origin: int)
    requires Watched(states, actions, plans) && x < |actions| && NoGaps(states[x], plans, source, origin)
    ensures NoGaps(states[x + 1], plans, source, origin) <==> Bridges(states, actions, plans, source, x)
  {
    hide Next, Inv, Clean, Covered, StartFetched, InWindows, FetchedAs;
    if Succeeds(states[x], actions[x], source) {
      WhenASuccessLeavesAGap(states, actions, plans, source, x, origin);
    } else {
      InvHolds(states, actions, x);
      assert Next(states[x], actions[x], states[x + 1]);
      OtherEffect(states[x], actions[x], states[x + 1], plans, source);
      MoreWindows(Covered(states[x], plans, source), Covered(states[x + 1], plans, source));
    }
  }

  /** The run that creates the checkpoint covers every day from the start of its window to it. */
  lemma CreationCovers(states: seq<State>, actions: seq<Action>, plans: map<string, Fetch>, source: string, j: nat)
    requires Watched(states, actions, plans) && Creates(states, actions, source, j)
    ensures actions[j].RunStep? && actions[j].run in plans && j + 1 < |states|
    ensures NoGaps(states[j + 1], plans, source, plans[actions[j].run].fetchFrom)
  {
    hide Next, Inv, Clean, Covered, StartFetched, InWindows, FetchedAs, Watermark;
    var date := SuccessEffect(states, actions, plans, source, j);
    var origin, covered := plans[actions[j].run].fetchFrom, Covered(states[j + 1], plans, source);
    forall day | origin <= day <= date ensures InWindows(day, covered) {
      WindowsAfterSuccess(Covered(states[j], plans, source), (origin, plans[actions[j].run].through), day);
    }
  }

  lemma {:induction false} BridgedHasNoGaps(
    states: seq<State>, actions: seq<Action>, plans: map<string, Fetch>, source: string, j: nat, i: nat)
    requires Watched(states, actions, plans) && Creates(states, actions, source, j) && j < i < |states|
    requires forall x :: j < x < i ==> Bridges(states, actions, plans, source, x)
    ensures actions[j].run in plans && NoGaps(states[i], plans, source, plans[actions[j].run].fetchFrom)
  {
    hide Next, Clean, Bridges, NoGaps, Creates;
    CreationCovers(states, actions, plans, source, j);
    if i > j + 1 {
      BridgedHasNoGaps(states, actions, plans, source, j, i - 1);
      NextKeepsCoverage(states, actions, plans, source, i - 1, plans[actions[j].run].fetchFrom);
    }
  }

  /** Exactly when no state of a history has a gap between the start of the run that created the
      checkpoint and the checkpoint: when for every success the days between the checkpoint it meets and its
      window were covered by runs that had succeeded before. */
  lemma NeverAGapExactly(states: seq<State>, actions: seq<Action>, plans: map<string, Fetch>, source: string, j: nat)
    requires Watched(states, actions, plans) && Creates(states, actions, source, j)
    ensures actions[j].run in plans
    ensures (forall i :: j < i < |states| ==> NoGaps(states[i], plans, source, plans[actions[j].run].fetchFrom))
       <==> (forall x :: j < x < |actions| ==> Bridges(states, actions, plans, source, x))
  {
    hide Next, Clean, Bridges, NoGaps, Creates;
    CreationCovers(states, actions, plans, source, j);
    var origin := plans[actions[j].run].fetchFrom;
    if forall x :: j < x < |actions| ==> Bridges(states, actions, plans, source, x) {
      forall i | j < i < |states| ensures NoGaps(states[i], plans, source, origin) {
        BridgedHasNoGaps(states, actions, plans, source, j, i);
      }
    }
    if forall i :: j < i < |states| ==> NoGaps(states[i], plans, source, origin) {
      forall x | j < x < |actions| ensures Bridges(states, actions, plans, source, x) {
        NextKeepsCoverage(states, actions, plans, source, x, origin);
      }
    }
  }

  /** A run that read a checkpoint always bridges. */
  lemma AloneBridges(
    states: seq<State>, actions: seq<Action>, plans: map<string, Fetch>, source: string, x: nat)
    requires Watched(states, actions, plans) && FirstRunsAlone(states, actions, plans, source) && x < |actions|
    ensures Bridges(states, actions, plans, source, x)
  {
    hide Next, Inv, Clean, Covered, FetchedAs, InWindows;
    if Succeeds(states[x], actions[x], source) && Watermark(states[x], source).Some? {
      var date := SuccessEffect(states, actions, plans, source, x);
      assert FirstAlone(states, plans, source, x, actions[x].run);
      WindowMeetsCheckpoint(states, actions, plans, source, x, actions[x].run);
    }
  }

  /** No history of incremental runs, overlapping, crashing or beside compactions, leaves a day between
      the start of the run that created the checkpoint and the checkpoint outside every window that
      was ingested, unless a run that had read no checkpoint moved one. */
  lemma NoWindowGaps(
    states: seq<State>, actions: seq<Action>, plans: map<string, Fetch>, source: string, j: nat, i: nat)
    requires Watched(states, actions, plans) && FirstRunsAlone(states, actions, plans, source)
    requires Creates(states, actions, source, j) && j < i < |states|
    ensures actions[j].run in plans && NoGaps(states[i], plans, source, plans[actions[j].run].fetchFrom)
  {
    hide Next, Clean, Bridges, NoGaps, Creates, FirstRunsAlone;
    forall x | j < x < i ensures Bridges(states, actions, plans, source, x) {
      AloneBridges(states, actions, plans, source, x);
    }
    BridgedHasNoGaps(states, actions, plans, source, j, i);
  }

  lemma MoreWindows(a: set<(int, int)>, b: set<(int, int)>)
    requires a <= b
    ensures forall day :: InWindows(day, a) ==> InWindows(day, b)
  {
    forall day | InWindows(day, a) ensures InWindows(day, b) {
      var w :| w in a && w.0 <= day <= w.1;
      assert w in b;
    }
  }

  /** And every checkpoint was created by some run of the history. */
  lemma {:induction false} CheckpointHasACreator(
    states: seq<State>, actions: seq<Action>, source: string, i: nat) returns (j: nat)
    requires CleanBehavior(states, actions) && i < |states| && Watermark(states[i], source).Some?
    ensures j < i && Creates(states, actions, source, j)
  {
    hide Next, Inv, Clean;
    if Watermark(states[i - 1], source).Some? {
      j := CheckpointHasACreator(states, actions, source, i - 1);
    } else {
      j := i - 1;
      InvHolds(states, actions, j);
      if !Succeeds(states[j], actions[j], source) {
        OtherEffect(states[j], actions[j], states[i], map[], source);
      }
    }
  }

  // ----- Runs one after another -----

  /** Each incremental run of a source reads the checkpoint when it starts, and starts only when the
      earlier ones of that source have ended. */
  ghost predicate OneAfterAnother(states: seq<State>, actions: seq<Action>, plans: map<string, Fetch>) {
    forall j :: 0 <= j < |actions| && j < |states| && actions[j].StartRun? && actions[j].job.incremental ==>
      && actions[j].job.runId in plans && plans[actions[j].job.runId].at == j
      && forall r :: r in states[j].runs && Rival(states[j].runs[r], actions[j].job) ==> Ended(states[j].runs[r])
  }

  predicate Rival(p: Proc, job: Job) {
    p.job.incremental && p.job.source == job.source
  }

  /** A run under way is the only one of its source, and finds the checkpoint as it read it. */
  ghost predicate Undisturbed(states: seq<State>, plans: map<string, Fetch>, i: nat)
    requires i < |states|
  {
    forall r :: r in states[i].runs && states[i].runs[r].job.incremental && !Ended(states[i].runs[r]) ==>
      StillAlone(states, plans, i, r)
  }

  ghost predicate StillAlone(states: seq<State>, plans: map<string, Fetch>, i: nat, r: string)
    requires i < |states| && r in states[i].runs
  {
    var p := states[i].runs[r];
    && r in plans && plans[r].at <= i && Watermark(states[i], p.job.source) == Watermark(states[plans[r].at], p.job.source)
    && forall q :: q in states[i].runs && q != r && Rival(states[i].runs[q], p.job) ==> Ended(states[i].runs[q])
  }

  lemma EndedStays(s: State, a: Action, t: State)
    requires Next(s, a, t)
    ensures forall r :: r in s.runs ==> r in t.runs && t.runs[r].job == s.runs[r].job
    ensures forall r :: r in s.runs && Ended(s.runs[r]) ==> Ended(t.runs[r])
    ensures forall r :: r in t.runs && r !in s.runs ==> a.StartRun? && r == a.job.runId && t.runs[r] == Start(a.job)
  {
    hide StepQuarantine, StepRead, StepStage, StepPromote, StepReread, StepAudit, StepPublish, StepAdvance, Steps, Raises;
    JobsStay(s, a, t);
  }

  lemma StillAloneNext(states: seq<State>, actions: seq<Action>, plans: map<string, Fetch>, i: nat, r: string)
    requires CleanBehavior(states, actions) && OneAfterAnother(states, actions, plans) && i < |actions|
    requires Undisturbed(states, plans, i)
    requires r in states[i + 1].runs && states[i + 1].runs[r].job.incremental && !Ended(states[i + 1].runs[r])
    requires actions[i].RunStep? && actions[i].run in states[i].runs && states[i].runs[actions[i].run].phase.Advancing? ==>
      states[i].runs[actions[i].run].job.incremental && Ended(states[i + 1].runs[actions[i].run])
    ensures StillAlone(states, plans, i + 1, r)
  {
    hide Clean, Next, Inv, Ended, Watermark;
    var s, t, a := states[i], states[i + 1], actions[i];
    assert Next(s, a, t);
    EndedStays(s, a, t);
    InvHolds(states, actions, i);
    var source := t.runs[r].job.source;
    StartsEnabled(s, a, t);
    AdvancingIsUnderWay();
    assert r in s.runs ==> StillAlone(states, plans, i, r);
    assert !Succeeds(s, a, source);
    OtherEffect(s, a, t, map[], source);
  }

  lemma AdvancingIsUnderWay()
    ensures forall p: Proc :: p.phase.Advancing? ==> !Ended(p)
  {
  }

  lemma StartsEnabled(s: State, a: Action, t: State)
    requires Next(s, a, t)
    ensures a.StartRun? ==> a.job.runId !in s.runs && t.disk == s.disk
    ensures a.RunStep? ==> a.run in s.runs
  {
    hide Step;
  }

  lemma AdvancingEnds(states: seq<State>, actions: seq<Action>, plans: map<string, Fetch>, i: nat)
    requires Watched(states, actions, plans) && i < |actions|
    requires actions[i].RunStep? && actions[i].run in states[i].runs && states[i].runs[actions[i].run].phase.Advancing?
    ensures states[i].runs[actions[i].run].job.incremental
    ensures actions[i].run in states[i + 1].runs && Ended(states[i + 1].runs[actions[i].run])
  {
    hide Clean, FetchedAs, MaxDate;
    RunsWereFetched(states, actions, plans, i, actions[i].run);
    assert Next(states[i], actions[i], states[i + 1]);
    AdvancingStep(WorldOf(states[i], actions[i].run), states[i].disk);
  }

  lemma {:induction false} RunsStayAlone(states: seq<State>, actions: seq<Action>, plans: map<string, Fetch>, i: nat)
    requires Watched(states, actions, plans) && OneAfterAnother(states, actions, plans) && i < |states|
    ensures Undisturbed(states, plans, i)
  {
    hide Clean, Next, StartFetched, OneAfterAnother, StillAlone, Ended;
    if i > 0 {
      RunsStayAlone(states, actions, plans, i - 1);
      var a := actions[i - 1];
      if a.RunStep? && a.run in states[i - 1].runs && states[i - 1].runs[a.run].phase.Advancing? {
        AdvancingEnds(states, actions, plans, i - 1);
      }
      forall r | r in states[i].runs && states[i].runs[r].job.incremental && !Ended(states[i].runs[r])
        ensures StillAlone(states, plans, i, r)
      {
        StillAloneNext(states, actions, plans, i - 1, r);
      }
    }
  }

  /** Runs one after another satisfy the premise by themselves, crashes and compactions notwithstanding. */
  lemma SequentialRunsAreAlone(states: seq<State>, actions: seq<Action>, plans: map<string, Fetch>, source: string)
    requires Watched(states, actions, plans) && OneAfterAnother(states, actions, plans)
    ensures FirstRunsAlone(states, actions, plans, source)
  {
    hide Clean, Next, OneAfterAnother, Ended;
    forall j | 0 <= j < |actions| && j < |states| && Succeeds(states[j], actions[j], source)
      ensures FirstAlone(states, plans, source, j, actions[j].run)
    {
      RunsStayAlone(states, actions, plans, j);
      RunsWereFetched(states, actions, plans, j, actions[j].run);
      AdvancingIsUnderWay();
      assert StillAlone(states, plans, j, actions[j].run);
    }
  }

  // ----- Two first runs -----

  const EARLY := Row(Canon([Text("k")], Date(5, 2026, 1), "s", map[]), 0, "k")
  const LATE := Row(Canon([Text("l")], Date(20, 2026, 1), "s", map[]), 0, "l")

  /** Both runs read the checkpoint in the first state, where there was none. */
  const PLANS: map<string, Fetch> := map["b" := Fetch(0, Some(1), 0, 1, 5), "a" := Fetch(0, Some(10), 0, 10, 20)]

  ghost predicate BothRan(s: State) {
    && s.runs.Keys == {"a", "b"} && s.runs["a"].job == OneRow("a", LATE, true) && s.runs["b"].job == OneRow("b", EARLY, true)
    && Watermark(s, "s") == Some(20)
  }

  lemma {:induction false} RunsStay(states: seq<State>, actions: seq<Action>, j: nat, i: nat)
    requires Behavior(states, actions) && j <= i < |states|
    ensures forall r :: r in states[j].runs ==> r in states[i].runs && states[i].runs[r].job == states[j].runs[r].job
  {
    hide Next;
    if j < i {
      RunsStay(states, actions, j, i - 1);
      assert Next(states[i - 1], actions[i - 1], states[i]);
      JobsStay(states[i - 1], actions[i - 1], states[i]);
    }
  }

  /** A history that ends with the two runs is one in which each took its window from the first state. */
  lemma BothWereFetched(states: seq<State>, actions: seq<Action>)
    requires CleanBehavior(states, actions) && BothRan(states[|states| - 1])
    ensures Watched(states, actions, PLANS)
  {
    hide Clean, Next;
    assert "a"[0] != "b"[0];
    forall j | 0 <= j < |actions| && actions[j].StartRun? && actions[j].job.incremental
      ensures StartFetched(states, PLANS, j, actions[j].job)
    {
      assert Next(states[j], actions[j], states[j + 1]);
      Started(states[j], actions[j].job, states[j + 1]);
      RunsStay(states, actions, j + 1, |states| - 1);
    }
  }

  lemma Started(s: State, job: Job, t: State)
    requires Next(s, StartRun(job), t)
    ensures job.runId in t.runs && t.runs[job.runId].job == job
  {
  }

  /** The row was ingested by an incremental run: the checkpoint of its source moved to its date. */
  lemma OneRowMovesTheCheckpoint(s: State, runId: string, row: Row)
    requires Ingested1(s, runId, row, true).runs[runId].phase.Done?
    ensures var w := Watermark(s, row.canon.source);
      Watermark(Ingested1(s, runId, row, true), row.canon.source) ==
      Some(if w.Some? && w.value > row.canon.date.ordinal then w.value else row.canon.date.ordinal)
  {
    hide Alone, Remaining;
    var job := OneRow(runId, row, true);
    CheckpointsWhileRunning(World(s.disk, Start(job)), Remaining(Start(job)));
    assert [row][..0] == [];
    assert MaxDate([row]) == Some(row.canon.date.ordinal);
  }

  /** The history goes on with an incremental run that ingests one new row. */
  lemma OneMoreRow(states: seq<State>, actions: seq<Action>, runId: string, row: Row)
    returns (more: seq<State>, all: seq<Action>)
    requires CleanBehavior(states, actions) && states != [] && runId !in states[|states| - 1].runs
    requires Takes(states[|states| - 1].disk, row)
    ensures CleanBehavior(more, all) && states < more && actions <= all
    ensures var s, t := states[|states| - 1], more[|more| - 1];
      && runId in t.runs && t.runs == s.runs[runId := t.runs[runId]] && t.runs[runId].job == OneRow(runId, row, true)
      && t.disk.locks == s.disk.locks && TreeCanons(t.disk.tree) == TreeCanons(s.disk.tree) + {row.canon}
      && var w := Watermark(s, row.canon.source);
         Watermark(t, row.canon.source) ==
         Some(if w.Some? && w.value > row.canon.date.ordinal then w.value else row.canon.date.ordinal)
  {
    hide CleanBehavior, TreeCanons, Remaining, RunFrom, Alone, Watermark, Takes, OneFileMore;
    var s := states[|states| - 1];
    assert EndsIn(states, s);
    assert Reached(s);
    OneRowIsIngested(s, runId, row, true);
    OneRowMovesTheCheckpoint(s, runId, row);
    OneRowIsJobOk(runId, row);
    more, all := RunFromExtends(states, actions, OneRow(runId, row, true), Remaining(Start(OneRow(runId, row, true))));
  }

  lemma OneRowIsJobOk(runId: string, row: Row)
    ensures JobOk(OneRow(runId, row, true))
  {
  }

  lemma FromNothing()
    ensures CleanBehavior([EMPTY], []) && Takes(EMPTY.disk, EARLY) && Watermark(EMPTY, "s").None? && EMPTY.runs == map[]
    ensures TreeCanons(EMPTY.disk.tree) == {}
  {
    NothingShown(EMPTY.disk.tree);
  }

  lemma TakesLate(d: Disk)
    requires d.locks == map[] && TreeCanons(d.tree) == {EARLY.canon}
    ensures Takes(d, LATE)
  {
    hide TreeCanons;
    assert "k"[0] != "l"[0];
    assert LATE.Key()[0] != EARLY.Key()[0];
  }

  lemma NotBetween(s: State)
    requires BothRan(s)
    ensures !NoGaps(s, PLANS, "s", 1)
  {
    assert "a"[0] != "b"[0];
    assert !InWindows(7, Covered(s, PLANS, "s"));
  }

  /** In a history where only `b` ran, `b` created the checkpoint. */
  lemma OnlyOneRan(states: seq<State>, actions: seq<Action>, j: nat)
    requires Behavior(states, actions) && states[|states| - 1].runs.Keys == {"b"} && Creates(states, actions, "s", j)
    ensures actions[j].run == "b"
  {
    hide Next;
    RunsStay(states, actions, j, |states| - 1);
  }

  /** Two overlapping first runs can leave a gap, so the premise is needed: `b` covers the days 1 to 5
      and creates the checkpoint, `a` covers 10 to 20 and moves it. */
  lemma TwoFirstRunsLeaveAGap() returns (states: seq<State>, actions: seq<Action>, j: nat)
    ensures Watched(states, actions, PLANS) && Creates(states, actions, "s", j) && j < |states| - 1
    ensures actions[j].run == "b" && Watermark(states[|states| - 1], "s") == Some(20)
    ensures !NoGaps(states[|states| - 1], PLANS, "s", PLANS["b"].fetchFrom)
  {
    hide TreeCanons, Watermark, Next, Clean, Takes, Watched, Succeeds, NoGaps, BothRan;
    FromNothing();
    var s0, a0 := [EMPTY], [];
    var s1, a1 := OneMoreRow(s0, a0, "b", EARLY);
    var u := s1[|s1| - 1];
    assert TreeCanons(u.disk.tree) == {EARLY.canon};
    TakesLate(u.disk);
    assert "a"[0] != "b"[0];
    states, actions := OneMoreRow(s1, a1, "a", LATE);
    j := CheckpointHasACreator(s1, a1, "s", |s1| - 1);
    OnlyOneRan(s1, a1, j);
    assert states[j] == s1[j] && actions[j] == a1[j];
    var t := states[|states| - 1];
    assert BothRan(t) by { LastState(t); }
    BothWereFetched(states, actions);
    NotBetween(t);
    assert PLANS["b"].fetchFrom == 1;
  }

  lemma LastState(s: State)
    requires s.runs.Keys == {"a", "b"} && s.runs["a"].job == OneRow("a", LATE, true)
    requires s.runs["b"].job == OneRow("b", EARLY, true) && Watermark(s, "s") == Some(20)
    ensures BothRan(s)
  {
  }
}
