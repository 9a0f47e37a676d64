/** Incremental ingestion against one full refresh: any order of windowed runs, interrupted attempts,
    replays and compactions leaves what a single backfill of the same windows leaves. */
module Refresh {
  import opened Rows
  import opened Dedup
  import opened Contracts
  import opened Backfill
  import opened Convergence
  import opened Compaction
  import opened Warehouse
  import opened Incremental

  // ----- What a provider history says -----

  /** The canonical records of a provider history, as the contract reads them at clock `now`. */
  ghost function Truth(c: Contract, history: seq<Record>, source: string, now: Raw): set<Canon> {
    set raw | raw in history && Valid(c, Enrich(c, raw, source, now), source).Some? :: CanonAt(c, raw, source, now)
  }

  ghost function Within(canons: set<Canon>, windows: set<(int, int)>): set<Canon> {
    set v | v in canons && InWindows(v.date.ordinal, windows)
  }

  lemma TruthIgnoresClock(c: Contract, history: seq<Record>, source: string, clocks: set<Raw>, t: Raw, u: Raw)
    requires SteadyOn(c, history, source, clocks) && t in clocks && u in clocks
    ensures Truth(c, history, source, t) == Truth(c, history, source, u)
  {
    hide Truth;
    TruthMoves(c, history, source, clocks, t, u);
    TruthMoves(c, history, source, clocks, u, t);
  }

  lemma TruthMoves(c: Contract, history: seq<Record>, source: string, clocks: set<Raw>, t: Raw, u: Raw)
    requires SteadyOn(c, history, source, clocks) && t in clocks && u in clocks
    ensures Truth(c, history, source, t) <= Truth(c, history, source, u)
  {
    hide Valid, Enrich, CanonOf, WellFormed, ClockParses, RulesAgree, ForeignSource;
    forall v | v in Truth(c, history, source, t) ensures v in Truth(c, history, source, u) {
      var raw :| raw in history && Valid(c, Enrich(c, raw, source, t), source).Some? && CanonAt(c, raw, source, t) == v;
      ClockMattersExactly(c, raw, source, t, u);
      assert CanonAt(c, raw, source, u) == v;
    }
  }

  lemma KeyOfCanon(c: Contract, raw: Record, source: string, now: Raw)
    requires WellFormed(c) && Valid(c, Enrich(c, raw, source, now), source).Some?
    ensures CanonAt(c, raw, source, now).key == KeyOf(c.uniqueBy, Valid(c, Enrich(c, raw, source, now), source).value)
  {
    hide Valid, Enrich, KeyOf;
  }

  lemma SelectedIsOffered(c: Contract, history: seq<Record>, windows: set<(int, int)>, source: string, now: Raw, raw: Record)
    returns (n: nat)
    requires c.eventField in c.fields && raw in history && Selected(c, raw, windows)
    ensures var offered := EnrichAll(c, Select(c, history, windows), source, now);
      n < |offered| && offered[n] == Enrich(c, raw, source, now)
  {
    hide Enrich, Selected;
    SelectMembers(c, history, windows);
    var chosen := Select(c, history, windows);
    n :| 0 <= n < |chosen| && chosen[n] == raw;
  }

  /** Every record of a conflict-free history dated in the windows is in the batch. */
  lemma WantedIsAccepted(c: Contract, history: seq<Record>, windows: set<(int, int)>, source: string, now: Raw, v: Canon)
    requires WellFormed(c) && Consistent(Truth(c, history, source, now))
    requires v in Within(Truth(c, history, source, now), windows)
    ensures v in Canons(Batch(c, history, windows, source, now))
  {
    hide Valid, Enrich, KeyOf, CanonOf, CanonAt, Accepted, Select, EventDate, InWindows;
    var raw :| raw in history && Valid(c, Enrich(c, raw, source, now), source).Some? && CanonAt(c, raw, source, now) == v;
    DatedInWindow(c, raw, windows, source, now);
    var n := SelectedIsOffered(c, history, windows, source, now, raw);
    var offered := EnrichAll(c, Select(c, history, windows), source, now);
    ValidKeysAreAccepted(c, offered, source, n);
    var a := Accepted(c, offered, source);
    var i :| 0 <= i < |a| && KeyOf(c.uniqueBy, a[i]) == KeyOf(c.uniqueBy, Valid(c, offered[n], source).value);
    var batch := Batch(c, history, windows, source, now);
    AcceptedKey(c, offered, source, i);
    BatchRow(c, history, windows, source, now, i);
    var other :| other in history && Admitted(c, other, windows, source, now) && batch[i].canon == CanonAt(c, other, source, now);
    KeyOfCanon(c, raw, source, now);
    assert CanonAt(c, other, source, now) in Truth(c, history, source, now);
    assert batch[i].canon == v;
  }

  lemma AcceptedKey(c: Contract, offered: seq<Record>, source: string, i: nat)
    requires WellFormed(c) && i < |Accepted(c, offered, source)|
    ensures RowOf(c, Accepted(c, offered, source)[i]).Key() == KeyOf(c.uniqueBy, Accepted(c, offered, source)[i])
  {
    hide Valid, KeyOf;
    AcceptedRowsAreValid(c, offered, source, i);
    RowParts(c, offered, source, Accepted(c, offered, source)[i]);
  }

  /** A valid record is selected exactly when its canonical date lies in a window. */
  lemma DatedInWindow(c: Contract, raw: Record, windows: set<(int, int)>, source: string, now: Raw)
    requires WellFormed(c) && Valid(c, Enrich(c, raw, source, now), source).Some?
    ensures Selected(c, raw, windows) <==> InWindows(CanonAt(c, raw, source, now).date.ordinal, windows)
  {
    hide Valid, Enrich, CanonOf, EventDate, InWindows;
    AcceptedDateIsEventDate(c, raw, source, now);
  }

  /** What a windowed run accepts, order and batch-level repetition notwithstanding. */
  lemma BatchIsTruthWithin(c: Contract, history: seq<Record>, windows: set<(int, int)>, source: string, now: Raw)
    requires WellFormed(c) && Consistent(Truth(c, history, source, now))
    ensures Canons(Batch(c, history, windows, source, now)) == Within(Truth(c, history, source, now), windows)
  {
    hide Valid, Enrich, CanonAt, Batch, EventDate, InWindows, Selected, Consistent;
    var batch := Batch(c, history, windows, source, now);
    forall v | v in Canons(batch) ensures v in Within(Truth(c, history, source, now), windows) {
      var i :| 0 <= i < |batch| && batch[i].canon == v;
      BatchRow(c, history, windows, source, now, i);
      var raw :| raw in history && Admitted(c, raw, windows, source, now) && v == CanonAt(c, raw, source, now);
      DatedInWindow(c, raw, windows, source, now);
    }
    forall v | v in Within(Truth(c, history, source, now), windows) ensures v in Canons(batch) {
      WantedIsAccepted(c, history, windows, source, now, v);
    }
  }

  // ----- Operations on the lake -----

  /** An ingestion over some windows is a series of attempts, all but the last interrupted; a batch
      without a required column is refused outright; a compaction runs from its start to its end. */
  datatype Op =
    | Ingest(windows: set<(int, int)>, tries: seq<Try>)
    | Refuse(windows: set<(int, int)>, now: Raw)
    | Compact(sites: seq<Site>)

  /** The run was offered the whole history at one of the clocks and selected these windows. */
  ghost predicate OfferedAll(
    c: Contract, history: seq<Record>, source: string, clocks: set<Raw>, windows: set<(int, int)>, job: Job)
    requires WellFormed(c)
  {
    exists now :: now in clocks && JobFor(c, history, windows, source, now, job)
  }

  ghost predicate FreshIn(t: Tree, runId: string) {
    forall m :: Part(runId) !in DirOf(t, m)
  }

  /** A compaction by itself: it may raise anywhere, but it runs to its end. */
  ghost predicate Session(d: Disk, sites: seq<Site>) {
    && |sites| > 0 && sites[0].disk == d
    && (exists id, m, n :: n >= 2 && id !in d.archives && sites[0].job == Begin(id, m, n))
    && (forall i :: 0 <= i < |sites| - 1 ==> Steps(sites[i], sites[i + 1]) || Raises(sites[i], sites[i + 1]))
    && sites[|sites| - 1].job.stage.Closed?
  }

  ghost predicate Applies(c: Contract, history: seq<Record>, source: string, clocks: set<Raw>, d: Disk, op: Op, e: Disk)
    requires WellFormed(c)
  {
    match op
    case Ingest(windows, tries) =>
      && (forall i :: 0 <= i < |tries| ==>
            OfferedAll(c, history, source, clocks, windows, tries[i].job) && FreshIn(d.tree, tries[i].job.runId))
      && e == After(d, tries)
    case Refuse(windows, now) =>
      Absent(c, EnrichAll(c, Select(c, history, windows), source, now)) != {} && now in clocks && e == d
    case Compact(sites) => Session(d, sites) && e == sites[|sites| - 1].disk
  }

  /** The last attempt ended in success. */
  ghost predicate Completes(d: Disk, tries: seq<Try>) {
    |tries| > 0 &&
    var n := |tries| - 1;
    Alone(World(After(d, tries[..n]), Start(tries[n].job)), tries[n].steps).proc.phase.Done?
  }

  /** The windows an operation certainly covered, and those it may have touched. */
  ghost function Finished(d: Disk, op: Op): set<(int, int)> {
    match op
    case Ingest(windows, tries) => if Completes(d, tries) then windows else {}
    case Refuse(windows, _) => windows
    case Compact(_) => {}
  }

  function Touched(op: Op): set<(int, int)> {
    match op
    case Ingest(windows, _) => windows
    case Refuse(windows, _) => windows
    case Compact(_) => {}
  }

  /** A history of operations on a lake, and the disks between them. */
  ghost predicate Operated(
    c: Contract, history: seq<Record>, source: string, clocks: set<Raw>, disks: seq<Disk>, ops: seq<Op>)
    requires WellFormed(c)
  {
    && |disks| == |ops| + 1 && disks[0].locks == map[]
    && forall i :: 0 <= i < |ops| ==> Applies(c, history, source, clocks, disks[i], ops[i], disks[i + 1])
  }

  ghost function AllFinished(disks: seq<Disk>, ops: seq<Op>): set<(int, int)>
    requires |disks| == |ops| + 1
  {
    if ops == [] then {}
    else
      var n := |ops| - 1;
      AllFinished(disks[..n + 1], ops[..n]) + Finished(disks[n], ops[n])
  }

  function AllTouched(ops: seq<Op>): set<(int, int)> {
    if ops == [] then {} else AllTouched(ops[..|ops| - 1]) + Touched(ops[|ops| - 1])
  }

  // ----- Each operation keeps the lake between what finished and what was touched -----

  /** A lake over `base` that holds at least the truth in the windows `low`, and at most that in
      `high`. */
  ghost predicate Between(d: Disk, base: set<Canon>, truth: set<Canon>, low: set<(int, int)>, high: set<(int, int)>) {
    && d.locks == map[]
    && base + Within(truth, low) <= TreeCanons(d.tree) <= base + Within(truth, high)
  }

  lemma WithinUnion(canons: set<Canon>, a: set<(int, int)>, b: set<(int, int)>)
    ensures Within(canons, a + b) == Within(canons, a) + Within(canons, b)
    ensures Within(canons, {}) == {}
  {
    forall v | v in Within(canons, a) + Within(canons, b) ensures v in Within(canons, a + b) {
      if v in Within(canons, a) {
        var w :| w in a && w.0 <= v.date.ordinal <= w.1;
        assert w in a + b;
      } else {
        var w :| w in b && w.0 <= v.date.ordinal <= w.1;
        assert w in a + b;
      }
    }
  }

  /** The accepted records of every attempt are the truth in its windows, whatever its clock. */
  lemma OfferedCanons(
    c: Contract, history: seq<Record>, source: string, clocks: set<Raw>, now: Raw, windows: set<(int, int)>, job: Job)
    requires SteadyOn(c, history, source, clocks) && now in clocks && Consistent(Truth(c, history, source, now))
    requires OfferedAll(c, history, source, clocks, windows, job)
    ensures JobOk(job) && Canons(job.accepted) == Within(Truth(c, history, source, now), windows)
  {
    hide ClockParses, RulesAgree, Batch, Truth, Consistent, JobFor, WellFormed;
    var t :| t in clocks && JobFor(c, history, windows, source, t, job);
    JobForIsOk(c, history, windows, source, t, job);
    TruthIgnoresClock(c, history, source, clocks, t, now);
    BatchIsTruthWithin(c, history, windows, source, t);
    JobForBatch(c, history, windows, source, t, job);
  }

  lemma JobForBatch(c: Contract, history: seq<Record>, windows: set<(int, int)>, source: string, now: Raw, job: Job)
    requires WellFormed(c) && JobFor(c, history, windows, source, now, job)
    ensures job.accepted == Batch(c, history, windows, source, now)
  {
    hide Batch;
  }

  /** Attempts at one batch over a lake consistent with it: the lake gains part of the batch, and all
      of it when the last attempt succeeds. */
  lemma AttemptsAdd(d: Disk, tries: seq<Try>, news: set<Canon>)
    requires d.locks == map[] && Consistent(TreeCanons(d.tree) + news)
    requires forall i :: 0 <= i < |tries| ==>
               JobOk(tries[i].job) && Canons(tries[i].job.accepted) == news && FreshIn(d.tree, tries[i].job.runId)
    ensures var e := After(d, tries);
      && e.locks == map[]
      && TreeCanons(d.tree) <= TreeCanons(e.tree) <= TreeCanons(d.tree) + news
      && (Completes(d, tries) ==> TreeCanons(e.tree) == TreeCanons(d.tree) + news)
  {
    hide TreeCanons, Alone, Consistent, JobOk, Canons, Progress, Landed;
    if tries != [] {
      var n := |tries| - 1;
      var last := tries[n].job;
      assert History(d.tree, tries, last);
      HistoryProgress(d, tries, last);
      ProgressCanons(d.tree, After(d, tries).tree, News(d.tree, last));
      if Completes(d, tries) {
        assert History(d.tree, tries[..n], last);
        HistoryProgress(d, tries[..n], last);
        AttemptProgress(d.tree, After(d, tries[..n]), News(d.tree, last), last, tries[n].steps);
        DoneHoldsAll(d.tree, News(d.tree, last), Alone(World(After(d, tries[..n]), Start(last)), tries[n].steps));
      }
    }
  }

  lemma DoneHoldsAll(t0: Tree, news: set<Canon>, w: World)
    requires Attempting(t0, news, w) && w.proc.phase.Done?
    ensures TreeCanons(w.disk.tree) == TreeCanons(t0) + news
  {
    hide TreeCanons, Landed, Progress, Setting;
    AllLandedCanons(t0, w.disk.tree, news);
  }

  // ----- A compaction session -----

  /** What holds between the steps of a compaction that nobody disturbs. */
  ghost predicate InSession(d: Disk, s: Site) {
    var m := s.job.month;
    && CompactorOk(s.disk, s.job)
    && NameFree(s) && !Abandons(s)
    && (m in s.disk.locks <==> Holding(s.job))
    && (forall x :: x != m ==> x !in s.disk.locks && DirOf(s.disk.tree, x) == DirOf(d.tree, x))
    && DirCanons(LogicalDir(s.disk, m)) == DirCanons(DirOf(d.tree, m))
  }

  lemma SessionBegins(d: Disk, id: string, m: Month, n: nat)
    requires d.locks == map[] && n >= 2 && id !in d.archives
    ensures InSession(d, Site(d, Begin(id, m, n)))
  {
    hide DirCanons;
  }

  /** The partition's name is free because the compaction moved the directory away. */
  ghost predicate NameFree(s: Site) {
    s.job.stage.Swapping? || s.job.stage.RollingBack? ==> s.job.month !in s.disk.tree
  }

  lemma LockLeavesName(s: Site)
    ensures s.job.stage.Locking? ==> NameFree(StepLock(s))
  {
  }

  lemma RewriteLeavesName(s: Site, t: Site)
    requires StepRewrite(s, t)
    ensures NameFree(t)
  {
    hide Compacts, Consistent, DirCanons, DirOf, RewriteResult;
    RewriteStage(s, t.job.out);
  }

  lemma RewriteStage(s: Site, out: seq<Row>)
    ensures NameFree(RewriteResult(s, out)) && NameFree(Leave(s, ConflictingKeys))
  {
    hide Keys, DirCanons, DirOf;
  }

  lemma ArchiveFreesName(s: Site)
    ensures s.job.stage.Archiving? ==> NameFree(StepArchive(s))
  {
  }

  lemma SwapLeavesName(s: Site)
    ensures NameFree(StepSwap(s)) || StepSwap(s) == Leave(s, SwapRefused)
    ensures NameFree(Leave(s, SwapRefused)) && NameFree(Leave(s, Raised))
  {
    hide DirOf;
  }

  lemma RestoreEnds(s: Site)
    requires s.job.id in s.disk.archives
    ensures NameFree(Restore(s))
  {
  }

  lemma NameStaysFree(s: Site, t: Site)
    requires (Steps(s, t) || Raises(s, t)) && NameFree(s)
    ensures NameFree(t)
  {
    hide DirOf, StepRewrite, StepArchive, StepSwap, StepLock, Restore, NameFree;
    SwapLeavesName(s);
    if s.job.id in s.disk.archives { RestoreEnds(s); }
    match s.job.stage {
      case Locking => LockLeavesName(s);
      case Rewriting => if Steps(s, t) { RewriteLeavesName(s, t); }
      case Archiving => ArchiveFreesName(s);
      case Swapping => if t == At(s, RollingBack) { StillFree(s); }
      case RollingBack =>
      case _ => OtherStages(s, t);
    }
  }

  lemma StillFree(s: Site)
    requires s.job.stage.Swapping? && NameFree(s)
    ensures NameFree(At(s, RollingBack))
  {
  }

  lemma OtherStages(s: Site, t: Site)
    requires s.job.stage.Recording? || s.job.stage.Unlocking? || s.job.stage.Closed?
    requires Steps(s, t) || Raises(s, t)
    ensures NameFree(t)
  {
  }

  lemma LockFollowsStage(s: Site, t: Site)
    requires CompactionFootprint(s, t) && (s.job.month in s.disk.locks <==> Holding(s.job))
    ensures t.job.month in t.disk.locks <==> Holding(t.job)
  {
    hide DirOf;
  }

  /** With its name free a partition is always put back before the lock is released. */
  lemma NothingAbandoned(s: Site, t: Site)
    requires CompactorOk(s.disk, s.job) && NameFree(s) && !Abandons(s) && (Steps(s, t) || Raises(s, t))
    ensures !Abandons(t)
  {
    hide DirCanons, Compacts, Consistent, Canons, StepLock, StepRewrite, StepArchive, StepSwap, StepRecord, StepUnlock, DirOf;
    match s.job.stage {
      case Locking => LockedNotAbandoned(s);
      case Rewriting => if Steps(s, t) { RewriteLeaves(s, t); }
      case Archiving => ArchivedNotAbandoned(s);
      case Swapping => SwappedNotAbandoned(s);
      case Recording => RecordedNotAbandoned(s);
      case RollingBack =>
      case Unlocking(e) => UnlockedNotAbandoned(s, e);
      case Closed(_) =>
    }
  }

  lemma LockedNotAbandoned(s: Site)
    requires s.job.stage.Locking?
    ensures !Abandons(StepLock(s))
  {
  }

  lemma ArchivedNotAbandoned(s: Site)
    requires CompactorOk(s.disk, s.job) && s.job.stage.Archiving?
    ensures !Abandons(StepArchive(s)) && !Abandons(Leave(s, Raised))
  {
    hide Rewritten;
  }

  lemma SwappedNotAbandoned(s: Site)
    requires CompactorOk(s.disk, s.job) && s.job.stage.Swapping?
    ensures !Abandons(StepSwap(s)) && !Abandons(At(s, RollingBack)) && !Abandons(Restore(s))
  {
    hide Rewritten;
  }

  lemma RecordedNotAbandoned(s: Site)
    requires CompactorOk(s.disk, s.job) && s.job.stage.Recording?
    ensures !Abandons(StepRecord(s)) && !Abandons(Leave(s, Raised))
  {
    hide Rewritten;
  }

  lemma UnlockedNotAbandoned(s: Site, e: Option<CompactionError>)
    ensures !Abandons(StepUnlock(s, e))
  {
  }

  lemma SessionGoesOn(d: Disk, s: Site, t: Site)
    requires InSession(d, s) && (Steps(s, t) || Raises(s, t))
    ensures InSession(d, t)
  {
    hide CompactorOk, DirOf, DirCanons, LogicalDir, Steps, Raises, LockMoves, NameFree, Abandons;
    NothingAbandoned(s, t);
    CompactionStepFootprint(s, t);
    EveryStepKeepsThePartition(s, t);
    NameStaysFree(s, t);
    LockFollowsStage(s, t);
  }

  lemma {:induction false} SessionHolds(d: Disk, sites: seq<Site>, i: nat)
    requires d.locks == map[] && Session(d, sites) && i < |sites|
    ensures InSession(d, sites[i])
  {
    hide InSession, Steps, Raises;
    if i == 0 {
      var id, m, n :| n >= 2 && id !in d.archives && sites[0].job == Begin(id, m, n);
      SessionBegins(d, id, m, n);
      assert sites[0] == Site(d, Begin(id, m, n));
    } else {
      SessionHolds(d, sites, i - 1);
      SessionGoesOn(d, sites[i - 1], sites[i]);
    }
  }

  /** A compaction that completes or rolls back changes nothing a reader can see. */
  lemma SessionIsInvisible(d: Disk, sites: seq<Site>)
    requires d.locks == map[] && Session(d, sites)
    ensures sites[|sites| - 1].disk.locks == map[]
    ensures TreeCanons(sites[|sites| - 1].disk.tree) == TreeCanons(d.tree)
  {
    hide TreeCanons, DirCanons, CompactorOk, DirOf, Steps, Raises;
    var end := sites[|sites| - 1];
    SessionHolds(d, sites, |sites| - 1);
    assert forall x :: x !in end.disk.locks;
    forall x ensures DirCanons(DirOf(end.disk.tree, x)) == DirCanons(DirOf(d.tree, x)) {
      assert LogicalDir(end.disk, end.job.month) == DirOf(end.disk.tree, end.job.month);
    }
    forall v ensures v in TreeCanons(end.disk.tree) <==> v in TreeCanons(d.tree) {
      TreeByDirs(end.disk.tree, v);
      TreeByDirs(d.tree, v);
    }
  }

  // ----- The history -----

  lemma RefusedWindowsAreEmpty(c: Contract, history: seq<Record>, source: string, windows: set<(int, int)>, now: Raw)
    requires WellFormed(c) && Consistent(Truth(c, history, source, now))
    requires Absent(c, EnrichAll(c, Select(c, history, windows), source, now)) != {}
    ensures Within(Truth(c, history, source, now), windows) == {}
  {
    hide Absent, Enrich, Valid, CanonAt, EventDate, InWindows, Consistent;
    forall v | v in Within(Truth(c, history, source, now), windows) ensures false {
      var raw :| raw in history && Valid(c, Enrich(c, raw, source, now), source).Some? && CanonAt(c, raw, source, now) == v;
      DatedInWindow(c, raw, windows, source, now);
      var n := SelectedIsOffered(c, history, windows, source, now, raw);
      MissingColumnLeavesNothingValid(c, EnrichAll(c, Select(c, history, windows), source, now), source, n);
    }
  }

  ghost predicate Lake(base: set<Canon>, truth: set<Canon>) {
    Consistent(base + truth)
  }

  lemma OpStaysBetween(
    c: Contract, history: seq<Record>, source: string, clocks: set<Raw>, now: Raw, base: set<Canon>,
    d: Disk, op: Op, e: Disk, low: set<(int, int)>, high: set<(int, int)>)
    requires SteadyOn(c, history, source, clocks) && now in clocks && Lake(base, Truth(c, history, source, now))
    requires Applies(c, history, source, clocks, d, op, e)
    requires Between(d, base, Truth(c, history, source, now), low, high)
    ensures Between(e, base, Truth(c, history, source, now), low + Finished(d, op), high + Touched(op))
  {
    hide TreeCanons, Truth, Within, Completes, OfferedAll, After, ClockParses, RulesAgree, WellFormed, Session, Absent;
    var truth := Truth(c, history, source, now);
    WithinUnion(truth, low, Finished(d, op));
    WithinUnion(truth, high, Touched(op));
    SmallerIsConsistent(base + truth, truth);
    match op {
      case Ingest(windows, tries) =>
        var news := Within(truth, windows);
        WithinIsPart(truth, windows);
        WithinIsPart(truth, high);
        SmallerIsConsistent(base + truth, TreeCanons(d.tree) + news);
        forall i | 0 <= i < |tries|
          ensures JobOk(tries[i].job) && Canons(tries[i].job.accepted) == news && FreshIn(d.tree, tries[i].job.runId)
        {
          OfferedCanons(c, history, source, clocks, now, windows, tries[i].job);
        }
        AttemptsAdd(d, tries, news);
      case Refuse(windows, t) =>
        TruthIgnoresClock(c, history, source, clocks, t, now);
        RefusedWindowsAreEmpty(c, history, source, windows, t);
      case Compact(sites) => SessionIsInvisible(d, sites);
    }
  }

  lemma SmallerIsConsistent(big: set<Canon>, small: set<Canon>)
    requires Consistent(big) && small <= big
    ensures Consistent(small)
  {
  }

  lemma WithinIsPart(canons: set<Canon>, windows: set<(int, int)>)
    ensures Within(canons, windows) <= canons
  {
  }

  lemma {:induction false} HistoryStaysBetween(
    c: Contract, history: seq<Record>, source: string, clocks: set<Raw>, now: Raw, disks: seq<Disk>, ops: seq<Op>)
    requires SteadyOn(c, history, source, clocks) && now in clocks && Operated(c, history, source, clocks, disks, ops)
    requires Lake(TreeCanons(disks[0].tree), Truth(c, history, source, now))
    ensures Between(disks[|ops|], TreeCanons(disks[0].tree), Truth(c, history, source, now),
                    AllFinished(disks, ops), AllTouched(ops))
  {
    hide TreeCanons, Truth, Lake, Applies, RulesAgree, ClockParses, WellFormed, Within, Finished;
    var truth := Truth(c, history, source, now);
    WithinUnion(truth, {}, {});
    if ops != [] {
      var n := |ops| - 1;
      HistoryStaysBetween(c, history, source, clocks, now, disks[..n + 1], ops[..n]);
      OpStaysBetween(c, history, source, clocks, now, TreeCanons(disks[0].tree), disks[n], ops[n], disks[n + 1],
                     AllFinished(disks[..n + 1], ops[..n]), AllTouched(ops[..n]));
    }
  }

  /** Incremental equals full refresh. Over a conflict-free provider history, once every day that any
      attempt touched lies in a window that was finished, the key-to-values map of the lake is the one
      a single undisturbed backfill of those windows leaves. */
  lemma IncrementalEqualsFullRefresh(
    c: Contract, history: seq<Record>, source: string, clocks: set<Raw>, now: Raw, disks: seq<Disk>, ops: seq<Op>, full: Job)
    requires SteadyOn(c, history, source, clocks) && now in clocks && Operated(c, history, source, clocks, disks, ops)
    requires Lake(TreeCanons(disks[0].tree), Truth(c, history, source, now))
    requires forall day :: InWindows(day, AllTouched(ops)) ==> InWindows(day, AllFinished(disks, ops))
    requires OfferedAll(c, history, source, clocks, AllFinished(disks, ops), full)
    requires FreshIn(disks[0].tree, full.runId) && !Blocked(disks[0], full)
    ensures var refreshed := Finish(disks[0], full);
      && refreshed.proc.phase.Done?
      && Retained(TreeCanons(disks[|ops|].tree)) == Retained(TreeCanons(refreshed.disk.tree))
      && Retained(TreeCanons(refreshed.disk.tree)).Some?
  {
    hide TreeCanons, Truth, InWindows, AllTouched, AllFinished, Applies, OfferedAll, WellFormed, RulesAgree, ClockParses,
      Finish, Blocked, OldFilesKept, OnePhysicalRow, View, JobOk;
    var base, truth := TreeCanons(disks[0].tree), Truth(c, history, source, now);
    HistoryStaysBetween(c, history, source, clocks, now, disks, ops);
    SmallerIsConsistent(base + truth, truth);
    OfferedCanons(c, history, source, clocks, now, AllFinished(disks, ops), full);
    WithinIsPart(truth, AllFinished(disks, ops));
    SmallerIsConsistent(base + truth, base + Canons(full.accepted));
    UndisturbedRun(disks[0], full);
    assert TreeCanons(disks[|ops|].tree) == base + Canons(full.accepted);
  }
}
