/** Histories in which a guarantee fails, from the empty lake on. */
module Hazards {
  import opened Rows
  import opened Dedup
  import opened Backfill
  import opened Compaction
  import opened Convergence
  import opened Warehouse
  import opened Agreement
  import opened Histories
  import opened FileHistory
  import opened TimeTravel

  const JANUARY := Month(2026, 1)
  const FEBRUARY := Month(2026, 2)

  /** A record `k` of January, another of the same month, and `k` again with a February date: in a
      dataset keyed by source and record id the date is not part of the key. */
  const FIRST := Row(Canon([Text("k")], Date(5, 2026, 1), "s", map[]), 0, "k")
  const OTHER := Row(Canon([Text("l")], Date(6, 2026, 1), "s", map[]), 0, "l")
  const MOVED := Row(Canon([Text("k")], Date(40, 2026, 2), "s", map[]), 0, "k")
  const LATER := Row(Canon([Text("n")], Date(7, 2026, 1), "s", map[]), 0, "n")

  /** January holds two ingested files. */
  ghost predicate TwoFiles(s: State) {
    && Reached(s) && s.compactors == map[] && s.runs.Keys == {"a", "c"}
    && s.runs["a"].phase.Done? && s.runs["a"].plan.added == [FIRST]
    && s.disk.locks == map[] && s.disk.archives == map[]
    && TreeCanons(s.disk.tree) == {OTHER.canon, FIRST.canon}
    && |DirOf(s.disk.tree, JANUARY)| == 2 && forall m :: m != JANUARY ==> DirOf(s.disk.tree, m) == map[]
  }

  lemma JanuaryIsIngested() returns (s: State)
    ensures TwoFiles(s)
  {
    hide Reached, TreeCanons, RunFrom, Remaining, AllNew;
    StartIsReached();
    assert "a"[0] != "c"[0] && "k"[0] != "l"[0];
    assert FIRST.Key()[0] != OTHER.Key()[0];
    NothingShown(EMPTY.disk.tree);
    OneRowIsIngested(EMPTY, "c", OTHER, false);
    var u := Ingested1(EMPTY, "c", OTHER, false);
    OneRowIsIngested(u, "a", FIRST, false);
    s := Ingested1(u, "a", FIRST, false);
  }

  /** January is parked between the two renames of compaction `z`. */
  ghost predicate JanuaryParked(s: State) {
    && Reached(s) && s.runs.Keys == {"a", "c"} && s.runs["a"].phase.Done? && s.runs["a"].plan.added == [FIRST]
    && s.disk.locks == map[JANUARY := "z"]
    && s.disk.archives.Keys == {"z"} && s.disk.archives["z"].month == JANUARY
    && FIRST.canon in DirCanons(s.disk.archives["z"].files)
    && "z" in s.compactors && s.compactors["z"].stage.Swapping? && s.compactors["z"].alive
    && s.compactors["z"].id == "z" && s.compactors["z"].month == JANUARY
    && forall m :: DirOf(s.disk.tree, m) == map[]
  }

  lemma TwoFilesCanPark(s: State)
    requires TwoFiles(s)
    ensures CanPark(s, "z", JANUARY) && FIRST.canon in DirCanons(s.disk.tree[JANUARY])
  {
    hide Reached, DirCanons, TreeCanons;
    assert "k"[0] != "l"[0];
    assert FIRST.canon.key[0] != OTHER.canon.key[0];
    forall v ensures v in TreeCanons(s.disk.tree) <==> v in DirCanons(DirOf(s.disk.tree, JANUARY)) {
      TreeByDirs(s.disk.tree, v);
      NothingInEmpty();
    }
  }

  lemma JanuaryIsParked() returns (s: State)
    ensures JanuaryParked(s)
  {
    hide Reached, DirCanons, TreeCanons;
    var u := JanuaryIsIngested();
    TwoFilesCanPark(u);
    s := Parks(u, "z", JANUARY);
    RemovedMonth(u.disk.tree, JANUARY);
    assert s.disk.locks == map[JANUARY := "z"];
    assert s.disk.archives == map["z" := Archive(JANUARY, u.disk.tree[JANUARY])];
  }

  ghost predicate PublishedAndDisagree(s: State, a: string, b: string) {
    && a in s.runs && b in s.runs && HasManifest(s.runs[a]) && HasManifest(s.runs[b])
    && exists v, w :: v in Own(s.runs[a]) && w in Own(s.runs[b]) && v.key == w.key && v != w
  }

  /** Two runs of a clean history can both publish and disagree on a key both wrote: the second one
      reads the lake back while the partition of the first is parked in the archive. */
  lemma ParkedPartitionHidesAConflict()
    ensures exists s, a, b :: Reached(s) && PublishedAndDisagree(s, a, b)
  {
    hide Reached, TreeCanons, DirCanons;
    var s := JanuaryIsParked();
    NothingShown(s.disk.tree);
    assert "b"[0] != "a"[0] && "b"[0] != "c"[0];
    OneRowIsIngested(s, "b", MOVED, false);
    var t := Ingested1(s, "b", MOVED, false);
    OwnIs(t.runs["a"], FIRST);
    OwnIs(t.runs["b"], MOVED);
    assert FIRST.canon in Own(t.runs["a"]) && MOVED.canon in Own(t.runs["b"]);
    assert PublishedAndDisagree(t, "a", "b");
  }

  lemma OwnIs(p: Proc, row: Row)
    requires p.plan.added == [row]
    ensures Own(p) == {row.canon}
  {
    CanonsAppend([], row);
  }

  // ----- A skipped rollback -----

  /** A run whose only month is locked gets as far as the promotion, which is refused but makes the
      partition directory. */
  lemma RefusedRun(d: Disk, runId: string, row: Row)
    requires MonthOf(row.canon) in d.locks && forall m :: DirOf(d.tree, m) == map[]
    ensures var w := Alone(World(d, Start(OneRow(runId, row, false))), 5);
      MonthOf(row.canon) in w.disk.tree && forall m :: DirOf(w.disk.tree, m) == map[]
  {
    hide Step, TreeCanons;
    var m, job := MonthOf(row.canon), OneRow(runId, row, false);
    var w := World(d, Start(job));
    var added := Plan(map[], [row], 0, [m]);
    assert Alone(w, 0) == w;
    FirstThree(d, runId, row);
    var w3 := World(d.(staged := d.staged[(runId, m) := [row]]), Start(job).(plan := added, phase := Staging(1)));
    assert Alone(w, 3) == w3;
    ToPromotion(w3);
    assert Alone(w, 4) == To(w3, Promoting(0));
    Refused(To(w3, Promoting(0)));
    assert Alone(w, 5) == Step(Alone(w, 4));
  }

  lemma FirstThree(d: Disk, runId: string, row: Row)
    requires forall m :: DirOf(d.tree, m) == map[]
    ensures var m, job := MonthOf(row.canon), OneRow(runId, row, false);
      Alone(World(d, Start(job)), 3) ==
      World(d.(staged := d.staged[(runId, m) := [row]]), Start(job).(plan := Plan(map[], [row], 0, [m]), phase := Staging(1)))
  {
    hide Step;
    var m, job := MonthOf(row.canon), OneRow(runId, row, false);
    var w := World(d, Start(job));
    assert Alone(w, 0) == w;
    QuietQuarantine(w);
    assert Alone(w, 1) == To(w, Reading);
    ReadsNothing(To(w, Reading), row);
    var w2 := w.(proc := w.proc.(phase := Staging(0), plan := Plan(map[], [row], 0, [m])));
    assert Alone(w, 2) == w2;
    StagesOne(w2, row);
    assert Alone(w, 3) == Step(w2);
  }

  lemma QuietQuarantine(w: World)
    requires w.proc.phase.Quarantining? && w.proc.job.rejected == []
    ensures Step(w) == To(w, Reading)
  {
  }

  lemma ReadsNothing(w: World, row: Row)
    requires w.proc.phase.Reading? && w.proc.job.accepted == [row] && forall m :: DirOf(w.disk.tree, m) == map[]
    ensures Step(w) == w.(proc := w.proc.(phase := Staging(0), plan := Plan(map[], [row], 0, [MonthOf(row.canon)])))
  {
    hide TreeCanons, View, Retained;
    NothingShown(w.disk.tree);
    EmptyView();
    OneMonth(row);
    OneNewRow(row);
    assert Step(w) == StepRead(w);
  }

  lemma EmptyView()
    ensures Retained({}) == Some(map[])
  {
  }

  lemma OneNewRow(row: Row)
    ensures Deduplicate([row], map[]) == Deduplicated([row], 0)
  {
    assert [row][1..] == [];
    assert [row] + [] == [row];
  }

  lemma OneMonth(row: Row)
    ensures Months([row]) == [MonthOf(row.canon)] && InMonth([row], MonthOf(row.canon)) == [row]
  {
    assert [row][..0] == [];
  }

  lemma StagesOne(w: World, row: Row)
    requires w.proc.phase == Staging(0) && w.proc.plan.added == [row] && w.proc.plan.months == [MonthOf(row.canon)]
    requires forall m :: DirOf(w.disk.tree, m) == map[]
    ensures Step(w) == World(w.disk.(staged := w.disk.staged[(w.proc.job.runId, MonthOf(row.canon)) := [row]]),
                             w.proc.(phase := Staging(1)))
  {
    OneMonth(row);
    assert DirOf(w.disk.tree, MonthOf(row.canon)) == map[];
    assert Step(w) == StepStage(w, 0);
  }

  lemma ToPromotion(w: World)
    requires w.proc.phase == Staging(|w.proc.plan.months|)
    ensures Step(w) == To(w, Promoting(0))
  {
  }

  lemma Refused(w: World)
    requires w.proc.phase == Promoting(0) && |w.proc.plan.months| == 1 && w.proc.plan.months[0] in w.disk.locks
    requires forall m :: DirOf(w.disk.tree, m) == map[]
    ensures w.proc.plan.months[0] in Step(w).disk.tree && forall m :: DirOf(Step(w).disk.tree, m) == map[]
  {
    assert Step(w) == StepPromote(w, 0);
    LockRefusesPromotion(w, 0);
    RefusedPromotionMakesTheDirectory(w, 0);
  }

  /** The exception strikes, the rollback finds the name taken, the lock is released. */
  lemma RollbackIsSkipped(s: Site) returns (a: Site, b: Site, c: Site)
    requires s.job.stage.Swapping? && s.job.month in s.disk.tree && !s.job.swapped && s.job.id in s.disk.archives
    ensures Raises(s, a) && Steps(a, b) && Steps(b, c)
    ensures !Abandons(a) && Abandons(b) && a.disk == s.disk && b.disk == s.disk
    ensures a.job.alive == b.job.alive == s.job.alive
    ensures c.disk == s.disk.(locks := s.disk.locks - {s.job.month})
  {
    a := At(s, RollingBack);
    b := Leave(a, Raised);
    c := StepUnlock(b, Some(Raised));
  }

  ghost predicate Loses(s: State, t: State, v: Canon) {
    Holds(s.disk, v) && !Holds(t.disk, v)
  }

  /** A history that loses records: the refused promotion makes the directory, the swap raises, the
      rollback is skipped and the lock is released. Every action but the last one is clean. */
  lemma SkippedRollbackLosesRecords()
    ensures exists s, id, t, v :: Reached(s) && Next(s, CompactionStep(id), t) && Loses(s, t, v)
  {
    hide Reached, TreeCanons, DirCanons, Steps, Raises, Abandons, Alone;
    var s := JanuaryIsParked();
    assert "n"[0] != "a"[0] && "n"[0] != "c"[0];
    var job := OneRow("n", LATER, false);
    OneRowIsOk("n", LATER);
    RunFromIsReached(s, job, 5);
    var u := RunFrom(s, job, 5);
    RefusedRun(s.disk, "n", LATER);
    AloneKeeps(World(s.disk, Start(job)), 5);
    var site := SiteOf(u, "z");
    StaysParked(u);
    var a, b, c := RollbackIsSkipped(site);
    var ua := WithSite(u, "z", a);
    NotUnlocking(u);
    ReachedNext(u, CompactionRaises("z"), ua);
    assert SiteOf(ua, "z") == a;
    CompactionIsReached(ua, "z", b);
    var ub := WithSite(ua, "z", b);
    assert SiteOf(ub, "z") == b;
    var uc := WithSite(ub, "z", c);
    assert Next(ub, CompactionStep("z"), uc);
    LostAfterUnlock(ub.disk, uc.disk);
    assert Loses(ub, uc, FIRST.canon);
  }

  lemma OneRowIsOk(runId: string, row: Row)
    ensures JobOk(OneRow(runId, row, false))
  {
  }

  lemma StaysParked(s: State)
    requires Reached(s) && "z" in s.compactors && s.compactors["z"].stage.Swapping?
    ensures !s.compactors["z"].swapped
  {
    hide Reached, Inv, Rewritten;
    ReachedInv(s);
    CompactorIs(s, "z");
  }

  lemma NotUnlocking(s: State)
    requires "z" in s.compactors && s.compactors["z"].stage.Swapping?
    ensures !Abandons(SiteOf(s, "z"))
  {
  }

  lemma LostAfterUnlock(d: Disk, e: Disk)
    requires d.locks == map[JANUARY := "z"] && "z" in d.archives && d.archives["z"].month == JANUARY
    requires FIRST.canon in DirCanons(d.archives["z"].files) && forall m :: DirOf(d.tree, m) == map[]
    requires e == d.(locks := d.locks - {JANUARY})
    ensures Holds(d, FIRST.canon) && !Holds(e, FIRST.canon)
  {
    hide DirCanons;
    assert LogicalDir(d, JANUARY) == d.archives["z"].files;
    NothingInEmpty();
    assert forall m :: LogicalDir(e, m) == map[];
  }

  // ----- An exception after the swap -----

  /** The item was recorded by a build, and no search of the compaction records finds it. */
  ghost predicate Unresolvable(s: State, item: Item) {
    item in s.builds && forall ids :: Resolve(s.disk, item.month, item.name, ids) == Nowhere
  }

  /** The swap succeeds, the next write raises, the lock is released. */
  lemma RaisesAfterSwap(s: Site) returns (a: Site, b: Site, c: Site)
    requires s.job.stage.Swapping? && s.job.month !in s.disk.tree
    ensures Steps(s, a) && Raises(a, b) && Steps(b, c)
    ensures a.job.stage.Recording? && !Abandons(s) && !Abandons(b) && a.job.alive == b.job.alive == s.job.alive
    ensures a.job.id == s.job.id && a.job.month == s.job.month && a.job.before == s.job.before
    ensures a.disk.archives == s.disk.archives && a.disk.compactions == s.disk.compactions
  {
    a := StepSwap(s);
    b := Leave(a, Raised);
    c := StepUnlock(b, Some(Raised));
  }

  /** In a history nobody has a file named after a compaction that is still to come, nor its record. */
  lemma NewCompactionIsFresh(s: State, id: string, m: Month)
    requires Reached(s) && id !in s.compactors
    ensures Compact(id) !in DirOf(s.disk.tree, m) && id !in s.disk.compactions
    ensures NamesUnique(s.disk)
  {
    hide CleanBehavior, Inv, DirOf, InArchive;
    var states, actions :| CleanBehavior(states, actions) && EndsIn(states, s);
    FilesInvHolds(states, actions, |states| - 1);
    RecordsHold(states, actions, |states| - 1);
    assert !Known(s, m, Compact(id));
    assert !InTree(s.disk, m, Compact(id));
  }

  /** Whatever build recorded a file of a partition that can be compacted, a history can go on to a
      state in which that file cannot be found any more. */
  lemma AnyArtifactCanBecomeUnresolvable(s: State, id: string, m: Month, item: Item) returns (t: State)
    requires Reached(s) && CanPark(s, id, m)
    requires item in s.builds && item.month == m && item.name in s.disk.tree[m]
    ensures Reached(t) && Unresolvable(t, item)
  {
    hide Reached, Steps, Raises, DirCanons, Consistent, CompactorOk, NamesUnique, Abandons, Inv, Resolve;
    NewCompactionIsFresh(s, id, m);
    var u := Parks(s, id, m);
    var a, b, c := RaisesAfterSwap(SiteOf(u, id));
    CompactionIsReached(u, id, a);
    var ua := WithSite(u, id, a);
    assert SiteOf(ua, id) == a;
    var ub := WithSite(ua, id, b);
    RaisingIsReached(ua, id, b);
    assert SiteOf(ub, id) == b;
    CompactionIsReached(ub, id, c);
    t := WithSite(ub, id, c);
    CompactorIsOk(ua, id);
    OnlyArchive(s, u, id, item);
    assert forall x :: InArchive(a.disk, x, item.month, item.name) ==> InArchive(u.disk, x, item.month, item.name);
    forall ids ensures Resolve(t.disk, item.month, item.name, ids) == Nowhere {
      FailureAfterSwapIsUnresolvable(a, b, c, item.name, ids);
    }
  }

  lemma RaisingIsReached(s: State, id: string, u: Site)
    requires Reached(s) && id in s.compactors && s.compactors[id].alive && Raises(SiteOf(s, id), u)
    ensures Reached(WithSite(s, id, u))
  {
    hide Reached, Raises;
    ReachedNext(s, CompactionRaises(id), WithSite(s, id, u));
  }

  lemma CompactorIsOk(s: State, id: string)
    requires Reached(s) && id in s.compactors
    ensures CompactorOk(s.disk, s.compactors[id])
  {
    hide Reached, CompactorOk, RunsInv, LocksInv;
    ReachedInv(s);
  }

  /** A file of the lake is in no archive, so after the partition was parked it is in one only. */
  lemma OnlyArchive(s: State, t: State, id: string, item: Item)
    requires NamesUnique(s.disk) && ParkedBy(s, t, id, item.month) && item.name in s.disk.tree[item.month]
    ensures forall c :: InArchive(t.disk, c, item.month, item.name) ==> c == id
  {
    assert InTree(s.disk, item.month, item.name);
    assert forall c :: InArchive(t.disk, c, item.month, item.name) && c != id ==> InArchive(s.disk, c, item.month, item.name);
  }

  /** A clean history from the empty lake: January is ingested, a build records its files, a compaction
      swaps the partition and fails before its record is written. The build cannot be reproduced. */
  lemma FailedCompactionHidesABuild()
    ensures exists s, item :: Reached(s) && Unresolvable(s, item)
  {
    hide Reached, TreeCanons, DirCanons, Unresolvable, Snapshot;
    var s := JanuaryIsIngested();
    TwoFilesCanPark(s);
    var u := s.(builds := s.builds + Snapshot(s.disk.tree));
    ReachedNext(s, RecordBuild, u);
    var n :| n in s.disk.tree[JANUARY];
    var item := Item(JANUARY, n, s.disk.tree[JANUARY][n]);
    SnapshotHas(s.disk.tree, item);
    var t := AnyArtifactCanBecomeUnresolvable(u, "z", JANUARY, item);
  }
}
