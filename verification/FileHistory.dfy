/** Where every file of the lake is, through promotions, archiving, restoring and swapping: no file
    is ever lost, changed, or in two places. */
module FileHistory {
  import opened Rows
  import opened Backfill
  import opened Compaction
  import opened Warehouse

  // ----- Where files are -----

  ghost predicate InTree(d: Disk, m: Month, n: Name) {
    n in DirOf(d.tree, m)
  }

  ghost predicate InArchive(d: Disk, id: string, m: Month, n: Name) {
    id in d.archives && d.archives[id].month == m && n in d.archives[id].files
  }

  /** The file is still somewhere, with the content it had. */
  ghost predicate Kept(d: Disk, item: Item) {
    || (InTree(d, item.month, item.name) && DirOf(d.tree, item.month)[item.name] == item.rows)
    || exists id :: InArchive(d, id, item.month, item.name) && d.archives[id].files[item.name] == item.rows
  }

  ghost predicate PromotedTo(p: Proc, m: Month) {
    exists j :: 0 <= j < p.written && j < |p.plan.months| && p.plan.months[j] == m
  }

  /** A file name is accounted for by the run or the compaction that created it. */
  ghost predicate Known(s: State, m: Month, n: Name) {
    match n
    case Part(r) => r in s.runs && PromotedTo(s.runs[r], m)
    case Compact(c) => c in s.compactors && s.compactors[c].month == m && s.compactors[c].swapped
  }

  ghost predicate NamesKnown(s: State) {
    && (forall m, n :: InTree(s.disk, m, n) ==> Known(s, m, n))
    && (forall id, m, n :: InArchive(s.disk, id, m, n) ==> Known(s, m, n))
  }

  /** No file name of a month is in two places. */
  ghost predicate NamesUnique(d: Disk) {
    && (forall id, m, n :: InArchive(d, id, m, n) ==> !InTree(d, m, n))
    && (forall id, c, m, n :: InArchive(d, id, m, n) && InArchive(d, c, m, n) ==> id == c)
  }

  ghost predicate BuildsKept(s: State) {
    forall item :: item in s.builds ==> Kept(s.disk, item)
  }

  ghost predicate FilesInv(s: State) {
    NamesKnown(s) && NamesUnique(s.disk) && BuildsKept(s)
  }

  // ----- The five ways the set of files changes -----

  ghost predicate SameFiles(d: Disk, e: Disk) {
    (forall m :: DirOf(e.tree, m) == DirOf(d.tree, m)) && e.archives == d.archives
  }

  ghost predicate FileAdded(d: Disk, e: Disk, m: Month, n: Name, rows: seq<Row>) {
    && n !in DirOf(d.tree, m) && DirOf(e.tree, m) == DirOf(d.tree, m)[n := rows]
    && (forall x :: x != m ==> DirOf(e.tree, x) == DirOf(d.tree, x)) && e.archives == d.archives
  }

  ghost predicate DirArchived(d: Disk, e: Disk, id: string, m: Month) {
    && id !in d.archives && e.archives == d.archives[id := Archive(m, DirOf(d.tree, m))]
    && DirOf(e.tree, m) == map[] && (forall x :: x != m ==> DirOf(e.tree, x) == DirOf(d.tree, x))
  }

  ghost predicate DirRestored(d: Disk, e: Disk, id: string, m: Month) {
    && id in d.archives && d.archives[id].month == m && e.archives == d.archives - {id}
    && DirOf(d.tree, m) == map[] && DirOf(e.tree, m) == d.archives[id].files
    && (forall x :: x != m ==> DirOf(e.tree, x) == DirOf(d.tree, x))
  }

  /** No file of `d` is lost or moved to a second place in `e`, and only `fresh` names appear. */
  ghost predicate FilesMove(d: Disk, e: Disk, m: Month, new_: set<Name>) {
    && (forall item :: Kept(d, item) ==> Kept(e, item))
    && (NamesUnique(d) ==> NamesUnique(e))
    && (forall x, n :: Placed(e, x, n) ==> Placed(d, x, n) || (x == m && n in new_))
  }

  ghost predicate Placed(d: Disk, m: Month, n: Name) {
    InTree(d, m, n) || exists id :: InArchive(d, id, m, n)
  }

  lemma SameFilesMove(d: Disk, e: Disk, m: Month)
    requires SameFiles(d, e)
    ensures FilesMove(d, e, m, {})
  {
    hide DirOf;
    assert forall x, n :: InTree(d, x, n) <==> InTree(e, x, n);
    assert forall id, x, n :: InArchive(d, id, x, n) <==> InArchive(e, id, x, n);
    forall item | Kept(d, item) ensures Kept(e, item) {
      if !InTree(d, item.month, item.name) {
        var id :| InArchive(d, id, item.month, item.name) && d.archives[id].files[item.name] == item.rows;
        assert InArchive(e, id, item.month, item.name);
      }
    }
  }

  lemma AddedFilesMove(d: Disk, e: Disk, m: Month, n: Name, rows: seq<Row>)
    requires FileAdded(d, e, m, n, rows) && !Placed(d, m, n)
    ensures FilesMove(d, e, m, {n})
  {
    hide DirOf;
    assert forall x, y :: InTree(e, x, y) <==> InTree(d, x, y) || (x == m && y == n);
    assert forall id, x, y :: InArchive(d, id, x, y) <==> InArchive(e, id, x, y);
    forall item | Kept(d, item) ensures Kept(e, item) {
      if InTree(d, item.month, item.name) && DirOf(d.tree, item.month)[item.name] == item.rows {
        assert InTree(e, item.month, item.name);
        assert DirOf(e.tree, item.month)[item.name] == item.rows;
      } else {
        var id :| InArchive(d, id, item.month, item.name) && d.archives[id].files[item.name] == item.rows;
        assert InArchive(e, id, item.month, item.name);
      }
    }
    forall x, y | Placed(e, x, y) ensures Placed(d, x, y) || (x == m && y == n) {
      if !InTree(e, x, y) {
        var id :| InArchive(e, id, x, y);
        assert InArchive(d, id, x, y);
      }
    }
  }

  lemma ArchivedFilesMove(d: Disk, e: Disk, id: string, m: Month)
    requires DirArchived(d, e, id, m)
    ensures FilesMove(d, e, m, {})
  {
    hide DirOf;
    forall item | Kept(d, item) ensures Kept(e, item) {
      if InTree(d, item.month, item.name) && DirOf(d.tree, item.month)[item.name] == item.rows {
        if item.month == m {
          assert InArchive(e, id, m, item.name);
        } else {
          assert InTree(e, item.month, item.name);
        }
      } else {
        var c :| InArchive(d, c, item.month, item.name) && d.archives[c].files[item.name] == item.rows;
        assert InArchive(e, c, item.month, item.name);
      }
    }
    forall x, n | Placed(e, x, n) ensures Placed(d, x, n) {
      ArchivedPlace(d, e, id, m, x, n);
    }
    if NamesUnique(d) {
      ArchivedUnique(d, e, id, m);
    }
  }

  lemma ArchivedPlace(d: Disk, e: Disk, id: string, m: Month, x: Month, n: Name)
    requires DirArchived(d, e, id, m) && Placed(e, x, n)
    ensures Placed(d, x, n)
  {
    hide DirOf;
    if InTree(e, x, n) {
      assert InTree(d, x, n);
    } else {
      var c :| InArchive(e, c, x, n);
      if c == id {
        assert InTree(d, x, n);
      } else {
        assert InArchive(d, c, x, n);
      }
    }
  }

  lemma ArchivedUnique(d: Disk, e: Disk, id: string, m: Month)
    requires DirArchived(d, e, id, m) && NamesUnique(d)
    ensures NamesUnique(e)
  {
    hide DirOf;
    forall c, x, n | InArchive(e, c, x, n) ensures !InTree(e, x, n) {
      if c != id { assert InArchive(d, c, x, n); }
    }
    forall a, c, x, n | InArchive(e, a, x, n) && InArchive(e, c, x, n) ensures a == c {
      assert a != id ==> InArchive(d, a, x, n);
      assert c != id ==> InArchive(d, c, x, n);
      assert a == id || c == id ==> InTree(d, x, n);
    }
  }

  lemma RestoredFilesMove(d: Disk, e: Disk, id: string, m: Month)
    requires DirRestored(d, e, id, m)
    ensures FilesMove(d, e, m, {})
  {
    hide DirOf;
    forall item | Kept(d, item) ensures Kept(e, item) {
      if InTree(d, item.month, item.name) && DirOf(d.tree, item.month)[item.name] == item.rows {
        assert InTree(e, item.month, item.name);
      } else {
        var c :| InArchive(d, c, item.month, item.name) && d.archives[c].files[item.name] == item.rows;
        if c == id {
          assert InTree(e, m, item.name);
        } else {
          assert InArchive(e, c, item.month, item.name);
        }
      }
    }
    forall x, n | Placed(e, x, n) ensures Placed(d, x, n) {
      if InTree(e, x, n) {
        assert if x == m then InArchive(d, id, x, n) else InTree(d, x, n);
      } else {
        var c :| InArchive(e, c, x, n);
        assert InArchive(d, c, x, n);
      }
    }
    assert forall c, x, n :: InArchive(e, c, x, n) ==> InArchive(d, c, x, n) && c != id;
    assert forall n :: InTree(e, m, n) ==> InArchive(d, id, m, n);
    assert forall x, n :: x != m && InTree(e, x, n) ==> InTree(d, x, n);
  }

  // ----- Every action is one of these -----

  lemma RunMovesFiles(s: State, r: string, t: State) returns (m: Month, new_: set<Name>)
    requires Inv(s) && NamesKnown(s) && r in s.runs && t == WithWorld(s, r, Step(WorldOf(s, r)))
    ensures FilesMove(s.disk, t.disk, m, new_)
    ensures forall n :: n in new_ ==> Known(t, m, n)
  {
    hide FilesMove, RunOk, CompactorsInv, LocksInv, DirOf, Step, PromotedTo, SameFiles, FileAdded;
    var w := WorldOf(s, r);
    if w.proc.phase.Promoting? && w.proc.phase.next < |w.proc.plan.months| && !Step(w).proc.phase.Failed? {
      m, new_ := w.proc.plan.months[w.proc.phase.next], {Part(r)};
      PromotionAdds(s, r);
      AddedFilesMove(s.disk, t.disk, m, Part(r), s.disk.staged[(r, m)]);
    } else {
      m, new_ := Month(0, 0), {};
      OtherRunStepsKeepFiles(w);
      SameFilesMove(s.disk, t.disk, m);
    }
  }

  lemma OtherRunStepsKeepFiles(w: World)
    requires w.proc.phase.Promoting? && w.proc.phase.next < |w.proc.plan.months| ==> Step(w).proc.phase.Failed?
    ensures SameFiles(w.disk, Step(w).disk)
  {
    hide StepQuarantine, StepRead, StepStage, StepPromote, StepReread, StepAudit, StepPublish, StepAdvance, DirOf;
    match w.proc.phase {
      case Quarantining => assert Step(w) == StepQuarantine(w);
      case Reading => assert Step(w) == StepRead(w);
      case Promoting(i) => if i < |w.proc.plan.months| { RefusedPromotion(w, i); }
      case Rereading => assert Step(w) == StepReread(w);
      case Auditing => assert Step(w) == StepAudit(w);
      case Publishing => assert Step(w) == StepPublish(w);
      case Advancing => assert Step(w) == StepAdvance(w);
      case _ =>
    }
  }

  lemma PromotionAdds(s: State, r: string)
    requires Inv(s) && NamesKnown(s) && r in s.runs
    requires var w := WorldOf(s, r);
      w.proc.phase.Promoting? && w.proc.phase.next < |w.proc.plan.months| && !Step(w).proc.phase.Failed?
    ensures var w := WorldOf(s, r);
      var m := w.proc.plan.months[w.proc.phase.next];
      && (r, m) in s.disk.staged
      && FileAdded(s.disk, Step(w).disk, m, Part(r), s.disk.staged[(r, m)])
      && !Placed(s.disk, m, Part(r))
      && PromotedTo(Step(w).proc, m)
  {
    hide StepPromote, DirOf, CompactorsInv, LocksInv, Holds, Months, JobOk, DistinctKeys;
    var w := WorldOf(s, r);
    var i := w.proc.phase.next;
    var m := w.proc.plan.months[i];
    assert Step(w) == StepPromote(w, i);
    SuccessfulPromotion(w, i);
    assert RunOk(s.disk, w.proc);
    assert Step(w).proc.plan.months[i] == m;
    assert forall j :: 0 <= j < i ==> Before(w.proc.plan.months[j], w.proc.plan.months[i]);
    assert !PromotedTo(w.proc, m);
    assert !Known(s, m, Part(r));
  }

  lemma CompactionMovesFiles(s: State, id: string, u: Site, t: State) returns (new_: set<Name>)
    requires Inv(s) && NamesKnown(s) && id in s.compactors && t == WithSite(s, id, u)
    requires Steps(SiteOf(s, id), u) || Raises(SiteOf(s, id), u)
    ensures FilesMove(s.disk, t.disk, s.compactors[id].month, new_)
    ensures forall n :: n in new_ ==> Known(t, s.compactors[id].month, n)
  {
    hide FilesMove, RunsInv, LocksInv, DirOf, StepRewrite, StepArchive, StepSwap, Restore, CompactorOk, Placed, SameFiles;
    var site := SiteOf(s, id);
    var k := site.job;
    new_ := {};
    if k.stage.Archiving? && u == StepArchive(site) && u.job.stage.Swapping? {
      ArchiveEffect(site);
      ArchivedFilesMove(s.disk, t.disk, id, k.month);
    } else if k.stage.Swapping? && u == StepSwap(site) && u.job.stage.Recording? {
      new_ := {Compact(id)};
      SwapEffect(s, id);
      AddedFilesMove(s.disk, t.disk, k.month, Compact(id), k.out);
    } else if id in s.disk.archives && u == Restore(site) && (k.stage.Swapping? || k.stage.RollingBack?) {
      RestoreEffect(site);
      RestoredFilesMove(s.disk, t.disk, id, k.month);
    } else {
      if k.stage.Rewriting? && Steps(site, u) {
        RewriteLeaves(site, u);
      }
      QuietStages(site, u);
      SameFilesMove(s.disk, t.disk, k.month);
    }
  }

  lemma LockKeepsFiles(s: Site)
    ensures SameFiles(s.disk, StepLock(s).disk)
  {
  }

  lemma RefusedArchive(s: Site)
    ensures StepArchive(s).job.stage.Swapping? || SameFiles(s.disk, StepArchive(s).disk)
  {
  }

  lemma RefusedSwap(s: Site)
    ensures StepSwap(s).job.stage.Recording? || SameFiles(s.disk, StepSwap(s).disk)
  {
  }

  lemma RecordKeepsFiles(s: Site)
    ensures SameFiles(s.disk, StepRecord(s).disk)
  {
  }

  lemma UnlockKeepsFiles(s: Site, e: Option<CompactionError>)
    ensures SameFiles(s.disk, StepUnlock(s, e).disk)
  {
  }

  lemma SameDiskSameFiles(d: Disk, e: Disk)
    requires e == d.(rewrites := e.rewrites)
    ensures SameFiles(d, e)
  {
  }

  lemma QuietStages(s: Site, u: Site)
    requires Steps(s, u) || Raises(s, u)
    requires s.job.stage.Rewriting? && Steps(s, u) ==> u.disk == s.disk.(rewrites := u.disk.rewrites)
    requires !(s.job.stage.Archiving? && u == StepArchive(s) && u.job.stage.Swapping?)
    requires !(s.job.stage.Swapping? && u == StepSwap(s) && u.job.stage.Recording?)
    requires !(s.job.id in s.disk.archives && u == Restore(s) && (s.job.stage.Swapping? || s.job.stage.RollingBack?))
    ensures SameFiles(s.disk, u.disk)
  {
    hide DirOf, StepRewrite, Restore, StepLock, StepArchive, StepSwap, StepRecord, StepUnlock, SameFiles;
    SameDiskSameFiles(s.disk, s.disk);
    match s.job.stage {
      case Locking => LockKeepsFiles(s);
      case Rewriting => SameDiskSameFiles(s.disk, u.disk);
      case Archiving => RefusedArchive(s);
      case Swapping => RefusedSwap(s);
      case Recording => RecordKeepsFiles(s);
      case Unlocking(e) => UnlockKeepsFiles(s, e);
      case _ =>
    }
  }

  lemma ArchiveEffect(s: Site)
    requires StepArchive(s).job.stage.Swapping? && s.job.stage.Archiving?
    ensures DirArchived(s.disk, StepArchive(s).disk, s.job.id, s.job.month)
  {
  }

  lemma RestoreEffect(s: Site)
    requires CompactorOk(s.disk, s.job) && (s.job.stage.Swapping? || s.job.stage.RollingBack?)
    requires s.job.id in s.disk.archives
    ensures DirRestored(s.disk, Restore(s).disk, s.job.id, s.job.month)
  {
    hide Rewritten;
    assert Parked(s.disk, s.job);
  }

  lemma SwapEffect(s: State, id: string)
    requires Inv(s) && NamesKnown(s) && id in s.compactors && s.compactors[id].stage.Swapping?
    requires StepSwap(SiteOf(s, id)).job.stage.Recording?
    ensures var k := s.compactors[id];
      && FileAdded(s.disk, StepSwap(SiteOf(s, id)).disk, k.month, Compact(id), k.out)
      && !Placed(s.disk, k.month, Compact(id))
      && StepSwap(SiteOf(s, id)).job.swapped && StepSwap(SiteOf(s, id)).job.month == k.month
  {
    hide RunsInv, LocksInv, Rewritten;
    var k := s.compactors[id];
    assert k.id == id && Parked(s.disk, k);
    assert !Known(s, k.month, Compact(id));
  }

  // ----- The invariant -----

  lemma FilesMoved(s: State, t: State, m: Month, new_: set<Name>)
    requires FilesInv(s) && FilesMove(s.disk, t.disk, m, new_) && t.builds == s.builds
    requires forall x, n :: Known(s, x, n) ==> Known(t, x, n)
    requires forall n :: n in new_ ==> Known(t, m, n)
    ensures FilesInv(t)
  {
    hide InTree, InArchive, Known, Kept;
    forall x, n | Placed(t.disk, x, n) ensures Known(t, x, n) {
      if Placed(s.disk, x, n) {
        assert Known(s, x, n);
      }
    }
    assert forall x, n :: InTree(t.disk, x, n) ==> Placed(t.disk, x, n);
    assert forall id, x, n :: InArchive(t.disk, id, x, n) ==> Placed(t.disk, x, n);
  }

  /** A run never forgets a promotion, a compaction never forgets its swap. */
  lemma KnownStaysKnown(s: State, a: Action, t: State, m: Month, n: Name)
    requires Inv(s) && Next(s, a, t) && Known(s, m, n)
    ensures Known(t, m, n)
  {
    hide Step, Steps, Raises, RunOk, CompactorOk, LocksInv;
    match a {
      case RunStep(r) => PromotionsStay(s.disk, s.runs[r], m);
      case CompactionStep(id) =>
        var u :| Steps(SiteOf(s, id), u) && t == WithSite(s, id, u);
        SwapStays(SiteOf(s, id), u);
      case CompactionRaises(id) =>
        var u :| Raises(SiteOf(s, id), u) && t == WithSite(s, id, u);
        SwapStays(SiteOf(s, id), u);
      case _ =>
    }
  }

  lemma PromotionsStay(d: Disk, p: Proc, m: Month)
    requires RunOk(d, p)
    ensures PromotedTo(p, m) ==> PromotedTo(Step(World(d, p)).proc, m)
  {
    hide StepQuarantine, StepRead, StepStage, StepPromote, StepReread, StepAudit, StepPublish, StepAdvance;
    hide PlanOk, AllHeld, JobOk;
    var w := World(d, p);
    match p.phase {
      case Quarantining => assert Step(w) == StepQuarantine(w);
      case Staging(i) => if i < |p.plan.months| { assert Step(w) == StepStage(w, i); }
      case Promoting(i) => if i < |p.plan.months| { WrittenGrows(w, i); }
      case Rereading => assert Step(w) == StepReread(w);
      case Auditing => assert Step(w) == StepAudit(w);
      case Publishing => assert Step(w) == StepPublish(w);
      case Advancing => assert Step(w) == StepAdvance(w);
      case _ =>
    }
  }

  lemma WrittenGrows(w: World, i: nat)
    requires i < |w.proc.plan.months|
    ensures StepPromote(w, i).proc.written >= w.proc.written && StepPromote(w, i).proc.plan == w.proc.plan
  {
    hide DirOf, StepPromote;
    if !StepPromote(w, i).proc.phase.Failed? {
      SuccessfulPromotion(w, i);
    }
  }

  lemma SwapStays(s: Site, u: Site)
    requires Steps(s, u) || Raises(s, u)
    ensures s.job.swapped ==> u.job.swapped
    ensures u.job.month == s.job.month
  {
    hide DirOf, Compacts, DirCanons, Consistent, Keys;
  }

  lemma NextKeepsFiles(s: State, a: Action, t: State)
    requires Inv(s) && FilesInv(s) && Next(s, a, t)
    ensures FilesInv(t)
  {
    hide Inv, FilesInv, FilesMove, Step, Steps, Raises, Known, DirOf;
    forall x, n | Known(s, x, n) ensures Known(t, x, n) {
      KnownStaysKnown(s, a, t, x, n);
    }
    NamesPart(s);
    match a {
      case RunStep(r) =>
        var m, new_ := RunMovesFiles(s, r, t);
        FilesMoved(s, t, m, new_);
      case CompactionStep(id) =>
        var u :| Steps(SiteOf(s, id), u) && t == WithSite(s, id, u);
        var new_ := CompactionMovesFiles(s, id, u, t);
        FilesMoved(s, t, s.compactors[id].month, new_);
      case CompactionRaises(id) =>
        var u :| Raises(SiteOf(s, id), u) && t == WithSite(s, id, u);
        var new_ := CompactionMovesFiles(s, id, u, t);
        FilesMoved(s, t, s.compactors[id].month, new_);
      case RecordBuild => RecordingKeepsFiles(s, t);
      case _ =>
        SameFilesMove(s.disk, t.disk, Month(0, 0));
        FilesMoved(s, t, Month(0, 0), {});
    }
  }

  lemma NamesPart(s: State)
    requires FilesInv(s)
    ensures NamesKnown(s)
  {
  }

  lemma RecordingKeepsFiles(s: State, t: State)
    requires FilesInv(s) && t == s.(builds := s.builds + Snapshot(s.disk.tree))
    ensures FilesInv(t)
  {
    hide NamesUnique;
    forall item | item in Snapshot(s.disk.tree) ensures Kept(t.disk, item) {
      assert InTree(t.disk, item.month, item.name);
    }
  }

  lemma {:induction false} FilesInvHolds(states: seq<State>, actions: seq<Action>, i: nat)
    requires CleanBehavior(states, actions) && i < |states|
    ensures FilesInv(states[i])
  {
    hide Next, Clean, Inv, FilesInv;
    if i == 0 {
      NoFilesYet();
    } else {
      FilesInvHolds(states, actions, i - 1);
      InvHolds(states, actions, i - 1);
      NextKeepsFiles(states[i - 1], actions[i - 1], states[i]);
    }
  }

  lemma NoFilesYet()
    ensures FilesInv(EMPTY)
  {
  }
}
