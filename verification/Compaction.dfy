/** Rewriting one partition into a single file, behind a lock, by two directory renames. */
module Compaction {
  import opened Rows
  import opened Dedup
  import opened Ordering
  import opened Backfill

  // ----- The rewrite -----

  ghost predicate RowOfDir(dir: Dir, r: Row) {
    exists n :: n in dir && r in dir[n]
  }

  /** The rewritten file: one row per key of the partition, and none of its copies is newer. Ties
      are broken arbitrarily. */
  ghost predicate Compacts(dir: Dir, out: seq<Row>) {
    && DistinctKeys(out)
    && (forall r :: r in out ==> RowOfDir(dir, r))
    && (forall v :: v in DirCanons(dir) ==> v.key in Keys(Canons(out)))
    && (forall r, s :: r in out && RowOfDir(dir, s) && s.Key() == r.Key() ==> !Newer(s, r))
  }

  /** A conflict-free partition and its rewrite hold the same canonical records. */
  lemma CompactionKeepsCanons(dir: Dir, out: seq<Row>)
    requires Compacts(dir, out) && Consistent(DirCanons(dir))
    ensures Canons(out) == DirCanons(dir)
  {
    forall v | v in Canons(out) ensures v in DirCanons(dir) {
      var i :| 0 <= i < |out| && out[i].canon == v;
      assert RowOfDir(dir, out[i]);
      RowCanon(dir, out[i]);
    }
    forall v | v in DirCanons(dir) ensures v in Canons(out) {
      var w :| w in Canons(out) && w.key == v.key;
    }
  }

  lemma RowCanon(dir: Dir, r: Row)
    requires RowOfDir(dir, r)
    ensures r.canon in DirCanons(dir)
  {
    var n :| n in dir && r in dir[n];
    var i :| 0 <= i < |dir[n]| && dir[n][i] == r;
    assert dir[n][i].canon in Canons(dir[n]);
  }

  /** The row-count check after the rewrite can never fire. */
  lemma RowCountCheckNeverFires(dir: Dir, out: seq<Row>)
    requires Compacts(dir, out)
    ensures |out| == |Keys(DirCanons(dir))|
  {
    DistinctKeyCount(out);
    forall k | k in Keys(Canons(out)) ensures k in Keys(DirCanons(dir)) {
      var i :| 0 <= i < |out| && out[i].canon.key == k;
      assert RowOfDir(dir, out[i]);
      RowCanon(dir, out[i]);
    }
    assert Keys(Canons(out)) == Keys(DirCanons(dir));
  }

  ghost predicate Covered(out: seq<Row>, s: Row) {
    exists i :: 0 <= i < |out| && out[i].Key() == s.Key() && !Newer(s, out[i])
  }

  /** The best copies with one more row taken into account. */
  function Keep(out: seq<Row>, s: Row): seq<Row> {
    if out == [] then [s]
    else if out[0].Key() == s.Key() then [if Newer(s, out[0]) then s else out[0]] + out[1..]
    else [out[0]] + Keep(out[1..], s)
  }

  /** The rows with rank one: the best copy of every key. */
  function Winners(rows: seq<Row>): seq<Row> {
    if rows == [] then [] else Keep(Winners(rows[..|rows| - 1]), rows[|rows| - 1])
  }

  lemma {:induction false} KeepMembers(out: seq<Row>, s: Row)
    ensures forall r :: r in Keep(out, s) ==> r in out || r == s
    ensures DistinctKeys(out) ==> DistinctKeys(Keep(out, s))
  {
    if out != [] && out[0].Key() != s.Key() {
      var rest := out[1..];
      KeepMembers(rest, s);
      if DistinctKeys(out) {
        assert DistinctKeys(rest);
        forall r | r in Keep(rest, s) ensures r.Key() != out[0].Key() {
          if r in rest {
            var i :| 0 <= i < |rest| && rest[i] == r;
            assert rest[i] == out[i + 1];
          }
        }
      }
    }
  }

  lemma {:induction false} KeepCovers(out: seq<Row>, s: Row, t: Row)
    requires Covered(out, t) || t == s
    ensures Covered(Keep(out, s), t)
  {
    var kept := Keep(out, s);
    NewerOrder(s, s, s);
    if out == [] {
      assert kept[0] == s;
    } else if out[0].Key() == s.Key() {
      NewerOrder(t, out[0], s);
      NewerOrder(s, out[0], t);
      NewerOrder(t, s, out[0]);
      if t == s {
        assert kept[0].Key() == t.Key() && !Newer(t, kept[0]);
      } else {
        var i :| 0 <= i < |out| && out[i].Key() == t.Key() && !Newer(t, out[i]);
        assert kept[i].Key() == t.Key() && !Newer(t, kept[i]);
      }
    } else {
      var rest := out[1..];
      if t != s {
        var i :| 0 <= i < |out| && out[i].Key() == t.Key() && !Newer(t, out[i]);
        if i == 0 {
          assert kept[0] == out[0];
          return;
        }
        assert rest[i - 1] == out[i];
      }
      KeepCovers(rest, s, t);
      var j :| 0 <= j < |Keep(rest, s)| && Keep(rest, s)[j].Key() == t.Key() && !Newer(t, Keep(rest, s)[j]);
      assert kept[j + 1] == Keep(rest, s)[j];
    }
  }

  lemma {:induction false} WinnersCover(rows: seq<Row>)
    ensures DistinctKeys(Winners(rows))
    ensures forall r :: r in Winners(rows) ==> r in rows
    ensures forall s :: s in rows ==> Covered(Winners(rows), s)
  {
    if rows != [] {
      var n := |rows| - 1;
      WinnersCover(rows[..n]);
      KeepMembers(Winners(rows[..n]), rows[n]);
      forall s | s in rows ensures Covered(Winners(rows), s) {
        if s != rows[n] {
          assert s in rows[..n];
        }
        KeepCovers(Winners(rows[..n]), rows[n], s);
      }
    }
  }

  /** What is kept of every record is its last ingested copy, and of those the one with the greatest
      vendor id. */
  lemma WinnersAreTheLastIngested(rows: seq<Row>, r: Row, w: Row)
    requires r in rows && w in Winners(rows) && r.Key() == w.Key()
    ensures r.ingestedAt <= w.ingestedAt
    ensures r.ingestedAt == w.ingestedAt ==> !TextBefore(w.recordId, r.recordId)
  {
    WinnersCover(rows);
    var out := Winners(rows);
    var i :| 0 <= i < |out| && out[i].Key() == r.Key() && !Newer(r, out[i]);
    var j :| 0 <= j < |out| && out[j] == w;
  }

  /** The windowed query over all the rows of a directory produces a compaction of it. */
  lemma WinnersCompact(dir: Dir, rows: seq<Row>)
    requires forall r :: r in rows <==> RowOfDir(dir, r)
    ensures Compacts(dir, Winners(rows))
  {
    hide Winners;
    var out := Winners(rows);
    WinnersCover(rows);
    forall v | v in DirCanons(dir) ensures v.key in Keys(Canons(out)) {
      var n :| n in dir && v in Canons(dir[n]);
      var i :| 0 <= i < |dir[n]| && dir[n][i].canon == v;
      assert RowOfDir(dir, dir[n][i]);
      var j :| 0 <= j < |out| && out[j].Key() == dir[n][i].Key();
      assert out[j].canon in Canons(out);
    }
    forall r, s | r in out && RowOfDir(dir, s) && s.Key() == r.Key() ensures !Newer(s, r) {
      var i :| 0 <= i < |out| && out[i] == r;
      var j :| 0 <= j < |out| && out[j].Key() == s.Key() && !Newer(s, out[j]);
    }
  }

  // ----- Invisible to ingestion -----

  /** The lake after month `m` is replaced by the single file of compaction `id`. */
  ghost function Swapped(t: Tree, m: Month, id: string, out: seq<Row>): Tree {
    t[m := map[Compact(id) := out]]
  }

  lemma ReplacingDir(t: Tree, u: Tree, m: Month)
    requires m in t && m in u && u == t[m := u[m]] && DirCanons(u[m]) == DirCanons(t[m])
    ensures TreeCanons(u) == TreeCanons(t)
  {
    hide DirCanons;
    forall v | v in TreeCanons(t) ensures v in TreeCanons(u) {
      var x :| x in t && v in DirCanons(t[x]);
      assert x in u && v in DirCanons(u[x]);
    }
    forall v | v in TreeCanons(u) ensures v in TreeCanons(t) {
      var x :| x in u && v in DirCanons(u[x]);
      assert x in t && v in DirCanons(t[x]);
    }
  }

  lemma SingleFile(id: string, out: seq<Row>)
    ensures DirCanons(map[Compact(id) := out]) == Canons(out)
  {
    var dir := map[Compact(id) := out];
    forall v | v in Canons(out) ensures v in DirCanons(dir) {
      assert Compact(id) in dir && v in Canons(dir[Compact(id)]);
    }
  }

  /** A completed compaction cannot be told from the outside: the retained view is the same map, so
      every later batch has the same additions, replays or conflict. */
  lemma CompactionIsInvisible(t: Tree, m: Month, id: string, out: seq<Row>, batch: seq<Row>)
    requires m in t && Consistent(DirCanons(t[m])) && Compacts(t[m], out)
    ensures Retained(TreeCanons(Swapped(t, m, id, out))) == Retained(TreeCanons(t))
    ensures Consistent(TreeCanons(t)) ==>
      Consistent(TreeCanons(Swapped(t, m, id, out))) &&
      Deduplicate(batch, View(TreeCanons(Swapped(t, m, id, out)))) == Deduplicate(batch, View(TreeCanons(t)))
  {
    hide Deduplicate, TreeCanons, DirCanons;
    CompactionKeepsCanons(t[m], out);
    SingleFile(id, out);
    ReplacingDir(t, Swapped(t, m, id, out), m);
  }

  // ----- The protocol -----

  datatype CompactionError =
    | BelowThreshold | AlreadyLocked | ConflictingKeys | RowCountMismatch | PartitionMissing
    | ArchiveExists | SwapRefused | Raised

  /** The next durable action of a compaction. */
  datatype Stage =
    | Locking
    | Rewriting
    | Archiving
    | Swapping
    | Recording
    | RollingBack
    | Unlocking(failure: Option<CompactionError>)
    | Closed(failure: Option<CompactionError>)

  /** `before` is the partition as it was found behind the lock, `out` its rewrite; `swapped` tells
      that the rewrite took its place, and a killed process is no longer `alive`. */
  datatype Compactor = Compactor(
    id: string, month: Month, minFiles: nat, stage: Stage, before: Dir, out: seq<Row>, swapped: bool, alive: bool)

  datatype Site = Site(disk: Disk, job: Compactor)

  function Begin(id: string, m: Month, minFiles: nat): Compactor {
    Compactor(id, m, minFiles, Locking, map[], [], false, true)
  }

  function At(s: Site, stage: Stage): Site {
    s.(job := s.job.(stage := stage))
  }

  function Leave(s: Site, e: CompactionError): Site {
    At(s, Unlocking(Some(e)))
  }

  /** The small-file threshold, then the exclusive creation of the lock file. */
  function StepLock(s: Site): Site {
    var d, k := s.disk, s.job;
    if |DirOf(d.tree, k.month)| < k.minFiles then At(s, Closed(Some(BelowThreshold)))
    else if k.month in d.locks then At(s, Closed(Some(AlreadyLocked)))
    else Site(d.(locks := d.locks[k.month := k.id]), k.(stage := Rewriting, before := DirOf(d.tree, k.month)))
  }

  ghost function RewriteResult(s: Site, out: seq<Row>): Site {
    var d, k := s.disk, s.job;
    var written := Site(d.(rewrites := d.rewrites[k.id := out]), k.(out := out));
    if |out| != |Keys(DirCanons(DirOf(d.tree, k.month)))| then Leave(written, RowCountMismatch)
    else At(written, Archiving)
  }

  /** The conflict check, the rewrite (ties may go either way) and the row-count check. */
  ghost predicate StepRewrite(s: Site, t: Site) {
    var dir := DirOf(s.disk.tree, s.job.month);
    if !Consistent(DirCanons(dir)) then t == Leave(s, ConflictingKeys)
    else Compacts(dir, t.job.out) && t == RewriteResult(s, t.job.out)
  }

  /** The whole partition directory is renamed into the archive. */
  function StepArchive(s: Site): Site {
    var d, k := s.disk, s.job;
    if k.month !in d.tree then Leave(s, PartitionMissing)
    else if k.id in d.archives then Leave(s, ArchiveExists)
    else Site(d.(tree := d.tree - {k.month}, archives := d.archives[k.id := Archive(k.month, d.tree[k.month])]),
              k.(stage := Swapping))
  }

  /** The staged directory takes the partition's name: a rename onto nothing, or onto an empty
      directory, succeeds. */
  function StepSwap(s: Site): Site {
    var d, k := s.disk, s.job;
    if DirOf(d.tree, k.month) != map[] then Leave(s, SwapRefused)
    else Site(d.(tree := d.tree[k.month := map[Compact(k.id) := k.out]], rewrites := d.rewrites - {k.id}),
              k.(stage := Recording, swapped := true))
  }

  function StepRecord(s: Site): Site {
    var d, k := s.disk, s.job;
    var record := CompactionRecord(k.month, |k.before|, |k.out|);
    Site(d.(compactions := d.compactions[k.id := record]), k.(stage := Unlocking(None)))
  }

  function Restore(s: Site): Site
    requires s.job.id in s.disk.archives
  {
    var d, k := s.disk, s.job;
    Site(d.(tree := d.tree[k.month := d.archives[k.id].files], archives := d.archives - {k.id}),
         k.(stage := Unlocking(Some(Raised))))
  }

  /** The outer handler restores only when nothing has the partition's name. */
  function StepRollBack(s: Site): Site {
    if s.job.month !in s.disk.tree && s.job.id in s.disk.archives then Restore(s)
    else Leave(s, Raised)
  }

  function StepUnlock(s: Site, e: Option<CompactionError>): Site {
    Site(s.disk.(locks := s.disk.locks - {s.job.month}), s.job.(stage := Closed(e)))
  }

  /** One step of a compaction that nothing disturbs. */
  ghost predicate Steps(s: Site, t: Site) {
    match s.job.stage
    case Locking => t == StepLock(s)
    case Rewriting => StepRewrite(s, t)
    case Archiving => t == StepArchive(s)
    case Swapping => t == StepSwap(s)
    case Recording => t == StepRecord(s)
    case RollingBack => t == StepRollBack(s)
    case Unlocking(e) => t == StepUnlock(s, e)
    case Closed(_) => t == s
  }

  /** An exception: inside the swap rename the inner handler moves the archive back, before it the
      outer handler does, and after it there is nothing to move. */
  ghost predicate Raises(s: Site, t: Site) {
    match s.job.stage
    case Rewriting => t == Leave(s, Raised)
    case Archiving => t == Leave(s, Raised)
    case Swapping =>
      || t == At(s, RollingBack)
      || (DirOf(s.disk.tree, s.job.month) == map[] && s.job.id in s.disk.archives && t == Restore(s))
    case Recording => t == Leave(s, Raised)
    case _ => false
  }

  predicate Holding(k: Compactor) {
    !k.stage.Locking? && !k.stage.Closed?
  }

  // ----- What each stage leaves on disk -----

  ghost predicate Untouched(d: Disk, k: Compactor) {
    DirOf(d.tree, k.month) == k.before && k.id !in d.archives && !k.swapped
  }

  ghost predicate Parked(d: Disk, k: Compactor) {
    && DirOf(d.tree, k.month) == map[] && !k.swapped
    && k.id in d.archives && d.archives[k.id] == Archive(k.month, k.before)
  }

  ghost predicate SwappedIn(d: Disk, k: Compactor) {
    && DirOf(d.tree, k.month) == map[Compact(k.id) := k.out] && k.swapped
    && k.id in d.archives && d.archives[k.id] == Archive(k.month, k.before)
    && Rewritten(k)
  }

  ghost predicate Rewritten(k: Compactor) {
    Consistent(DirCanons(k.before)) && Compacts(k.before, k.out)
  }

  ghost predicate StageOk(d: Disk, k: Compactor) {
    match k.stage
    case Locking => k.id !in d.archives && !k.swapped
    case Rewriting => Untouched(d, k)
    case Archiving => Untouched(d, k) && Rewritten(k)
    case Swapping => Parked(d, k) && Rewritten(k)
    case Recording => SwappedIn(d, k)
    case RollingBack => Parked(d, k) && Rewritten(k)
    case Unlocking(e) =>
      && (Untouched(d, k) || SwappedIn(d, k) || (Parked(d, k) && Rewritten(k)))
      && (e.None? ==> SwappedIn(d, k) && k.id in d.compactions)
    case Closed(e) =>
      && (k.id in d.archives ==> d.archives[k.id] == Archive(k.month, k.before))
      && (e.None? ==> k.id in d.compactions)
  }

  ghost predicate CompactorOk(d: Disk, k: Compactor) {
    && (Holding(k) ==> k.month in d.locks && d.locks[k.month] == k.id && k.before != map[])
    && k.minFiles >= 2
    && StageOk(d, k)
  }

  /** The partition is missing from the lake because a compaction that still holds its lock has
      moved it to the archive. */
  ghost predicate SwappedOut(d: Disk, m: Month) {
    && m in d.locks && d.locks[m] in d.archives && d.archives[d.locks[m]].month == m
    && DirOf(d.tree, m) == map[]
  }

  /** The partition wherever it is: in the lake, or in the archive its lock points at. */
  ghost function LogicalDir(d: Disk, m: Month): Dir {
    if SwappedOut(d, m) then d.archives[d.locks[m]].files else DirOf(d.tree, m)
  }

  /** The lock is about to be released although the partition is still in the archive: its rollback
      was skipped, because something already had the partition's name. */
  predicate Abandons(s: Site) {
    s.job.stage.Unlocking? && !s.job.swapped && s.job.id in s.disk.archives
  }

  /** The stages of a compaction keep their footprint, and the records of the partition. */
  ghost predicate KeepsPartition(s: Site, t: Site) {
    && t.job.id == s.job.id && t.job.month == s.job.month
    && CompactorOk(t.disk, t.job)
    && DirCanons(LogicalDir(t.disk, s.job.month)) == DirCanons(LogicalDir(s.disk, s.job.month))
  }

  lemma RewriteKeeps(s: Site, t: Site)
    requires CompactorOk(s.disk, s.job) && s.job.stage.Rewriting? && StepRewrite(s, t)
    ensures KeepsPartition(s, t)
  {
    hide DirCanons, Compacts, Consistent, Keys, StageOk, LogicalDir;
    RewriteLeaves(s, t);
    SameLogicalDir(s.disk, t.disk, s.job.month);
  }

  lemma SameLogicalDir(d: Disk, e: Disk, m: Month)
    requires d.tree == e.tree && d.locks == e.locks && d.archives == e.archives
    ensures LogicalDir(d, m) == LogicalDir(e, m)
  {
  }

  lemma RewriteLeaves(s: Site, t: Site)
    requires CompactorOk(s.disk, s.job) && s.job.stage.Rewriting? && StepRewrite(s, t)
    ensures t.disk == s.disk.(rewrites := t.disk.rewrites)
    ensures t.job == s.job.(stage := t.job.stage, out := t.job.out)
    ensures t.job.stage == Archiving || t.job.stage == Unlocking(Some(ConflictingKeys))
    ensures StageOk(t.disk, t.job)
  {
    hide DirCanons, Compacts, Consistent, Keys, DistinctKeys;
    var dir := DirOf(s.disk.tree, s.job.month);
    assert Untouched(s.disk, s.job);
    if Consistent(DirCanons(dir)) {
      RowCountCheckNeverFires(dir, t.job.out);
      assert t.job.stage == Archiving;
      assert Untouched(t.disk, t.job) && Rewritten(t.job);
    } else {
      assert Untouched(t.disk, t.job);
    }
  }

  lemma ArchiveKeeps(s: Site, t: Site)
    requires CompactorOk(s.disk, s.job) && s.job.stage.Archiving? && t == StepArchive(s)
    ensures KeepsPartition(s, t)
  {
    hide DirCanons, Compacts, Consistent;
    assert LogicalDir(s.disk, s.job.month) == s.job.before;
    assert LogicalDir(t.disk, s.job.month) == s.job.before;
  }

  lemma SwapKeeps(s: Site, t: Site)
    requires CompactorOk(s.disk, s.job) && s.job.stage.Swapping? && t == StepSwap(s)
    ensures KeepsPartition(s, t)
  {
    hide DirCanons, Compacts, Consistent, Canons;
    var k := s.job;
    assert LogicalDir(s.disk, k.month) == k.before;
    var dir := map[Compact(k.id) := k.out];
    assert Compact(k.id) in dir;
    assert LogicalDir(t.disk, k.month) == dir;
    CompactionKeepsCanons(k.before, k.out);
    SingleFile(k.id, k.out);
  }

  lemma RestoreKeeps(s: Site, t: Site)
    requires CompactorOk(s.disk, s.job) && Parked(s.disk, s.job) && Holding(s.job) && t == Restore(s)
    ensures KeepsPartition(s, t)
  {
    hide DirCanons, Compacts, Consistent, Canons;
    assert LogicalDir(s.disk, s.job.month) == s.job.before;
    assert LogicalDir(t.disk, s.job.month) == s.job.before;
  }

  lemma RollBackKeeps(s: Site, t: Site)
    requires CompactorOk(s.disk, s.job) && s.job.stage.RollingBack? && t == StepRollBack(s)
    ensures KeepsPartition(s, t)
  {
    hide DirCanons, Compacts, Consistent, Canons, Restore;
    if t != Leave(s, Raised) {
      RestoreKeeps(s, t);
    }
  }

  /** What a compaction leaves when it abandons its partition. */
  lemma AbandonedPartition(s: Site, t: Site, e: Option<CompactionError>)
    requires CompactorOk(s.disk, s.job) && s.job.stage == Unlocking(e) && t == StepUnlock(s, e) && Abandons(s)
    ensures t.job.id == s.job.id && t.job.month == s.job.month && CompactorOk(t.disk, t.job)
    ensures DirOf(t.disk.tree, s.job.month) == map[] && s.job.month !in t.disk.locks
    ensures LogicalDir(s.disk, s.job.month) == s.job.before && LogicalDir(t.disk, s.job.month) == map[]
  {
    hide DirCanons, Compacts, Consistent, Canons;
  }

  lemma UnlockKeeps(s: Site, t: Site, e: Option<CompactionError>)
    requires CompactorOk(s.disk, s.job) && s.job.stage == Unlocking(e) && t == StepUnlock(s, e) && !Abandons(s)
    ensures KeepsPartition(s, t)
    ensures DirOf(t.disk.tree, s.job.month) == LogicalDir(t.disk, s.job.month)
  {
    hide DirCanons, Compacts, Consistent, Canons;
    var dir := DirOf(s.disk.tree, s.job.month);
    if SwappedIn(s.disk, s.job) {
      assert Compact(s.job.id) in dir;
    }
    assert dir != map[];
  }

  /** Whatever a compaction does next, short of abandoning it, the partition keeps exactly its
      canonical records, in the lake or in the archive its lock points at. */
  lemma EveryStepKeepsThePartition(s: Site, t: Site)
    requires CompactorOk(s.disk, s.job) && (Steps(s, t) || Raises(s, t)) && !Abandons(s)
    ensures KeepsPartition(s, t)
  {
    hide DirCanons, Compacts, Consistent, Canons, StepArchive, StepSwap, StepRewrite, Restore, StepUnlock;
    match s.job.stage {
      case Rewriting => if Steps(s, t) { RewriteKeeps(s, t); }
      case Archiving => if Steps(s, t) { ArchiveKeeps(s, t); }
      case Swapping =>
        if Steps(s, t) {
          SwapKeeps(s, t);
        } else if t != At(s, RollingBack) {
          RestoreKeeps(s, t);
        }
      case RollingBack => RollBackKeeps(s, t);
      case Unlocking(e) => UnlockKeeps(s, t, e);
      case _ =>
    }
  }

  /** At every stop between the lock and its release, the partition's records are all visible, or
      the partition is empty, its files are all in the archive, and the lock is held. */
  lemma StoppedCompactionIsSafe(d: Disk, k: Compactor)
    requires CompactorOk(d, k) && Holding(k)
    ensures DirCanons(LogicalDir(d, k.month)) == DirCanons(k.before)
    ensures DirCanons(DirOf(d.tree, k.month)) == DirCanons(k.before)
         || (DirOf(d.tree, k.month) == map[] && SwappedOut(d, k.month)
             && d.archives[k.id].files == k.before && d.locks[k.month] == k.id)
  {
    hide DirCanons, Compacts, Consistent, Canons;
    if SwappedIn(d, k) {
      CompactionKeepsCanons(k.before, k.out);
      SingleFile(k.id, k.out);
      assert Compact(k.id) in DirOf(d.tree, k.month);
    }
  }

  /** The swap overwrites nothing: whatever is in the partition's place when it runs stays there. */
  lemma SwapOverwritesNothing(s: Site, m: Month, n: Name)
    requires s.job.stage.Swapping? && Exists(s.disk.tree, m, n)
    ensures Exists(StepSwap(s).disk.tree, m, n) && StepSwap(s).disk.tree[m][n] == s.disk.tree[m][n]
  {
    hide DirOf;
    if m == s.job.month {
      NotEmpty(s.disk.tree, m, n);
    }
  }

  lemma NotEmpty(t: Tree, m: Month, n: Name)
    requires Exists(t, m, n)
    ensures DirOf(t, m) != map[]
  {
    assert n in DirOf(t, m);
  }

  /** What a compaction record says: the partition, its files before, and one row for every key. */
  lemma RecordIsTruthful(s: Site)
    requires CompactorOk(s.disk, s.job) && s.job.stage.Recording?
    ensures s.job.id in StepRecord(s).disk.compactions
    ensures StepRecord(s).disk.compactions[s.job.id] ==
            CompactionRecord(s.job.month, |s.job.before|, |Keys(DirCanons(DirOf(StepRecord(s).disk.tree, s.job.month)))|)
  {
    hide DirCanons, Compacts, Consistent, Canons, Keys;
    RowCountCheckNeverFires(s.job.before, s.job.out);
    CompactionKeepsCanons(s.job.before, s.job.out);
    SingleFile(s.job.id, s.job.out);
  }

  /** While the lock is held no promotion into the partition goes through. */
  lemma LockRefusesPromotion(w: World, i: nat)
    requires i < |w.proc.plan.months| && w.proc.plan.months[i] in w.disk.locks
    ensures StepPromote(w, i).proc.phase == Failed(PartitionLocked)
    ensures forall m :: DirOf(StepPromote(w, i).disk.tree, m) == DirOf(w.disk.tree, m)
  {
  }

  /** A refused promotion still leaves the partition directory behind. */
  lemma RefusedPromotionMakesTheDirectory(w: World, i: nat)
    requires i < |w.proc.plan.months| && w.proc.plan.months[i] in w.disk.locks
    ensures w.proc.plan.months[i] in StepPromote(w, i).disk.tree
  {
  }

  /** The exact condition of the rollback: it puts the partition back if and only if nothing has
      taken its name; otherwise the lock is released over an empty partition. */
  lemma RollbackNeedsTheName(s: Site, t: Site, u: Site)
    requires CompactorOk(s.disk, s.job) && s.job.stage.RollingBack?
    requires Steps(s, t) && Steps(t, u)
    ensures u.job.stage.Closed? && s.job.month !in u.disk.locks
    ensures DirOf(u.disk.tree, s.job.month) == s.job.before <==> s.job.month !in s.disk.tree
    ensures s.job.month in s.disk.tree ==> DirOf(u.disk.tree, s.job.month) == map[]
  {
    hide DirCanons, Compacts, Consistent, Canons;
  }
}
