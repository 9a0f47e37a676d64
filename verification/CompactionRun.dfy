/** Compaction as it runs: lock, rewrite, two renames, a record, and the handlers of an exception. */
module CompactionRun {
  import opened Rows
  import opened Dedup
  import opened Backfill
  import opened Compaction
  import opened Refresh
  import opened LakeStore

  /** Where an exception strikes, if anywhere. */
  datatype Fault = NoFault | InRewrite | BeforeArchive | AfterArchive | InSwap | AfterSwap

  ghost predicate Traced(trace: seq<Site>, first: Site, last: Site) {
    && trace != [] && trace[0] == first && trace[|trace| - 1] == last
    && forall i :: 0 <= i < |trace| - 1 ==> Steps(trace[i], trace[i + 1]) || Raises(trace[i], trace[i + 1])
  }

  lemma TraceGrows(trace: seq<Site>, first: Site, last: Site, next: Site)
    requires Traced(trace, first, last) && (Steps(last, next) || Raises(last, next))
    ensures Traced(trace + [next], first, next)
    ensures (trace + [next])[|trace|] == next
  {
    hide Steps, Raises;
  }

  /** The rows of the rewritten file, and the number of distinct keys it is checked against; nothing
      when some key has conflicting values. */
  method Rewrite(dir: Dir) returns (rewrite: Option<seq<Row>>, unique: nat)
    ensures rewrite.None? <==> !Consistent(DirCanons(dir))
    ensures rewrite.Some? ==> Compacts(dir, rewrite.value) && unique == |Keys(DirCanons(dir))| == |rewrite.value|
  {
    hide Winners, DirCanons, Canons, Compacts, Retained, Consistent, Keys;
    var rows := RowsOfDir(dir);
    var existing := ExistingRows(rows);
    ReadBack(existing, DirCanons(dir));
    if existing.None? {
      return None, 0;
    }
    WinnersCompact(dir, rows);
    RowCountCheckNeverFires(dir, Winners(rows));
    rewrite, unique := Some(Winners(rows)), |existing.value|;
  }

  /** The conflict check, the rewritten file, the row-count check. */
  method RewritePartition(lake: RawLake, id: string, m: Month, ghost s: Site)
    returns (error: Option<CompactionError>, out: seq<Row>, ghost t: Site)
    requires s.disk == lake.View() && s.job.stage.Rewriting? && s.job.id == id && s.job.month == m && s.job.out == []
    modifies lake`rewrites
    ensures t.disk == lake.View() && Steps(s, t)
    ensures t.job == s.job.(stage := if error.Some? then Unlocking(error) else Archiving, out := out)
  {
    hide *;
    var dir := DirOf(lake.tree, m);
    var rewrite, unique := Rewrite(dir);
    ViewTree(lake);
    t := RewriteOutcome(s, dir, rewrite);
    if rewrite.None? {
      return Some(ConflictingKeys), [], t;
    }
    out := rewrite.value;
    WriteRewrite(lake, id, out);
    error := if |out| != unique then Some(CompactionError.RowCountMismatch) else None;
  }

  lemma ViewTree(lake: RawLake)
    ensures lake.View().tree == lake.tree
  {
  }

  method WriteRewrite(lake: RawLake, id: string, out: seq<Row>)
    modifies lake`rewrites
    ensures lake.View() == old(lake.View()).(rewrites := old(lake.rewrites)[id := out])
    ensures old(lake.View()).rewrites == old(lake.rewrites)
  {
    lake.rewrites := lake.rewrites[id := out];
  }

  /** Where the protocol is after the rewrite. */
  lemma RewriteOutcome(s: Site, dir: Dir, rewrite: Option<seq<Row>>) returns (t: Site)
    requires s.job.stage.Rewriting? && dir == DirOf(s.disk.tree, s.job.month) && s.job.out == []
    requires rewrite.None? <==> !Consistent(DirCanons(dir))
    requires rewrite.Some? ==> Compacts(dir, rewrite.value) && |Keys(DirCanons(dir))| == |rewrite.value|
    ensures Steps(s, t)
    ensures rewrite.None? ==> t.disk == s.disk && t.job == s.job.(stage := Unlocking(Some(ConflictingKeys)), out := [])
    ensures rewrite.Some? ==> t.disk == s.disk.(rewrites := s.disk.rewrites[s.job.id := rewrite.value])
    ensures rewrite.Some? ==> t.job == s.job.(stage := Archiving, out := rewrite.value)
  {
    hide DirCanons, Compacts, RewriteResult, Steps, Consistent, Keys, DirOf;
    match rewrite {
      case None =>
        RewriteRefusals(s, dir);
        t := Leave(s, ConflictingKeys);
      case Some(rows) =>
        RewriteEffect(s, dir, rows);
        t := RewriteResult(s, rows);
    }
  }

  lemma RewriteRefusals(s: Site, dir: Dir)
    requires s.job.stage.Rewriting? && dir == DirOf(s.disk.tree, s.job.month)
    ensures Raises(s, Leave(s, Raised))
    ensures !Consistent(DirCanons(dir)) ==> Steps(s, Leave(s, ConflictingKeys))
    ensures Leave(s, ConflictingKeys).job == s.job.(stage := Unlocking(Some(ConflictingKeys)))
  {
    hide DirCanons, Consistent;
  }

  lemma RewriteEffect(s: Site, dir: Dir, out: seq<Row>)
    requires s.job.stage.Rewriting? && dir == DirOf(s.disk.tree, s.job.month)
    requires Consistent(DirCanons(dir)) && Compacts(dir, out) && |out| == |Keys(DirCanons(dir))|
    ensures Steps(s, RewriteResult(s, out))
    ensures RewriteResult(s, out).disk == s.disk.(rewrites := s.disk.rewrites[s.job.id := out])
    ensures RewriteResult(s, out).job == s.job.(stage := Archiving, out := out)
  {
    hide DirCanons, Consistent, Compacts, Keys;
    assert StepRewrite(s, RewriteResult(s, out));
  }

  lemma ReadBack(existing: Option<map<Key, Canon>>, canons: set<Canon>)
    requires existing == Retained(canons)
    ensures existing.None? <==> !Consistent(canons)
    ensures existing.Some? ==> |existing.value| == |Keys(canons)|
  {
    if existing.Some? {
      assert |existing.value| == |existing.value.Keys|;
    }
  }

  /** The partition directory is renamed into the archive. */
  method MoveToArchive(lake: RawLake, id: string, m: Month, ghost s: Site) returns (error: Option<CompactionError>, ghost t: Site)
    requires s.disk == lake.View() && s.job.id == id && s.job.month == m
    modifies lake`tree, lake`archives
    ensures t == StepArchive(s) && t.disk == lake.View()
    ensures t.job == s.job.(stage := if error.Some? then Unlocking(error) else Swapping)
    ensures error.None? ==> m !in lake.tree && id in lake.archives
  {
    hide StepArchive;
    ArchiveEffect(s);
    t := StepArchive(s);
    if m !in lake.tree {
      return Some(PartitionMissing), t;
    }
    if id in lake.archives {
      return Some(ArchiveExists), t;
    }
    lake.archives := lake.archives[id := Archive(m, lake.tree[m])];
    lake.tree := lake.tree - {m};
    error := None;
  }

  /** The rewrite takes the partition's name. */
  method MoveIntoPlace(lake: RawLake, id: string, m: Month, out: seq<Row>, ghost s: Site) returns (ghost t: Site)
    requires s.disk == lake.View() && s.job.id == id && s.job.month == m && s.job.out == out && m !in lake.tree
    modifies lake`tree, lake`rewrites
    ensures t == StepSwap(s) && t.disk == lake.View() && m in lake.tree
    ensures t.job == s.job.(stage := Recording, swapped := true)
  {
    hide StepSwap;
    SwapEffect(s);
    t := StepSwap(s);
    lake.tree := lake.tree[m := map[Name.Compact(id) := out]];
    lake.rewrites := lake.rewrites - {id};
  }

  /** A handler renames the archive back. */
  method MoveBack(lake: RawLake, id: string, m: Month, ghost s: Site) returns (ghost t: Site)
    requires s.disk == lake.View() && s.job.id == id && s.job.month == m && id in lake.archives
    modifies lake`tree, lake`archives
    ensures t == Restore(s) && t.disk == lake.View()
    ensures t.job == s.job.(stage := Unlocking(Some(Raised)))
  {
    t := Restore(s);
    lake.tree := lake.tree[m := lake.archives[id].files];
    lake.archives := lake.archives - {id};
  }

  method RecordCompaction(lake: RawLake, id: string, m: Month, before: Dir, out: seq<Row>, ghost s: Site) returns (ghost t: Site)
    requires s.disk == lake.View() && s.job.id == id && s.job.month == m && s.job.before == before && s.job.out == out
    modifies lake`compactions
    ensures t == StepRecord(s) && t.disk == lake.View()
    ensures t.job == s.job.(stage := Unlocking(None))
  {
    t := StepRecord(s);
    lake.compactions := lake.compactions[id := CompactionRecord(m, |before|, |out|)];
  }

  lemma ArchiveEffect(s: Site)
    ensures var d, k, t := s.disk, s.job, StepArchive(s);
      && (k.month !in d.tree ==> t == Leave(s, PartitionMissing))
      && (k.month in d.tree && k.id in d.archives ==> t == Leave(s, ArchiveExists))
      && (k.month in d.tree && k.id !in d.archives ==>
            && t.disk == d.(tree := d.tree - {k.month}, archives := d.archives[k.id := Archive(k.month, d.tree[k.month])])
            && t.job == k.(stage := Swapping))
  {
  }

  lemma SwapEffect(s: Site)
    requires s.job.month !in s.disk.tree
    ensures var d, k, t := s.disk, s.job, StepSwap(s);
      && t.disk == d.(tree := d.tree[k.month := map[Name.Compact(k.id) := k.out]], rewrites := d.rewrites - {k.id})
      && t.job == k.(stage := Recording, swapped := true)
  {
  }

  /** The two renames and the record. An exception between them leaves the handlers to the caller; the
      second rename moves the archive back itself when it fails. */
  method SwapPartition(lake: RawLake, id: string, m: Month, before: Dir, out: seq<Row>, fault: Fault, ghost s: Site)
    returns (error: Option<CompactionError>, moved: bool, ghost t: Site, ghost trace: seq<Site>)
    requires s.disk == lake.View() && s.job.stage.Archiving? && s.job.id == id && s.job.month == m
    requires s.job.before == before && s.job.out == out
    modifies lake`tree, lake`archives, lake`rewrites, lake`compactions
    ensures t.disk == lake.View() && Traced(trace, s, t)
    ensures t.job.id == id && t.job.month == m
    ensures t.job.stage.RollingBack? || t.job.stage == Unlocking(error)
    ensures t.job.stage.RollingBack? ==> moved && error == Some(Raised)
    ensures moved && m !in lake.tree ==> t.job.stage.RollingBack?
  {
    hide Steps, Raises, Traced, StepArchive, StepSwap, StepRecord, Restore;
    trace, moved, t := [s], false, s;
    TraceOfOne(s);
    ArchiveStep(s);
    if fault.BeforeArchive? {
      t := Leave(s, Raised);
      TraceGrows(trace, s, s, t);
      return Some(Raised), moved, t, trace + [t];
    }
    error, t := MoveToArchive(lake, id, m, s);
    TraceGrows(trace, s, s, t);
    trace := trace + [t];
    if error.Some? {
      return error, moved, t, trace;
    }
    moved := true;
    ghost var u := t;
    SwapStep(u);
    if fault.AfterArchive? {
      t := At(u, RollingBack);
      TraceGrows(trace, s, u, t);
      return Some(Raised), moved, t, trace + [t];
    }
    if fault.InSwap? {
      t := MoveBack(lake, id, m, u);
      moved := false;
      TraceGrows(trace, s, u, t);
      return Some(Raised), moved, t, trace + [t];
    }
    t := MoveIntoPlace(lake, id, m, out, u);
    TraceGrows(trace, s, u, t);
    trace := trace + [t];
    ghost var v := t;
    RecordStep(v);
    if fault.AfterSwap? {
      t := Leave(v, Raised);
      TraceGrows(trace, s, v, t);
      return Some(Raised), moved, t, trace + [t];
    }
    t := RecordCompaction(lake, id, m, before, out, v);
    TraceGrows(trace, s, v, t);
    trace := trace + [t];
    error := None;
  }

  lemma TraceOfOne(s: Site)
    ensures Traced([s], s, s)
  {
  }

  lemma ArchiveStep(s: Site)
    requires s.job.stage.Archiving?
    ensures Steps(s, StepArchive(s)) && Raises(s, Leave(s, Raised))
  {
    hide StepArchive;
  }

  lemma SwapStep(s: Site)
    requires s.job.stage.Swapping?
    ensures Steps(s, StepSwap(s)) && Raises(s, At(s, RollingBack))
    ensures s.job.month !in s.disk.tree && s.job.id in s.disk.archives ==> Raises(s, Restore(s))
  {
    hide StepSwap, Restore;
  }

  lemma RecordStep(s: Site)
    requires s.job.stage.Recording?
    ensures Steps(s, StepRecord(s)) && Raises(s, Leave(s, Raised))
  {
    hide StepRecord;
  }

  /** The outer handler: put the partition back when it was moved away and nothing took its name. */
  method Handle(lake: RawLake, id: string, m: Month, error: Option<CompactionError>, moved: bool, ghost s: Site)
    returns (ghost t: Site, ghost trace: seq<Site>)
    requires s.disk == lake.View() && s.job.id == id && s.job.month == m
    requires s.job.stage.RollingBack? || s.job.stage == Unlocking(error)
    requires s.job.stage.RollingBack? ==> moved && error == Some(Raised)
    requires moved && m !in lake.tree ==> s.job.stage.RollingBack?
    modifies lake`tree, lake`archives
    ensures t.disk == lake.View() && t.job == s.job.(stage := Unlocking(error)) && Traced(trace, s, t)
  {
    hide Steps, Raises, Traced, Restore;
    t, trace := s, [s];
    TraceOfOne(s);
    if error.Some? && moved && m !in lake.tree && id in lake.archives {
      RollBackStep(s);
      t := MoveBack(lake, id, m, s);
      TraceGrows(trace, s, s, t);
      trace := trace + [t];
    } else if s.job.stage.RollingBack? {
      RollBackStep(s);
      t := Leave(s, Raised);
      TraceGrows(trace, s, s, t);
      trace := trace + [t];
    }
  }

  /** What runs behind the lock. */
  method Behind(lake: RawLake, id: string, m: Month, fault: Fault, ghost s: Site)
    returns (error: Option<CompactionError>, ghost t: Site, ghost trace: seq<Site>)
    requires s.disk == lake.View() && s.job.stage.Rewriting? && s.job.id == id && s.job.month == m && s.job.out == []
    requires s.job.before == DirOf(lake.tree, m)
    modifies lake`tree, lake`archives, lake`rewrites, lake`compactions
    ensures t.disk == lake.View() && t.job.stage == Unlocking(error) && t.job.month == m && Traced(trace, s, t)
  {
    hide Steps, Raises, Traced, DirOf;
    var before := DirOf(lake.tree, m);
    var out, moved;
    ghost var u, more;
    TraceOfOne(s);
    if fault.InRewrite? {
      RewriteRefusals(s, before);
      t := Leave(s, Raised);
      TraceGrows([s], s, s, t);
      return Some(Raised), t, [s] + [t];
    }
    error, out, t := RewritePartition(lake, id, m, s);
    trace := [s] + [t];
    TraceGrows([s], s, s, t);
    if error.Some? {
      return;
    }
    error, moved, u, more := SwapPartition(lake, id, m, before, out, fault, t);
    trace := TracesJoin(trace, more, s, t, u);
    t, more := Handle(lake, id, m, error, moved, u);
    trace := TracesJoin(trace, more, s, u, t);
  }

  /** `compact_partition`, run by itself: every durable change is a step of the protocol. */
  method CompactPartition(lake: RawLake, id: string, m: Month, minFiles: nat, fault: Fault)
    returns (error: Option<CompactionError>, ghost trace: seq<Site>)
    requires minFiles >= 2
    modifies lake`tree, lake`locks, lake`archives, lake`rewrites, lake`compactions
    ensures trace != [] && trace[|trace| - 1].disk == lake.View()
    ensures Traced(trace, Site(old(lake.View()), Begin(id, m, minFiles)), trace[|trace| - 1])
    ensures trace[|trace| - 1].job.stage == Closed(error)
    ensures old(lake.locks) == map[] && id !in old(lake.archives) ==>
      lake.locks == map[] && TreeCanons(lake.tree) == old(TreeCanons(lake.tree))
  {
    hide Steps, Raises, Traced, TreeCanons, StepLock, StepUnlock;
    ghost var first := Site(lake.View(), Begin(id, m, minFiles));
    LockStep(first);
    TraceOfOne(first);
    ghost var s := StepLock(first);
    trace := [first] + [s];
    TraceGrows([first], first, first, s);
    if |DirOf(lake.tree, m)| < minFiles {
      Invisible(first, trace);
      return Some(BelowThreshold), trace;
    }
    if m in lake.locks {
      Invisible(first, trace);
      return Some(AlreadyLocked), trace;
    }
    lake.locks := lake.locks[m := id];
    ghost var t, more;
    error, t, more := Behind(lake, id, m, fault, s);
    trace := TracesJoin(trace, more, first, s, t);
    UnlockStep(t, error);
    s := StepUnlock(t, error);
    lake.locks := lake.locks - {m};
    TraceGrows(trace, first, t, s);
    trace := trace + [s];
    Invisible(first, trace);
  }

  lemma LockStep(s: Site)
    requires s.job.stage.Locking?
    ensures Steps(s, StepLock(s))
    ensures var d, k := s.disk, s.job;
      && (|DirOf(d.tree, k.month)| < k.minFiles ==> StepLock(s) == At(s, Closed(Some(BelowThreshold))))
      && (|DirOf(d.tree, k.month)| >= k.minFiles && k.month in d.locks ==> StepLock(s) == At(s, Closed(Some(AlreadyLocked))))
      && (|DirOf(d.tree, k.month)| >= k.minFiles && k.month !in d.locks ==>
            && StepLock(s).disk == d.(locks := d.locks[k.month := k.id])
            && StepLock(s).job == k.(stage := Rewriting, before := DirOf(d.tree, k.month)))
  {
  }

  lemma RollBackStep(s: Site)
    requires s.job.stage.RollingBack?
    ensures s.job.month !in s.disk.tree && s.job.id in s.disk.archives ==> Steps(s, Restore(s))
    ensures !(s.job.month !in s.disk.tree && s.job.id in s.disk.archives) ==> Steps(s, Leave(s, Raised))
  {
    hide Restore;
  }

  lemma UnlockStep(s: Site, e: Option<CompactionError>)
    requires s.job.stage == Unlocking(e)
    ensures Steps(s, StepUnlock(s, e))
    ensures StepUnlock(s, e).disk == s.disk.(locks := s.disk.locks - {s.job.month})
    ensures StepUnlock(s, e).job == s.job.(stage := Closed(e))
  {
  }

  lemma TracesJoin(a: seq<Site>, b: seq<Site>, first: Site, mid: Site, last: Site) returns (all: seq<Site>)
    requires Traced(a, first, mid) && Traced(b, mid, last)
    ensures Traced(all, first, last)
  {
    hide Steps, Raises;
    all := a + b[1..];
    forall i | 0 <= i < |all| - 1 ensures Steps(all[i], all[i + 1]) || Raises(all[i], all[i + 1]) {
      if i >= |a| - 1 {
        var j := i - (|a| - 1);
        assert all[i] == b[j] && all[i + 1] == b[j + 1];
      }
    }
  }

  /** A closed trace is a compaction session, so a reader of the lake sees no difference. */
  lemma Invisible(first: Site, trace: seq<Site>)
    requires trace != [] && Traced(trace, first, trace[|trace| - 1]) && trace[|trace| - 1].job.stage.Closed?
    requires first.job == Begin(first.job.id, first.job.month, first.job.minFiles) && first.job.minFiles >= 2
    ensures first.disk.locks == map[] && first.job.id !in first.disk.archives ==>
      trace[|trace| - 1].disk.locks == map[] && TreeCanons(trace[|trace| - 1].disk.tree) == TreeCanons(first.disk.tree)
  {
    hide Steps, Raises, TreeCanons;
    if first.disk.locks == map[] && first.job.id !in first.disk.archives {
      assert Session(first.disk, trace);
      SessionIsInvisible(first.disk, trace);
    }
  }
}
