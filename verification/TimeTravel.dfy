/** Dataset builds record source files; every build stays resolvable while its files are merged
    into others and archived. */
module TimeTravel {
  import opened Rows
  import opened Backfill
  import opened Compaction
  import opened Warehouse
  import opened FileHistory

  // ----- Compaction records -----

  /** A compaction record names the partition its compaction worked on. */
  ghost predicate RecordsOk(s: State) {
    forall c :: c in s.disk.compactions ==>
      c in s.compactors && s.disk.compactions[c].month == s.compactors[c].month
  }

  lemma SameRecords(s: State, t: State)
    requires RecordsOk(s) && t.disk.compactions == s.disk.compactions
    requires forall c :: c in s.compactors ==> c in t.compactors && t.compactors[c].month == s.compactors[c].month
    ensures RecordsOk(t)
  {
  }

  lemma OwnRecord(s: State, id: string, u: Site)
    requires CompactorsInv(s) && RecordsOk(s) && id in s.compactors
    requires Steps(SiteOf(s, id), u) || Raises(SiteOf(s, id), u)
    ensures RecordsOk(WithSite(s, id, u))
  {
    hide Steps, Raises, CompactorOk, DirOf, LockMoves;
    CompactionStepFootprint(SiteOf(s, id), u);
    assert s.compactors[id].id == id;
  }

  lemma OtherActionsKeepRecords(s: State, a: Action, t: State)
    requires RecordsOk(s) && Next(s, a, t) && !a.RunStep? && !a.CompactionStep? && !a.CompactionRaises?
    ensures RecordsOk(t)
  {
    hide RecordsOk, JobOk, Snapshot;
    SameRecords(s, t);
  }

  lemma NextKeepsRecords(s: State, a: Action, t: State)
    requires Inv(s) && RecordsOk(s) && Next(s, a, t)
    ensures RecordsOk(t)
  {
    hide Step, Steps, Raises, LocksInv, RunsInv, CompactorsInv, RecordsOk, DirOf;
    match a {
      case RunStep(r) =>
        RunStepFootprint(WorldOf(s, r));
        SameRecords(s, t);
      case CompactionStep(id) =>
        var u :| Steps(SiteOf(s, id), u) && t == WithSite(s, id, u);
        OwnRecord(s, id, u);
      case CompactionRaises(id) =>
        var u :| Raises(SiteOf(s, id), u) && t == WithSite(s, id, u);
        OwnRecord(s, id, u);
      case _ => OtherActionsKeepRecords(s, a, t);
    }
  }

  lemma {:induction false} RecordsHold(states: seq<State>, actions: seq<Action>, i: nat)
    requires CleanBehavior(states, actions) && i < |states|
    ensures RecordsOk(states[i])
  {
    hide Next, Clean, Inv;
    if i > 0 {
      RecordsHold(states, actions, i - 1);
      InvHolds(states, actions, i - 1);
      NextKeepsRecords(states[i - 1], actions[i - 1], states[i]);
    }
  }

  lemma ArchiveMonth(s: State, id: string)
    requires Inv(s) && id in s.disk.archives
    ensures id in s.compactors && s.disk.archives[id].month == s.compactors[id].month
  {
    hide RunsInv, Rewritten, DirOf;
    assert CompactorOk(s.disk, s.compactors[id]);
  }

  // ----- Recording a build -----

  ghost predicate FromMonths(t: Tree, months: set<Month>, item: Item) {
    item in Snapshot(t) && item.month in months
  }

  /** The files of one partition, each once. */
  method PartitionItems(dir: Dir, m: Month) returns (items: seq<Item>)
    ensures forall item :: item in items <==> item.month == m && item.name in dir && dir[item.name] == item.rows
    ensures forall i, j :: 0 <= i < j < |items| ==> items[i].name != items[j].name
  {
    items := [];
    var names := dir.Keys;
    while names != {}
      invariant names <= dir.Keys
      invariant forall item :: item in items <==>
        item.month == m && item.name in dir && item.name !in names && dir[item.name] == item.rows
      invariant forall i, j :: 0 <= i < j < |items| ==> items[i].name != items[j].name
      decreases |names|
    {
      var n :| n in names;
      forall i | 0 <= i < |items| ensures items[i].name != n {
        assert items[i] in items;
      }
      items := items + [Item(m, n, dir[n])];
      names := names - {n};
    }
  }

  /** The source partitions of a build: every file of the lake once, with its content; a build of an
      empty lake is refused. */
  method SourcePartitions(t: Tree) returns (items: Option<seq<Item>>)
    ensures items.None? <==> Snapshot(t) == {}
    ensures items.Some? ==> forall item :: item in items.value <==> item in Snapshot(t)
    ensures items.Some? ==> forall i, j :: 0 <= i < j < |items.value| ==> items.value[i] != items.value[j]
  {
    hide Snapshot;
    var all: seq<Item> := [];
    var months := t.Keys;
    while months != {}
      invariant months <= t.Keys
      invariant forall item :: item in all <==> FromMonths(t, t.Keys - months, item)
      invariant forall i, j :: 0 <= i < j < |all| ==> all[i] != all[j]
      decreases |months|
    {
      var m :| m in months;
      var part := PartitionItems(t[m], m);
      forall i, j | 0 <= i < |all| && 0 <= j < |part| ensures all[i] != part[j] {
        assert all[i] in all && part[j] in part;
      }
      forall item ensures item in part <==> item.month == m && item in Snapshot(t) {
        SnapshotHas(t, item);
      }
      all := all + part;
      months := months - {m};
    }
    forall item ensures item in all <==> item in Snapshot(t) {
      SnapshotHas(t, item);
    }
    if all == [] {
      return None;
    }
    assert all[0] in Snapshot(t);
    items := Some(all);
  }

  lemma SnapshotHas(t: Tree, item: Item)
    ensures item in Snapshot(t) <==> Exists(t, item.month, item.name) && t[item.month][item.name] == item.rows
  {
  }

  // ----- Resolving a recorded artifact -----

  datatype Place = InLake | Archived(id: string) | Nowhere

  predicate Candidate(d: Disk, m: Month, n: Name, id: string) {
    && id in d.compactions && d.compactions[id].month == m
    && id in d.archives && d.archives[id].month == m && n in d.archives[id].files
  }

  function Search(d: Disk, m: Month, n: Name, ids: seq<string>): Place {
    if ids == [] then Nowhere
    else if Candidate(d, m, n, ids[0]) then Archived(ids[0])
    else Search(d, m, n, ids[1..])
  }

  /** The recorded path if it still exists, else the first compaction record, in the order the
      records are read, whose archive has a file of that name. */
  function Resolve(d: Disk, m: Month, n: Name, ids: seq<string>): Place {
    if Exists(d.tree, m, n) then InLake else Search(d, m, n, ids)
  }

  /** The rows of the file a place denotes. */
  function ContentAt(d: Disk, m: Month, n: Name, place: Place): Option<seq<Row>> {
    match place
    case InLake => if Exists(d.tree, m, n) then Some(d.tree[m][n]) else None
    case Archived(id) =>
      if id in d.archives && n in d.archives[id].files then Some(d.archives[id].files[n]) else None
    case Nowhere => None
  }

  method ResolveArtifact(d: Disk, m: Month, n: Name, ids: seq<string>) returns (place: Place)
    ensures place == Resolve(d, m, n, ids)
  {
    if Exists(d.tree, m, n) {
      return InLake;
    }
    for i := 0 to |ids|
      invariant Search(d, m, n, ids) == Search(d, m, n, ids[i..])
    {
      var id := ids[i];
      assert ids[i..][0] == id && ids[i..][1..] == ids[i + 1..];
      if id !in d.compactions || d.compactions[id].month != m {
        continue;
      }
      if id in d.archives && d.archives[id].month == m && n in d.archives[id].files {
        return Archived(id);
      }
    }
    place := Nowhere;
  }

  lemma {:induction false} SearchFinds(d: Disk, m: Month, n: Name, ids: seq<string>)
    ensures Search(d, m, n, ids).Nowhere? <==> forall id :: id in ids ==> !Candidate(d, m, n, id)
    ensures !Search(d, m, n, ids).InLake?
    ensures Search(d, m, n, ids).Archived? ==> Candidate(d, m, n, Search(d, m, n, ids).id)
  {
    if ids != [] {
      SearchFinds(d, m, n, ids[1..]);
      assert forall id :: id in ids <==> id == ids[0] || id in ids[1..];
    }
  }

  /** The compaction records, each listed. */
  ghost predicate Lists(ids: seq<string>, d: Disk) {
    forall id :: id in d.compactions <==> id in ids
  }

  /** Every archived directory has its compaction record. */
  ghost predicate Settled(d: Disk) {
    forall id :: id in d.archives ==> id in d.compactions
  }

  ghost predicate Retrievable(d: Disk, m: Month, n: Name) {
    InTree(d, m, n) || exists id :: id in d.compactions && InArchive(d, id, m, n)
  }

  /** A file is looked for in the archives of its own partition only, and the archive it is found in has it. */
  lemma FoundInItsPartition(d: Disk, m: Month, n: Name, ids: seq<string>)
    ensures var place := Resolve(d, m, n, ids);
      place.Archived? ==>
        && place.id in ids && place.id in d.compactions && d.compactions[place.id].month == m
        && place.id in d.archives && n in d.archives[place.id].files && !Exists(d.tree, m, n)
  {
    SearchFinds(d, m, n, ids);
    SearchListed(d, m, n, ids);
  }

  lemma {:induction false} SearchListed(d: Disk, m: Month, n: Name, ids: seq<string>)
    ensures Search(d, m, n, ids).Archived? ==> Search(d, m, n, ids).id in ids
  {
    if ids != [] {
      SearchListed(d, m, n, ids[1..]);
    }
  }

  /** Exactly when an artifact of a build resolves, and that it then resolves to what was recorded,
      in whatever order the compaction records are read. */
  lemma BuildsResolve(s: State, item: Item, ids: seq<string>)
    requires Inv(s) && FilesInv(s) && RecordsOk(s) && item in s.builds && Lists(ids, s.disk)
    ensures !Resolve(s.disk, item.month, item.name, ids).Nowhere? <==> Retrievable(s.disk, item.month, item.name)
    ensures Retrievable(s.disk, item.month, item.name) ==>
      ContentAt(s.disk, item.month, item.name, Resolve(s.disk, item.month, item.name, ids)) == Some(item.rows)
  {
    hide Inv, Known, Search;
    var d, m, n := s.disk, item.month, item.name;
    SearchFinds(d, m, n, ids);
    forall id | id in d.compactions && InArchive(d, id, m, n) ensures Candidate(d, m, n, id) {
      ArchiveMonth(s, id);
    }
    assert Exists(d.tree, m, n) <==> InTree(d, m, n);
    assert Kept(d, item);
    if !InTree(d, m, n) {
      var at :| InArchive(d, at, m, n) && d.archives[at].files[n] == item.rows;
      var place := Search(d, m, n, ids);
      if place.Archived? {
        assert InArchive(d, place.id, m, n);
        assert place.id == at;
      }
    } else {
      assert DirOf(d.tree, m)[n] == item.rows;
    }
  }

  lemma SettledIsRetrievable(s: State, item: Item)
    requires FilesInv(s) && item in s.builds && Settled(s.disk)
    ensures Retrievable(s.disk, item.month, item.name)
  {
    hide Known, NamesUnique, NamesKnown;
    assert Kept(s.disk, item);
  }

  /** Over every clean history, exactly when an artifact of a build cannot be found: when the archive
      it went into has no compaction record, be it that its compaction is not there yet, was killed,
      or raised an exception after the swap. */
  lemma UnresolvableExactly(states: seq<State>, actions: seq<Action>, i: nat, item: Item, ids: seq<string>)
    requires CleanBehavior(states, actions) && i < |states|
    requires item in states[i].builds && Lists(ids, states[i].disk)
    ensures Resolve(states[i].disk, item.month, item.name, ids).Nowhere? <==> Unrecorded(states[i].disk, item)
  {
    hide CleanBehavior, Inv, Known, RecordsOk, Resolve, Lists;
    InvHolds(states, actions, i);
    FilesInvHolds(states, actions, i);
    RecordsHold(states, actions, i);
    BuildsResolve(states[i], item, ids);
    assert Kept(states[i].disk, item);
  }

  /** The file is in an archive whose compaction record is missing. */
  ghost predicate Unrecorded(d: Disk, item: Item) {
    exists id :: InArchive(d, id, item.month, item.name) && id !in d.compactions
  }

  /** Every compaction completed, or left its partition where it was. */
  ghost predicate CompactionsFinished(s: State) {
    forall id :: id in s.compactors ==>
      var k := s.compactors[id];
      k.stage.Locking? || k.stage == Closed(None) || (k.stage.Closed? && id !in s.disk.archives)
  }

  lemma FinishedIsSettled(s: State)
    requires Inv(s) && CompactionsFinished(s)
    ensures Settled(s.disk)
  {
    hide RunsInv, Rewritten, DirOf;
    forall id | id in s.disk.archives ensures id in s.disk.compactions {
      assert CompactorOk(s.disk, s.compactors[id]);
    }
  }

  /** Time travel survives compaction: over any history whose compactions completed or rolled back,
      every artifact of every earlier build resolves to a file with its recorded rows. */
  lemma TimeTravelSurvivesCompaction(states: seq<State>, actions: seq<Action>, i: nat, item: Item, ids: seq<string>)
    requires CleanBehavior(states, actions) && i < |states|
    requires item in states[i].builds && Lists(ids, states[i].disk) && CompactionsFinished(states[i])
    ensures ContentAt(states[i].disk, item.month, item.name,
                      Resolve(states[i].disk, item.month, item.name, ids)) == Some(item.rows)
  {
    hide CleanBehavior, Inv, FilesInv, RecordsOk, Resolve, Retrievable, Settled, CompactionsFinished;
    InvHolds(states, actions, i);
    FilesInvHolds(states, actions, i);
    RecordsHold(states, actions, i);
    FinishedIsSettled(states[i]);
    SettledIsRetrievable(states[i], item);
    BuildsResolve(states[i], item, ids);
  }

  /** An exception after the swap keeps the archive and never writes its record: what the build
      recorded in that partition no longer resolves. */
  lemma FailureAfterSwapIsUnresolvable(s: Site, t: Site, u: Site, n: Name, ids: seq<string>)
    requires CompactorOk(s.disk, s.job) && s.job.stage.Recording? && s.job.id !in s.disk.compactions
    requires Raises(s, t) && Steps(t, u)
    requires n in s.job.before && n != Compact(s.job.id)
    requires forall id :: InArchive(s.disk, id, s.job.month, n) ==> id == s.job.id
    ensures u.job.stage.Closed? && Resolve(u.disk, s.job.month, n, ids) == Nowhere
  {
    hide Rewritten, DirCanons, Compacts;
    assert SwappedIn(s.disk, s.job);
    assert u.disk.compactions == s.disk.compactions;
    assert !Exists(u.disk.tree, s.job.month, n);
    forall id | id in ids ensures !Candidate(u.disk, s.job.month, n, id) {
      assert id in u.disk.archives && u.disk.archives[id].month == s.job.month && n in u.disk.archives[id].files
             ==> InArchive(s.disk, id, s.job.month, n);
    }
    SearchFinds(u.disk, s.job.month, n, ids);
  }

  // ----- Reproducing a build -----

  /** A manifest entry as it is resolved: its dataset, what was recorded and what was found. */
  datatype Artifact = Artifact(dataset: string, recorded: seq<Row>, found: Option<seq<Row>>)

  predicate HashValid(a: Artifact) {
    a.found == Some(a.recorded)
  }

  function RowTotal(artifacts: seq<Artifact>): nat {
    if artifacts == [] then 0 else RowTotal(artifacts[..|artifacts| - 1]) + |artifacts[|artifacts| - 1].recorded|
  }

  /** Resolve every entry; the build can be reproduced when all of them are found unchanged. */
  method ReproductionPlan(d: Disk, items: seq<(string, Item)>, ids: seq<string>)
    returns (artifacts: seq<Artifact>, inputsReady: bool, expectedRows: nat)
    ensures |artifacts| == |items|
    ensures forall i :: 0 <= i < |items| ==>
      artifacts[i] == Artifact(items[i].0, items[i].1.rows,
        ContentAt(d, items[i].1.month, items[i].1.name, Resolve(d, items[i].1.month, items[i].1.name, ids)))
    ensures inputsReady <==> forall i :: 0 <= i < |artifacts| ==> HashValid(artifacts[i])
    ensures expectedRows == RowTotal(artifacts)
  {
    artifacts, inputsReady, expectedRows := [], true, 0;
    for i := 0 to |items|
      invariant |artifacts| == i
      invariant forall j :: 0 <= j < i ==>
        artifacts[j] == Artifact(items[j].0, items[j].1.rows,
          ContentAt(d, items[j].1.month, items[j].1.name, Resolve(d, items[j].1.month, items[j].1.name, ids)))
      invariant inputsReady <==> forall j :: 0 <= j < i ==> HashValid(artifacts[j])
      invariant expectedRows == RowTotal(artifacts)
    {
      var item := items[i].1;
      var place := ResolveArtifact(d, item.month, item.name, ids);
      var a := Artifact(items[i].0, item.rows, ContentAt(d, item.month, item.name, place));
      ghost var was := artifacts;
      artifacts := artifacts + [a];
      assert artifacts[..i] == was;
      inputsReady := inputsReady && HashValid(a);
      expectedRows := expectedRows + |a.recorded|;
    }
  }

  /** The expected rows of a build are those of its entries together. */
  lemma RowTotalAdds(artifacts: seq<Artifact>, a: Artifact)
    ensures RowTotal([]) == 0 && RowTotal(artifacts + [a]) == RowTotal(artifacts) + |a.recorded|
  {
    assert (artifacts + [a])[..|artifacts|] == artifacts;
  }

  // ----- Verifying a build -----

  datatype Code = Code(commit: string, worktree: string, transformations: string)

  /** A build manifest; everything but the build id is its identity. */
  datatype BuildRecord = BuildRecord(
    buildId: string, code: Code, dbtRun: Option<string>, datasets: seq<string>, parameters: map<string, string>,
    partitions: seq<Item>)

  function Identity(b: BuildRecord): BuildRecord {
    b.(buildId := "")
  }

  datatype BuildError =
    | CommitChanged | WorktreeChanged | CodeChanged
    | ArtifactMissing(index: nat) | HashChanged(index: nat)
    | IdentityMismatch

  function FoundFor(d: Disk, item: Item, ids: seq<string>): Option<seq<Row>> {
    ContentAt(d, item.month, item.name, Resolve(d, item.month, item.name, ids))
  }

  /** The manifest is the one its id names, the code is the recorded code, and every input is unchanged. */
  predicate Verified(digest: BuildRecord -> string, b: BuildRecord, code: Code, d: Disk, ids: seq<string>) {
    && b.code == code && b.buildId == digest(Identity(b))
    && forall i :: 0 <= i < |b.partitions| ==> FoundFor(d, b.partitions[i], ids) == Some(b.partitions[i].rows)
  }

  predicate ErrorIsTrue(digest: BuildRecord -> string, b: BuildRecord, code: Code, d: Disk, ids: seq<string>, e: BuildError) {
    match e
    case CommitChanged => b.code.commit != code.commit
    case WorktreeChanged => b.code.worktree != code.worktree
    case CodeChanged => b.code.transformations != code.transformations
    case ArtifactMissing(i) => i < |b.partitions| && FoundFor(d, b.partitions[i], ids).None?
    case HashChanged(i) =>
      && i < |b.partitions| && FoundFor(d, b.partitions[i], ids).Some?
      && FoundFor(d, b.partitions[i], ids).value != b.partitions[i].rows
    case IdentityMismatch => b.buildId != digest(Identity(b))
  }

  method CodeErrors(b: BuildRecord, code: Code) returns (errors: seq<BuildError>)
    ensures errors == [] <==> b.code == code
    ensures forall e :: e in errors <==>
      || (e.CommitChanged? && b.code.commit != code.commit) || (e.WorktreeChanged? && b.code.worktree != code.worktree)
      || (e.CodeChanged? && b.code.transformations != code.transformations)
  {
    errors := [];
    if b.code.commit != code.commit { errors := errors + [CommitChanged]; }
    if b.code.worktree != code.worktree { errors := errors + [WorktreeChanged]; }
    if b.code.transformations != code.transformations { errors := errors + [CodeChanged]; }
  }

  /** Every true error is reported, and no other. */
  method VerifyBuild(digest: BuildRecord -> string, b: BuildRecord, code: Code, d: Disk, ids: seq<string>)
    returns (errors: seq<BuildError>)
    ensures forall e :: e in errors <==> ErrorIsTrue(digest, b, code, d, ids, e)
    ensures errors == [] <==> Verified(digest, b, code, d, ids)
  {
    errors := CodeErrors(b, code);
    var items := b.partitions;
    for i := 0 to |items|
      invariant errors == [] <==>
        b.code == code && forall j :: 0 <= j < i ==> FoundFor(d, items[j], ids) == Some(items[j].rows)
      invariant forall e :: e in errors <==>
        ErrorIsTrue(digest, b, code, d, ids, e) && !e.IdentityMismatch? &&
        (e.ArtifactMissing? || e.HashChanged? ==> e.index < i)
    {
      var item := items[i];
      var place := ResolveArtifact(d, item.month, item.name, ids);
      match ContentAt(d, item.month, item.name, place) {
        case None => errors := errors + [ArtifactMissing(i)];
        case Some(rows) =>
          if rows != item.rows { errors := errors + [HashChanged(i)]; }
      }
    }
    if b.buildId != digest(Identity(b)) { errors := errors + [IdentityMismatch]; }
  }

  /** A build manifest as it is created: its id is the digest of its identity and its partitions are
      those of a recorded build. After any history whose compactions completed or rolled back it
      verifies if and only if the code is the same. */
  lemma BuildsVerify(
    states: seq<State>, actions: seq<Action>, i: nat, digest: BuildRecord -> string, b: BuildRecord, code: Code, ids: seq<string>)
    requires CleanBehavior(states, actions) && i < |states|
    requires b.buildId == digest(b.(buildId := "")) && forall item :: item in b.partitions ==> item in states[i].builds
    requires Lists(ids, states[i].disk) && CompactionsFinished(states[i])
    ensures Verified(digest, b, code, states[i].disk, ids) <==> b.code == code
  {
    hide CleanBehavior, Resolve, CompactionsFinished, ContentAt, Lists;
    forall k | 0 <= k < |b.partitions| ensures FoundFor(states[i].disk, b.partitions[k], ids) == Some(b.partitions[k].rows) {
      TimeTravelSurvivesCompaction(states, actions, i, b.partitions[k], ids);
    }
  }

  /** A manifest that was altered anywhere but in its id does not verify. */
  lemma AlteredBuildsFail(digest: BuildRecord -> string, b: BuildRecord, altered: BuildRecord, code: Code, d: Disk, ids: seq<string>)
    requires forall x, y :: digest(x) == digest(y) ==> x == y
    requires b.buildId == digest(b.(buildId := "")) && altered.buildId == b.buildId && altered != b
    ensures !Verified(digest, altered, code, d, ids)
  {
    SameIdentity(b, altered);
  }

  lemma SameIdentity(a: BuildRecord, b: BuildRecord)
    ensures a == b <==> Identity(a) == Identity(b) && a.buildId == b.buildId
  {
    assert a == Identity(a).(buildId := a.buildId) && b == Identity(b).(buildId := b.buildId);
  }

  // ----- The catalog -----

  function RecordedRows(artifacts: seq<Artifact>, dataset: string): nat {
    if artifacts == [] then 0
    else
      var a := artifacts[|artifacts| - 1];
      RecordedRows(artifacts[..|artifacts| - 1], dataset) + if a.dataset == dataset then |a.recorded| else 0
  }

  function Found(artifacts: seq<Artifact>, dataset: string): nat {
    if artifacts == [] then 0
    else
      var a := artifacts[|artifacts| - 1];
      Found(artifacts[..|artifacts| - 1], dataset)
      + if a.dataset == dataset && a.found.Some? then |a.found.value| else 0
  }

  /** When every input is unchanged, the view of a dataset has exactly the recorded row count. */
  lemma {:induction false} CountsAgree(artifacts: seq<Artifact>, dataset: string)
    requires forall i :: 0 <= i < |artifacts| ==> HashValid(artifacts[i])
    ensures Found(artifacts, dataset) == RecordedRows(artifacts, dataset)
  {
    if artifacts != [] {
      CountsAgree(artifacts[..|artifacts| - 1], dataset);
    }
  }

  /** A catalog: the build it was made for and the rows each of its views has. */
  datatype Catalog = Catalog(buildId: string, rows: map<string, nat>)

  datatype Target = NoFile | Unreadable | Stored(catalog: Catalog)

  datatype CatalogError =
    | InputsChanged | InvalidCatalog | OtherCatalog | UnsafeName | RowCountMismatch(dataset: string)

  datatype CatalogOutcome = Refused(error: CatalogError) | Created(catalog: Catalog) | Reused(rows: map<string, nat>)

  predicate AllValid(artifacts: seq<Artifact>) {
    forall i :: 0 <= i < |artifacts| ==> HashValid(artifacts[i])
  }

  function DatasetsOf(artifacts: seq<Artifact>): set<string> {
    set i | 0 <= i < |artifacts| :: artifacts[i].dataset
  }

  function RecordedCounts(artifacts: seq<Artifact>): map<string, nat> {
    map dataset | dataset in DatasetsOf(artifacts) :: RecordedRows(artifacts, dataset)
  }

  /** `[a-z][a-z0-9_]*` */
  predicate SafeName(name: string) {
    && |name| > 0 && 'a' <= name[0] <= 'z'
    && forall i :: 0 <= i < |name| ==> 'a' <= name[i] <= 'z' || '0' <= name[i] <= '9' || name[i] == '_'
  }

  /** The stored catalog is of the build and each dataset has its recorded count in it; other views
      are not looked at. */
  predicate Fits(c: Catalog, buildId: string, artifacts: seq<Artifact>) {
    && c.buildId == buildId && DatasetsOf(artifacts) <= c.rows.Keys
    && forall dataset :: dataset in DatasetsOf(artifacts) ==> c.rows[dataset] == RecordedRows(artifacts, dataset)
  }

  function CatalogFor(buildId: string, artifacts: seq<Artifact>, target: Target): CatalogOutcome {
    if !AllValid(artifacts) then Refused(InputsChanged)
    else
      match target
      case Unreadable => Refused(InvalidCatalog)
      case Stored(c) =>
        if !(DatasetsOf(artifacts) <= c.rows.Keys) then Refused(InvalidCatalog)
        else if Fits(c, buildId, artifacts) then Reused(RecordedCounts(artifacts))
        else Refused(OtherCatalog)
      case NoFile =>
        if forall dataset :: dataset in DatasetsOf(artifacts) ==> SafeName(dataset)
        then Created(Catalog(buildId, RecordedCounts(artifacts)))
        else Refused(UnsafeName)
  }

  /** One entry more adds its recorded rows to its own dataset. */
  lemma RecordedRowsAdd(artifacts: seq<Artifact>, a: Artifact, dataset: string)
    ensures RecordedRows([], dataset) == 0
    ensures RecordedRows(artifacts + [a], dataset) == RecordedRows(artifacts, dataset) + if a.dataset == dataset then |a.recorded| else 0
  {
    assert (artifacts + [a])[..|artifacts|] == artifacts;
  }

  /** A catalog is created only for datasets whose names begin with a small letter and have nothing but small
      letters, digits and underscores, and has exactly one view for each. */
  lemma CreatedCatalogsAreSafe(buildId: string, artifacts: seq<Artifact>, i: nat, k: nat)
    requires i < |artifacts| && CatalogFor(buildId, artifacts, NoFile).Created?
    ensures var name := artifacts[i].dataset;
      && name in CatalogFor(buildId, artifacts, NoFile).catalog.rows
      && |name| > 0 && 'a' <= name[0] <= 'z'
      && (k < |name| ==> 'a' <= name[k] <= 'z' || '0' <= name[k] <= '9' || name[k] == '_')
    ensures forall dataset :: dataset in CatalogFor(buildId, artifacts, NoFile).catalog.rows ==>
      exists j :: 0 <= j < |artifacts| && artifacts[j].dataset == dataset
  {
    hide RecordedRows;
    assert artifacts[i].dataset in DatasetsOf(artifacts);
  }

  /** And those names are enough: with unchanged inputs nothing else stops a new catalog. */
  lemma SafeCatalogsAreCreated(buildId: string, artifacts: seq<Artifact>)
    requires forall i :: 0 <= i < |artifacts| ==> artifacts[i].found == Some(artifacts[i].recorded)
    requires forall i, k :: 0 <= i < |artifacts| && 0 <= k < |artifacts[i].dataset| ==>
      var ch := artifacts[i].dataset[k]; 'a' <= ch <= 'z' || (k > 0 && ('0' <= ch <= '9' || ch == '_'))
    requires forall i :: 0 <= i < |artifacts| ==> artifacts[i].dataset != ""
    ensures CatalogFor(buildId, artifacts, NoFile).Created?
  {
    hide RecordedRows;
  }

  /** What was created is reused by the same build, and refused to a build with another id or with
      another row count for one of its datasets. */
  lemma CatalogIsReused(buildId: string, artifacts: seq<Artifact>, other: string, others: seq<Artifact>)
    requires CatalogFor(buildId, artifacts, NoFile).Created? && AllValid(others)
    ensures var again := CatalogFor(other, others, Stored(CatalogFor(buildId, artifacts, NoFile).catalog));
      && (again.Reused? <==>
            other == buildId && DatasetsOf(others) <= DatasetsOf(artifacts) &&
            forall dataset :: dataset in DatasetsOf(others) ==> RecordedRows(others, dataset) == RecordedRows(artifacts, dataset))
      && (again.Reused? && others == artifacts ==> again.rows == CatalogFor(buildId, artifacts, NoFile).catalog.rows)
  {
    hide RecordedRows;
  }

  /** Why a stored catalog is refused to a build with unchanged inputs: it lacks a view of some dataset, or it
      has them all and its id or one of its counts is another. */
  lemma WhyAStoredCatalogIsRefused(buildId: string, artifacts: seq<Artifact>, c: Catalog)
    requires AllValid(artifacts)
    ensures var outcome := CatalogFor(buildId, artifacts, Stored(c));
      var lacking := exists i :: 0 <= i < |artifacts| && artifacts[i].dataset !in c.rows;
      && (outcome == Refused(InvalidCatalog) <==> lacking)
      && (outcome == Refused(OtherCatalog) <==>
            !lacking && (c.buildId != buildId ||
              exists i :: 0 <= i < |artifacts| && c.rows[artifacts[i].dataset] != RecordedRows(artifacts, artifacts[i].dataset)))
  {
    hide RecordedRows;
    forall i | 0 <= i < |artifacts| ensures artifacts[i].dataset in DatasetsOf(artifacts) {
    }
  }

  /** A new catalog, dataset by dataset. The row-count check is made, and by `CountsAgree` it cannot fail. */
  method NewCatalog(buildId: string, artifacts: seq<Artifact>) returns (outcome: CatalogOutcome)
    requires AllValid(artifacts)
    ensures outcome == CatalogFor(buildId, artifacts, NoFile)
  {
    var counts: map<string, nat> := map[];
    for i := 0 to |artifacts|
      invariant forall j :: 0 <= j < i ==> SafeName(artifacts[j].dataset)
      invariant forall dataset :: dataset in counts <==> exists j :: 0 <= j < i && artifacts[j].dataset == dataset
      invariant forall dataset :: dataset in counts ==> counts[dataset] == RecordedRows(artifacts, dataset)
    {
      var dataset := artifacts[i].dataset;
      if !SafeName(dataset) {
        assert dataset in DatasetsOf(artifacts);
        return Refused(UnsafeName);
      }
      var actual, expected := Found(artifacts, dataset), RecordedRows(artifacts, dataset);
      CountsAgree(artifacts, dataset);
      if actual != expected {
        return Refused(CatalogError.RowCountMismatch(dataset));
      }
      counts := counts[dataset := actual];
    }
    assert counts == RecordedCounts(artifacts);
    outcome := Created(Catalog(buildId, counts));
  }

  /** A catalog that is there is compared view by view. */
  method ExistingCatalog(buildId: string, artifacts: seq<Artifact>, c: Catalog) returns (outcome: CatalogOutcome)
    requires AllValid(artifacts)
    ensures outcome == CatalogFor(buildId, artifacts, Stored(c))
  {
    var counts: map<string, nat> := map[];
    for i := 0 to |artifacts|
      invariant forall dataset :: dataset in counts <==> exists j :: 0 <= j < i && artifacts[j].dataset == dataset
      invariant forall dataset :: dataset in counts ==> dataset in c.rows && counts[dataset] == c.rows[dataset]
    {
      var dataset := artifacts[i].dataset;
      if dataset !in c.rows {
        assert dataset in DatasetsOf(artifacts);
        return Refused(InvalidCatalog);
      }
      counts := counts[dataset := c.rows[dataset]];
    }
    assert counts.Keys == DatasetsOf(artifacts);
    assert counts == RecordedCounts(artifacts) <==>
      forall dataset :: dataset in DatasetsOf(artifacts) ==> c.rows[dataset] == RecordedRows(artifacts, dataset);
    outcome := if c.buildId != buildId || counts != RecordedCounts(artifacts) then Refused(OtherCatalog) else Reused(counts);
  }

  method CreateCatalog(buildId: string, artifacts: seq<Artifact>, target: Target) returns (outcome: CatalogOutcome)
    ensures outcome == CatalogFor(buildId, artifacts, target)
    ensures outcome == Refused(InputsChanged) <==> exists i :: 0 <= i < |artifacts| && !HashValid(artifacts[i])
  {
    for i := 0 to |artifacts|
      invariant forall j :: 0 <= j < i ==> HashValid(artifacts[j])
    {
      if !HashValid(artifacts[i]) {
        return Refused(InputsChanged);
      }
    }
    match target {
      case NoFile => outcome := NewCatalog(buildId, artifacts);
      case Unreadable => outcome := Refused(InvalidCatalog);
      case Stored(c) => outcome := ExistingCatalog(buildId, artifacts, c);
    }
  }
}
