/** Refreshes of one feed at two clocks: exactly when they leave the same lake, and a macro release
    for which they do not. */
module LateReleases {
  import opened Rows
  import opened Dedup
  import opened Contracts
  import opened Datasets
  import opened Backfill
  import opened Convergence
  import opened Warehouse
  import opened Incremental
  import opened Refresh
  import opened Feeds

  // ----- Exactly when two refreshes agree -----

  /** One backfill into an empty lake leaves exactly what the feed says at its clock. */
  lemma RefreshLeavesTheTruth(
    c: Contract, feed: seq<Record>, windows: set<(int, int)>, source: string, now: Raw, job: Job)
    requires WellFormed(c) && Consistent(Truth(c, feed, source, now)) && JobFor(c, feed, windows, source, now, job)
    ensures var end := Finish(EMPTY.disk, job);
      && end.proc.phase.Done? && Consistent(Within(Truth(c, feed, source, now), windows))
      && Retained(TreeCanons(end.disk.tree)) == Some(View(Within(Truth(c, feed, source, now), windows)))
  {
    hide Truth, Within, WellFormed, TreeCanons, Batch, Finish, View, Consistent, OldFilesKept, OnePhysicalRow, JobOk, JobFor,
      Retained;
    var truth := Truth(c, feed, source, now);
    BatchIsTruthWithin(c, feed, windows, source, now);
    JobForBatch(c, feed, windows, source, now, job);
    JobForIsOk(c, feed, windows, source, now, job);
    WithinIsPart(truth, windows);
    SmallerIsConsistent(truth, Within(truth, windows));
    NothingInAnEmptyLake();
    assert {} + Canons(job.accepted) == Within(truth, windows);
    UndisturbedRun(EMPTY.disk, job);
  }

  /** Different records of the feed have different keys, at either clock. */
  ghost predicate KeysTell(c: Contract, feed: seq<Record>, source: string, t: Raw, u: Raw) {
    forall raw, other, x, y :: raw in feed && other in feed && x in {t, u} && y in {t, u} && raw != other ==>
      !SameKey(c, raw, x, other, y, source)
  }

  ghost predicate SameKey(c: Contract, raw: Record, x: Raw, other: Record, y: Raw, source: string) {
    && Valid(c, Enrich(c, raw, source, x), source).Some? && Valid(c, Enrich(c, other, source, y), source).Some?
    && CanonAt(c, raw, source, x).key == CanonAt(c, other, source, y).key
  }

  lemma TellingKeysAreConsistent(c: Contract, feed: seq<Record>, source: string, t: Raw, u: Raw)
    requires KeysTell(c, feed, source, t, u)
    ensures Consistent(Truth(c, feed, source, t)) && Consistent(Truth(c, feed, source, u))
  {
    hide Valid, Enrich, CanonOf;
    forall now, v, w | now in {t, u} && v in Truth(c, feed, source, now) && w in Truth(c, feed, source, now) && v.key == w.key
      ensures v == w
    {
      var raw :| raw in feed && Valid(c, Enrich(c, raw, source, now), source).Some? && CanonAt(c, raw, source, now) == v;
      var other :| other in feed && Valid(c, Enrich(c, other, source, now), source).Some? && CanonAt(c, other, source, now) == w;
      assert SameKey(c, raw, now, other, now, source);
    }
  }

  /** The contract gives the record the same verdict at both clocks. */
  ghost predicate Settled(c: Contract, raw: Record, source: string, t: Raw, u: Raw) {
    var a, b := Enrich(c, raw, source, t), Enrich(c, raw, source, u);
    RulesAgree(c, a, b) || ForeignSource(c, a, source)
  }

  ghost predicate SettledIn(c: Contract, feed: seq<Record>, windows: set<(int, int)>, source: string, t: Raw, u: Raw)
    requires WellFormed(c)
  {
    forall raw :: raw in feed && Selected(c, raw, windows) ==> Settled(c, raw, source, t, u)
  }

  /** What a settled feed says in the windows does not move with the clock. */
  lemma SettledTruthStays(
    c: Contract, feed: seq<Record>, windows: set<(int, int)>, source: string, t: Raw, u: Raw, v: Canon)
    requires WellFormed(c) && ClockParses(c, t) && ClockParses(c, u)
    requires forall raw :: raw in feed && Selected(c, raw, windows) ==>
      SameVerdict(c, Enrich(c, raw, source, t), Enrich(c, raw, source, u), source)
    ensures v in Within(Truth(c, feed, source, t), windows) ==> v in Within(Truth(c, feed, source, u), windows)
  {
    hide Valid, Enrich, CanonOf, WellFormed, ClockParses, Selected, InWindows;
    if v in Within(Truth(c, feed, source, t), windows) {
      var raw :| raw in feed && Valid(c, Enrich(c, raw, source, t), source).Some? && CanonAt(c, raw, source, t) == v;
      DatedInWindow(c, raw, windows, source, t);
      assert SameVerdict(c, Enrich(c, raw, source, t), Enrich(c, raw, source, u), source);
      assert CanonAt(c, raw, source, u) == v;
    }
  }

  /** A record accepted at `t` whose canonical record the feed also says at `u` is accepted at `u`. */
  lemma SaidAtBoth(
    c: Contract, feed: seq<Record>, windows: set<(int, int)>, source: string, t: Raw, u: Raw, raw: Record)
    requires WellFormed(c) && KeysTell(c, feed, source, t, u) && raw in feed && Selected(c, raw, windows)
    requires Within(Truth(c, feed, source, t), windows) == Within(Truth(c, feed, source, u), windows)
    ensures Valid(c, Enrich(c, raw, source, t), source).Some? ==>
      Valid(c, Enrich(c, raw, source, u), source).Some? && CanonAt(c, raw, source, u) == CanonAt(c, raw, source, t)
  {
    hide Valid, Enrich, CanonOf, WellFormed, Selected, InWindows;
    if Valid(c, Enrich(c, raw, source, t), source).Some? {
      var v := CanonAt(c, raw, source, t);
      DatedInWindow(c, raw, windows, source, t);
      assert v in Within(Truth(c, feed, source, t), windows);
      var other :| other in feed && Valid(c, Enrich(c, other, source, u), source).Some? && CanonAt(c, other, source, u) == v;
      assert SameKey(c, raw, t, other, u, source);
    }
  }

  lemma KeysTellBothWays(c: Contract, feed: seq<Record>, source: string, t: Raw, u: Raw)
    requires KeysTell(c, feed, source, t, u)
    ensures KeysTell(c, feed, source, u, t)
  {
    hide SameKey;
  }

  lemma SaidAtBothIsSettled(
    c: Contract, feed: seq<Record>, windows: set<(int, int)>, source: string, t: Raw, u: Raw, raw: Record)
    requires WellFormed(c) && KeysTell(c, feed, source, t, u) && raw in feed && Selected(c, raw, windows)
    requires Within(Truth(c, feed, source, t), windows) == Within(Truth(c, feed, source, u), windows)
    ensures SameVerdict(c, Enrich(c, raw, source, t), Enrich(c, raw, source, u), source)
  {
    hide Valid, Enrich, CanonOf, WellFormed, Selected, KeysTell, Truth, Within;
    SaidAtBoth(c, feed, windows, source, t, u, raw);
    KeysTellBothWays(c, feed, source, t, u);
    SaidAtBoth(c, feed, windows, source, u, t, raw);
  }

  lemma VerdictsSettleTruth(c: Contract, feed: seq<Record>, windows: set<(int, int)>, source: string, t: Raw, u: Raw)
    requires WellFormed(c) && ClockParses(c, t) && ClockParses(c, u) && KeysTell(c, feed, source, t, u)
    ensures Within(Truth(c, feed, source, t), windows) == Within(Truth(c, feed, source, u), windows)
       <==> SettledIn(c, feed, windows, source, t, u)
  {
    hide ClockParses, KeysTell, Truth, Within, Selected, SameVerdict, Enrich, RulesAgree, ForeignSource, Target;
    forall raw ensures Settled(c, raw, source, t, u)
      <==> SameVerdict(c, Enrich(c, raw, source, t), Enrich(c, raw, source, u), source) {
      ClockMattersExactly(c, raw, source, t, u);
    }
    if SettledIn(c, feed, windows, source, t, u) {
      forall v ensures v in Within(Truth(c, feed, source, t), windows) <==> v in Within(Truth(c, feed, source, u), windows) {
        SettledTruthStays(c, feed, windows, source, t, u, v);
        BothWays(c, feed, windows, source, t, u);
        SettledTruthStays(c, feed, windows, source, u, t, v);
      }
    }
    if Within(Truth(c, feed, source, t), windows) == Within(Truth(c, feed, source, u), windows) {
      forall raw | raw in feed && Selected(c, raw, windows) ensures Settled(c, raw, source, t, u) {
        SaidAtBothIsSettled(c, feed, windows, source, t, u, raw);
      }
    }
  }

  lemma BothWays(c: Contract, feed: seq<Record>, windows: set<(int, int)>, source: string, t: Raw, u: Raw)
    requires WellFormed(c)
    requires forall raw :: raw in feed && Selected(c, raw, windows) ==>
      SameVerdict(c, Enrich(c, raw, source, t), Enrich(c, raw, source, u), source)
    ensures forall raw :: raw in feed && Selected(c, raw, windows) ==>
      SameVerdict(c, Enrich(c, raw, source, u), Enrich(c, raw, source, t), source)
  {
    hide Valid, CanonOf, Selected, Enrich, WellFormed;
  }

  /** Two backfills of one feed at two clocks leave the same lake if and only if the contract gives
      every record dated in the windows the same verdict at both. */
  lemma RefreshesAgreeExactly(
    c: Contract, feed: seq<Record>, windows: set<(int, int)>, source: string, t: Raw, u: Raw, a: Job, b: Job)
    requires WellFormed(c) && ClockParses(c, t) && ClockParses(c, u) && KeysTell(c, feed, source, t, u)
    requires JobFor(c, feed, windows, source, t, a) && JobFor(c, feed, windows, source, u, b)
    ensures Retained(TreeCanons(Finish(EMPTY.disk, a).disk.tree)) == Retained(TreeCanons(Finish(EMPTY.disk, b).disk.tree))
       <==> SettledIn(c, feed, windows, source, t, u)
  {
    hide WellFormed, ClockParses, KeysTell, Truth, Within, SettledIn, JobFor, TreeCanons, Finish, Retained, Consistent;
    TellingKeysAreConsistent(c, feed, source, t, u);
    RefreshLeavesTheTruth(c, feed, windows, source, t, a);
    RefreshLeavesTheTruth(c, feed, windows, source, u, b);
    VerdictsSettleTruth(c, feed, windows, source, t, u);
    SameViewSameRecords(Within(Truth(c, feed, source, t), windows), Within(Truth(c, feed, source, u), windows));
  }

  lemma SameViewSameRecords(a: set<Canon>, b: set<Canon>)
    requires Consistent(a) && Consistent(b)
    ensures View(a) == View(b) <==> a == b
  {
    hide View;
    assert View(a).Values == a && View(b).Values == b;
  }

  // ----- A macro release between the clocks -----

  const DAY := Date(1, 2026, 1)

  /** Parsers that take every value as it comes. */
  const PLAIN := Parsers(
    text => text,
    text => text,
    (raw: Raw) => if raw.RNumber? then Some(raw.number) else None,
    (raw: Raw) => None,
    (raw: Raw) => if raw.RDay? then Some(raw.day) else None,
    (raw: Raw) => if raw.RInstant? then Some((raw.micros, raw.utcDay)) else None)

  function MacroContract(): Contract {
    Macro(PLAIN, (raw: Record) => "")
  }

  function Given(name: string): Raw {
    if name == "observation_date" then RDay(DAY)
    else if name == "released_at" then RInstant(5, DAY)
    else if name == "value" then RNumber(0.0)
    else RText("x")
  }

  /** An observation that will be released at instant 5. */
  function Observation(): Record {
    map name | name in MACRO_COLUMNS && name != "ingested_at" :: Given(name)
  }

  function Clock(at: int): Raw {
    RInstant(at, DAY)
  }

  function Reading(at: int): Record {
    map name | name in MACRO_COLUMNS :: if name == "ingested_at" then Clock(at) else Given(name)
  }

  lemma ColumnNames()
    ensures "released_at" in MACRO_COLUMNS && "source" in MACRO_COLUMNS && "source_record_id" in MACRO_COLUMNS
    ensures "ingested_at" in MACRO_COLUMNS && "observation_date" in MACRO_COLUMNS
    ensures "date" !in MACRO_COLUMNS && "release_timestamp" !in MACRO_COLUMNS
  {
    assert MACRO_COLUMNS[1] == "observation_date" && MACRO_COLUMNS[2] == "released_at" && MACRO_COLUMNS[6] == "source";
    assert MACRO_COLUMNS[7] == "source_record_id" && MACRO_COLUMNS[8] == "ingested_at";
    forall name | name in MACRO_COLUMNS ensures name != "date" && name != "release_timestamp" {
      assert |name| != 4 || name[0] == 'u';
      assert |name| != 17;
    }
  }

  lemma ReadingIs(at: int)
    ensures Enrich(MacroContract(), Observation(), "x", Clock(at)) == Reading(at)
  {
    ColumnNames();
    assert |"source"| == 6 && |"source_record_id"| == 16 && |"ingested_at"| == 11;
    assert Observation()["ingested_at" := Clock(at)] == Reading(at);
  }

  lemma ColumnsKeepTheirNames(at: int)
    ensures var c := MacroContract(); !Collides(c, Reading(at)) && Renamed(c, Reading(at)) == Reading(at)
  {
    hide Given, Reading, Target;
    var c := MacroContract();
    KeysOfReading(at);
    NothingIsRenamed();
    forall name | name in Reading(at) ensures name in Renamed(c, Reading(at)) {
      assert Target(c, name) in Renamed(c, Reading(at));
    }
  }

  lemma NothingIsRenamed()
    ensures forall name :: name in MACRO_COLUMNS ==> Target(MacroContract(), name) == name
  {
    ColumnNames();
  }

  lemma CellsParse(at: int, name: string)
    requires name in MACRO_COLUMNS
    ensures NormalizeCell(MacroContract().fields[name], Reading(at)[name]).Some?
    ensures name == "released_at" ==> NormalizeCell(MacroContract().fields[name], Reading(at)[name]) == Some(Instant(5, DAY))
    ensures name == "ingested_at" ==> NormalizeCell(MacroContract().fields[name], Reading(at)[name]) == Some(Instant(at, DAY))
    ensures name == "source" ==> NormalizeCell(MacroContract().fields[name], Reading(at)[name]) == Some(Text("x"))
    ensures name == "observation_date" ==> NormalizeCell(MacroContract().fields[name], Reading(at)[name]) == Some(Day(DAY))
  {
    assert |"released_at"| == 11 && |"ingested_at"| == 11 && |"source"| == 6 && |"observation_date"| == 16 && |"value"| == 5;
    assert "released_at"[0] != "ingested_at"[0];
  }

  /** Every cell of the reading parses; the release and ingestion times are as given. */
  lemma ReadingParses(at: int)
    ensures var cells := Normalized(MacroContract(), Reading(at));
      && cells.Some? && Cell(cells.value, "released_at") == Instant(5, DAY)
      && Cell(cells.value, "ingested_at") == Instant(at, DAY) && Cell(cells.value, "source") == Text("x")
      && Cell(cells.value, "observation_date") == Day(DAY)
  {
    hide NormalizeCell, Collides, Renamed, Reading, MacroContract;
    var c := MacroContract();
    ColumnNames();
    ColumnsKeepTheirNames(at);
    KeysOfReading(at);
    forall name ensures !Fails(c, Reading(at), name) {
      if name in MACRO_COLUMNS { CellsParse(at, name); }
    }
    CellsParse(at, "released_at");
    CellsParse(at, "ingested_at");
    CellsParse(at, "source");
    CellsParse(at, "observation_date");
  }

  lemma KeysOfReading(at: int)
    ensures Reading(at).Keys == MacroContract().fields.Keys
    ensures forall name :: name in Reading(at) <==> name in MACRO_COLUMNS
  {
  }

  /** The job a backfill of the feed carries. */
  ghost function JobOf(c: Contract, feed: seq<Record>, windows: set<(int, int)>, source: string, now: Raw, runId: string): (job: Job)
    requires WellFormed(c)
    ensures JobFor(c, feed, windows, source, now, job) && job.runId == runId
  {
    hide WellFormed;
    var offered := EnrichAll(c, Select(c, feed, windows), source, now);
    var refused := Rejected(c, offered, source);
    var rejects := seq(|refused|, i requires 0 <= i < |refused| => Reject(refused[i], []));
    Job(runId, source, |offered|, Batch(c, feed, windows, source, now), rejects, false)
  }

  /** Everything that incremental equals full refresh asks for except a steady feed, and yet the lake
      of the incremental history is not that of the full refresh. */
  ghost predicate RefreshDiffers(
    c: Contract, feed: seq<Record>, source: string, clocks: set<Raw>, now: Raw, disks: seq<Disk>, ops: seq<Op>, full: Job)
  {
    && WellFormed(c) && now in clocks && (forall t :: t in clocks ==> ClockParses(c, t))
    && Operated(c, feed, source, clocks, disks, ops)
    && Lake(TreeCanons(disks[0].tree), Truth(c, feed, source, now))
    && (forall day :: InWindows(day, AllTouched(ops)) ==> InWindows(day, AllFinished(disks, ops)))
    && OfferedAll(c, feed, source, clocks, AllFinished(disks, ops), full)
    && FreshIn(disks[0].tree, full.runId) && !Blocked(disks[0], full)
    && Retained(TreeCanons(disks[|ops|].tree)) != Retained(TreeCanons(Finish(disks[0], full).disk.tree))
  }

  /** One ingestion that nobody interrupts, as a history of operations. */
  lemma OneIngestion(
    c: Contract, feed: seq<Record>, windows: set<(int, int)>, source: string, clocks: set<Raw>, t: Raw, a: Job)
    requires WellFormed(c) && t in clocks && JobFor(c, feed, windows, source, t, a)
    requires Finish(EMPTY.disk, a).proc.phase.Done?
    ensures var ops := [Ingest(windows, [Try(a, Remaining(Start(a)))])];
      var disks := [EMPTY.disk, Finish(EMPTY.disk, a).disk];
      && Operated(c, feed, source, clocks, disks, ops) && AllFinished(disks, ops) == AllTouched(ops) == windows
  {
    hide WellFormed, JobFor, Alone, Remaining;
    var tries := [Try(a, Remaining(Start(a)))];
    var ops, disks := [Ingest(windows, tries)], [EMPTY.disk, Finish(EMPTY.disk, a).disk];
    assert tries[..0] == [] && ops[..0] == [];
    assert After(EMPTY.disk, []) == EMPTY.disk;
    assert After(EMPTY.disk, tries) == Finish(EMPTY.disk, a).disk;
    assert Completes(EMPTY.disk, tries);
    assert OfferedAll(c, feed, source, clocks, windows, a);
    assert Applies(c, feed, source, clocks, disks[0], ops[0], disks[1]);
  }

  /** A run before and a refresh after a clock at which the contract changed its mind about a record. */
  lemma UnsettledFeedDiffers(
    c: Contract, feed: seq<Record>, windows: set<(int, int)>, source: string, t: Raw, u: Raw, a: Job, b: Job)
    requires WellFormed(c) && ClockParses(c, t) && ClockParses(c, u) && KeysTell(c, feed, source, t, u)
    requires JobFor(c, feed, windows, source, t, a) && JobFor(c, feed, windows, source, u, b)
    requires !SettledIn(c, feed, windows, source, t, u)
    ensures RefreshDiffers(c, feed, source, {t, u}, u, [EMPTY.disk, Finish(EMPTY.disk, a).disk],
                           [Ingest(windows, [Try(a, Remaining(Start(a)))])], b)
  {
    hide WellFormed, ClockParses, KeysTell, Truth, SettledIn, JobFor, TreeCanons, Finish, Retained, Consistent, Operated,
      AllTouched, AllFinished, Remaining, InWindows, View;
    TellingKeysAreConsistent(c, feed, source, t, u);
    RefreshLeavesTheTruth(c, feed, windows, source, t, a);
    RefreshesAgreeExactly(c, feed, windows, source, t, u, a, b);
    OneIngestion(c, feed, windows, source, {t, u}, t, a);
    NothingInAnEmptyLake();
    assert {} + Truth(c, feed, source, u) == Truth(c, feed, source, u);
    assert OfferedAll(c, feed, source, {t, u}, windows, b);
  }

  lemma ObservationIsUnsettled()
    ensures var c := MacroContract();
      && WellFormed(c) && ClockParses(c, Clock(1)) && ClockParses(c, Clock(9))
      && KeysTell(c, [Observation()], "x", Clock(1), Clock(9))
      && !SettledIn(c, [Observation()], {(1, 1)}, "x", Clock(1), Clock(9))
  {
    hide Normalized, RulesHold, SameVerdict, Enrich, Observation, Reading, Valid, CanonOf, Target, Selected, Macro;
    var c, feed := MacroContract(), [Observation()];
    MacroIsWellFormed(PLAIN, (raw: Record) => "");
    ClocksParse(1);
    ClocksParse(9);
    ReadingIs(1);
    ReadingIs(9);
    ReadingParses(1);
    ReadingParses(9);
    MacroIsSteadyExactly(PLAIN, (raw: Record) => "", Observation(), "x", Clock(1), Clock(9));
    assert !Settled(c, Observation(), "x", Clock(1), Clock(9));
    ObservationIsSelected();
    assert Observation() in feed;
  }

  lemma ClocksParse(at: int)
    ensures ClockParses(MacroContract(), Clock(at))
  {
    ColumnNames();
    assert |"observation_date"| == 16 && |"value"| == 5 && |"ingested_at"| == 11 && |"date"| == 4 && |"release_timestamp"| == 17;
    assert "released_at"[0] != "ingested_at"[0];
  }

  lemma ObservationIsSelected()
    ensures MacroContract().eventField in MacroContract().fields
    ensures Selected(MacroContract(), Observation(), {(1, 1)})
  {
    ColumnNames();
    assert |"ingested_at"| == 11 && |"observation_date"| == 16 && |"released_at"| == 11 && |"value"| == 5;
    assert (1, 1) in {(1, 1)};
    assert EventDate(MacroContract(), Observation()) == Some(DAY);
  }

  /** A macro observation whose release lies between the clocks of the two: the incremental run
      quarantines it, the full refresh takes it. */
  lemma LateReleaseBreaksTheRefresh() returns (disks: seq<Disk>, ops: seq<Op>, full: Job)
    ensures RefreshDiffers(MacroContract(), [Observation()], "x", {Clock(1), Clock(9)}, Clock(9), disks, ops, full)
  {
    hide *;
    ObservationIsUnsettled();
    var c, feed, windows := MacroContract(), [Observation()], {(1, 1)};
    var a := JobOf(c, feed, windows, "x", Clock(1), "a");
    full := JobOf(c, feed, windows, "x", Clock(9), "b");
    UnsettledFeedDiffers(c, feed, windows, "x", Clock(1), Clock(9), a, full);
    disks, ops := [EMPTY.disk, Finish(EMPTY.disk, a).disk], [Ingest(windows, [Try(a, Remaining(Start(a)))])];
  }
}
