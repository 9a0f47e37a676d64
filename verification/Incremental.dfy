/** Checkpoint-driven ingestion: the fetch window, and the batch a run selects and accepts. */
module Incremental {
  import opened Rows
  import opened Contracts
  import opened Backfill

  // ----- The event date of a raw record -----

  /** The first of `names` that the record has. */
  function FirstPresent(raw: Record, names: seq<string>): (r: Option<string>)
    ensures r.Some? ==> r.value in names && r.value in raw
    ensures r.None? ==> forall name :: name in names ==> name !in raw
  {
    if names == [] then None
    else if names[0] in raw then Some(names[0])
    else FirstPresent(raw, names[1..])
  }

  /** `event_date`: `None` where the loader gives up, that is for an absent, null or unparseable date. */
  function EventDate(c: Contract, raw: Record): Option<Date>
    requires c.eventField in c.fields
  {
    match FirstPresent(raw, c.eventNames)
    case None => None
    case Some(name) =>
      if raw[name].RNull? then None
      else
        match c.fields[c.eventField].normalize(raw[name])
        case None => None
        case Some(cell) => Some(DateOf(cell))
  }

  lemma {:induction false} FirstPresentFinds(raw: Record, names: seq<string>, name: string)
    requires name in names && name in raw
    requires forall other :: other in names && other in raw ==> other == name
    ensures FirstPresent(raw, names) == Some(name)
  {
    if names[0] !in raw {
      assert name in names[1..];
      FirstPresentFinds(raw, names[1..], name);
    }
  }

  /** Enrichment adds lineage columns only. */
  lemma EnrichAddsLineage(c: Contract, raw: Record, source: string, now: Raw)
    ensures var e := Enrich(c, raw, source, now);
      && (forall name :: name in raw ==> name in e && e[name] == raw[name])
      && (forall name :: name in e && name !in raw ==>
            name == "source" || name == "source_record_id" || name == "ingested_at")
  {
  }

  /** The renamed record has an event cell exactly when some column is renamed to it. */
  lemma RenamedEvent(c: Contract, e: Record, name: string)
    requires !Collides(c, e) && name in e && Target(c, name) == c.eventField
    ensures c.eventField in Renamed(c, e) && Renamed(c, e)[c.eventField] == e[name]
    ensures forall other :: other in e && Target(c, other) == c.eventField ==> other == name
  {
    assert Target(c, name) in Renamed(c, e);
  }

  /** The column an accepted record carries its event date in is the one the window test reads. */
  lemma EventColumn(c: Contract, raw: Record, source: string, now: Raw) returns (name: string)
    requires WellFormed(c)
    requires var e := Enrich(c, raw, source, now); !Collides(c, e) && c.eventField in Renamed(c, e)
    ensures FirstPresent(raw, c.eventNames) == Some(name) && name in raw
    ensures Renamed(c, Enrich(c, raw, source, now))[c.eventField] == raw[name]
  {
    hide Enrich, Collides, FirstPresent;
    var e := Enrich(c, raw, source, now);
    EnrichAddsLineage(c, raw, source, now);
    name :| name in e && Target(c, name) == c.eventField;
    RenamedEvent(c, e, name);
    assert name in raw;
    FirstPresentFinds(raw, c.eventNames, name);
  }

  lemma ValidEventCell(c: Contract, e: Record, source: string)
    requires WellFormed(c) && Valid(c, e, source).Some?
    ensures !Collides(c, e) && c.eventField in Renamed(c, e)
    ensures var value := Renamed(c, e)[c.eventField];
      && !value.RNull?
      && c.fields[c.eventField].normalize(value) == Some(Cell(Valid(c, e, source).value, c.eventField))
    ensures CanonOf(c, Valid(c, e, source).value).date == DateOf(Cell(Valid(c, e, source).value, c.eventField))
  {
    hide Collides, Renamed, ComparedCells, RulesHold, KeyOf;
    var input := Renamed(c, e);
    assert input.Keys == c.fields.Keys;
    assert c.eventField in c.fields.Keys;
    assert !Fails(c, input, c.eventField);
  }

  /** Whatever the contract accepts, the window test dated the same way. */
  lemma AcceptedDateIsEventDate(c: Contract, raw: Record, source: string, now: Raw)
    requires WellFormed(c) && Valid(c, Enrich(c, raw, source, now), source).Some?
    ensures EventDate(c, raw) == Some(CanonOf(c, Valid(c, Enrich(c, raw, source, now), source).value).date)
  {
    hide Valid, Enrich, CanonOf, FirstPresent, Collides;
    ValidEventCell(c, Enrich(c, raw, source, now), source);
    var name := EventColumn(c, raw, source, now);
  }

  // ----- The fetch window -----

  datatype WindowResult =
    | Window(fetchFrom: int, through: int)
    | NegativeOverlap
    | NoStart
    | ThroughBeforeStart

  function FetchWindow(checkpoint: Option<int>, initialStart: Option<int>, through: int, overlap: int): WindowResult {
    if overlap < 0 then NegativeOverlap
    else
      match checkpoint
      case Some(date) => Window(if overlap == 0 then date + 1 else date - (overlap - 1), through)
      case None =>
        match initialStart
        case None => NoStart
        case Some(start) => if through < start then ThroughBeforeStart else Window(start, through)
  }

  /** When there is a window, and what it is: with a checkpoint both branches of the loader come to
      the same formula, so the window repeats `overlap` days and leaves none out; it may be empty. */
  lemma WindowsAbut(checkpoint: Option<int>, initialStart: Option<int>, through: int, overlap: int)
    ensures var w := FetchWindow(checkpoint, initialStart, through, overlap);
      && (w.Window? <==> overlap >= 0 && (checkpoint.Some? || (initialStart.Some? && initialStart.value <= through)))
      && (w.NegativeOverlap? <==> overlap < 0)
      && (w.NoStart? <==> overlap >= 0 && checkpoint.None? && initialStart.None?)
      && (w.Window? ==> w.through == through)
      && (w.Window? ==> w.fetchFrom == if checkpoint.Some? then checkpoint.value + 1 - overlap else initialStart.value)
  {
  }

  // ----- Selection -----

  /** The record's date lies in one of the windows, or it has no readable date at all. */
  predicate Selected(c: Contract, raw: Record, windows: set<(int, int)>)
    requires c.eventField in c.fields
  {
    match EventDate(c, raw)
    case None => true
    case Some(d) => InWindows(d.ordinal, windows)
  }

  predicate InWindows(day: int, windows: set<(int, int)>) {
    exists w :: w in windows && w.0 <= day <= w.1
  }

  function Select(c: Contract, records: seq<Record>, windows: set<(int, int)>): seq<Record>
    requires c.eventField in c.fields
  {
    if records == [] then []
    else
      Select(c, records[..|records| - 1], windows) +
      if Selected(c, records[|records| - 1], windows) then [records[|records| - 1]] else []
  }

  /** The selection loop of an incremental run and of a bounded backfill. */
  method SelectRange(c: Contract, records: seq<Record>, start: int, end: int) returns (selected: seq<Record>)
    requires c.eventField in c.fields
    ensures selected == Select(c, records, {(start, end)})
  {
    selected := [];
    for i := 0 to |records|
      invariant selected == Select(c, records[..i], {(start, end)})
    {
      var row := records[i];
      var inRange := true;
      match EventDate(c, row) {
        case Some(d) => inRange := start <= d.ordinal <= end;
        case None =>
      }
      assert (start, end) in {(start, end)};
      assert inRange == Selected(c, row, {(start, end)});
      assert records[..i + 1][..i] == records[..i];
      if inRange {
        selected := selected + [row];
      }
    }
    assert records[..|records|] == records;
  }

  lemma {:induction false} SelectMembers(c: Contract, records: seq<Record>, windows: set<(int, int)>)
    requires c.eventField in c.fields
    ensures forall raw :: raw in Select(c, records, windows) <==> raw in records && Selected(c, raw, windows)
  {
    hide Selected;
    if records != [] {
      SelectMembers(c, records[..|records| - 1], windows);
      assert forall raw :: raw in records <==> raw in records[..|records| - 1] || raw == records[|records| - 1];
    }
  }

  // ----- The batch of a run -----

  /** The rows a run over these windows accepts. */
  ghost function Batch(c: Contract, records: seq<Record>, windows: set<(int, int)>, source: string, now: Raw): seq<Row>
    requires WellFormed(c)
  {
    RowsOf(c, Accepted(c, EnrichAll(c, Select(c, records, windows), source, now), source))
  }

  /** The job a run over these windows carries. */
  ghost predicate JobFor(
    c: Contract, records: seq<Record>, windows: set<(int, int)>, source: string, now: Raw, job: Job)
    requires WellFormed(c)
  {
    var offered := EnrichAll(c, Select(c, records, windows), source, now);
    && job.source == source && job.fetched == |offered|
    && job.accepted == Batch(c, records, windows, source, now)
    && Payloads(job.rejected) == Rejected(c, offered, source)
  }

  /** Validation produces a well-formed job. */
  lemma JobForIsOk(c: Contract, records: seq<Record>, windows: set<(int, int)>, source: string, now: Raw, job: Job)
    requires WellFormed(c) && JobFor(c, records, windows, source, now, job)
    ensures JobOk(job)
  {
    hide Valid, KeyOf, CanonOf, Select, Accepted, Rejected;
    var offered := EnrichAll(c, Select(c, records, windows), source, now);
    var a := Accepted(c, offered, source);
    EveryRecordIsAccountedFor(c, offered, source);
    AcceptedKeysAreDistinct(c, offered, source);
    forall i | 0 <= i < |a| ensures job.accepted[i].Key() == KeyOf(c.uniqueBy, a[i]) && job.accepted[i].canon.source == source {
      AcceptedRowsAreValid(c, offered, source, i);
      RowParts(c, offered, source, a[i]);
    }
  }

  lemma RowParts(c: Contract, offered: seq<Record>, source: string, cells: Cells)
    requires WellFormed(c)
    requires exists n :: 0 <= n < |offered| && Valid(c, offered[n], source) == Some(cells)
    ensures RowOf(c, cells).Key() == KeyOf(c.uniqueBy, cells)
    ensures RowOf(c, cells).canon.source == source
  {
    hide Normalized, KeyOf;
  }

  /** The record is selected, and it would be accepted were it alone. */
  ghost predicate Admitted(c: Contract, raw: Record, windows: set<(int, int)>, source: string, now: Raw)
    requires c.eventField in c.fields
  {
    Selected(c, raw, windows) && Valid(c, Enrich(c, raw, source, now), source).Some?
  }

  /** What the contract makes of a record it accepts. */
  ghost function CanonAt(c: Contract, raw: Record, source: string, now: Raw): Canon
    requires Valid(c, Enrich(c, raw, source, now), source).Some?
  {
    CanonOf(c, Valid(c, Enrich(c, raw, source, now), source).value)
  }

  /** Where a row of the batch comes from. */
  lemma BatchRow(c: Contract, records: seq<Record>, windows: set<(int, int)>, source: string, now: Raw, i: nat)
    requires WellFormed(c) && i < |Batch(c, records, windows, source, now)|
    ensures exists raw :: raw in records && Admitted(c, raw, windows, source, now)
              && Batch(c, records, windows, source, now)[i].canon == CanonAt(c, raw, source, now)
  {
    hide Valid, KeyOf, CanonOf, Select, Accepted, Selected, Enrich;
    var chosen := Select(c, records, windows);
    var offered := EnrichAll(c, chosen, source, now);
    AcceptedRowsAreValid(c, offered, source, i);
    var n :| 0 <= n < |offered| && AcceptedAt(c, offered, source, n) &&
             Valid(c, offered[n], source) == Some(Accepted(c, offered, source)[i]);
    SelectMembers(c, records, windows);
    assert chosen[n] in chosen;
    assert offered[n] == Enrich(c, chosen[n], source, now);
  }

  /** Every row a run accepts is dated inside its window, although records without a readable date
      are passed on to the contract. */
  lemma AcceptedRowsAreInTheWindow(
    c: Contract, records: seq<Record>, windows: set<(int, int)>, source: string, now: Raw, i: nat)
    requires WellFormed(c) && i < |Batch(c, records, windows, source, now)|
    ensures InWindows(Batch(c, records, windows, source, now)[i].canon.date.ordinal, windows)
  {
    hide Valid, CanonOf, Select, Accepted, Enrich, Batch, EventDate;
    BatchRow(c, records, windows, source, now, i);
    var raw :| raw in records && Admitted(c, raw, windows, source, now)
               && Batch(c, records, windows, source, now)[i].canon == CanonAt(c, raw, source, now);
    AcceptedDateIsEventDate(c, raw, source, now);
  }

  /** So the date a run offers to the checkpoint lies in its window. */
  lemma LatestDateIsInTheWindow(c: Contract, records: seq<Record>, start: int, end: int, source: string, now: Raw)
    requires WellFormed(c)
    requires MaxDate(Batch(c, records, {(start, end)}, source, now)).Some?
    ensures start <= MaxDate(Batch(c, records, {(start, end)}, source, now)).value <= end
  {
    hide Batch, WellFormed;
    var batch := Batch(c, records, {(start, end)}, source, now);
    MaxDateIsReached(batch);
    var i :| 0 <= i < |batch| && batch[i].canon.date.ordinal == MaxDate(batch).value;
    AcceptedRowsAreInTheWindow(c, records, {(start, end)}, source, now, i);
  }

  // ----- What a run is offered -----

  /** The record has no date the loader can read, or one in the windows. */
  ghost predicate Offers(c: Contract, raw: Record, windows: set<(int, int)>)
    requires c.eventField in c.fields
  {
    EventDate(c, raw).Some? ==> exists w :: w in windows && w.0 <= EventDate(c, raw).value.ordinal <= w.1
  }

  ghost function OfferedPositions(c: Contract, records: seq<Record>, windows: set<(int, int)>): set<nat>
    requires c.eventField in c.fields
  {
    set n: nat | n < |records| && Offers(c, records[n], windows)
  }

  /** No event column of the record holds a readable date: it has none, or they are null or do not parse. */
  ghost predicate Undated(c: Contract, raw: Record)
    requires c.eventField in c.fields
  {
    forall name :: name in c.eventNames && name in raw ==>
      raw[name].RNull? || c.fields[c.eventField].normalize(raw[name]).None?
  }

  lemma UndatedHasNoDate(c: Contract, raw: Record)
    requires c.eventField in c.fields
    ensures Undated(c, raw) ==> EventDate(c, raw).None?
  {
  }

  /** A record with one event column that holds a readable date has that date. */
  lemma ReadableDate(c: Contract, raw: Record, name: string)
    requires c.eventField in c.fields && name in c.eventNames && name in raw
    requires forall other :: other in c.eventNames && other in raw ==> other == name
    requires !raw[name].RNull? && c.fields[c.eventField].normalize(raw[name]).Some?
    ensures EventDate(c, raw) == Some(DateOf(c.fields[c.eventField].normalize(raw[name]).value))
  {
    FirstPresentFinds(raw, c.eventNames, name);
  }

  /** The selection keeps the order of the feed: selecting from a longer feed appends. */
  lemma SelectionAppends(c: Contract, a: seq<Record>, raw: Record, windows: set<(int, int)>)
    requires c.eventField in c.fields
    ensures Select(c, a + [raw], windows) == Select(c, a, windows) + if Offers(c, raw, windows) then [raw] else []
  {
    hide EventDate;
    assert (a + [raw])[..|a|] == a;
  }

  lemma {:induction false} SelectionCounts(c: Contract, records: seq<Record>, windows: set<(int, int)>)
    requires c.eventField in c.fields
    ensures |Select(c, records, windows)| == |OfferedPositions(c, records, windows)|
  {
    hide Offers;
    if records != [] {
      var n := |records| - 1;
      var front := records[..n];
      SelectionCounts(c, front, windows);
      assert records == front + [records[n]];
      SelectionAppends(c, front, records[n], windows);
      var before, all := OfferedPositions(c, front, windows), OfferedPositions(c, records, windows);
      assert n !in before;
      assert all == if Offers(c, records[n], windows) then before + {n} else before;
    } else {
      assert OfferedPositions(c, records, windows) == {};
    }
  }

  lemma {:induction false} RefusedIsRejected(c: Contract, records: seq<Record>, source: string, n: nat)
    requires n < |records| && Valid(c, records[n], source).None?
    ensures records[n] in Rejected(c, records, source)
  {
    hide Valid, KeyOf;
    var last := |records| - 1;
    if n < last {
      RefusedIsRejected(c, records[..last], source, n);
    }
  }

  /** The batch of a run counts every record of the feed that is dated in its windows or not dated at all,
      and quarantines the latter. */
  lemma UndatedRecordsAreQuarantined(
    c: Contract, records: seq<Record>, windows: set<(int, int)>, source: string, now: Raw, job: Job)
    requires WellFormed(c) && JobFor(c, records, windows, source, now, job)
    ensures job.fetched == |OfferedPositions(c, records, windows)|
    ensures forall raw :: raw in records && (EventDate(c, raw).None? || Undated(c, raw)) ==>
      Enrich(c, raw, source, now) in Payloads(job.rejected)
  {
    hide Undated, Valid, KeyOf, CanonOf, Select, Accepted, Rejected, EventDate, Enrich, Offers, WellFormed, Batch;
    EventIsDeclared(c);
    var chosen := Select(c, records, windows);
    var offered := EnrichAll(c, chosen, source, now);
    SelectionCounts(c, records, windows);
    forall raw | raw in records && (EventDate(c, raw).None? || Undated(c, raw))
      ensures Enrich(c, raw, source, now) in Payloads(job.rejected)
    {
      UndatedHasNoDate(c, raw);
      SelectMembers(c, records, windows);
      assert Selected(c, raw, windows);
      var n :| 0 <= n < |chosen| && chosen[n] == raw;
      assert offered[n] == Enrich(c, raw, source, now);
      UndatedIsRefused(c, raw, source, now);
      RefusedIsRejected(c, offered, source, n);
    }
  }

  lemma EventIsDeclared(c: Contract)
    requires WellFormed(c)
    ensures c.eventField in c.fields
  {
  }

  lemma UndatedIsRefused(c: Contract, raw: Record, source: string, now: Raw)
    requires WellFormed(c) && EventDate(c, raw).None?
    ensures Valid(c, Enrich(c, raw, source, now), source).None?
  {
    hide Valid, Enrich, EventDate;
    if Valid(c, Enrich(c, raw, source, now), source).Some? {
      AcceptedDateIsEventDate(c, raw, source, now);
    }
  }
}
