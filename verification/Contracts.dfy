/** The contract engine: a provider batch is split into normalized rows and quarantined records. */
module Contracts {
  import opened Rows

  /** A provider value before normalization. */
  datatype Raw =
    | RNull
    | RText(text: string)
    | RFlag(flag: bool)
    | RNumber(number: real)
    | RDay(day: Date)
    | RInstant(micros: int, utcDay: Date)

  type Record = map<string, Raw>
  type Cells = map<string, Value>

  /** A column: its normalizer answers `None` for a value it refuses. */
  datatype Field = Field(normalize: Raw -> Option<Value>, nullable: bool)

  /** A dataset contract. `eventNames` lists the columns an event date may arrive under, the event
      field itself first. `stableId` is the digest that names a record without its own identifier. */
  datatype Contract = Contract(
    fields: map<string, Field>,
    order: seq<string>,
    uniqueBy: seq<string>,
    idempotencyBy: seq<string>,
    rules: seq<Cells -> bool>,
    aliases: map<string, string>,
    eventField: string,
    eventNames: seq<string>,
    stableId: Record -> string)

  /** What all five declared contracts have in common. */
  ghost predicate WellFormed(c: Contract) {
    && (forall name :: name in c.fields <==> name in c.order)
    && c.uniqueBy == c.idempotencyBy
    && (forall name :: name in c.idempotencyBy ==> name in c.fields)
    && c.eventField in c.fields && !c.fields[c.eventField].nullable
    && c.eventField != "ingested_at" && c.eventField != "source_record_id"
    && "source" in c.fields && "source_record_id" in c.fields && "ingested_at" in c.fields
    && "ingested_at" !in c.idempotencyBy
    && "source" !in c.aliases && "source_record_id" !in c.aliases && "ingested_at" !in c.aliases
    && c.eventField != "source"
    && c.eventNames != [] && c.eventNames[0] == c.eventField
    && (forall name :: name in c.eventNames <==> Target(c, name) == c.eventField)
  }

  datatype Defect =
    | AliasCollision
    | MissingColumns(names: set<string>)
    | UnexpectedColumns(names: set<string>)
    | NullNotAllowed(name: string)
    | Unparseable(name: string)
    | RuleBroken(index: nat)
    | WrongSource
    | RepeatedBatchKey

  datatype Reject = Reject(payload: Record, defects: seq<Defect>)

  datatype Validation =
    | MissingRequiredField(absent: set<string>)
    | Validated(accepted: seq<Cells>, rejected: seq<Reject>)

  // ----- One record -----

  function Target(c: Contract, column: string): string {
    if column in c.aliases then c.aliases[column] else column
  }

  predicate Collides(c: Contract, raw: Record) {
    exists a, b :: a in raw && b in raw && a != b && Target(c, a) == Target(c, b)
  }

  /** The column that is renamed to `name`. */
  function Origin(c: Contract, raw: Record, name: string): (column: string)
    requires !Collides(c, raw) && exists a :: a in raw && Target(c, a) == name
    ensures column in raw && Target(c, column) == name
  {
    var a :| a in raw && Target(c, a) == name;
    a
  }

  function Renamed(c: Contract, raw: Record): Record
    requires !Collides(c, raw)
  {
    var names := set a | a in raw :: Target(c, a);
    map name | name in names :: raw[Origin(c, raw, name)]
  }

  lemma RenamedIs(c: Contract, raw: Record)
    requires !Collides(c, raw)
    ensures forall a :: a in raw ==> Target(c, a) in Renamed(c, raw) && Renamed(c, raw)[Target(c, a)] == raw[a]
    ensures forall name :: name in Renamed(c, raw) ==> exists a :: a in raw && Target(c, a) == name
  {
  }

  function NormalizeCell(field: Field, value: Raw): Option<Value> {
    if value.RNull? then (if field.nullable then Some(Null) else None)
    else field.normalize(value)
  }

  predicate Fails(c: Contract, input: Record, name: string) {
    name in input && name in c.fields && NormalizeCell(c.fields[name], input[name]).None?
  }

  /** The normalized cells of a record whose aliases are resolved: it must have exactly the
      declared columns, and every one of them must parse. */
  ghost function NormalizeInput(c: Contract, input: Record): Option<Cells> {
    if input.Keys != c.fields.Keys || exists name :: Fails(c, input, name) then None
    else
      assert forall name :: name in input ==> !Fails(c, input, name);
      Some(map name | name in input :: NormalizeCell(c.fields[name], input[name]).value)
  }

  ghost function Normalized(c: Contract, raw: Record): Option<Cells> {
    if Collides(c, raw) then None else NormalizeInput(c, Renamed(c, raw))
  }

  predicate RulesHold(c: Contract, cells: Cells) {
    forall i :: 0 <= i < |c.rules| ==> c.rules[i](cells)
  }

  /** A record that would be accepted were it alone in its batch. */
  ghost function Valid(c: Contract, raw: Record, source: string): Option<Cells> {
    match Normalized(c, raw)
    case None => None
    case Some(cells) =>
      if RulesHold(c, cells) && Cell(cells, "source") == Text(source) then Some(cells) else None
  }

  // ----- Reading a row's logical parts off its cells -----

  function Cell(cells: Cells, name: string): Value {
    if name in cells then cells[name] else Null
  }

  function KeyOf(names: seq<string>, cells: Cells): (key: Key)
    ensures |key| == |names| && forall i :: 0 <= i < |names| ==> key[i] == Cell(cells, names[i])
  {
    seq(|names|, i requires 0 <= i < |names| => Cell(cells, names[i]))
  }

  predicate Compared(c: Contract, name: string) {
    (name != "ingested_at" && name != "source_record_id") || name in c.idempotencyBy
  }

  function ComparedCells(c: Contract, cells: Cells): Cells {
    map name | name in cells && Compared(c, name) :: cells[name]
  }

  function DateOf(v: Value): Date {
    match v
    case Day(d) => d
    case Instant(_, d) => d
    case _ => Date(0, 1, 1)
  }

  function TextOf(v: Value): string {
    if v.Text? then v.text else ""
  }

  function CanonOf(c: Contract, cells: Cells): Canon {
    Canon(KeyOf(c.idempotencyBy, cells), DateOf(Cell(cells, c.eventField)),
          TextOf(Cell(cells, "source")), ComparedCells(c, cells))
  }

  function RowOf(c: Contract, cells: Cells): Row {
    var at := Cell(cells, "ingested_at");
    Row(CanonOf(c, cells), if at.Instant? then at.micros else 0,
        TextOf(Cell(cells, "source_record_id")))
  }

  function RowsOf(c: Contract, all: seq<Cells>): (rows: seq<Row>)
    ensures |rows| == |all| && forall i :: 0 <= i < |all| ==> rows[i] == RowOf(c, all[i])
  {
    seq(|all|, i requires 0 <= i < |all| => RowOf(c, all[i]))
  }

  /** Key, event date and source are functions of the compared cells: comparing canonical
      records is exactly comparing the value tuples the loader compares. */
  lemma CanonIsItsComparedCells(c: Contract, a: Cells, b: Cells)
    requires WellFormed(c)
    ensures CanonOf(c, a) == CanonOf(c, b) <==> ComparedCells(c, a) == ComparedCells(c, b)
  {
    if ComparedCells(c, a) == ComparedCells(c, b) {
      forall name | Compared(c, name) ensures Cell(a, name) == Cell(b, name) {
        assert name in a <==> name in ComparedCells(c, a);
        assert name in b <==> name in ComparedCells(c, b);
        if name in a { assert ComparedCells(c, a)[name] == a[name]; }
        if name in b { assert ComparedCells(c, b)[name] == b[name]; }
      }
      assert KeyOf(c.idempotencyBy, a) == KeyOf(c.idempotencyBy, b);
    }
  }

  /** Record keeping: when and under which vendor id a record arrived, unless that is part of its key. */
  function RecordKeeping(c: Contract): set<string> {
    {"ingested_at", "source_record_id"} - set name | name in c.idempotencyBy
  }

  /** Two rows are the same record exactly when they are equal in every column but the record keeping:
      a later clock or another vendor id is a replay, any other difference is not. */
  lemma SameRecordExactly(c: Contract, a: Cells, b: Cells)
    requires WellFormed(c)
    ensures CanonOf(c, a) == CanonOf(c, b) <==> a - RecordKeeping(c) == b - RecordKeeping(c)
  {
    hide CanonOf;
    CanonIsItsComparedCells(c, a, b);
    assert ComparedCells(c, a) == a - RecordKeeping(c);
    assert ComparedCells(c, b) == b - RecordKeeping(c);
  }

  /** The stored row carries the clock and the vendor id that its record was accepted with. */
  lemma RowCarriesItsRecordKeeping(c: Contract, cells: Cells)
    requires "ingested_at" in cells && "source_record_id" in cells
    requires cells["ingested_at"].Instant? && cells["source_record_id"].Text?
    ensures RowOf(c, cells).ingestedAt == cells["ingested_at"].micros
    ensures RowOf(c, cells).recordId == cells["source_record_id"].text
  {
  }

  // ----- Cells, exactly -----

  /** Whether a column takes a value: a null needs a nullable column, anything else has to parse. */
  ghost predicate TakesValue(field: Field, value: Raw) {
    if value.RNull? then field.nullable else field.normalize(value).Some?
  }

  /** A record normalizes exactly when its columns are the declared ones and each takes its value; a null
      stays a null, every other cell is what its normalizer makes of it. */
  lemma NormalizedExactly(c: Contract, input: Record)
    ensures NormalizeInput(c, input).Some? <==>
      input.Keys == c.fields.Keys && forall name :: name in input ==> TakesValue(c.fields[name], input[name])
    ensures NormalizeInput(c, input).Some? ==>
      var cells := NormalizeInput(c, input).value;
      && cells.Keys == c.fields.Keys
      && forall name :: name in cells ==>
           cells[name] == if input[name].RNull? then Null else c.fields[name].normalize(input[name]).value
  {
    if input.Keys == c.fields.Keys {
      forall name | name in input ensures Fails(c, input, name) <==> !TakesValue(c.fields[name], input[name]) {
      }
    }
  }

  // ----- A batch -----

  /** Record `i` is valid and no earlier valid record of the batch has its key. */
  ghost predicate AcceptedAt(c: Contract, records: seq<Record>, source: string, i: nat)
    requires i < |records|
  {
    && Valid(c, records[i], source).Some?
    && forall j :: 0 <= j < i && Valid(c, records[j], source).Some? ==>
         KeyOf(c.uniqueBy, Valid(c, records[j], source).value)
         != KeyOf(c.uniqueBy, Valid(c, records[i], source).value)
  }

  ghost function Accepted(c: Contract, records: seq<Record>, source: string): seq<Cells> {
    if records == [] then []
    else
      var n := |records| - 1;
      Accepted(c, records[..n], source) +
      if AcceptedAt(c, records, source, n) then [Valid(c, records[n], source).value] else []
  }

  ghost function Rejected(c: Contract, records: seq<Record>, source: string): seq<Record> {
    if records == [] then []
    else
      var n := |records| - 1;
      Rejected(c, records[..n], source) +
      if AcceptedAt(c, records, source, n) then [] else [records[n]]
  }

  function Columns(c: Contract, records: seq<Record>): set<string> {
    set i, a | 0 <= i < |records| && a in records[i] :: Target(c, a)
  }

  function Absent(c: Contract, records: seq<Record>): set<string> {
    if records == [] then {} else c.fields.Keys - Columns(c, records)
  }

  function Payloads(rejected: seq<Reject>): (r: seq<Record>)
    ensures |r| == |rejected|
  {
    seq(|rejected|, i requires 0 <= i < |rejected| => rejected[i].payload)
  }

  // ----- The defects of a record -----

  /** A defect of one declared column. */
  predicate FieldDefect(c: Contract, input: Record, d: Defect) {
    match d
    case NullNotAllowed(name) => name in input && name in c.fields && input[name].RNull? && !c.fields[name].nullable
    case Unparseable(name) =>
      name in input && name in c.fields && !input[name].RNull? && c.fields[name].normalize(input[name]).None?
    case _ => false
  }

  function NameIn(d: Defect): string {
    if d.NullNotAllowed? || d.Unparseable? then d.name else ""
  }

  predicate ColumnDefect(c: Contract, input: Record, d: Defect) {
    match d
    case MissingColumns(names) => names == c.fields.Keys - input.Keys && names != {}
    case UnexpectedColumns(names) => names == input.Keys - c.fields.Keys && names != {}
    case _ => FieldDefect(c, input, d)
  }

  /** The defects of a record by itself: colliding aliases hide the others, rules are asked of complete
      rows only, and the source of rows that pass them. */
  ghost predicate RecordDefect(c: Contract, raw: Record, source: string, d: Defect) {
    if Collides(c, raw) then d == AliasCollision
    else
      match NormalizeInput(c, Renamed(c, raw))
      case None => ColumnDefect(c, Renamed(c, raw), d)
      case Some(cells) =>
        match d
        case RuleBroken(i) => i < |c.rules| && !c.rules[i](cells)
        case WrongSource => (forall i :: 0 <= i < |c.rules| ==> c.rules[i](cells)) && Cell(cells, "source") != Text(source)
        case _ => false
  }

  /** The field loop: one pass over the declared columns, collecting cells and defects. */
  method NormalizeFields(c: Contract, input: Record) returns (row: Cells, failed: seq<Defect>)
    requires forall name :: name in c.fields <==> name in c.order
    ensures failed == [] <==> forall name :: name in c.order ==> !Fails(c, input, name)
    ensures forall d :: d in failed <==> FieldDefect(c, input, d)
    ensures failed == [] ==> row.Keys == input.Keys * c.fields.Keys
    ensures failed == [] ==> forall name :: name in row ==>
              NormalizeCell(c.fields[name], input[name]) == Some(row[name])
  {
    row, failed := map[], [];
    for i := 0 to |c.order|
      invariant failed == [] <==> forall k :: 0 <= k < i ==> !Fails(c, input, c.order[k])
      invariant forall d :: d in failed ==> FieldDefect(c, input, d)
      invariant forall d, k :: 0 <= k < i && FieldDefect(c, input, d) && NameIn(d) == c.order[k] ==> d in failed
      invariant forall name :: name in row ==> name in input && name in c.fields
      invariant forall k :: failed == [] && 0 <= k < i && c.order[k] in input ==> c.order[k] in row
      invariant failed == [] ==> forall name :: name in row ==>
        NormalizeCell(c.fields[name], input[name]) == Some(row[name])
    {
      var name := c.order[i];
      assert name in c.fields;
      if name in input {
        var value := input[name];
        if value.RNull? {
          if !c.fields[name].nullable { failed := failed + [NullNotAllowed(name)]; }
          row := row[name := Null];
        } else {
          match c.fields[name].normalize(value) {
            case Some(cell) => row := row[name := cell];
            case None => failed := failed + [Unparseable(name)];
          }
        }
      }
    }
  }

  /** Missing and unexpected columns are reported beside the field defects. */
  method CheckColumns(c: Contract, input: Record) returns (row: Cells, defects: seq<Defect>)
    requires forall name :: name in c.fields <==> name in c.order
    ensures defects == [] <==> NormalizeInput(c, input).Some?
    ensures defects == [] ==> row == NormalizeInput(c, input).value
    ensures forall d :: d in defects <==> ColumnDefect(c, input, d)
  {
    defects := [];
    var missing := c.fields.Keys - input.Keys;
    var unexpected := input.Keys - c.fields.Keys;
    if missing != {} { defects := defects + [MissingColumns(missing)]; }
    if unexpected != {} { defects := defects + [UnexpectedColumns(unexpected)]; }
    assert defects == [] <==> input.Keys == c.fields.Keys;
    var failed;
    row, failed := NormalizeFields(c, input);
    assert failed == [] <==> !exists name :: Fails(c, input, name);
    defects := defects + failed;
  }

  method NormalizeRecord(c: Contract, raw: Record) returns (row: Cells, defects: seq<Defect>)
    requires WellFormed(c)
    ensures defects == [] <==> Normalized(c, raw).Some?
    ensures defects == [] ==> row == Normalized(c, raw).value
    ensures forall d :: d in defects <==>
      if Collides(c, raw) then d == AliasCollision else ColumnDefect(c, Renamed(c, raw), d)
  {
    if Collides(c, raw) {
      return map[], [AliasCollision];
    }
    row, defects := CheckColumns(c, Renamed(c, raw));
  }

  /** The part of the batch loop that looks at one record alone. */
  method CheckRecord(c: Contract, raw: Record, source: string) returns (row: Cells, defects: seq<Defect>)
    requires WellFormed(c)
    ensures defects == [] <==> Valid(c, raw, source).Some?
    ensures defects == [] ==> row == Valid(c, raw, source).value
    ensures forall d :: d in defects <==> RecordDefect(c, raw, source, d)
  {
    hide NormalizeInput, ColumnDefect, Collides;
    row, defects := NormalizeRecord(c, raw);
    if defects == [] {
      for i := 0 to |c.rules|
        invariant defects == [] <==> forall k :: 0 <= k < i ==> c.rules[k](row)
        invariant forall d :: d in defects <==> d.RuleBroken? && d.index < i && !c.rules[d.index](row)
      {
        if !c.rules[i](row) { defects := defects + [RuleBroken(i)]; }
      }
    }
    if defects == [] && Cell(row, "source") != Text(source) {
      defects := defects + [WrongSource];
    }
  }

  /** Some valid record among the first `n` has batch key `k`. */
  ghost predicate SeenBefore(c: Contract, records: seq<Record>, source: string, n: nat, k: Key)
    requires n <= |records|
  {
    exists j :: 0 <= j < n && Valid(c, records[j], source).Some? &&
      KeyOf(c.uniqueBy, Valid(c, records[j], source).value) == k
  }

  /** A quarantined record has its own defects, or repeats the key of an accepted one. */
  ghost predicate RejectIsTrue(c: Contract, source: string, r: Reject) {
    && r.defects != []
    && forall d :: d in r.defects <==>
         RecordDefect(c, r.payload, source, d) || (d == RepeatedBatchKey && Valid(c, r.payload, source).Some?)
  }

  /** `Contract.validate`: the accepted rows and the quarantined records of a batch. */
  method Validate(c: Contract, records: seq<Record>, source: string) returns (result: Validation)
    requires WellFormed(c)
    ensures result.MissingRequiredField? <==> Absent(c, records) != {}
    ensures result.MissingRequiredField? ==> result.absent == Absent(c, records)
    ensures result.Validated? ==>
              && result.accepted == Accepted(c, records, source)
              && Payloads(result.rejected) == Rejected(c, records, source)
              && forall i :: 0 <= i < |result.rejected| ==> RejectIsTrue(c, source, result.rejected[i])
  {
    hide Valid, KeyOf;
    var absent := Absent(c, records);
    if absent != {} {
      return MissingRequiredField(absent);
    }
    var accepted: seq<Cells>, rejected: seq<Reject>, seen: set<Key> := [], [], {};
    for n := 0 to |records|
      invariant accepted == Accepted(c, records[..n], source)
      invariant Payloads(rejected) == Rejected(c, records[..n], source)
      invariant forall i :: 0 <= i < |rejected| ==> RejectIsTrue(c, source, rejected[i])
      invariant forall k :: SeenBefore(c, records, source, n, k) ==> k in seen
      invariant forall k :: k in seen ==> SeenBefore(c, records, source, n, k)
    {
      var raw := records[n];
      var row, defects := CheckRecord(c, raw, source);
      if defects == [] {
        var key := KeyOf(c.uniqueBy, row);
        if key in seen {
          defects := defects + [RepeatedBatchKey];
        } else {
          seen := seen + {key};
        }
      }
      assert records[..n + 1][..n] == records[..n];
      AcceptedAtPrefix(c, records, source, n);
      assert defects == [] <==> AcceptedAt(c, records, source, n);
      if defects == [] {
        accepted := accepted + [row];
      } else {
        PayloadsAppend(rejected, Reject(raw, defects));
        rejected := rejected + [Reject(raw, defects)];
      }
    }
    assert records[..|records|] == records;
    result := Validated(accepted, rejected);
  }

  lemma AcceptedAtPrefix(c: Contract, records: seq<Record>, source: string, n: nat)
    requires n < |records|
    ensures AcceptedAt(c, records[..n + 1], source, n) == AcceptedAt(c, records, source, n)
  {
    var front := records[..n + 1];
    assert forall j :: 0 <= j <= n ==> front[j] == records[j];
  }

  lemma PayloadsAppend(rejected: seq<Reject>, r: Reject)
    ensures Payloads(rejected + [r]) == Payloads(rejected) + [r.payload]
  {
  }

  // ----- What validation guarantees -----

  /** Totality: every record is accepted or quarantined, none is both, none is lost. */
  lemma {:induction false} EveryRecordIsAccountedFor(c: Contract, records: seq<Record>, source: string)
    ensures |Accepted(c, records, source)| + |Rejected(c, records, source)| == |records|
  {
    if records != [] {
      EveryRecordIsAccountedFor(c, records[..|records| - 1], source);
    }
  }

  /** An accepted row is a valid record of the batch, with the run's own source. */
  lemma {:induction false} AcceptedRowsAreValid(c: Contract, records: seq<Record>, source: string, i: nat)
    requires i < |Accepted(c, records, source)|
    ensures exists n :: 0 <= n < |records| && AcceptedAt(c, records, source, n) &&
              Valid(c, records[n], source) == Some(Accepted(c, records, source)[i])
  {
    hide Valid;
    var n := |records| - 1;
    var front := records[..n];
    if i < |Accepted(c, front, source)| {
      AcceptedRowsAreValid(c, front, source, i);
      var m :| 0 <= m < |front| && AcceptedAt(c, front, source, m) &&
               Valid(c, front[m], source) == Some(Accepted(c, front, source)[i]);
      assert forall j :: 0 <= j <= m ==> front[j] == records[j];
      assert AcceptedAt(c, records, source, m);
    } else {
      assert AcceptedAt(c, records, source, n);
    }
  }

  /** Record `n` is valid, and no record before it that is valid has its key. */
  ghost predicate FirstOfItsKey(c: Contract, records: seq<Record>, source: string, n: nat)
    requires n < |records|
  {
    && Valid(c, records[n], source).Some?
    && !SeenBefore(c, records, source, n, KeyOf(c.uniqueBy, Valid(c, records[n], source).value))
  }

  /** The accepted rows come from the records that are the first of their key, the quarantined payloads
      are all other records, both in the order of the batch. */
  lemma BatchIsSplit(c: Contract, a: seq<Record>, r: Record, source: string)
    ensures FirstOfItsKey(c, a + [r], source, |a|) ==>
      && Accepted(c, a + [r], source) == Accepted(c, a, source) + [Valid(c, r, source).value]
      && Rejected(c, a + [r], source) == Rejected(c, a, source)
    ensures !FirstOfItsKey(c, a + [r], source, |a|) ==>
      && Accepted(c, a + [r], source) == Accepted(c, a, source)
      && Rejected(c, a + [r], source) == Rejected(c, a, source) + [r]
  {
    hide Valid, KeyOf;
    var all := a + [r];
    assert all[..|a|] == a && all[|a|] == r;
  }

  /** A batch is refused outright exactly for a declared column that no record of it has under any of its
      names; an empty batch never is. */
  lemma RefusedColumns(c: Contract, records: seq<Record>, name: string)
    ensures name in Absent(c, records) <==>
      records != [] && name in c.fields && forall i, a :: 0 <= i < |records| && a in records[i] ==> Target(c, a) != name
  {
    if records != [] && name in c.fields && name in Columns(c, records) {
      var i, a :| 0 <= i < |records| && a in records[i] && Target(c, a) == name;
    }
  }

  ghost predicate DistinctBy(names: seq<string>, rows: seq<Cells>) {
    forall i, j :: 0 <= i < j < |rows| ==> KeyOf(names, rows[i]) != KeyOf(names, rows[j])
  }

  /** No two accepted rows share a batch key. */
  lemma {:induction false} AcceptedKeysAreDistinct(c: Contract, records: seq<Record>, source: string)
    ensures DistinctBy(c.uniqueBy, Accepted(c, records, source))
  {
    hide Valid, KeyOf;
    if records != [] {
      var n := |records| - 1;
      var front := records[..n];
      AcceptedKeysAreDistinct(c, front, source);
      var b := Accepted(c, front, source);
      if AcceptedAt(c, records, source, n) {
        var row := Valid(c, records[n], source).value;
        assert Accepted(c, records, source) == b + [row];
        forall i | 0 <= i < |b| ensures KeyOf(c.uniqueBy, b[i]) != KeyOf(c.uniqueBy, row) {
          AcceptedRowsAreValid(c, front, source, i);
          var m :| 0 <= m < |front| && AcceptedAt(c, front, source, m) && Valid(c, front[m], source) == Some(b[i]);
          assert front[m] == records[m];
        }
      } else {
        assert Accepted(c, records, source) == b;
      }
    }
  }

  /** Every valid record's key reaches the accepted rows, carried by the first record that has it. */
  lemma {:induction false} ValidKeysAreAccepted(c: Contract, records: seq<Record>, source: string, n: nat)
    requires n < |records| && Valid(c, records[n], source).Some?
    ensures exists i :: 0 <= i < |Accepted(c, records, source)| &&
              KeyOf(c.uniqueBy, Accepted(c, records, source)[i])
              == KeyOf(c.uniqueBy, Valid(c, records[n], source).value)
  {
    hide Valid, KeyOf;
    var last := |records| - 1;
    var front := records[..last];
    var a, b := Accepted(c, records, source), Accepted(c, front, source);
    assert forall i :: 0 <= i < |b| ==> a[i] == b[i];
    if n < last {
      ValidKeysAreAccepted(c, front, source, n);
      var i :| 0 <= i < |b| && KeyOf(c.uniqueBy, b[i]) == KeyOf(c.uniqueBy, Valid(c, front[n], source).value);
      assert a[i] == b[i];
    } else if AcceptedAt(c, records, source, n) {
      assert a[|b|] == Valid(c, records[n], source).value;
    } else {
      var m :| 0 <= m < n && Valid(c, records[m], source).Some? &&
               KeyOf(c.uniqueBy, Valid(c, records[m], source).value)
               == KeyOf(c.uniqueBy, Valid(c, records[n], source).value);
      ValidKeysAreAccepted(c, front, source, m);
      var i :| 0 <= i < |b| && KeyOf(c.uniqueBy, b[i]) == KeyOf(c.uniqueBy, Valid(c, front[m], source).value);
      assert a[i] == b[i];
    }
  }

  /** A batch-level refusal never hides a record that could have been accepted. */
  lemma MissingColumnLeavesNothingValid(c: Contract, records: seq<Record>, source: string, n: nat)
    requires n < |records| && Absent(c, records) != {}
    ensures Valid(c, records[n], source).None?
  {
    var name :| name in Absent(c, records);
    forall a | a in records[n] ensures Target(c, a) != name {
      assert Target(c, a) in Columns(c, records);
    }
  }

  // ----- Enrichment and its clock -----

  /** `setdefault` of the three lineage columns. */
  function Enrich(c: Contract, raw: Record, source: string, now: Raw): Record {
    var named := if "source" in raw then raw else raw["source" := RText(source)];
    var keyed := if "source_record_id" in named then named
                 else named["source_record_id" := RText(c.stableId(named))];
    if "ingested_at" in keyed then keyed else keyed["ingested_at" := now]
  }

  /** The lineage columns a provider left out are set, from the run, the record and the clock; everything
      it gave stays. */
  lemma EnrichmentIs(c: Contract, raw: Record, source: string, now: Raw)
    ensures var e := Enrich(c, raw, source, now);
      && e.Keys == raw.Keys + {"source", "source_record_id", "ingested_at"}
      && (forall name :: name in raw ==> e[name] == raw[name])
      && ("source" !in raw ==> e["source"] == RText(source))
      && ("ingested_at" !in raw ==> e["ingested_at"] == now)
      && ("source_record_id" !in raw ==>
            e["source_record_id"] == RText(c.stableId(if "source" in raw then raw else raw["source" := RText(source)])))
  {
    assert |"source"| == 6 && |"source_record_id"| == 16 && |"ingested_at"| == 11;
  }

  function EnrichAll(c: Contract, records: seq<Record>, source: string, now: Raw): (r: seq<Record>)
    ensures |r| == |records|
    ensures forall i :: 0 <= i < |records| ==> r[i] == Enrich(c, records[i], source, now)
  {
    seq(|records|, i requires 0 <= i < |records| => Enrich(c, records[i], source, now))
  }

  predicate SameButClock(a: Cells, b: Cells) {
    a - {"ingested_at"} == b - {"ingested_at"}
  }

  /** No rule of the contract looks at the ingestion clock. */
  ghost predicate ClockFree(c: Contract) {
    forall a: Cells, b: Cells :: SameButClock(a, b) ==> (RulesHold(c, a) <==> RulesHold(c, b))
  }

  /** The column is stored under its own name, and every instant of the clock parses. */
  ghost predicate ClockParses(c: Contract, now: Raw) {
    && "ingested_at" in c.fields && now != RNull
    && c.fields["ingested_at"].normalize(now).Some?
    && "ingested_at" !in c.aliases
    && c.eventField != "ingested_at"
  }

  /** The rules, as far as they are reached, give both records the same verdict. */
  ghost predicate RulesAgree(c: Contract, a: Record, b: Record) {
    Normalized(c, a).Some? && Normalized(c, b).Some? ==>
      (RulesHold(c, Normalized(c, a).value) <==> RulesHold(c, Normalized(c, b).value))
  }

  /** The record names another source than the run. */
  ghost predicate ForeignSource(c: Contract, a: Record, source: string) {
    Normalized(c, a).Some? && Cell(Normalized(c, a).value, "source") != Text(source)
  }

  /** Both records are accepted as the same canonical record, or both are refused. */
  ghost predicate SameVerdict(c: Contract, a: Record, b: Record, source: string) {
    var x, y := Valid(c, a, source), Valid(c, b, source);
    && (x.Some? <==> y.Some?)
    && (x.Some? ==> CanonOf(c, x.value) == CanonOf(c, y.value))
  }

  /** Exactly when a retry at another time judges a record the same way, and then it accepts the same
      canonical record: when the rules give it the same verdict at both times, or never mattered
      because it names another source. */
  lemma ClockMattersExactly(c: Contract, raw: Record, source: string, t: Raw, u: Raw)
    requires WellFormed(c) && ClockParses(c, t) && ClockParses(c, u)
    ensures var a, b := Enrich(c, raw, source, t), Enrich(c, raw, source, u);
      SameVerdict(c, a, b, source) <==> RulesAgree(c, a, b) || ForeignSource(c, a, source)
  {
    hide NormalizeInput, CanonOf, Collides, Renamed, RulesAgree, ForeignSource, SameVerdict;
    var a, b := Enrich(c, raw, source, t), Enrich(c, raw, source, u);
    if "ingested_at" in raw {
      EnrichKeepsItsClock(c, raw, source, t, u);
      SameRecordSameVerdict(c, a, source);
    } else {
      EnrichSetsTheClock(c, raw, source, t, u);
      SameButClockVerdict(c, a, b, source);
    }
  }

  lemma EnrichKeepsItsClock(c: Contract, raw: Record, source: string, t: Raw, u: Raw)
    requires "ingested_at" in raw
    ensures Enrich(c, raw, source, t) == Enrich(c, raw, source, u)
  {
  }

  lemma SameRecordSameVerdict(c: Contract, a: Record, source: string)
    ensures SameVerdict(c, a, a, source) && RulesAgree(c, a, a)
  {
    hide NormalizeInput, CanonOf;
  }

  lemma EnrichSetsTheClock(c: Contract, raw: Record, source: string, t: Raw, u: Raw)
    requires "ingested_at" !in raw
    ensures var a, b := Enrich(c, raw, source, t), Enrich(c, raw, source, u);
      && "ingested_at" in a && a["ingested_at"] == t && "ingested_at" in b && b["ingested_at"] == u
      && a.Keys == b.Keys && forall name :: name in a && name != "ingested_at" ==> a[name] == b[name]
  {
    assert |"source"| == 6 && |"source_record_id"| == 16 && |"ingested_at"| == 11;
    var named := if "source" in raw then raw else raw["source" := RText(source)];
    var keyed := if "source_record_id" in named then named
                 else named["source_record_id" := RText(c.stableId(named))];
    assert "ingested_at" !in keyed;
    assert Enrich(c, raw, source, t) == keyed["ingested_at" := t];
    assert Enrich(c, raw, source, u) == keyed["ingested_at" := u];
  }

  lemma SameButClockVerdict(c: Contract, a: Record, b: Record, source: string)
    requires WellFormed(c) && "ingested_at" in a && "ingested_at" in b
    requires ClockParses(c, a["ingested_at"]) && ClockParses(c, b["ingested_at"])
    requires a.Keys == b.Keys
    requires forall name :: name in a && name != "ingested_at" ==> a[name] == b[name]
    ensures SameVerdict(c, a, b, source) <==> RulesAgree(c, a, b) || ForeignSource(c, a, source)
    ensures Normalized(c, a).Some? <==> Normalized(c, b).Some?
    ensures Normalized(c, a).Some? ==> SameButClock(Normalized(c, a).value, Normalized(c, b).value)
  {
    hide NormalizeInput, CanonOf, Renamed, RulesHold;
    if Collides(c, a) {
      SameCollisions(c, a, b);
    } else {
      SameRenaming(c, a, b);
      SameNormalization(c, Renamed(c, a), Renamed(c, b));
      if Normalized(c, a).Some? {
        SameButClockIsSameRecord(c, Normalized(c, a).value, Normalized(c, b).value);
      }
    }
  }

  lemma SameCollisions(c: Contract, a: Record, b: Record)
    requires a.Keys == b.Keys && Collides(c, a)
    ensures Collides(c, b)
  {
    var x, y :| x in a && y in a && x != y && Target(c, x) == Target(c, y);
    assert x in b.Keys && y in b.Keys;
  }

  /** The rules judge every record of a feed alike at all the clocks its runs use. */
  ghost predicate SteadyOn(c: Contract, feed: seq<Record>, source: string, clocks: set<Raw>) {
    && WellFormed(c) && (forall now :: now in clocks ==> ClockParses(c, now))
    && forall raw, t, u :: raw in feed && t in clocks && u in clocks ==>
         RulesAgree(c, Enrich(c, raw, source, t), Enrich(c, raw, source, u))
  }

  /** A contract whose rules ignore the clock is steady on every feed. */
  lemma ClockFreeIsSteady(c: Contract, feed: seq<Record>, source: string, clocks: set<Raw>)
    requires WellFormed(c) && ClockFree(c) && forall now :: now in clocks ==> ClockParses(c, now)
    ensures SteadyOn(c, feed, source, clocks)
  {
    hide NormalizeInput, CanonOf, Collides, Renamed, Enrich, RulesHold, ClockParses;
    forall raw, t, u | raw in feed && t in clocks && u in clocks
      ensures RulesAgree(c, Enrich(c, raw, source, t), Enrich(c, raw, source, u))
    {
      ClockFreeRulesAgree(c, raw, source, t, u);
    }
  }

  lemma ClockFreeRulesAgree(c: Contract, raw: Record, source: string, t: Raw, u: Raw)
    requires WellFormed(c) && ClockFree(c) && ClockParses(c, t) && ClockParses(c, u)
    ensures RulesAgree(c, Enrich(c, raw, source, t), Enrich(c, raw, source, u))
  {
    hide NormalizeInput, CanonOf, Collides, Renamed, Normalized, SameVerdict, SameButClock, RulesHold;
    if "ingested_at" in raw {
      EnrichKeepsItsClock(c, raw, source, t, u);
    } else {
      EnrichSetsTheClock(c, raw, source, t, u);
      SameButClockVerdict(c, Enrich(c, raw, source, t), Enrich(c, raw, source, u), source);
    }
  }

  lemma SameRenaming(c: Contract, a: Record, b: Record)
    requires "ingested_at" in a && "ingested_at" !in c.aliases
    requires a.Keys == b.Keys && !Collides(c, a)
    requires forall name :: name in a && name != "ingested_at" ==> a[name] == b[name]
    ensures !Collides(c, b)
    ensures Renamed(c, a).Keys == Renamed(c, b).Keys
    ensures "ingested_at" in Renamed(c, a)
    ensures Renamed(c, a)["ingested_at"] == a["ingested_at"]
    ensures Renamed(c, b)["ingested_at"] == b["ingested_at"]
    ensures forall name :: name in Renamed(c, a) && name != "ingested_at" ==> Renamed(c, a)[name] == Renamed(c, b)[name]
  {
    assert Target(c, "ingested_at") == "ingested_at";
    assert Target(c, "ingested_at") in Renamed(c, a);
    forall name | name in Renamed(c, a) ensures name in Renamed(c, b)
    {
      var col :| col in a && Target(c, col) == name;
      assert Target(c, col) in Renamed(c, b);
    }
    forall name | name in Renamed(c, a) && name != "ingested_at"
      ensures Renamed(c, a)[name] == Renamed(c, b)[name]
    {
      var col :| col in a && Target(c, col) == name;
      assert Renamed(c, a)[Target(c, col)] == a[col];
      assert Renamed(c, b)[Target(c, col)] == b[col];
    }
  }

  lemma SameButClockIsSameRecord(c: Contract, x: Cells, y: Cells)
    requires WellFormed(c) && SameButClock(x, y)
    ensures CanonOf(c, x) == CanonOf(c, y)
    ensures Cell(x, "source") == Cell(y, "source")
  {
    forall name | name != "ingested_at" ensures (name in x <==> name in y) && Cell(x, name) == Cell(y, name) {
      assert name in x <==> name in x - {"ingested_at"};
      assert name in y <==> name in y - {"ingested_at"};
      if name in x {
        assert x[name] == (x - {"ingested_at"})[name] == (y - {"ingested_at"})[name] == y[name];
      }
    }
    assert "source" != "ingested_at";
    assert ComparedCells(c, x) == ComparedCells(c, y);
    CanonIsItsComparedCells(c, x, y);
  }

  lemma SameNormalization(c: Contract, a: Record, b: Record)
    requires "ingested_at" in a && a.Keys == b.Keys
    requires ClockParses(c, a["ingested_at"]) && ClockParses(c, b["ingested_at"])
    requires forall name :: name in a && name != "ingested_at" ==> a[name] == b[name]
    ensures NormalizeInput(c, a).Some? <==> NormalizeInput(c, b).Some?
    ensures NormalizeInput(c, a).Some? ==> SameButClock(NormalizeInput(c, a).value, NormalizeInput(c, b).value)
  {
    forall name ensures Fails(c, a, name) == Fails(c, b, name) {
      if name == "ingested_at" {
        assert !Fails(c, a, name) && !Fails(c, b, name);
      } else if name in a {
        assert a[name] == b[name];
      }
    }
  }
}
