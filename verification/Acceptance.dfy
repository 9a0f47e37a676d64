/** What the price and macro contracts make of one provider record, from its given values to the stored
    row, and when two price rows are the same bar. */
module Acceptance {
  import opened Rows
  import opened Dedup
  import opened Contracts
  import opened Datasets

  // ----- Names and cells -----

  /** A record under the declared names is validated as it is. */
  lemma PlainNames(c: Contract, raw: Record)
    requires forall name :: name in raw ==> name !in c.aliases
    ensures !Collides(c, raw) && Renamed(c, raw) == raw
  {
    assert forall name :: name in raw ==> Target(c, name) == name;
    forall name | name in raw ensures name in Renamed(c, raw) {
      assert Target(c, name) in Renamed(c, raw);
    }
  }

  /** The text a normalizer makes of a provider value. */
  predicate IsText(p: Parsers, raw: Raw, text: string) {
    raw.RText? && text == p.trim(raw.text) && text != ""
  }

  /** A number: a flag is not one, whatever it converts to. */
  predicate IsNumber(p: Parsers, raw: Raw, x: real) {
    !raw.RNull? && !raw.RFlag? && p.number(raw) == Some(x)
  }

  // ----- Prices -----

  /** What the provider says about one bar. */
  datatype Quote = Quote(symbol: string, day: Date, open: real, high: real, low: real, close: real, volume: int)

  const QUOTED := {"symbol", "date", "open", "high", "low", "close", "volume"}

  ghost predicate Quotes(p: Parsers, raw: Record, q: Quote)
    requires raw.Keys == QUOTED
  {
    && (exists text :: IsText(p, raw["symbol"], text) && q.symbol == p.upper(text))
    && !raw["date"].RNull? && p.day(raw["date"]) == Some(q.day)
    && IsNumber(p, raw["open"], q.open) && IsNumber(p, raw["high"], q.high)
    && IsNumber(p, raw["low"], q.low) && IsNumber(p, raw["close"], q.close)
    && !raw["volume"].RNull? && !raw["volume"].RFlag? && p.whole(raw["volume"]) == Some(q.volume)
  }

  /** Prices are positive, the volume is not negative, and low and high enclose open and close. */
  predicate Sane(q: Quote) {
    && q.open > 0.0 && q.high > 0.0 && q.low > 0.0 && q.close > 0.0 && q.volume >= 0
    && q.low <= q.open <= q.high && q.low <= q.close <= q.high
  }

  /** The run can name itself, its clock and a record without an id. */
  ghost predicate RunParses(p: Parsers, c: Contract, raw: Record, source: string, now: Raw, micros: int, recordId: string) {
    && p.trim(source) == source && source != ""
    && !now.RNull? && p.instant(now).Some? && p.instant(now).value.0 == micros
    && IsText(p, RText(c.stableId(raw["source" := RText(source)])), recordId)
  }

  /** The cells of a bar: the seven given ones, and the lineage of the run. */
  ghost function BarCells(p: Parsers, q: Quote, source: string, now: Raw, recordId: string): Cells
    requires p.instant(now).Some?
  {
    map["symbol" := Text(q.symbol), "date" := Day(q.day), "open" := Number(q.open), "high" := Number(q.high),
        "low" := Number(q.low), "close" := Number(q.close), "volume" := Value.Whole(q.volume), "source" := Text(source),
        "source_record_id" := Text(recordId), "ingested_at" := Instant(p.instant(now).value.0, p.instant(now).value.1)]
  }

  const LINEAGE := {"source", "source_record_id", "ingested_at"}

  lemma PriceColumn(name: string)
    ensures name in PRICE_COLUMNS <==> name in QUOTED + LINEAGE
  {
    assert PRICE_COLUMNS == ["symbol", "date", "open", "high", "low", "close", "volume", "source", "source_record_id", "ingested_at"];
    if name in QUOTED + LINEAGE {
      assert name == PRICE_COLUMNS[0] || name == PRICE_COLUMNS[1] || name == PRICE_COLUMNS[2] || name == PRICE_COLUMNS[3]
          || name == PRICE_COLUMNS[4] || name == PRICE_COLUMNS[5] || name == PRICE_COLUMNS[6] || name == PRICE_COLUMNS[7]
          || name == PRICE_COLUMNS[8] || name == PRICE_COLUMNS[9];
    }
  }

  lemma NoPriceAlias(name: string)
    requires name in QUOTED + LINEAGE
    ensures name != "trade_date" && name != "ticker"
  {
    assert |"trade_date"| == 10 && |"ticker"| == 6;
    assert |name| == 6 ==> name[0] == 's' || name[0] == 'v';
  }

  lemma PriceNames(p: Parsers, stableId: Record -> string)
    ensures Prices(p, stableId).fields.Keys == QUOTED + LINEAGE
    ensures forall name :: name in QUOTED + LINEAGE ==> name !in Prices(p, stableId).aliases
  {
    hide Prices, PRICE_COLUMNS;
    PriceShape(p, stableId);
    var c := Prices(p, stableId);
    forall name ensures name in c.fields.Keys <==> name in QUOTED + LINEAGE {
      PriceColumn(name);
    }
    forall name | name in QUOTED + LINEAGE ensures name !in c.aliases {
      NoPriceAlias(name);
    }
  }

  lemma PriceShape(p: Parsers, stableId: Record -> string)
    ensures forall name :: name in Prices(p, stableId).fields.Keys <==> name in PRICE_COLUMNS
    ensures forall name :: name in Prices(p, stableId).aliases <==> name == "trade_date" || name == "ticker"
  {
    hide PriceField, PRICE_COLUMNS;
  }

  lemma BarColumns(p: Parsers, q: Quote, source: string, now: Raw, recordId: string)
    requires p.instant(now).Some?
    ensures BarCells(p, q, source, now, recordId).Keys == QUOTED + LINEAGE
  {
  }

  lemma NameLengths()
    ensures |"source"| == 6 && |"source_record_id"| == 16 && |"ingested_at"| == 11 && |"symbol"| == 6 && |"volume"| == 6
    ensures |"date"| == 4 && |"open"| == 4 && |"high"| == 4 && |"low"| == 3 && |"close"| == 5
    ensures "source"[0] == 's' && "volume"[0] == 'v' && "symbol"[1] == 'y' && "source"[1] == 'o' && "symbol"[0] == 's'
    ensures "date"[0] == 'd' && "open"[0] == 'o' && "high"[0] == 'h'
  {
  }

  /** A given column under its normalizer. */
  lemma QuotedCell(p: Parsers, raw: Record, q: Quote, source: string, now: Raw, recordId: string, name: string)
    requires raw.Keys == QUOTED && Quotes(p, raw, q) && name in QUOTED && p.instant(now).Some?
    ensures !raw[name].RNull? && PriceField(p, name).normalize(raw[name]) == Some(BarCells(p, q, source, now, recordId)[name])
  {
    NameLengths();
  }

  /** A lineage column under its normalizer. */
  lemma LineageCell(p: Parsers, c: Contract, raw: Record, q: Quote, source: string, now: Raw, micros: int, recordId: string)
    requires raw.Keys == QUOTED && RunParses(p, c, raw, source, now, micros, recordId)
    ensures var e, cells := Enrich(c, raw, source, now), BarCells(p, q, source, now, recordId);
      && e.Keys == QUOTED + LINEAGE && (forall name :: name in raw ==> e[name] == raw[name])
      && !e["source"].RNull? && PriceField(p, "source").normalize(e["source"]) == Some(cells["source"])
      && !e["source_record_id"].RNull? && PriceField(p, "source_record_id").normalize(e["source_record_id"]) == Some(cells["source_record_id"])
      && !e["ingested_at"].RNull? && PriceField(p, "ingested_at").normalize(e["ingested_at"]) == Some(cells["ingested_at"])
  {
    hide Enrich;
    NameLengths();
    EnrichmentIs(c, raw, source, now);
    assert "source" !in QUOTED && "source_record_id" !in QUOTED && "ingested_at" !in QUOTED;
  }

  lemma PriceCell(p: Parsers, stableId: Record -> string, raw: Record, q: Quote, source: string, now: Raw, micros: int, recordId: string, name: string)
    requires raw.Keys == QUOTED && Quotes(p, raw, q)
    requires RunParses(p, Prices(p, stableId), raw, source, now, micros, recordId)
    requires name in QUOTED + LINEAGE
    ensures var e := Enrich(Prices(p, stableId), raw, source, now);
      && name in e && !e[name].RNull?
      && PriceField(p, name).normalize(e[name]) == Some(BarCells(p, q, source, now, recordId)[name])
  {
    hide Enrich, Prices, PriceField, BarCells, Quotes;
    BarColumns(p, q, source, now, recordId);
    LineageCell(p, Prices(p, stableId), raw, q, source, now, micros, recordId);
    if name in QUOTED {
      QuotedCell(p, raw, q, source, now, recordId, name);
    }
  }

  lemma QuoteNormalizes(p: Parsers, stableId: Record -> string, raw: Record, q: Quote, source: string, now: Raw, micros: int, recordId: string)
    requires raw.Keys == QUOTED && Quotes(p, raw, q)
    requires RunParses(p, Prices(p, stableId), raw, source, now, micros, recordId)
    ensures var c := Prices(p, stableId);
      Normalized(c, Enrich(c, raw, source, now)) == Some(BarCells(p, q, source, now, recordId))
  {
    hide Enrich, NormalizeInput, PriceField, Quotes, Collides, Renamed, Prices, BarCells, IsText, WellFormed;
    var c := Prices(p, stableId);
    var e, cells := Enrich(c, raw, source, now), BarCells(p, q, source, now, recordId);
    PriceNames(p, stableId);
    BarColumns(p, q, source, now, recordId);
    EnrichmentIs(c, raw, source, now);
    assert e.Keys == QUOTED + LINEAGE;
    PlainNames(c, e);
    NormalizedExactly(c, e);
    forall name | name in e ensures TakesValue(c.fields[name], e[name]) && !e[name].RNull?
      && c.fields[name].normalize(e[name]) == Some(cells[name])
    {
      PriceCell(p, stableId, raw, q, source, now, micros, recordId, name);
      PriceFields(p, stableId, name);
    }
    assert NormalizeInput(c, e).value == cells;
  }

  lemma PriceFields(p: Parsers, stableId: Record -> string, name: string)
    requires name in Prices(p, stableId).fields
    ensures Prices(p, stableId).fields[name] == PriceField(p, name)
  {
  }

  lemma BarValues(p: Parsers, q: Quote, source: string, now: Raw, recordId: string)
    requires p.instant(now).Some?
    ensures var cells := BarCells(p, q, source, now, recordId);
      && Cell(cells, "symbol") == Text(q.symbol) && Cell(cells, "date") == Day(q.day)
      && Cell(cells, "open") == Number(q.open) && Cell(cells, "high") == Number(q.high)
      && Cell(cells, "low") == Number(q.low) && Cell(cells, "close") == Number(q.close)
      && Cell(cells, "volume") == Value.Whole(q.volume) && Cell(cells, "source") == Text(source)
      && Cell(cells, "source_record_id") == Text(recordId)
      && Cell(cells, "ingested_at") == Instant(p.instant(now).value.0, p.instant(now).value.1)
  {
    NameLengths();
  }

  lemma OneRule(p: Parsers, stableId: Record -> string, cells: Cells)
    ensures RulesHold(Prices(p, stableId), cells) <==> PriceRanges(cells).None?
  {
    assert Prices(p, stableId).rules[0](cells) == PriceRanges(cells).None?;
  }

  /** A bar as an adapter delivers it, without any lineage column, is accepted exactly when it is sane. The
      row is keyed by symbol, trade date and the run's source, and carries the run's clock and the stable
      id of the record. */
  lemma QuotesAreAcceptedExactly(
    p: Parsers, stableId: Record -> string, raw: Record, q: Quote, source: string, now: Raw, micros: int, recordId: string)
    requires raw.Keys == QUOTED && Quotes(p, raw, q)
    requires RunParses(p, Prices(p, stableId), raw, source, now, micros, recordId)
    ensures var c := Prices(p, stableId);
      var verdict := Valid(c, Enrich(c, raw, source, now), source);
      && (verdict.Some? <==> Sane(q))
      && (verdict.Some? ==>
            var row := RowOf(c, verdict.value);
            && row.Key() == [Text(q.symbol), Day(q.day), Text(source)] && row.canon.date == q.day
            && row.canon.source == source && row.ingestedAt == micros && row.recordId == recordId)
  {
    hide Enrich, Normalized, Quotes, BarCells, Prices, RulesHold, ComparedCells;
    var c := Prices(p, stableId);
    var cells := BarCells(p, q, source, now, recordId);
    QuoteNormalizes(p, stableId, raw, q, source, now, micros, recordId);
    BarValues(p, q, source, now, recordId);
    OneRule(p, stableId, cells);
    PriceRow(p, stableId, cells);
  }

  lemma PriceRow(p: Parsers, stableId: Record -> string, cells: Cells)
    ensures var row := RowOf(Prices(p, stableId), cells);
      && row.Key() == [Cell(cells, "symbol"), Cell(cells, "date"), Cell(cells, "source")]
      && row.canon.date == DateOf(Cell(cells, "date")) && row.canon.source == TextOf(Cell(cells, "source"))
  {
    hide ComparedCells, PriceField;
  }

  // ----- Replays of a bar -----

  /** Whether two price rows are of one bar: symbol, trade date and source decide. */
  predicate SameBar(a: Cells, b: Cells) {
    Cell(a, "symbol") == Cell(b, "symbol") && Cell(a, "date") == Cell(b, "date") && Cell(a, "source") == Cell(b, "source")
  }

  /** What the second of two price rows is: a new bar, a replay when only the clock or the vendor's id
      changed, and a conflict when anything else did. */
  lemma PriceReplays(p: Parsers, stableId: Record -> string, a: Cells, b: Cells)
    ensures var c := Prices(p, stableId);
      Deduplicate([RowOf(c, a), RowOf(c, b)], map[]) ==
        if !SameBar(a, b) then Deduplicated([RowOf(c, a), RowOf(c, b)], 0)
        else if a - {"ingested_at", "source_record_id"} == b - {"ingested_at", "source_record_id"}
        then Deduplicated([RowOf(c, a)], 1)
        else Conflict(RowOf(c, b).Key())
  {
    hide RowOf, CanonOf, Prices, Deduplicate;
    var c := Prices(p, stableId);
    PricesIsWellFormed(p, stableId);
    SameRecordExactly(c, a, b);
    PriceRecordKeeping(p, stableId);
    PriceRow(p, stableId, a);
    PriceRow(p, stableId, b);
    TwoRows(RowOf(c, a), RowOf(c, b));
    RowCanonIs(c, a);
    RowCanonIs(c, b);
  }

  lemma RowCanonIs(c: Contract, cells: Cells)
    ensures RowOf(c, cells).canon == CanonOf(c, cells)
  {
    hide CanonOf;
  }

  lemma PriceRecordKeeping(p: Parsers, stableId: Record -> string)
    ensures RecordKeeping(Prices(p, stableId)) == {"ingested_at", "source_record_id"}
  {
    hide PriceField;
    NameLengths();
    assert Prices(p, stableId).idempotencyBy == ["symbol", "date", "source"];
  }

  lemma TwoRows(a: Row, b: Row)
    ensures Deduplicate([a, b], map[]) ==
      if a.Key() != b.Key() then Deduplicated([a, b], 0)
      else if a.canon == b.canon then Deduplicated([a], 1) else Conflict(b.Key())
  {
    assert [a, b][1..] == [b] && [b][1..] == [];
    var seen := map[a.Key() := a.canon];
    assert Deduplicate([b], seen) ==
      if b.Key() !in seen then Following([b], 0, Deduplicate([], seen[b.Key() := b.canon]))
      else if seen[b.Key()] == b.canon then Following([], 1, Deduplicate([], seen)) else Conflict(b.Key());
    assert [a] + ([b] + []) == [a, b] && [a] + ([] + []) == [a];
  }

  // ----- Macro observations -----

  /** What the provider says about one observation; the release time may be unknown. */
  datatype Statement = Statement(series: string, day: Date, released: Option<(int, Date)>, value: real, unit: string, frequency: string)

  const STATED := {"series_id", "observation_date", "released_at", "value", "unit", "frequency"}

  ghost predicate States(p: Parsers, raw: Record, o: Statement)
    requires raw.Keys == STATED
  {
    && (exists text :: IsText(p, raw["series_id"], text) && o.series == p.upper(text))
    && (exists text :: IsText(p, raw["unit"], text) && o.unit == p.upper(text))
    && (exists text :: IsText(p, raw["frequency"], text) && o.frequency == p.upper(text))
    && !raw["observation_date"].RNull? && p.day(raw["observation_date"]) == Some(o.day)
    && IsNumber(p, raw["value"], o.value)
    && (if raw["released_at"].RNull? then o.released.None? else o.released.Some? && p.instant(raw["released_at"]) == o.released)
  }

  ghost function StatementCells(p: Parsers, o: Statement, source: string, now: Raw, recordId: string): Cells
    requires p.instant(now).Some?
  {
    map["series_id" := Text(o.series), "observation_date" := Day(o.day),
        "released_at" := if o.released.Some? then Instant(o.released.value.0, o.released.value.1) else Null,
        "value" := Number(o.value), "unit" := Text(o.unit), "frequency" := Text(o.frequency), "source" := Text(source),
        "source_record_id" := Text(recordId), "ingested_at" := Instant(p.instant(now).value.0, p.instant(now).value.1)]
  }

  lemma MacroColumn(name: string)
    ensures name in MACRO_COLUMNS <==> name in STATED + LINEAGE
  {
    assert MACRO_COLUMNS == ["series_id", "observation_date", "released_at", "value", "unit", "frequency", "source", "source_record_id", "ingested_at"];
    if name in STATED + LINEAGE {
      assert name == MACRO_COLUMNS[0] || name == MACRO_COLUMNS[1] || name == MACRO_COLUMNS[2] || name == MACRO_COLUMNS[3]
          || name == MACRO_COLUMNS[4] || name == MACRO_COLUMNS[5] || name == MACRO_COLUMNS[6] || name == MACRO_COLUMNS[7]
          || name == MACRO_COLUMNS[8];
    }
  }

  lemma NoMacroAlias(name: string)
    requires name in STATED + LINEAGE
    ensures name != "date" && name != "release_timestamp"
  {
    assert |"date"| == 4 && |"release_timestamp"| == 17;
    assert |name| == 4 ==> name[0] == 'u';
  }

  lemma MacroNames(p: Parsers, stableId: Record -> string)
    ensures Macro(p, stableId).fields.Keys == STATED + LINEAGE
    ensures forall name :: name in STATED + LINEAGE ==> name !in Macro(p, stableId).aliases
    ensures forall name :: name in STATED + LINEAGE ==> Macro(p, stableId).fields[name] == MacroField(p, name)
  {
    hide Macro, MacroField, MACRO_COLUMNS;
    MacroShape(p, stableId);
    var c := Macro(p, stableId);
    forall name ensures name in c.fields.Keys <==> name in STATED + LINEAGE {
      MacroColumn(name);
    }
    forall name | name in STATED + LINEAGE ensures name !in c.aliases {
      NoMacroAlias(name);
    }
  }

  lemma MacroShape(p: Parsers, stableId: Record -> string)
    ensures forall name :: name in Macro(p, stableId).fields.Keys <==> name in MACRO_COLUMNS
    ensures forall name :: name in Macro(p, stableId).aliases <==> name == "date" || name == "release_timestamp"
    ensures forall name :: name in Macro(p, stableId).fields ==> Macro(p, stableId).fields[name] == MacroField(p, name)
  {
    hide MacroField, MACRO_COLUMNS;
  }

  lemma StatementColumns(p: Parsers, o: Statement, source: string, now: Raw, recordId: string)
    requires p.instant(now).Some?
    ensures StatementCells(p, o, source, now, recordId).Keys == STATED + LINEAGE
  {
  }

  lemma MacroNameLengths()
    ensures |"series_id"| == 9 && |"observation_date"| == 16 && |"released_at"| == 11 && |"value"| == 5 && |"unit"| == 4
    ensures |"frequency"| == 9 && |"source"| == 6 && |"source_record_id"| == 16 && |"ingested_at"| == 11
    ensures "series_id"[0] == 's' && "frequency"[0] == 'f' && "observation_date"[0] == 'o' && "source_record_id"[0] == 's'
    ensures "released_at"[0] == 'r' && "ingested_at"[0] == 'i'
  {
  }

  /** The column takes the value, as this cell. */
  ghost predicate Becomes(field: Field, raw: Raw, cell: Value) {
    TakesValue(field, raw) && cell == if raw.RNull? then Null else field.normalize(raw).value
  }

  lemma StatedCell(p: Parsers, raw: Record, o: Statement, source: string, now: Raw, recordId: string, name: string)
    requires raw.Keys == STATED && States(p, raw, o) && name in STATED && p.instant(now).Some?
    ensures Becomes(MacroField(p, name), raw[name], StatementCells(p, o, source, now, recordId)[name])
  {
    MacroNameLengths();
  }

  lemma MacroLineageCell(p: Parsers, c: Contract, raw: Record, o: Statement, source: string, now: Raw, micros: int, recordId: string)
    requires raw.Keys == STATED && RunParses(p, c, raw, source, now, micros, recordId)
    ensures var e, cells := Enrich(c, raw, source, now), StatementCells(p, o, source, now, recordId);
      && e.Keys == STATED + LINEAGE && (forall name :: name in raw ==> e[name] == raw[name])
      && Becomes(MacroField(p, "source"), e["source"], cells["source"])
      && Becomes(MacroField(p, "source_record_id"), e["source_record_id"], cells["source_record_id"])
      && Becomes(MacroField(p, "ingested_at"), e["ingested_at"], cells["ingested_at"])
  {
    hide Enrich;
    NoLineageStated();
    LineageOf(c, raw, source, now);
    StatementLineage(p, o, source, now, recordId);
    hide StatementCells;
    MacroLineageFields(p);
  }

  lemma NoLineageStated()
    ensures STATED !! LINEAGE
  {
    MacroNameLengths();
  }

  lemma StatementLineage(p: Parsers, o: Statement, source: string, now: Raw, recordId: string)
    requires p.instant(now).Some?
    ensures var cells := StatementCells(p, o, source, now, recordId);
      && cells.Keys == STATED + LINEAGE
      && cells["source"] == Text(source) && cells["source_record_id"] == Text(recordId)
      && cells["ingested_at"] == Instant(p.instant(now).value.0, p.instant(now).value.1)
  {
  }

  lemma MacroLineageFields(p: Parsers)
    ensures forall raw :: MacroField(p, "source").normalize(raw) == ToText(p, raw)
    ensures forall raw :: MacroField(p, "source_record_id").normalize(raw) == ToText(p, raw)
    ensures forall raw :: MacroField(p, "ingested_at").normalize(raw) == ToInstant(p, raw)
  {
    MacroNameLengths();
  }

  /** The lineage columns of a record that came without any. */
  lemma LineageOf(c: Contract, raw: Record, source: string, now: Raw)
    requires raw.Keys !! LINEAGE
    ensures var e := Enrich(c, raw, source, now);
      && e.Keys == raw.Keys + LINEAGE && (forall name :: name in raw ==> e[name] == raw[name])
      && e["source"] == RText(source) && e["ingested_at"] == now
      && e["source_record_id"] == RText(c.stableId(raw["source" := RText(source)]))
  {
    hide Enrich;
    EnrichmentIs(c, raw, source, now);
    assert "source" in LINEAGE && "source_record_id" in LINEAGE && "ingested_at" in LINEAGE;
  }

  lemma StatementBecomes(
    p: Parsers, stableId: Record -> string, raw: Record, o: Statement, source: string, now: Raw, micros: int, recordId: string)
    requires raw.Keys == STATED && States(p, raw, o)
    requires RunParses(p, Macro(p, stableId), raw, source, now, micros, recordId)
    ensures var c := Macro(p, stableId);
      var e, cells := Enrich(c, raw, source, now), StatementCells(p, o, source, now, recordId);
      && e.Keys == cells.Keys == c.fields.Keys && (forall name :: name in e ==> name !in c.aliases)
      && forall name :: name in e ==> Becomes(c.fields[name], e[name], cells[name])
  {
    hide Enrich, MacroField, States, Macro, StatementCells, IsText, Becomes;
    var c := Macro(p, stableId);
    var e, cells := Enrich(c, raw, source, now), StatementCells(p, o, source, now, recordId);
    MacroNames(p, stableId);
    StatementColumns(p, o, source, now, recordId);
    MacroLineageCell(p, c, raw, o, source, now, micros, recordId);
    forall name | name in e ensures Becomes(c.fields[name], e[name], cells[name]) {
      if name in STATED {
        StatedCell(p, raw, o, source, now, recordId, name);
      }
    }
  }

  lemma StatementNormalizes(
    p: Parsers, stableId: Record -> string, raw: Record, o: Statement, source: string, now: Raw, micros: int, recordId: string)
    requires raw.Keys == STATED && States(p, raw, o)
    requires RunParses(p, Macro(p, stableId), raw, source, now, micros, recordId)
    ensures var c := Macro(p, stableId);
      Normalized(c, Enrich(c, raw, source, now)) == Some(StatementCells(p, o, source, now, recordId))
  {
    hide Enrich, NormalizeInput, States, Collides, Renamed, Macro, StatementCells, TakesValue, STATED;
    var c := Macro(p, stableId);
    var e, cells := Enrich(c, raw, source, now), StatementCells(p, o, source, now, recordId);
    StatementBecomes(p, stableId, raw, o, source, now, micros, recordId);
    PlainNames(c, e);
    NormalizedExactly(c, e);
    assert NormalizeInput(c, e).value == cells;
  }

  lemma StatementValues(p: Parsers, o: Statement, source: string, now: Raw, recordId: string)
    requires p.instant(now).Some?
    ensures var cells := StatementCells(p, o, source, now, recordId);
      && Cell(cells, "observation_date") == Day(o.day) && Cell(cells, "source") == Text(source)
      && Cell(cells, "released_at") == (if o.released.Some? then Instant(o.released.value.0, o.released.value.1) else Null)
      && Cell(cells, "source_record_id") == Text(recordId)
      && Cell(cells, "ingested_at") == Instant(p.instant(now).value.0, p.instant(now).value.1)
  {
    MacroNameLengths();
  }

  lemma OneMacroRule(p: Parsers, stableId: Record -> string, cells: Cells)
    ensures RulesHold(Macro(p, stableId), cells) <==> ReleaseOrder(cells)
  {
    assert Macro(p, stableId).rules[0](cells) == ReleaseOrder(cells);
  }

  lemma MacroRow(p: Parsers, stableId: Record -> string, cells: Cells)
    ensures var row := RowOf(Macro(p, stableId), cells);
      && row.Key() == [Cell(cells, "source"), Cell(cells, "source_record_id")]
      && row.canon.date == DateOf(Cell(cells, "observation_date")) && row.canon.source == TextOf(Cell(cells, "source"))
  {
    hide ComparedCells, MacroField;
  }

  /** An observation as an adapter delivers it, without lineage columns, is accepted exactly when its release
      is unknown or not after the run's clock. The row is keyed by source and stable id. */
  lemma StatementsAreAcceptedExactly(
    p: Parsers, stableId: Record -> string, raw: Record, o: Statement, source: string, now: Raw, micros: int, recordId: string)
    requires raw.Keys == STATED && States(p, raw, o)
    requires RunParses(p, Macro(p, stableId), raw, source, now, micros, recordId)
    ensures var c := Macro(p, stableId);
      var verdict := Valid(c, Enrich(c, raw, source, now), source);
      && (verdict.Some? <==> o.released.None? || o.released.value.0 <= micros)
      && (verdict.Some? ==>
            var row := RowOf(c, verdict.value);
            && row.Key() == [Text(source), Text(recordId)] && row.canon.date == o.day
            && row.canon.source == source && row.ingestedAt == micros && row.recordId == recordId)
  {
    hide Enrich, Normalized, States, StatementCells, Macro, RulesHold, ComparedCells;
    var c := Macro(p, stableId);
    var cells := StatementCells(p, o, source, now, recordId);
    StatementNormalizes(p, stableId, raw, o, source, now, micros, recordId);
    StatementValues(p, o, source, now, recordId);
    OneMacroRule(p, stableId, cells);
    MacroRow(p, stableId, cells);
  }

  /** Of macro observations the vendor's id is the key: another id is another record, and under one id only
      the clock may change. */
  lemma MacroReplays(p: Parsers, stableId: Record -> string, a: Cells, b: Cells)
    ensures var c := Macro(p, stableId);
      Deduplicate([RowOf(c, a), RowOf(c, b)], map[]) ==
        if Cell(a, "source") != Cell(b, "source") || Cell(a, "source_record_id") != Cell(b, "source_record_id")
        then Deduplicated([RowOf(c, a), RowOf(c, b)], 0)
        else if a - {"ingested_at"} == b - {"ingested_at"} then Deduplicated([RowOf(c, a)], 1)
        else Conflict(RowOf(c, b).Key())
  {
    hide RowOf, CanonOf, Macro, Deduplicate;
    var c := Macro(p, stableId);
    MacroIsWellFormed(p, stableId);
    SameRecordExactly(c, a, b);
    MacroRecordKeeping(p, stableId);
    MacroRow(p, stableId, a);
    MacroRow(p, stableId, b);
    TwoRows(RowOf(c, a), RowOf(c, b));
    RowCanonIs(c, a);
    RowCanonIs(c, b);
  }

  lemma MacroRecordKeeping(p: Parsers, stableId: Record -> string)
    ensures RecordKeeping(Macro(p, stableId)) == {"ingested_at"}
  {
    hide MacroField;
    MacroNameLengths();
    assert Macro(p, stableId).idempotencyBy == ["source", "source_record_id"];
    assert "source_record_id" in Macro(p, stableId).idempotencyBy by { assert ["source", "source_record_id"][1] == "source_record_id"; }
  }

  // ----- Nulls -----

  /** A null where the column does not allow it spoils the record, whatever the clock. */
  lemma NullIsRefused(c: Contract, raw: Record, source: string, now: Raw, name: string)
    requires name in raw && raw[name].RNull? && Target(c, name) in c.fields && !c.fields[Target(c, name)].nullable
    ensures Valid(c, Enrich(c, raw, source, now), source).None?
  {
    hide Enrich, Target;
    EnrichmentIs(c, raw, source, now);
    var e := Enrich(c, raw, source, now);
    if !Collides(c, e) {
      assert Target(c, name) in Renamed(c, e) && Renamed(c, e)[Target(c, name)] == RNull;
      assert Fails(c, Renamed(c, e), Target(c, name));
    }
  }

  /** No price column may be null. */
  lemma PricesAllowNoNull(p: Parsers, stableId: Record -> string, raw: Record, source: string, now: Raw, name: string)
    requires name in raw && raw[name].RNull? && (name in QUOTED + LINEAGE || name == "trade_date" || name == "ticker")
    ensures Valid(Prices(p, stableId), Enrich(Prices(p, stableId), raw, source, now), source).None?
  {
    hide Valid, Enrich, QUOTED, LINEAGE;
    var c := Prices(p, stableId);
    PriceTarget(p, stableId, name);
    NullIsRefused(c, raw, source, now, name);
  }

  lemma PriceTarget(p: Parsers, stableId: Record -> string, name: string)
    requires name in QUOTED + LINEAGE || name == "trade_date" || name == "ticker"
    ensures var c := Prices(p, stableId); Target(c, name) in c.fields && !c.fields[Target(c, name)].nullable
  {
    hide PRICE_COLUMNS;
    PriceNames(p, stableId);
  }

  /** Of macro observations only the release time may be null. */
  lemma MacroAllowsNullReleasesOnly(p: Parsers, stableId: Record -> string, raw: Record, source: string, now: Raw, name: string)
    requires name in raw && raw[name].RNull? && name in STATED + LINEAGE && name != "released_at"
    ensures Valid(Macro(p, stableId), Enrich(Macro(p, stableId), raw, source, now), source).None?
  {
    hide Valid, Enrich;
    var c := Macro(p, stableId);
    MacroTarget(p, stableId, name);
    NullIsRefused(c, raw, source, now, name);
  }

  lemma MacroTarget(p: Parsers, stableId: Record -> string, name: string)
    requires name in STATED + LINEAGE && name != "released_at"
    ensures var c := Macro(p, stableId); Target(c, name) in c.fields && !c.fields[Target(c, name)].nullable
  {
    hide MACRO_COLUMNS, Macro;
    MacroNames(p, stableId);
    MacroShape(p, stableId);
    MacroNameLengths();
  }

  // ----- Values that do not parse -----

  /** So does a value that its column cannot read. */
  lemma UnreadableIsRefused(c: Contract, raw: Record, source: string, now: Raw, name: string)
    requires name in raw && !raw[name].RNull? && Target(c, name) in c.fields
    requires c.fields[Target(c, name)].normalize(raw[name]).None?
    ensures Valid(c, Enrich(c, raw, source, now), source).None?
  {
    hide Enrich, Target;
    EnrichmentIs(c, raw, source, now);
    var e := Enrich(c, raw, source, now);
    if !Collides(c, e) {
      assert Target(c, name) in Renamed(c, e) && Renamed(c, e)[Target(c, name)] == raw[name];
      assert Fails(c, Renamed(c, e), Target(c, name));
    }
  }

  /** A flag is no price and no volume, and a blank or a number no symbol. */
  lemma PricesReadNoFlags(p: Parsers, stableId: Record -> string, raw: Record, source: string, now: Raw, name: string)
    requires name in raw && !raw[name].RNull?
    requires
      || (name in {"open", "high", "low", "close", "volume"} && raw[name].RFlag?)
      || (name in {"symbol", "ticker"} && (!raw[name].RText? || p.trim(raw[name].text) == ""))
    ensures Valid(Prices(p, stableId), Enrich(Prices(p, stableId), raw, source, now), source).None?
  {
    hide Valid, Enrich, Prices, PriceField, QUOTED, LINEAGE;
    var c := Prices(p, stableId);
    PriceAliases(p, stableId);
    if name in {"open", "high", "low", "close", "volume"} {
      NumberColumns(p, name, raw[name]);
      PlainPriceColumn(p, stableId, name);
    } else {
      SymbolColumn(p, stableId, raw[name]);
    }
    UnreadableIsRefused(c, raw, source, now, name);
  }

  lemma NumberColumns(p: Parsers, name: string, value: Raw)
    requires name in {"open", "high", "low", "close", "volume"} && value.RFlag?
    ensures PriceField(p, name).normalize(value).None?
  {
    NameLengths();
  }

  lemma PlainPriceColumn(p: Parsers, stableId: Record -> string, name: string)
    requires name in {"open", "high", "low", "close", "volume"}
    ensures var c := Prices(p, stableId);
      Target(c, name) == name && name in c.fields && c.fields[name] == PriceField(p, name)
  {
    hide PriceField, PRICE_COLUMNS;
    PriceNames(p, stableId);
  }

  lemma SymbolColumn(p: Parsers, stableId: Record -> string, value: Raw)
    requires !value.RText? || p.trim(value.text) == ""
    ensures var c := Prices(p, stableId); "symbol" in c.fields && c.fields["symbol"].normalize(value).None?
  {
    hide PRICE_COLUMNS;
    PriceNames(p, stableId);
  }

  /** A flag is no value of a macro observation. */
  lemma MacroReadsNoFlags(p: Parsers, stableId: Record -> string, raw: Record, source: string, now: Raw)
    requires "value" in raw && raw["value"].RFlag?
    ensures Valid(Macro(p, stableId), Enrich(Macro(p, stableId), raw, source, now), source).None?
  {
    hide Valid, Enrich, Macro, MACRO_COLUMNS;
    var c := Macro(p, stableId);
    MacroShape(p, stableId);
    MacroNames(p, stableId);
    MacroNameLengths();
    assert Target(c, "value") == "value";
    UnreadableIsRefused(c, raw, source, now, "value");
  }

  // ----- Aliases -----

  /** The record with the value of one column under another name. */
  function Moved(raw: Record, a: string, b: string): Record
    requires a in raw
  {
    (raw - {a})[b := raw[a]]
  }

  /** Every renamed cell of the record is one of the other. */
  lemma SameRenamed(c: Contract, raw: Record, other: Record, name: string)
    requires !Collides(c, raw) && !Collides(c, other) && name in Renamed(c, raw)
    requires forall x :: x in raw ==> exists y :: y in other && Target(c, y) == Target(c, x) && other[y] == raw[x]
    ensures name in Renamed(c, other) && Renamed(c, other)[name] == Renamed(c, raw)[name]
  {
    hide Target, Renamed, Collides;
    RenamedIs(c, raw);
    RenamedIs(c, other);
    var x :| x in raw && Target(c, x) == name;
    var y :| y in other && Target(c, y) == Target(c, x) && other[y] == raw[x];
    assert Renamed(c, raw)[Target(c, x)] == raw[x];
    assert Renamed(c, other)[Target(c, y)] == other[y];
  }

  lemma MovedBack(raw: Record, a: string, b: string)
    requires a in raw && b !in raw
    ensures a !in Moved(raw, a, b) && b in Moved(raw, a, b) && Moved(Moved(raw, a, b), b, a) == raw
  {
    assert ((raw - {a})[b := raw[a]] - {b})[a := raw[a]] == raw;
  }

  lemma MovedCells(c: Contract, raw: Record, a: string, b: string, x: string)
    requires a in raw && b !in raw && Target(c, a) == Target(c, b) && x in raw
    ensures exists y :: y in Moved(raw, a, b) && Target(c, y) == Target(c, x) && Moved(raw, a, b)[y] == raw[x]
  {
    hide Target;
    var y := if x == a then b else x;
    assert y in Moved(raw, a, b) && Moved(raw, a, b)[y] == raw[x];
  }

  lemma MovedRenames(c: Contract, raw: Record, a: string, b: string)
    requires a in raw && b !in raw && Target(c, a) == Target(c, b)
    requires !Collides(c, raw) && !Collides(c, Moved(raw, a, b))
    ensures forall name :: name in Renamed(c, raw) ==>
      name in Renamed(c, Moved(raw, a, b)) && Renamed(c, Moved(raw, a, b))[name] == Renamed(c, raw)[name]
  {
    hide Target, Renamed, Collides, Moved;
    var other := Moved(raw, a, b);
    forall x | x in raw ensures exists y :: y in other && Target(c, y) == Target(c, x) && other[y] == raw[x] {
      MovedCells(c, raw, a, b, x);
    }
    forall name | name in Renamed(c, raw)
      ensures name in Renamed(c, other) && Renamed(c, other)[name] == Renamed(c, raw)[name]
    {
      SameRenamed(c, raw, other, name);
    }
  }

  /** Which of its names a column comes under makes no difference. */
  lemma AnyNameWillDo(c: Contract, raw: Record, a: string, b: string)
    requires a in raw && b !in raw && Target(c, a) == Target(c, b)
    ensures Normalized(c, Moved(raw, a, b)) == Normalized(c, raw)
  {
    hide NormalizeInput, Target, Renamed, Collides, Moved;
    var other := Moved(raw, a, b);
    CollisionsMove(c, raw, a, b);
    if !Collides(c, raw) {
      MovedBack(raw, a, b);
      MovedRenames(c, raw, a, b);
      MovedRenames(c, other, b, a);
      assert Renamed(c, raw) == Renamed(c, other);
    }
  }

  lemma CollisionsMove(c: Contract, raw: Record, a: string, b: string)
    requires a in raw && b !in raw && Target(c, a) == Target(c, b)
    ensures Collides(c, Moved(raw, a, b)) <==> Collides(c, raw)
  {
    hide Target;
    var other := Moved(raw, a, b);
    if Collides(c, raw) {
      var x, y :| x in raw && y in raw && x != y && Target(c, x) == Target(c, y);
      var u, v := if x == a then b else x, if y == a then b else y;
      assert u in other && v in other && u != v && Target(c, u) == Target(c, v);
    }
    if Collides(c, other) {
      var x, y :| x in other && y in other && x != y && Target(c, x) == Target(c, y);
      var u, v := if x == b then a else x, if y == b then a else y;
      assert u in raw && v in raw && u != v && Target(c, u) == Target(c, v);
    }
  }

  lemma PriceAliases(p: Parsers, stableId: Record -> string)
    ensures var c := Prices(p, stableId);
      && Target(c, "ticker") == Target(c, "symbol") == "symbol" && Target(c, "trade_date") == Target(c, "date") == "date"
  {
    hide PriceField, PRICE_COLUMNS;
    assert |"ticker"| == 6 && |"symbol"| == 6 && "ticker"[0] != "symbol"[0] && |"trade_date"| == 10 && |"date"| == 4;
  }

  lemma MacroAliases(p: Parsers, stableId: Record -> string)
    ensures var c := Macro(p, stableId);
      && Target(c, "date") == Target(c, "observation_date") == "observation_date"
      && Target(c, "release_timestamp") == Target(c, "released_at") == "released_at"
  {
    hide MacroField, MACRO_COLUMNS;
    assert |"date"| == 4 && |"observation_date"| == 16 && |"release_timestamp"| == 17 && |"released_at"| == 11;
  }

  /** A ticker is a symbol, a trade date a date; an observation may call its date just that, and its release
      a timestamp. */
  lemma AliasesAreNames(p: Parsers, stableId: Record -> string, raw: Record, declared: string, alias: string)
    requires declared in raw && alias !in raw
    ensures (declared, alias) in {("symbol", "ticker"), ("date", "trade_date")} ==>
      Normalized(Prices(p, stableId), Moved(raw, declared, alias)) == Normalized(Prices(p, stableId), raw)
    ensures (declared, alias) in {("observation_date", "date"), ("released_at", "release_timestamp")} ==>
      Normalized(Macro(p, stableId), Moved(raw, declared, alias)) == Normalized(Macro(p, stableId), raw)
  {
    hide Prices, Macro, Normalized;
    PriceAliases(p, stableId);
    MacroAliases(p, stableId);
    if (declared, alias) in {("symbol", "ticker"), ("date", "trade_date")} {
      AnyNameWillDo(Prices(p, stableId), raw, declared, alias);
    }
    if (declared, alias) in {("observation_date", "date"), ("released_at", "release_timestamp")} {
      AnyNameWillDo(Macro(p, stableId), raw, declared, alias);
    }
  }
}
