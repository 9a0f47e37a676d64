/** Two declared contracts: prices, whose rule ignores the clock, and macro observations, whose rule
    does not. */
module Datasets {
  import opened Rows
  import opened Contracts

  /** Trimming, case folding and parsing of provider values; `None` for a value that does not parse. */
  datatype Parsers = Parsers(
    trim: string -> string,
    upper: string -> string,
    number: Raw -> Option<real>,
    whole: Raw -> Option<int>,
    day: Raw -> Option<Date>,
    instant: Raw -> Option<(int, Date)>)

  // ----- Normalizers -----

  function ToText(p: Parsers, raw: Raw): Option<Value> {
    if raw.RText? && p.trim(raw.text) != "" then Some(Text(p.trim(raw.text))) else None
  }

  function ToUpperText(p: Parsers, raw: Raw): Option<Value> {
    match ToText(p, raw)
    case Some(v) => Some(Text(p.upper(TextOf(v))))
    case None => None
  }

  function ToNumber(p: Parsers, raw: Raw): Option<Value> {
    if raw.RFlag? then None
    else match p.number(raw) case Some(x) => Some(Number(x)) case None => None
  }

  function ToWhole(p: Parsers, raw: Raw): Option<Value> {
    if raw.RFlag? then None
    else match p.whole(raw) case Some(n) => Some(Value.Whole(n)) case None => None
  }

  function ToDay(p: Parsers, raw: Raw): Option<Value> {
    match p.day(raw) case Some(d) => Some(Day(d)) case None => None
  }

  function ToInstant(p: Parsers, raw: Raw): Option<Value> {
    match p.instant(raw) case Some(i) => Some(Instant(i.0, i.1)) case None => None
  }

  // ----- Prices -----

  const PRICE_COLUMNS :=
    ["symbol", "date", "open", "high", "low", "close", "volume", "source", "source_record_id", "ingested_at"]

  function PriceField(p: Parsers, name: string): Field {
    if name == "symbol" then Field(raw => ToUpperText(p, raw), false)
    else if name == "date" then Field(raw => ToDay(p, raw), false)
    else if name == "volume" then Field(raw => ToWhole(p, raw), false)
    else if name == "source" || name == "source_record_id" then Field(raw => ToText(p, raw), false)
    else if name == "ingested_at" then Field(raw => ToInstant(p, raw), false)
    else Field(raw => ToNumber(p, raw), false)
  }

  datatype PriceDefect = NotPositive(name: string) | NegativeVolume | HighTooLow | LowTooHigh

  function NumberOf(v: Value): real {
    if v.Number? then v.number else 0.0
  }

  function WholeOf(v: Value): int {
    if v.Whole? then v.whole else 0
  }

  function Max(a: real, b: real): real { if a >= b then a else b }
  function Min(a: real, b: real): real { if a <= b then a else b }

  /** `price_ranges`: the first violated range, if any. */
  function PriceRanges(cells: Cells): Option<PriceDefect> {
    var open, high, low, close := NumberOf(Cell(cells, "open")), NumberOf(Cell(cells, "high")),
      NumberOf(Cell(cells, "low")), NumberOf(Cell(cells, "close"));
    if open <= 0.0 then Some(NotPositive("open"))
    else if high <= 0.0 then Some(NotPositive("high"))
    else if low <= 0.0 then Some(NotPositive("low"))
    else if close <= 0.0 then Some(NotPositive("close"))
    else if WholeOf(Cell(cells, "volume")) < 0 then Some(NegativeVolume)
    else if high < Max(low, Max(open, close)) then Some(HighTooLow)
    else if low > Min(open, close) then Some(LowTooHigh)
    else None
  }

  /** The defect reported is the first in the order open, high, low, close, volume, high, low. */
  lemma FirstDefectIs(cells: Cells)
    ensures var open, high, low, close := NumberOf(Cell(cells, "open")), NumberOf(Cell(cells, "high")),
        NumberOf(Cell(cells, "low")), NumberOf(Cell(cells, "close"));
      var volume, defect := WholeOf(Cell(cells, "volume")), PriceRanges(cells);
      && (defect == Some(NotPositive("open")) <==> open <= 0.0)
      && (defect == Some(NotPositive("high")) <==> high <= 0.0 < open)
      && (defect == Some(NotPositive("low")) <==> low <= 0.0 < open && high > 0.0)
      && (defect == Some(NotPositive("close")) <==> close <= 0.0 < open && high > 0.0 && low > 0.0)
      && (defect == Some(NegativeVolume) <==> open > 0.0 && high > 0.0 && low > 0.0 && close > 0.0 && volume < 0)
      && (defect == Some(HighTooLow) <==>
            open > 0.0 && high > 0.0 && low > 0.0 && close > 0.0 && volume >= 0 && (high < low || high < open || high < close))
      && (defect == Some(LowTooHigh) <==>
            open > 0.0 && close > 0.0 && low > 0.0 && volume >= 0 && high >= low && high >= open && high >= close
            && (low > open || low > close))
  {
    assert |"open"| == 4 && |"high"| == 4 && |"low"| == 3 && |"close"| == 5 && "open"[0] != "high"[0];
  }

  function Prices(p: Parsers, stableId: Record -> string): Contract {
    Contract(
      map name | name in PRICE_COLUMNS :: PriceField(p, name),
      PRICE_COLUMNS,
      ["symbol", "date", "source"],
      ["symbol", "date", "source"],
      [cells => PriceRanges(cells).None?],
      map["trade_date" := "date", "ticker" := "symbol"],
      "date",
      ["date", "trade_date"],
      stableId)
  }

  lemma PricesIsWellFormed(p: Parsers, stableId: Record -> string)
    ensures WellFormed(Prices(p, stableId))
  {
    hide Target;
    var c := Prices(p, stableId);
    assert PRICE_COLUMNS[0] == "symbol" && PRICE_COLUMNS[1] == "date" && PRICE_COLUMNS[7] == "source";
    assert PRICE_COLUMNS[8] == "source_record_id" && PRICE_COLUMNS[9] == "ingested_at";
    assert "source"[0] != "ticker"[0] && "source"[0] != "symbol"[1] && "source"[1] != "symbol"[1];
    PriceTargets(p, stableId);
  }

  lemma PriceTargets(p: Parsers, stableId: Record -> string)
    ensures forall name :: name in ["date", "trade_date"] <==> Target(Prices(p, stableId), name) == "date"
  {
    hide PriceField;
    var c := Prices(p, stableId);
    assert Target(c, "date") == "date" && Target(c, "trade_date") == "date";
    forall name | Target(c, name) == "date" ensures name in ["date", "trade_date"] {
      assert name == "ticker" ==> Target(c, name) == "symbol";
    }
  }

  lemma OtherCellsAgree(a: Cells, b: Cells, name: string)
    requires SameButClock(a, b) && name != "ingested_at"
    ensures Cell(a, name) == Cell(b, name)
  {
    assert name in a <==> name in a - {"ingested_at"};
    assert name in b <==> name in b - {"ingested_at"};
    if name in a {
      assert (a - {"ingested_at"})[name] == a[name];
      assert (b - {"ingested_at"})[name] == b[name];
    }
  }

  /** The price rule does not look at the clock, so retries of a price batch at another time accept
      the same records. */
  lemma PricesIgnoreTheClock(p: Parsers, stableId: Record -> string)
    ensures ClockFree(Prices(p, stableId))
  {
    forall a, b | SameButClock(a, b) ensures PriceRanges(a) == PriceRanges(b) {
      assert |"open"| == 4 && |"high"| == 4 && |"low"| == 3 && |"close"| == 5 && |"volume"| == 6 && |"ingested_at"| == 11;
      OtherCellsAgree(a, b, "open");
      OtherCellsAgree(a, b, "high");
      OtherCellsAgree(a, b, "low");
      OtherCellsAgree(a, b, "close");
      OtherCellsAgree(a, b, "volume");
    }
  }

  /** The month in the second component of a key. */
  function PriceMonth(key: Key): Month {
    if |key| > 1 then Month(DateOf(key[1]).year, DateOf(key[1]).month) else Month(0, 0)
  }

  /** The trade date is part of a price key, so the key determines the partition. */
  lemma PriceKeysFixMonths(p: Parsers, stableId: Record -> string, cells: Cells)
    ensures MonthOf(CanonOf(Prices(p, stableId), cells)) == PriceMonth(CanonOf(Prices(p, stableId), cells).key)
  {
    hide ComparedCells;
    var c := Prices(p, stableId);
    assert CanonOf(c, cells).key[1] == Cell(cells, "date");
  }

  // ----- Macro observations -----

  const MACRO_COLUMNS :=
    ["series_id", "observation_date", "released_at", "value", "unit", "frequency", "source", "source_record_id", "ingested_at"]

  function MacroField(p: Parsers, name: string): Field {
    if name == "observation_date" then Field(raw => ToDay(p, raw), false)
    else if name == "released_at" then Field(raw => ToInstant(p, raw), true)
    else if name == "value" then Field(raw => ToNumber(p, raw), false)
    else if name == "source" || name == "source_record_id" then Field(raw => ToText(p, raw), false)
    else if name == "ingested_at" then Field(raw => ToInstant(p, raw), false)
    else Field(raw => ToUpperText(p, raw), false)
  }

  function MicrosOf(v: Value): int {
    if v.Instant? then v.micros else 0
  }

  /** `release_order`: nothing is released after it was ingested. */
  predicate ReleaseOrder(cells: Cells) {
    Cell(cells, "released_at").Null? || MicrosOf(Cell(cells, "released_at")) <= MicrosOf(Cell(cells, "ingested_at"))
  }

  function Macro(p: Parsers, stableId: Record -> string): Contract {
    Contract(
      map name | name in MACRO_COLUMNS :: MacroField(p, name),
      MACRO_COLUMNS,
      ["source", "source_record_id"],
      ["source", "source_record_id"],
      [cells => ReleaseOrder(cells)],
      map["date" := "observation_date", "release_timestamp" := "released_at"],
      "observation_date",
      ["observation_date", "date"],
      stableId)
  }

  lemma MacroTargets(p: Parsers, stableId: Record -> string)
    ensures forall name :: name in ["observation_date", "date"] <==> Target(Macro(p, stableId), name) == "observation_date"
  {
    hide MacroField;
    var c := Macro(p, stableId);
    assert Target(c, "observation_date") == "observation_date" && Target(c, "date") == "observation_date";
    forall name | Target(c, name) == "observation_date" ensures name in ["observation_date", "date"] {
      assert name == "release_timestamp" ==> Target(c, name) == "released_at";
    }
  }

  lemma MacroIsWellFormed(p: Parsers, stableId: Record -> string)
    ensures WellFormed(Macro(p, stableId))
  {
    hide Target;
    var c := Macro(p, stableId);
    assert MACRO_COLUMNS[1] == "observation_date" && MACRO_COLUMNS[6] == "source";
    assert MACRO_COLUMNS[7] == "source_record_id" && MACRO_COLUMNS[8] == "ingested_at";
    assert "observation_date"[0] != "source_record_id"[0];
    MacroTargets(p, stableId);
  }

  /** Exactly when two readings of one macro record at different clocks get the same verdict from the
      rules: the release time lies after both clocks or after neither. */
  lemma MacroVerdictsAgree(p: Parsers, stableId: Record -> string, a: Cells, b: Cells)
    requires SameButClock(a, b)
    ensures var released, t, u := Cell(a, "released_at"), MicrosOf(Cell(a, "ingested_at")), MicrosOf(Cell(b, "ingested_at"));
      (RulesHold(Macro(p, stableId), a) <==> RulesHold(Macro(p, stableId), b))
      <==> released.Null? || (MicrosOf(released) <= t <==> MicrosOf(released) <= u)
  {
    assert "released_at"[0] != "ingested_at"[0];
    OtherCellsAgree(a, b, "released_at");
    var c := Macro(p, stableId);
    assert c.rules[0](a) == ReleaseOrder(a) && c.rules[0](b) == ReleaseOrder(b);
  }

  /** The release time lies after both readings of the clock, or after neither. */
  ghost predicate ReleaseSettled(c: Contract, a: Record, b: Record) {
    Normalized(c, a).Some? && Normalized(c, b).Some? ==>
      var x, y := Normalized(c, a).value, Normalized(c, b).value;
      var released := Cell(x, "released_at");
      released.Null? || (MicrosOf(released) <= MicrosOf(Cell(x, "ingested_at")) <==> MicrosOf(released) <= MicrosOf(Cell(y, "ingested_at")))
  }

  /** Exactly when the rules of macro observations judge a provider record alike at two clocks. */
  lemma MacroIsSteadyExactly(p: Parsers, stableId: Record -> string, raw: Record, source: string, t: Raw, u: Raw)
    requires ClockParses(Macro(p, stableId), t) && ClockParses(Macro(p, stableId), u)
    ensures var c := Macro(p, stableId);
      var a, b := Enrich(c, raw, source, t), Enrich(c, raw, source, u);
      RulesAgree(c, a, b) <==> ReleaseSettled(c, a, b)
  {
    hide Normalized, Macro, RulesHold, SameVerdict;
    var c := Macro(p, stableId);
    MacroIsWellFormed(p, stableId);
    var a, b := Enrich(c, raw, source, t), Enrich(c, raw, source, u);
    if "ingested_at" in raw {
      EnrichKeepsItsClock(c, raw, source, t, u);
    } else {
      EnrichSetsTheClock(c, raw, source, t, u);
      SameButClockVerdict(c, a, b, source);
      if Normalized(c, a).Some? {
        MacroVerdictsAgree(p, stableId, Normalized(c, a).value, Normalized(c, b).value);
      }
    }
  }

  /** A feed of releases that lie before every clock in use, such as a historical backfill, is steady. */
  lemma OldReleasesAreSteady(p: Parsers, stableId: Record -> string, feed: seq<Record>, source: string, clocks: set<Raw>)
    requires forall now :: now in clocks ==> ClockParses(Macro(p, stableId), now)
    requires forall raw, now :: raw in feed && now in clocks ==>
      (var c := Macro(p, stableId);
       var x := Normalized(c, Enrich(c, raw, source, now));
       x.Some? ==> ReleaseOrder(x.value))
    ensures SteadyOn(Macro(p, stableId), feed, source, clocks)
  {
    hide Normalized, Macro, RulesHold, ReleaseOrder, Enrich, ClockParses;
    var c := Macro(p, stableId);
    MacroIsWellFormed(p, stableId);
    forall raw, t, u | raw in feed && t in clocks && u in clocks
      ensures RulesAgree(c, Enrich(c, raw, source, t), Enrich(c, raw, source, u))
    {
      OldReleaseAgrees(p, stableId, raw, source, t, u);
    }
  }

  lemma OldReleaseAgrees(p: Parsers, stableId: Record -> string, raw: Record, source: string, t: Raw, u: Raw)
    requires var c := Macro(p, stableId);
      var x, y := Normalized(c, Enrich(c, raw, source, t)), Normalized(c, Enrich(c, raw, source, u));
      (x.Some? ==> ReleaseOrder(x.value)) && (y.Some? ==> ReleaseOrder(y.value))
    ensures var c := Macro(p, stableId);
      RulesAgree(c, Enrich(c, raw, source, t), Enrich(c, raw, source, u))
  {
    hide Normalized, Enrich, ReleaseOrder;
    var c := Macro(p, stableId);
    assert forall x: Cells :: RulesHold(c, x) <==> ReleaseOrder(x) by {
      forall x: Cells ensures RulesHold(c, x) <==> ReleaseOrder(x) {
        assert c.rules[0](x) == ReleaseOrder(x);
      }
    }
  }

  /** So the macro contract, unlike the price contract, is not clock-free: a retry at a later time can
      accept a record that the first attempt quarantined. */
  lemma MacroWatchesTheClock(p: Parsers, stableId: Record -> string)
    ensures !ClockFree(Macro(p, stableId))
  {
    hide Macro, RulesHold;
    var day := Date(0, 1, 1);
    assert "released_at"[0] != "ingested_at"[0];
    var base: Cells := map["released_at" := Instant(5, day)];
    var a, b := base["ingested_at" := Instant(1, day)], base["ingested_at" := Instant(9, day)];
    assert a - {"ingested_at"} == base && b - {"ingested_at"} == base;
    assert SameButClock(a, b);
    MacroVerdictsAgree(p, stableId, a, b);
  }
}
