/** The staging model of prices: a filter and a best-copy selection that agree with the contract and
    with compaction. */
module Staging {
  import opened Rows
  import opened Contracts
  import opened Ordering
  import opened Backfill
  import opened Compaction
  import opened Datasets

  // ----- The filter -----

  /** The `where` clause: required cells, positive prices, non-negative volume, a sane range. */
  predicate PassesFilter(cells: Cells) {
    var open, high, low, close := NumberOf(Cell(cells, "open")), NumberOf(Cell(cells, "high")),
      NumberOf(Cell(cells, "low")), NumberOf(Cell(cells, "close"));
    && !Cell(cells, "symbol").Null? && !Cell(cells, "date").Null? && !Cell(cells, "volume").Null?
    && open > 0.0 && high > 0.0 && low > 0.0 && close > 0.0 && WholeOf(Cell(cells, "volume")) >= 0
    && high >= Max(low, Max(open, close)) && low <= Min(open, close)
  }

  /** A stored price row: what the contract accepts, as the loader writes it. */
  ghost predicate IsPriceRow(p: Parsers, stableId: Record -> string, row: Row) {
    exists raw, source :: AcceptedAs(p, stableId, raw, source, row)
  }

  ghost predicate AcceptedAs(p: Parsers, stableId: Record -> string, raw: Record, source: string, row: Row) {
    var c := Prices(p, stableId);
    Valid(c, raw, source).Some? && row == RowOf(c, Valid(c, raw, source).value)
  }

  /** Every declared cell of an accepted row came out of its column's normalizer. */
  lemma AcceptedCell(c: Contract, raw: Record, source: string, name: string)
    requires Valid(c, raw, source).Some? && name in c.fields && !c.fields[name].nullable
    ensures name in Valid(c, raw, source).value
    ensures exists value :: c.fields[name].normalize(value) == Some(Valid(c, raw, source).value[name])
  {
    var input := Renamed(c, raw);
    assert input.Keys == c.fields.Keys;
    assert name in input.Keys && !Fails(c, input, name);
    assert c.fields[name].normalize(input[name]) == Some(Valid(c, raw, source).value[name]);
  }

  lemma ComparedCell(c: Contract, cells: Cells, name: string)
    requires name != "ingested_at" && name != "source_record_id"
    ensures Cell(ComparedCells(c, cells), name) == Cell(cells, name)
  {
  }

  lemma FilterReadsComparedCells(c: Contract, cells: Cells)
    ensures PassesFilter(ComparedCells(c, cells)) <==> PassesFilter(cells)
  {
    hide ComparedCells;
    assert |"symbol"| == 6 && |"date"| == 4 && |"open"| == 4 && |"high"| == 4 && |"low"| == 3 && |"close"| == 5 && |"volume"| == 6;
    assert |"ingested_at"| == 11 && |"source_record_id"| == 16;
    ComparedCell(c, cells, "symbol");
    ComparedCell(c, cells, "date");
    ComparedCell(c, cells, "open");
    ComparedCell(c, cells, "high");
    ComparedCell(c, cells, "low");
    ComparedCell(c, cells, "close");
    ComparedCell(c, cells, "volume");
  }

  /** On rows with their required cells, the filter is the contract's rule. */
  lemma FilterIsTheContractRule(cells: Cells)
    requires !Cell(cells, "symbol").Null? && !Cell(cells, "date").Null? && !Cell(cells, "volume").Null?
    ensures PassesFilter(cells) <==> PriceRanges(cells).None?
  {
  }

  /** Exactly the rows that pass: they have a symbol, a date and a volume, which the contract asks for
      elsewhere, and obey its range rule. */
  lemma FilterIs(cells: Cells)
    ensures PassesFilter(cells) <==>
      Cell(cells, "symbol") != Null && Cell(cells, "date") != Null && Cell(cells, "volume") != Null && PriceRanges(cells).None?
  {
  }

  /** The filter never drops a row the contract accepted. */
  lemma AcceptedRowsPassTheFilter(p: Parsers, stableId: Record -> string, row: Row)
    requires IsPriceRow(p, stableId, row)
    ensures PassesFilter(row.canon.cells)
  {
    hide PassesFilter, PriceRanges, ComparedCells, KeyOf, Normalized;
    var c := Prices(p, stableId);
    var raw, source :| AcceptedAs(p, stableId, raw, source, row);
    var cells := Valid(c, raw, source).value;
    RequiredCells(p, stableId, raw, source);
    assert c.rules[0](cells);
    FilterIsTheContractRule(cells);
    FilterReadsComparedCells(c, cells);
  }

  lemma RequiredCells(p: Parsers, stableId: Record -> string, raw: Record, source: string)
    requires Valid(Prices(p, stableId), raw, source).Some?
    ensures var cells := Valid(Prices(p, stableId), raw, source).value;
      Cell(cells, "symbol").Text? && Cell(cells, "date").Day? && Cell(cells, "volume").Whole?
  {
    hide Valid;
    var c := Prices(p, stableId);
    assert PRICE_COLUMNS[0] == "symbol" && PRICE_COLUMNS[1] == "date" && PRICE_COLUMNS[6] == "volume";
    AcceptedCell(c, raw, source, "symbol");
    AcceptedCell(c, raw, source, "date");
    AcceptedCell(c, raw, source, "volume");
    assert |"date"| == 4 && |"symbol"| == 6 && |"volume"| == 6 && "symbol"[0] != "volume"[0];
  }

  // ----- The best copy of every bar -----

  /** What the database makes of text: only equal arguments are known to give equal results. */
  datatype Folding = Folding(upper: string -> string, lower: string -> string, trim: string -> string)

  /** `upper(trim(symbol))`, the trade date, `lower(trim(source))`: sources that differ in case meet. */
  datatype StagedKey = StagedKey(symbol: string, date: Date, source: string)

  datatype Bar = Bar(
    key: StagedKey, open: real, high: real, low: real, close: real, volume: int, recordId: string, ingestedAt: int)

  function KeyOfBar(f: Folding, v: Canon): StagedKey {
    StagedKey(f.upper(f.trim(TextOf(Cell(v.cells, "symbol")))), DateOf(Cell(v.cells, "date")),
              f.lower(f.trim(TextOf(Cell(v.cells, "source")))))
  }

  function BarOf(f: Folding, r: Row): Bar {
    var cells := r.canon.cells;
    Bar(KeyOfBar(f, r.canon), NumberOf(Cell(cells, "open")), NumberOf(Cell(cells, "high")), NumberOf(Cell(cells, "low")),
        NumberOf(Cell(cells, "close")), WholeOf(Cell(cells, "volume")), f.trim(r.recordId), r.ingestedAt)
  }

  /** `ORDER BY ingested_at DESC, source_record_id DESC` on the normalized columns. */
  predicate Ahead(f: Folding, a: Row, b: Row) {
    || a.ingestedAt > b.ingestedAt
    || (a.ingestedAt == b.ingestedAt && TextBefore(f.trim(b.recordId), f.trim(a.recordId)))
  }

  ghost predicate InLake(t: Tree, r: Row) {
    exists m :: m in t && RowOfDir(t[m], r)
  }

  /** A row with rank one: it passes the filter and no passing copy of its bar is ahead of it. */
  ghost predicate Best(f: Folding, t: Tree, r: Row) {
    && InLake(t, r) && PassesFilter(r.canon.cells)
    && forall s :: InLake(t, s) && PassesFilter(s.canon.cells) && KeyOfBar(f, s.canon) == KeyOfBar(f, r.canon) ==> !Ahead(f, s, r)
  }

  /** A result of the model: one best row for every bar of the lake; ties go either way. */
  ghost predicate Staged(f: Folding, t: Tree, chosen: seq<Row>) {
    && (forall r :: r in chosen ==> Best(f, t, r))
    && (forall i, j :: 0 <= i < j < |chosen| ==> KeyOfBar(f, chosen[i].canon) != KeyOfBar(f, chosen[j].canon))
    && (forall s :: InLake(t, s) && PassesFilter(s.canon.cells) ==> HasBar(f, chosen, KeyOfBar(f, s.canon)))
  }

  ghost predicate HasBar(f: Folding, chosen: seq<Row>, k: StagedKey) {
    exists r :: r in chosen && KeyOfBar(f, r.canon) == k
  }

  ghost function Bars(f: Folding, chosen: seq<Row>): set<Bar> {
    set r | r in chosen :: BarOf(f, r)
  }

  /** The lake holds accepted price rows, whose record ids carry no surrounding blanks. */
  ghost predicate PriceLake(p: Parsers, stableId: Record -> string, f: Folding, t: Tree) {
    forall r :: InLake(t, r) ==> IsPriceRow(p, stableId, r) && f.trim(r.recordId) == r.recordId
  }

  /** The best copies of one bar, which are tied on both ordering columns, are equal. */
  ghost predicate TiesAreEqual(f: Folding, t: Tree) {
    forall r, s :: Best(f, t, r) && Best(f, t, s) && KeyOfBar(f, r.canon) == KeyOfBar(f, s.canon) ==> BarOf(f, r) == BarOf(f, s)
  }

  lemma TrimmedOrder(f: Folding, a: Row, b: Row)
    requires f.trim(a.recordId) == a.recordId && f.trim(b.recordId) == b.recordId
    ensures Ahead(f, a, b) <==> Newer(a, b)
    ensures !Newer(a, b) && !Newer(b, a) ==> a.ingestedAt == b.ingestedAt && a.recordId == b.recordId
  {
    TextTotal(a.recordId, b.recordId);
  }

  /** The bar's key is a function of the idempotency key. */
  lemma SameKeySameBar(p: Parsers, stableId: Record -> string, f: Folding, a: Row, b: Row)
    requires IsPriceRow(p, stableId, a) && IsPriceRow(p, stableId, b) && a.Key() == b.Key()
    ensures KeyOfBar(f, a.canon) == KeyOfBar(f, b.canon)
  {
    KeyCells(p, stableId, a);
    KeyCells(p, stableId, b);
  }

  lemma KeyCells(p: Parsers, stableId: Record -> string, row: Row)
    requires IsPriceRow(p, stableId, row)
    ensures |row.Key()| == 3
    ensures row.Key()[0] == Cell(row.canon.cells, "symbol")
    ensures row.Key()[1] == Cell(row.canon.cells, "date")
    ensures row.Key()[2] == Cell(row.canon.cells, "source")
  {
    hide Valid, ComparedCells;
    var c := Prices(p, stableId);
    var raw, source :| AcceptedAs(p, stableId, raw, source, row);
    var cells := Valid(c, raw, source).value;
    assert |"symbol"| == 6 && |"date"| == 4 && |"source"| == 6 && |"ingested_at"| == 11 && |"source_record_id"| == 16;
    ComparedCell(c, cells, "symbol");
    ComparedCell(c, cells, "date");
    ComparedCell(c, cells, "source");
  }

  lemma WinnerFor(dir: Dir, out: seq<Row>, r: Row) returns (w: Row)
    requires Compacts(dir, out) && RowOfDir(dir, r)
    ensures w in out && w.Key() == r.Key() && !Newer(r, w)
  {
    RowCanon(dir, r);
    var v :| v in Canons(out) && v.key == r.canon.key;
    var i :| 0 <= i < |out| && out[i].canon == v;
    w := out[i];
  }

  lemma SwappedHasWinner(t: Tree, m: Month, id: string, out: seq<Row>, w: Row)
    requires w in out
    ensures InLake(Swapped(t, m, id, out), w)
  {
    var u := Swapped(t, m, id, out);
    assert m in u && Compact(id) in u[m] && u[m][Compact(id)] == out;
    assert RowOfDir(u[m], w);
  }

  lemma SwappedRowsAreOld(t: Tree, m: Month, id: string, out: seq<Row>, r: Row)
    requires m in t && Compacts(t[m], out) && InLake(Swapped(t, m, id, out), r)
    ensures InLake(t, r)
  {
    var u := Swapped(t, m, id, out);
    var x :| x in u && RowOfDir(u[x], r);
    if x == m {
      var n :| n in u[m] && r in u[m][n];
      assert r in out;
      assert RowOfDir(t[m], r);
    } else {
      assert RowOfDir(t[x], r);
    }
  }

  /** A best row of the compacted lake is a best row of the original one. */
  lemma BestWasBest(p: Parsers, stableId: Record -> string, f: Folding, t: Tree, m: Month, id: string, out: seq<Row>, r: Row)
    requires m in t && Compacts(t[m], out) && PriceLake(p, stableId, f, t) && Best(f, Swapped(t, m, id, out), r)
    ensures Best(f, t, r)
  {
    hide PassesFilter, IsPriceRow, KeyOfBar, Compacts;
    SwappedRowsAreOld(t, m, id, out, r);
    forall s | InLake(t, s) && PassesFilter(s.canon.cells) && KeyOfBar(f, s.canon) == KeyOfBar(f, r.canon) ensures !Ahead(f, s, r) {
      var w := NoWorseCopy(p, stableId, f, t, m, id, out, s);
      AcceptedRowsPassTheFilter(p, stableId, w);
      TrimmedOrder(f, s, w);
      TrimmedOrder(f, w, r);
      TrimmedOrder(f, s, r);
      NewerOrder(s, w, r);
    }
  }

  lemma NoWorseCopy(p: Parsers, stableId: Record -> string, f: Folding, t: Tree, m: Month, id: string, out: seq<Row>, s: Row)
    returns (w: Row)
    requires m in t && Compacts(t[m], out) && PriceLake(p, stableId, f, t) && InLake(t, s)
    ensures InLake(t, w) && InLake(Swapped(t, m, id, out), w) && KeyOfBar(f, w.canon) == KeyOfBar(f, s.canon) && !Newer(s, w)
  {
    hide IsPriceRow, KeyOfBar;
    var x :| x in t && RowOfDir(t[x], s);
    if x != m {
      assert x in Swapped(t, m, id, out);
      w := s;
      NewerOrder(s, s, s);
    } else {
      w := WinnerFor(t[m], out, s);
      assert RowOfDir(t[m], w) && InLake(t, w);
      SwappedHasWinner(t, m, id, out, w);
      SameKeySameBar(p, stableId, f, s, w);
    }
  }

  /** Best copies of one bar are tied: neither is ahead, so both ordering columns are equal. */
  lemma BestCopiesAreTied(p: Parsers, stableId: Record -> string, f: Folding, t: Tree, r: Row, s: Row)
    requires PriceLake(p, stableId, f, t) && Best(f, t, r) && Best(f, t, s)
    requires KeyOfBar(f, r.canon) == KeyOfBar(f, s.canon)
    ensures r.ingestedAt == s.ingestedAt && r.recordId == s.recordId
  {
    hide PassesFilter, IsPriceRow, KeyOfBar, BarOf;
    TrimmedOrder(f, r, s);
    TrimmedOrder(f, s, r);
  }

  /** Staging commutes with compaction: any result over the compacted lake and any result over the
      original lake hold the same staged rows. */
  lemma StagingCommutesWithCompaction(
    p: Parsers, stableId: Record -> string, f: Folding, t: Tree, m: Month, id: string, out: seq<Row>, a: seq<Row>, b: seq<Row>)
    requires m in t && Compacts(t[m], out) && PriceLake(p, stableId, f, t) && TiesAreEqual(f, t)
    requires Staged(f, t, a) && Staged(f, Swapped(t, m, id, out), b)
    ensures Bars(f, a) == Bars(f, b)
  {
    hide PassesFilter, IsPriceRow, KeyOfBar, BarOf, Compacts, TiesAreEqual, PriceLake, InLake, Best;
    forall r | r in a ensures BarOf(f, r) in Bars(f, b) {
      BestIsThere(f, t, r);
      var w := NoWorseCopy(p, stableId, f, t, m, id, out, r);
      CopyPasses(p, stableId, f, t, w);
      var s :| s in b && KeyOfBar(f, s.canon) == KeyOfBar(f, w.canon);
      BestWasBest(p, stableId, f, t, m, id, out, s);
      TiedBars(f, t, r, s);
    }
    forall s | s in b ensures BarOf(f, s) in Bars(f, a) {
      BestWasBest(p, stableId, f, t, m, id, out, s);
      BestIsThere(f, t, s);
      var r :| r in a && KeyOfBar(f, r.canon) == KeyOfBar(f, s.canon);
      TiedBars(f, t, r, s);
    }
  }

  lemma TiedBars(f: Folding, t: Tree, r: Row, s: Row)
    requires TiesAreEqual(f, t) && Best(f, t, r) && Best(f, t, s) && KeyOfBar(f, r.canon) == KeyOfBar(f, s.canon)
    ensures BarOf(f, r) == BarOf(f, s)
  {
    hide Best, BarOf, KeyOfBar;
  }

  lemma BestIsThere(f: Folding, t: Tree, r: Row)
    requires Best(f, t, r)
    ensures InLake(t, r) && PassesFilter(r.canon.cells)
  {
    hide PassesFilter, InLake;
  }

  lemma CopyPasses(p: Parsers, stableId: Record -> string, f: Folding, t: Tree, w: Row)
    requires PriceLake(p, stableId, f, t) && InLake(t, w)
    ensures PassesFilter(w.canon.cells)
  {
    AcceptedRowsPassTheFilter(p, stableId, w);
  }

  /** Two price rows are copies of one bar: folded symbol, trade date and folded source are equal. */
  predicate CopiesOfOneBar(f: Folding, r: Row, s: Row) {
    var a, b := r.canon.cells, s.canon.cells;
    && f.upper(f.trim(TextOf(Cell(a, "symbol")))) == f.upper(f.trim(TextOf(Cell(b, "symbol"))))
    && DateOf(Cell(a, "date")) == DateOf(Cell(b, "date"))
    && f.lower(f.trim(TextOf(Cell(a, "source")))) == f.lower(f.trim(TextOf(Cell(b, "source"))))
  }

  /** The staged rows have one copy of every bar that passes the filter, and not two: its last ingested
      copy, and of those one with the greatest vendor id. */
  lemma OneCopyOfEveryBar(f: Folding, t: Tree, chosen: seq<Row>)
    requires Staged(f, t, chosen)
    ensures forall i, j :: 0 <= i < j < |chosen| ==> !CopiesOfOneBar(f, chosen[i], chosen[j])
    ensures forall s :: InLake(t, s) && PassesFilter(s.canon.cells) ==> exists r :: r in chosen && CopiesOfOneBar(f, r, s)
    ensures forall r, s :: r in chosen && InLake(t, s) && PassesFilter(s.canon.cells) && CopiesOfOneBar(f, r, s) ==>
      && s.ingestedAt <= r.ingestedAt
      && (s.ingestedAt == r.ingestedAt ==> !TextBefore(f.trim(r.recordId), f.trim(s.recordId)))
  {
    hide PassesFilter, InLake, CopiesOfOneBar, KeyOfBar;
    forall r: Row, s: Row ensures CopiesOfOneBar(f, r, s) <==> KeyOfBar(f, r.canon) == KeyOfBar(f, s.canon) {
      OneBarOneKey(f, r, s);
    }
    forall s | InLake(t, s) && PassesFilter(s.canon.cells) ensures exists r :: r in chosen && CopiesOfOneBar(f, r, s) {
      var r :| r in chosen && KeyOfBar(f, r.canon) == KeyOfBar(f, s.canon);
    }
  }

  lemma OneBarOneKey(f: Folding, r: Row, s: Row)
    ensures CopiesOfOneBar(f, r, s) <==> KeyOfBar(f, r.canon) == KeyOfBar(f, s.canon)
  {
  }

  /** A staged bar shows the values of the row it comes from, and passes the test a chart needs. */
  lemma StagedBarsShowTheirRows(f: Folding, t: Tree, chosen: seq<Row>, r: Row)
    requires Staged(f, t, chosen) && r in chosen
    ensures var bar, cells := BarOf(f, r), r.canon.cells;
      && Cell(cells, "open").Number? && Cell(cells, "high").Number? && Cell(cells, "low").Number? && Cell(cells, "close").Number?
      && Number(bar.open) == Cell(cells, "open") && Number(bar.high) == Cell(cells, "high")
      && Number(bar.low) == Cell(cells, "low") && Number(bar.close) == Cell(cells, "close")
      && (Cell(cells, "volume").Whole? ==> Value.Whole(bar.volume) == Cell(cells, "volume"))
      && 0.0 < bar.low <= bar.open <= bar.high && bar.low <= bar.close <= bar.high && bar.volume >= 0
      && bar.ingestedAt == r.ingestedAt && bar.recordId == f.trim(r.recordId)
  {
    assert Best(f, t, r);
  }

  /** The premise is exact: the model has one result over a lake if and only if tied best copies are
      equal. */
  lemma StagingIsDeterminedByTies(f: Folding, t: Tree, a: seq<Row>)
    requires Staged(f, t, a)
    ensures TiesAreEqual(f, t) <==> forall b :: Staged(f, t, b) ==> Bars(f, b) == Bars(f, a)
  {
    hide PassesFilter, KeyOfBar, BarOf, Best;
    if TiesAreEqual(f, t) {
      forall b | Staged(f, t, b) ensures Bars(f, b) == Bars(f, a) {
        SameBars(f, t, a, b);
        SameBars(f, t, b, a);
      }
    } else {
      var r, s :| Best(f, t, r) && Best(f, t, s) && KeyOfBar(f, r.canon) == KeyOfBar(f, s.canon) && BarOf(f, r) != BarOf(f, s);
      var b := OtherChoice(f, t, a, r);
      var c := OtherChoice(f, t, a, s);
      ChoicesDiffer(f, t, b, r, c, s);
    }
  }

  lemma SameBars(f: Folding, t: Tree, a: seq<Row>, b: seq<Row>)
    requires TiesAreEqual(f, t) && Staged(f, t, a) && Staged(f, t, b)
    ensures Bars(f, a) <= Bars(f, b)
  {
    hide PassesFilter, KeyOfBar, BarOf;
    forall r | r in a ensures BarOf(f, r) in Bars(f, b) {
      assert Best(f, t, r);
      var s :| s in b && KeyOfBar(f, s.canon) == KeyOfBar(f, r.canon);
      assert BarOf(f, r) == BarOf(f, s);
    }
  }

  /** A result can be changed to choose any best copy. */
  lemma OtherChoice(f: Folding, t: Tree, a: seq<Row>, r: Row) returns (b: seq<Row>)
    requires Staged(f, t, a) && Best(f, t, r)
    ensures Staged(f, t, b) && r in b
  {
    hide PassesFilter, KeyOfBar, BarOf;
    var s :| s in a && KeyOfBar(f, s.canon) == KeyOfBar(f, r.canon);
    var i :| 0 <= i < |a| && a[i] == s;
    b := a[i := r];
    assert b[i] == r;
    assert forall j :: 0 <= j < |b| ==> KeyOfBar(f, b[j].canon) == KeyOfBar(f, a[j].canon);
    forall k | HasBar(f, a, k) ensures HasBar(f, b, k) {
      var x :| x in a && KeyOfBar(f, x.canon) == k;
      var j :| 0 <= j < |a| && a[j] == x;
      assert b[j] in b;
    }
  }

  lemma BarHasKey(f: Folding, r: Row)
    ensures BarOf(f, r).key == KeyOfBar(f, r.canon)
  {
  }

  lemma ChoicesDiffer(f: Folding, t: Tree, b: seq<Row>, r: Row, c: seq<Row>, s: Row)
    requires Staged(f, t, b) && Staged(f, t, c) && r in b && s in c
    requires KeyOfBar(f, r.canon) == KeyOfBar(f, s.canon) && BarOf(f, r) != BarOf(f, s)
    ensures Bars(f, b) != Bars(f, c)
  {
    hide PassesFilter, KeyOfBar, Best;
    BarHasKey(f, r);
    var j :| 0 <= j < |c| && c[j] == s;
    forall i | 0 <= i < |c| ensures BarOf(f, c[i]) != BarOf(f, r) {
      BarHasKey(f, c[i]);
      if i != j {
        assert KeyOfBar(f, c[i].canon) != KeyOfBar(f, c[j].canon);
      }
    }
    assert BarOf(f, r) in Bars(f, b);
  }
}
