/** Values and rows shared by every component of the lake. */
module Rows {
  datatype Option<+T> = None | Some(value: T)

  /** A calendar date: its day number orders dates, its year and month name a partition. */
  datatype Date = Date(ordinal: int, year: int, month: int)

  /** A monthly partition directory, `year=YYYY/month=MM`. */
  datatype Month = Month(year: int, month: int)

  /** A normalized cell. */
  datatype Value =
    | Null
    | Text(text: string)
    | Number(number: real)
    | Whole(whole: int)
    | Day(day: Date)
    | Instant(micros: int, utcDay: Date)

  /** The tuple of a row's `idempotency_by` cells. */
  type Key = seq<Value>

  /** What two copies of one logical record are compared on: every contract field except
      `ingested_at`, and except `source_record_id` unless that is part of the key. The key, the
      event date and the source are themselves read off those cells. */
  datatype Canon = Canon(key: Key, date: Date, source: string, cells: map<string, Value>)

  /** A validated row as it is stored in a Parquet file. */
  datatype Row = Row(canon: Canon, ingestedAt: int, recordId: string) {
    function Key(): Key { canon.key }
  }

  function MonthOf(v: Canon): Month {
    Month(v.date.year, v.date.month)
  }

  /** The canonical records a file holds. */
  function Canons(rows: seq<Row>): set<Canon> {
    set i | 0 <= i < |rows| :: rows[i].canon
  }

  function Keys(canons: set<Canon>): set<Key> {
    set v | v in canons :: v.key
  }

  /** No key carries two different canonical records. */
  ghost predicate Consistent(canons: set<Canon>) {
    forall v, w :: v in canons && w in canons && v.key == w.key ==> v == w
  }

  ghost predicate DistinctKeys(rows: seq<Row>) {
    forall i, j :: 0 <= i < j < |rows| ==> rows[i].Key() != rows[j].Key()
  }

  /** The canonical key-to-values view of a consistent set of records. */
  ghost function View(canons: set<Canon>): (m: map<Key, Canon>)
    requires Consistent(canons)
    ensures m.Keys == Keys(canons) && m.Values == canons
    ensures forall k :: k in m ==> m[k].key == k
  {
    var m := map k | k in Keys(canons) :: (var v :| v in canons && v.key == k; v);
    assert m.Values == canons by {
      forall v | v in canons ensures v in m.Values {
        assert v.key in m && m[v.key] == v;
      }
    }
    m
  }

  lemma {:induction false} DistinctKeyCount(rows: seq<Row>)
    requires DistinctKeys(rows)
    ensures |Keys(Canons(rows))| == |rows|
  {
    if rows == [] {
      assert Canons(rows) == {};
      assert Keys(Canons(rows)) == {};
    } else {
      var n := |rows| - 1;
      var front := rows[..n];
      DistinctKeyCount(front);
      var k := rows[n].Key();
      assert rows == front + [rows[n]];
      CanonsAppend(front, rows[n]);
      assert Keys(Canons(rows)) == Keys(Canons(front)) + {k};
      assert k !in Keys(Canons(front));
    }
  }

  lemma CanonsAppend(rows: seq<Row>, r: Row)
    ensures Canons(rows + [r]) == Canons(rows) + {r.canon}
  {
    var all := rows + [r];
    forall v | v in Canons(rows) + {r.canon} ensures v in Canons(all) {
      if v in Canons(rows) {
        var i :| 0 <= i < |rows| && rows[i].canon == v;
        assert all[i].canon == v;
      } else {
        assert all[|rows|].canon == v;
      }
    }
  }

  lemma CanonsSplit(a: seq<Row>, b: seq<Row>)
    ensures Canons(a + b) == Canons(a) + Canons(b)
  {
    forall v | v in Canons(a) + Canons(b) ensures v in Canons(a + b) {
      if v in Canons(a) {
        var i :| 0 <= i < |a| && a[i].canon == v;
        assert (a + b)[i].canon == v;
      } else {
        var i :| 0 <= i < |b| && b[i].canon == v;
        assert (a + b)[|a| + i].canon == v;
      }
    }
  }
}
