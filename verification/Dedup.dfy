/** Idempotency: the retained view, deduplication against it, and the accounting of a run. */
module Dedup {
  import opened Rows

  // ----- Deduplication -----

  datatype Outcome = Conflict(key: Key) | Deduplicated(added: seq<Row>, duplicates: nat)

  /** The outcome of a batch whose first part added `done` and skipped `n` rows. */
  function Following(done: seq<Row>, n: nat, rest: Outcome): Outcome {
    match rest
    case Conflict(k) => Conflict(k)
    case Deduplicated(added, duplicates) => Deduplicated(done + added, n + duplicates)
  }

  /** The batch loop, with `existing` growing as new keys are met. */
  function Deduplicate(rows: seq<Row>, existing: map<Key, Canon>): Outcome {
    if rows == [] then Deduplicated([], 0)
    else
      var r := rows[0];
      if r.Key() !in existing then
        Following([r], 0, Deduplicate(rows[1..], existing[r.Key() := r.canon]))
      else if existing[r.Key()] == r.canon then
        Following([], 1, Deduplicate(rows[1..], existing))
      else Conflict(r.Key())
  }

  lemma FollowingTwice(a: seq<Row>, m: nat, b: seq<Row>, n: nat, rest: Outcome)
    ensures Following(a, m, Following(b, n, rest)) == Following(a + b, m + n, rest)
  {
    if rest.Deduplicated? {
      assert a + (b + rest.added) == (a + b) + rest.added;
    }
  }

  /** The rows whose key is not retained yet. */
  function Unseen(rows: seq<Row>, existing: map<Key, Canon>): seq<Row> {
    if rows == [] then []
    else (if rows[0].Key() in existing then [] else [rows[0]]) + Unseen(rows[1..], existing)
  }

  /** A replayed key carries the retained values. */
  ghost predicate Agrees(rows: seq<Row>, existing: map<Key, Canon>) {
    forall i :: 0 <= i < |rows| && rows[i].Key() in existing ==> existing[rows[i].Key()] == rows[i].canon
  }

  method DeduplicateRows(rows: seq<Row>, retained: map<Key, Canon>)
    returns (outcome: Outcome)
    ensures outcome == Deduplicate(rows, retained)
  {
    var existing := retained;
    var added: seq<Row>, duplicates: nat := [], 0;
    for n := 0 to |rows|
      invariant Deduplicate(rows, retained) == Following(added, duplicates, Deduplicate(rows[n..], existing))
    {
      var r := rows[n];
      assert rows[n..][0] == r && rows[n..][1..] == rows[n + 1..];
      if r.Key() !in existing {
        existing := existing[r.Key() := r.canon];
        FollowingTwice(added, duplicates, [r], 0, Deduplicate(rows[n + 1..], existing));
        added := added + [r];
      } else if existing[r.Key()] == r.canon {
        FollowingTwice(added, duplicates, [], 1, Deduplicate(rows[n + 1..], existing));
        assert added + [] == added;
        duplicates := duplicates + 1;
      } else {
        return Conflict(r.Key());
      }
    }
    assert added + [] == added;
    outcome := Deduplicated(added, duplicates);
  }

  /** On a batch with distinct keys, deduplication filters out exactly the retained keys, and it
      refuses the batch exactly when some replayed key changed its values. */
  lemma {:induction false} DeduplicateMeaning(rows: seq<Row>, existing: map<Key, Canon>)
    requires DistinctKeys(rows)
    ensures Deduplicate(rows, existing).Deduplicated? <==> Agrees(rows, existing)
    ensures Agrees(rows, existing) ==>
      var added := Unseen(rows, existing);
      |added| <= |rows| && Deduplicate(rows, existing) == Deduplicated(added, |rows| - |added|)
  {
    if rows != [] {
      var r, rest := rows[0], rows[1..];
      if r.Key() !in existing {
        var grown := existing[r.Key() := r.canon];
        DeduplicateMeaning(rest, grown);
        UnseenIgnoresOtherKeys(rest, existing, r);
        assert forall i :: 0 <= i < |rest| ==> rest[i] == rows[i + 1];
        assert Agrees(rest, grown) <==> Agrees(rows, existing);
      } else {
        DeduplicateMeaning(rest, existing);
        assert forall i :: 0 <= i < |rest| ==> rest[i] == rows[i + 1];
        if existing[r.Key()] == r.canon {
          assert Agrees(rest, existing) <==> Agrees(rows, existing);
        }
      }
    }
  }

  /** Row `i` changed the values of the retained key `k`, and no row before it did such a thing. */
  ghost predicate FirstConflict(rows: seq<Row>, existing: map<Key, Canon>, k: Key, i: int) {
    && 0 <= i < |rows| && rows[i].Key() == k && k in existing && existing[k] != rows[i].canon
    && Agrees(rows[..i], existing)
  }

  /** A refused batch names the key of its first replay that changed its values. */
  lemma {:induction false} ConflictNamesTheFirst(rows: seq<Row>, existing: map<Key, Canon>)
    requires DistinctKeys(rows) && Deduplicate(rows, existing).Conflict?
    ensures exists i :: FirstConflict(rows, existing, Deduplicate(rows, existing).key, i)
  {
    var r, rest := rows[0], rows[1..];
    if r.Key() in existing && existing[r.Key()] != r.canon {
      assert FirstConflict(rows, existing, Deduplicate(rows, existing).key, 0);
    } else {
      var grown := if r.Key() in existing then existing else existing[r.Key() := r.canon];
      ConflictNamesTheFirst(rest, grown);
      var i :| FirstConflict(rest, grown, Deduplicate(rest, grown).key, i);
      assert rows[i + 1] == rest[i] && rest[i].Key() != r.Key();
      forall k | 0 <= k < i + 1 && rows[k].Key() in existing ensures existing[rows[k].Key()] == rows[k].canon {
        assert k > 0 ==> rows[k] == rest[..i][k - 1] && rest[..i][k - 1].Key() in grown;
      }
      assert FirstConflict(rows, existing, Deduplicate(rows, existing).key, i + 1);
    }
  }

  lemma {:induction false} UnseenIgnoresOtherKeys(rows: seq<Row>, existing: map<Key, Canon>, r: Row)
    requires forall i :: 0 <= i < |rows| ==> rows[i].Key() != r.Key()
    ensures Unseen(rows, existing[r.Key() := r.canon]) == Unseen(rows, existing)
  {
    if rows != [] {
      UnseenIgnoresOtherKeys(rows[1..], existing, r);
    }
  }

  /** The rows `Unseen` keeps, by membership. */
  lemma {:induction false} UnseenMembers(rows: seq<Row>, existing: map<Key, Canon>)
    ensures forall r :: r in Unseen(rows, existing) <==> r in rows && r.Key() !in existing
    ensures DistinctKeys(rows) ==> DistinctKeys(Unseen(rows, existing))
  {
    if rows != [] {
      var rest := rows[1..];
      UnseenMembers(rest, existing);
      assert forall r :: r in rows <==> r == rows[0] || r in rest;
      if DistinctKeys(rows) {
        assert DistinctKeys(rest);
        var u := Unseen(rest, existing);
        forall j | 0 <= j < |u| ensures u[j].Key() != rows[0].Key() {
          assert u[j] in rest;
          var i :| 0 <= i < |rest| && rest[i] == u[j];
          assert rest[i] == rows[i + 1];
        }
      }
    }
  }

  /** Together with the retained view, the unseen rows account for the whole batch. */
  lemma UnseenCanons(rows: seq<Row>, retained: set<Canon>)
    requires Consistent(retained) && DistinctKeys(rows) && Agrees(rows, View(retained))
    ensures Canons(Unseen(rows, View(retained))) == Canons(rows) - retained
  {
    hide Unseen, View;
    var existing := View(retained);
    var added := Unseen(rows, existing);
    UnseenMembers(rows, existing);
    forall v | v in Canons(rows) && v !in retained ensures v in Canons(added) {
      var i :| 0 <= i < |rows| && rows[i].canon == v;
      assert rows[i] in added;
      var j :| 0 <= j < |added| && added[j] == rows[i];
      assert added[j].canon == v;
    }
    forall v | v in Canons(added) ensures v in Canons(rows) && v !in retained {
      var j :| 0 <= j < |added| && added[j].canon == v;
      assert added[j] in rows;
      var i :| 0 <= i < |rows| && rows[i] == added[j];
      assert rows[i].canon == v;
    }
  }

  /** A batch that agrees with the view extends it without a conflict, and conversely. */
  lemma AgreesMeansConsistent(rows: seq<Row>, retained: set<Canon>)
    requires Consistent(retained) && DistinctKeys(rows)
    ensures Agrees(rows, View(retained)) <==> Consistent(retained + Canons(rows))
  {
    hide View;
    var existing := View(retained);
    DistinctKeysAreConsistent(rows);
    assert forall v :: v in retained ==> v.key in existing && existing[v.key] in retained;
    if Agrees(rows, existing) {
      forall v, w | v in Canons(rows) && w in retained && v.key == w.key ensures v == w {
        var i :| 0 <= i < |rows| && rows[i].canon == v;
        assert rows[i].Key() in existing;
      }
    } else {
      var i :| 0 <= i < |rows| && rows[i].Key() in existing && existing[rows[i].Key()] != rows[i].canon;
      assert rows[i].canon in Canons(rows) && existing[rows[i].Key()] in retained;
    }
  }

  lemma DistinctKeysAreConsistent(rows: seq<Row>)
    requires DistinctKeys(rows)
    ensures Consistent(Canons(rows))
  {
  }

  // ----- The retained view -----

  /** The values compared when a set of files is read back: `None` when two rows of one key
      differ, which the loader reports as an idempotency conflict in retained data. */
  ghost function Retained(canons: set<Canon>): Option<map<Key, Canon>> {
    if Consistent(canons) then Some(View(canons)) else None
  }

  /** `_existing_rows` over the concatenated rows of every file. */
  method ExistingRows(rows: seq<Row>) returns (existing: Option<map<Key, Canon>>)
    ensures existing == Retained(Canons(rows))
  {
    var m: map<Key, Canon> := map[];
    assert Canons(rows[..0]) == {};
    for n := 0 to |rows|
      invariant Consistent(Canons(rows[..n])) && m == View(Canons(rows[..n]))
    {
      var r := rows[n];
      assert rows[..n + 1] == rows[..n] + [r];
      CanonsAppend(rows[..n], r);
      if r.Key() in m && m[r.Key()] != r.canon {
        assert m[r.Key()] in Canons(rows[..n + 1]) && r.canon in Canons(rows[..n + 1]);
        CanonsSplit(rows[..n + 1], rows[n + 1..]);
        assert rows[..n + 1] + rows[n + 1..] == rows;
        return None;
      }
      ViewGrows(Canons(rows[..n]), r.canon);
      m := m[r.Key() := r.canon];
    }
    assert rows[..|rows|] == rows;
    existing := Some(m);
  }

  lemma ViewGrows(canons: set<Canon>, v: Canon)
    requires Consistent(canons)
    requires v.key in View(canons) ==> View(canons)[v.key] == v
    ensures Consistent(canons + {v}) && View(canons + {v}) == View(canons)[v.key := v]
  {
    forall w | w in canons && w.key == v.key ensures w == v {
      assert View(canons)[w.key] == w;
    }
    ViewIsUnique(canons + {v}, View(canons)[v.key := v]);
  }

  /** A map that holds every record under its key, and nothing else, is the view. */
  lemma ViewIsUnique(canons: set<Canon>, m: map<Key, Canon>)
    requires Consistent(canons)
    requires forall v :: v in canons ==> v.key in m
    requires forall k :: k in m ==> m[k].key == k && m[k] in canons
    ensures m == View(canons)
  {
    var a := View(canons);
    assert forall k :: k in m ==> k == m[k].key && m[k].key in Keys(canons);
    assert m.Keys == a.Keys;
  }

  // ----- Accounting -----

  datatype Discrepancy = FetchedMismatch | WrittenMismatch | DeltaMismatch

  datatype Reconciliation = Reconciliation(
    passed: bool, fetched: nat, accepted: nat, rejected: nat, deduplicated: nat, written: nat,
    preWriteRows: nat, postWriteRows: nat, expectedDelta: int, actualDelta: int,
    discrepancies: seq<Discrepancy>)

  function Discrepancies(
    fetched: nat, accepted: nat, rejected: nat, deduplicated: nat, written: nat, pre: nat, post: nat
  ): seq<Discrepancy> {
    (if fetched != accepted + rejected + deduplicated then [FetchedMismatch] else []) +
    (if written != accepted then [WrittenMismatch] else []) +
    (if post - pre != accepted then [DeltaMismatch] else [])
  }

  function Reconcile(
    fetched: nat, accepted: nat, rejected: nat, deduplicated: nat, written: nat, pre: nat, post: nat
  ): (r: Reconciliation)
    ensures r.passed <==>
      fetched == accepted + rejected + deduplicated && written == accepted && post == pre + accepted
  {
    var found := Discrepancies(fetched, accepted, rejected, deduplicated, written, pre, post);
    Reconciliation(found == [], fetched, accepted, rejected, deduplicated, written, pre, post,
                   accepted, post - pre, found)
  }

  /** Each discrepancy is reported exactly when its identity fails, in the order fetched, written, growth, and
      the figures are the ones that were compared. */
  lemma ReconciliationSays(
    fetched: nat, accepted: nat, rejected: nat, deduplicated: nat, written: nat, pre: nat, post: nat)
    ensures var r := Reconcile(fetched, accepted, rejected, deduplicated, written, pre, post);
      && (FetchedMismatch in r.discrepancies <==> fetched != accepted + rejected + deduplicated)
      && (WrittenMismatch in r.discrepancies <==> written != accepted)
      && (DeltaMismatch in r.discrepancies <==> post != pre + accepted)
      && (forall i, j :: 0 <= i < j < |r.discrepancies| ==> Rank(r.discrepancies[i]) < Rank(r.discrepancies[j]))
      && r.fetched == fetched && r.accepted == accepted && r.rejected == rejected && r.deduplicated == deduplicated
      && r.written == written && r.postWriteRows - r.preWriteRows == r.actualDelta && r.expectedDelta == accepted
      && r.preWriteRows == pre
  {
  }

  function Rank(d: Discrepancy): nat {
    match d case FetchedMismatch => 0 case WrittenMismatch => 1 case DeltaMismatch => 2
  }

  method ReconcileRun(
    fetched: nat, accepted: nat, rejected: nat, deduplicated: nat, written: nat, pre: nat, post: nat
  ) returns (r: Reconciliation)
    ensures r == Reconcile(fetched, accepted, rejected, deduplicated, written, pre, post)
    ensures r.passed <==>
      fetched == accepted + rejected + deduplicated && written == accepted && post - pre == accepted
  {
    var discrepancies: seq<Discrepancy> := [];
    if fetched != accepted + rejected + deduplicated {
      discrepancies := discrepancies + [FetchedMismatch];
    }
    if written != accepted {
      discrepancies := discrepancies + [WrittenMismatch];
    }
    var actualDelta := post - pre;
    if actualDelta != accepted {
      discrepancies := discrepancies + [DeltaMismatch];
    }
    r := Reconciliation(|discrepancies| == 0, fetched, accepted, rejected, deduplicated, written,
                        pre, post, accepted, actualDelta, discrepancies);
  }
}
