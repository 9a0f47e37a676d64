/** Point-in-time fundamentals: the validity ranges a window query attaches to filed observations. */
module Fundamentals {
  import opened Rows
  import opened Ordering

  /** One reported figure of one period. */
  datatype Group = Group(symbol: string, metric: string, periodEnd: int, source: string)

  datatype Fact = Fact(group: Group, filedAt: Option<int>, ingestedAt: int, recordId: string, value: real)

  const MICROS_PER_DAY := 86_400_000_000

  /** Facts without a filing time count from midnight of their period's end. */
  function EffectiveFrom(f: Fact): int {
    match f.filedAt
    case Some(at) => at
    case None => f.group.periodEnd * MICROS_PER_DAY
  }

  /** `ORDER BY effective_from, ingested_at, source_record_id`. */
  predicate Before(a: Fact, b: Fact) {
    || EffectiveFrom(a) < EffectiveFrom(b)
    || (EffectiveFrom(a) == EffectiveFrom(b)
        && (a.ingestedAt < b.ingestedAt || (a.ingestedAt == b.ingestedAt && TextBefore(a.recordId, b.recordId))))
  }

  ghost predicate Sorted(part: seq<Fact>) {
    forall i, j :: 0 <= i < j < |part| ==> !Before(part[j], part[i])
  }

  function InGroup(table: seq<Fact>, g: Group): seq<Fact> {
    if table == [] then []
    else
      var n := |table| - 1;
      if table[n].group == g then InGroup(table[..n], g) + [table[n]] else InGroup(table[..n], g)
  }

  /** A window partition: the rows of a group, in the window's order; full ties in any order. */
  ghost predicate Arranges(table: seq<Fact>, g: Group, part: seq<Fact>) {
    multiset(part) == multiset(InGroup(table, g)) && Sorted(part)
  }

  datatype Ranged = Ranged(fact: Fact, effectiveTo: Option<int>)

  /** `lead(effective_from)` over a partition. */
  function Lead(part: seq<Fact>): (r: seq<Ranged>)
    ensures |r| == |part|
  {
    seq(|part|, i requires 0 <= i < |part| =>
      Ranged(part[i], if i + 1 < |part| then Some(EffectiveFrom(part[i + 1])) else None))
  }

  predicate Covers(r: Ranged, t: int) {
    EffectiveFrom(r.fact) <= t && (r.effectiveTo.None? || t < r.effectiveTo.value)
  }

  // ----- The order -----

  lemma BeforeOrder(a: Fact, b: Fact, c: Fact)
    ensures !Before(a, a) && !(Before(a, b) && Before(b, a))
    ensures Before(a, b) && Before(b, c) ==> Before(a, c)
    ensures !Before(a, b) && !Before(b, c) ==> !Before(a, c)
  {
    TextTotal(a.recordId, b.recordId);
    TextTotal(b.recordId, c.recordId);
    TextTotal(a.recordId, c.recordId);
    TextIrreflexive(a.recordId);
    if TextBefore(a.recordId, b.recordId) && TextBefore(b.recordId, c.recordId) {
      TextTransitive(a.recordId, b.recordId, c.recordId);
    }
    if TextBefore(a.recordId, c.recordId) && TextBefore(c.recordId, b.recordId) {
      TextTransitive(a.recordId, c.recordId, b.recordId);
    }
  }

  lemma {:induction false} InGroupMembers(table: seq<Fact>, g: Group)
    ensures forall f :: f in InGroup(table, g) <==> f in table && f.group == g
  {
    if table != [] {
      InGroupMembers(table[..|table| - 1], g);
      assert forall f :: f in table <==> f in table[..|table| - 1] || f == table[|table| - 1];
    }
  }

  lemma ArrangedMembers(table: seq<Fact>, g: Group, part: seq<Fact>)
    requires Arranges(table, g, part)
    ensures forall f :: f in part <==> f in table && f.group == g
  {
    InGroupMembers(table, g);
    assert forall f :: f in part <==> f in multiset(part);
  }

  // ----- Exactly one range -----

  /** How many rows of a sorted partition are effective at `t`. */
  function Effective(part: seq<Fact>, t: int): nat {
    if part == [] || EffectiveFrom(part[|part| - 1]) <= t then |part| else Effective(part[..|part| - 1], t)
  }

  lemma {:induction false} EffectiveIsPrefix(part: seq<Fact>, t: int)
    requires Sorted(part)
    ensures Effective(part, t) <= |part|
    ensures forall i :: 0 <= i < |part| ==> (EffectiveFrom(part[i]) <= t <==> i < Effective(part, t))
  {
    if part != [] {
      var n := |part| - 1;
      if EffectiveFrom(part[n]) <= t {
        assert forall i :: 0 <= i < n ==> !Before(part[n], part[i]);
      } else {
        var front := part[..n];
        EffectiveIsPrefix(front, t);
        assert forall i :: 0 <= i < n ==> part[i] == front[i];
      }
    }
  }

  /** A range covers `t` exactly when its row is the last one effective at `t`. */
  lemma CoveringIsLastEffective(part: seq<Fact>, t: int, i: nat)
    requires Sorted(part) && i < |part|
    ensures Covers(Lead(part)[i], t) <==> i + 1 == Effective(part, t)
  {
    EffectiveIsPrefix(part, t);
  }

  /** Tied rows: all but the last of them get an empty range. */
  lemma TiesGetEmptyRanges(part: seq<Fact>, i: nat)
    requires Sorted(part) && i + 1 < |part|
    ensures EffectiveFrom(part[i]) == EffectiveFrom(part[i + 1]) <==> forall t :: !Covers(Lead(part)[i], t)
  {
    var r := Lead(part)[i];
    assert !Before(part[i + 1], part[i]);
    if EffectiveFrom(part[i]) != EffectiveFrom(part[i + 1]) {
      assert Covers(r, EffectiveFrom(part[i]));
    }
  }

  /** The as-of search the ranges stand for: `f` is effective at `t`, and no fact of its group that is
      effective at `t` comes after it. */
  ghost predicate IsAsOf(table: seq<Fact>, g: Group, t: int, f: Fact) {
    && f in table && f.group == g && EffectiveFrom(f) <= t
    && forall s :: s in table && s.group == g && EffectiveFrom(s) <= t ==> !Before(f, s)
  }

  lemma LastEffectiveIsAsOf(table: seq<Fact>, g: Group, part: seq<Fact>, t: int, i: nat)
    requires Arranges(table, g, part) && i < |part| && i + 1 == Effective(part, t)
    ensures IsAsOf(table, g, t, part[i])
  {
    hide Before, EffectiveFrom, Effective;
    ArrangedMembers(table, g, part);
    EffectiveIsPrefix(part, t);
    assert part[i] in part;
    forall s | s in table && s.group == g && EffectiveFrom(s) <= t ensures !Before(part[i], s) {
      assert s in part;
      var j :| 0 <= j < |part| && part[j] == s;
      BeforeOrder(s, s, s);
    }
  }

  /** The group has a fact effective at `t`. */
  ghost predicate Known(table: seq<Fact>, g: Group, t: int) {
    exists f :: f in table && f.group == g && EffectiveFrom(f) <= t
  }

  lemma KnownMeansEffective(table: seq<Fact>, g: Group, part: seq<Fact>, t: int)
    requires Arranges(table, g, part)
    ensures Known(table, g, t) <==> Effective(part, t) > 0
  {
    hide Before, EffectiveFrom, Effective;
    ArrangedMembers(table, g, part);
    EffectiveIsPrefix(part, t);
    if Known(table, g, t) {
      var f :| f in table && f.group == g && EffectiveFrom(f) <= t;
      assert f in part;
      var j :| 0 <= j < |part| && part[j] == f;
    }
    if Effective(part, t) > 0 {
      assert part[0] in part;
    }
  }

  /** Exactly one range covers `t`. */
  ghost predicate OneCovers(part: seq<Fact>, t: int) {
    exists i :: 0 <= i < |part| && Covers(Lead(part)[i], t)
      && forall j :: 0 <= j < |part| && Covers(Lead(part)[j], t) ==> j == i
  }

  /** The ranges refine the as-of search. From the group's first effective time on, exactly one range
      covers `t`, and its row is an as-of row; before it, none does. */
  lemma RangesRefineAsOf(table: seq<Fact>, g: Group, part: seq<Fact>, t: int)
    requires Arranges(table, g, part)
    ensures Known(table, g, t) <==> OneCovers(part, t)
    ensures forall i :: 0 <= i < |part| && Covers(Lead(part)[i], t) ==> IsAsOf(table, g, t, part[i])
  {
    hide Before, EffectiveFrom, Effective, Covers, Known, IsAsOf;
    KnownMeansEffective(table, g, part, t);
    EffectiveIsPrefix(part, t);
    forall i | 0 <= i < |part|
      ensures Covers(Lead(part)[i], t) <==> i + 1 == Effective(part, t)
      ensures Covers(Lead(part)[i], t) ==> IsAsOf(table, g, t, part[i])
    {
      CoveringIsLastEffective(part, t, i);
      if i + 1 == Effective(part, t) {
        LastEffectiveIsAsOf(table, g, part, t, i);
      }
    }
    if Effective(part, t) > 0 {
      assert Covers(Lead(part)[Effective(part, t) - 1], t);
    }
  }

  /** From when a figure that is alone in its group shows: from its filing, or without one from midnight of
      the last day of its period. */
  lemma ShowsFrom(f: Fact, t: int)
    ensures Covers(Lead([f])[0], t) <==>
      (if f.filedAt.Some? then f.filedAt.value <= t else f.group.periodEnd * 86_400 * 1_000_000 <= t)
  {
  }

  /** Of the figures effective at `t`, the one that shows became effective last; of those that became
      effective together it was ingested last, and of those it has the greatest record id. */
  lemma LastFilingShows(table: seq<Fact>, g: Group, part: seq<Fact>, t: int, i: nat, s: Fact)
    requires Arranges(table, g, part) && i < |part| && Covers(Lead(part)[i], t)
    requires s in table && s.group == g && EffectiveFrom(s) <= t
    ensures EffectiveFrom(s) <= EffectiveFrom(part[i]) <= t
    ensures EffectiveFrom(s) == EffectiveFrom(part[i]) ==>
      && s.ingestedAt <= part[i].ingestedAt
      && (s.ingestedAt == part[i].ingestedAt ==> !TextBefore(part[i].recordId, s.recordId))
  {
    hide EffectiveFrom;
    RangesRefineAsOf(table, g, part, t);
    assert IsAsOf(table, g, t, part[i]);
  }

  /** No look-ahead: a figure never shows before it was filed. */
  lemma NothingBeforeItsFiling(part: seq<Fact>, t: int, i: nat)
    requires Sorted(part) && i < |part| && Covers(Lead(part)[i], t) && part[i].filedAt.Some?
    ensures part[i].filedAt.value <= t
    ensures forall j :: i < j < |part| ==> EffectiveFrom(part[j]) > t
  {
    CoveringIsLastEffective(part, t, i);
    EffectiveIsPrefix(part, t);
  }

  /** Which of several as-of rows is chosen can only differ in facts tied on the whole order: two
      arrangements agree at every instant up to such ties. */
  lemma ArrangementsAgree(table: seq<Fact>, g: Group, p: seq<Fact>, q: seq<Fact>, t: int, i: nat, j: nat)
    requires Arranges(table, g, p) && Arranges(table, g, q)
    requires i < |p| && j < |q| && Covers(Lead(p)[i], t) && Covers(Lead(q)[j], t)
    ensures !Before(p[i], q[j]) && !Before(q[j], p[i])
    ensures EffectiveFrom(p[i]) == EffectiveFrom(q[j]) && p[i].ingestedAt == q[j].ingestedAt && p[i].recordId == q[j].recordId
  {
    RangesRefineAsOf(table, g, p, t);
    RangesRefineAsOf(table, g, q, t);
    TextTotal(p[i].recordId, q[j].recordId);
  }

  // ----- Arrangements exist -----

  function InsertFact(part: seq<Fact>, f: Fact): seq<Fact> {
    if part == [] || !Before(f, part[|part| - 1]) then part + [f]
    else InsertFact(part[..|part| - 1], f) + [part[|part| - 1]]
  }

  function Arrangement(table: seq<Fact>, g: Group): seq<Fact> {
    if table == [] then []
    else
      var n := |table| - 1;
      if table[n].group == g then InsertFact(Arrangement(table[..n], g), table[n]) else Arrangement(table[..n], g)
  }

  lemma {:induction false} InsertContents(part: seq<Fact>, f: Fact)
    ensures multiset(InsertFact(part, f)) == multiset(part) + multiset{f}
  {
    if part != [] {
      var n := |part| - 1;
      assert part == part[..n] + [part[n]];
      if Before(f, part[n]) {
        InsertContents(part[..n], f);
      }
    }
  }

  lemma {:induction false} InsertSorts(part: seq<Fact>, f: Fact)
    requires Sorted(part)
    ensures Sorted(InsertFact(part, f))
  {
    hide Before;
    if part != [] {
      var n := |part| - 1;
      var last, front := part[n], part[..n];
      if Before(f, last) {
        InsertSorts(front, f);
        InsertContents(front, f);
        var r := InsertFact(front, f);
        forall i | 0 <= i < |r| ensures !Before(last, r[i]) {
          assert r[i] in multiset(r);
          assert r[i] == f || r[i] in front;
          BeforeOrder(f, last, f);
        }
      } else {
        forall i | 0 <= i < n ensures !Before(f, part[i]) {
          BeforeOrder(f, last, part[i]);
        }
      }
    }
  }

  /** Every group has an arrangement. */
  lemma {:induction false} ArrangementArranges(table: seq<Fact>, g: Group)
    ensures Arranges(table, g, Arrangement(table, g))
  {
    if table != [] {
      var n := |table| - 1;
      ArrangementArranges(table[..n], g);
      if table[n].group == g {
        InsertSorts(Arrangement(table[..n], g), table[n]);
        InsertContents(Arrangement(table[..n], g), table[n]);
      }
    }
  }
}
