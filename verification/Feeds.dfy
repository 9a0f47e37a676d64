/** Runs over one provider feed at several clocks: retries, and runs and compactions interleaved. */
module Feeds {
  import opened Rows
  import opened Dedup
  import opened Contracts
  import opened Backfill
  import opened Convergence
  import opened Compaction
  import opened Warehouse
  import opened Placement
  import opened Incremental
  import opened Refresh

  // ----- One batch at two clocks -----

  ghost predicate SameVerdicts(c: Contract, a: seq<Record>, b: seq<Record>, source: string) {
    |a| == |b| && forall i :: 0 <= i < |a| ==> SameVerdict(c, a[i], b[i], source)
  }

  lemma KeyIsCanonKey(c: Contract, cells: Cells)
    requires WellFormed(c)
    ensures KeyOf(c.uniqueBy, cells) == CanonOf(c, cells).key
  {
    hide KeyOf;
  }

  /** Records with the same verdicts are accepted at the same places. */
  lemma SameAcceptedAt(c: Contract, a: seq<Record>, b: seq<Record>, source: string, n: nat)
    requires WellFormed(c) && SameVerdicts(c, a, b, source) && n < |a|
    ensures AcceptedAt(c, a, source, n) ==> AcceptedAt(c, b, source, n)
  {
    hide Valid, KeyOf, CanonOf;
    if AcceptedAt(c, a, source, n) {
      KeyIsCanonKey(c, Valid(c, a[n], source).value);
      KeyIsCanonKey(c, Valid(c, b[n], source).value);
      forall j | 0 <= j < n && Valid(c, b[j], source).Some?
        ensures KeyOf(c.uniqueBy, Valid(c, b[j], source).value) != KeyOf(c.uniqueBy, Valid(c, b[n], source).value)
      {
        assert SameVerdict(c, a[j], b[j], source);
        KeyIsCanonKey(c, Valid(c, a[j], source).value);
        KeyIsCanonKey(c, Valid(c, b[j], source).value);
      }
    }
  }

  ghost predicate SameCanons(c: Contract, x: seq<Cells>, y: seq<Cells>) {
    |x| == |y| && forall i :: 0 <= i < |x| ==> CanonOf(c, x[i]) == CanonOf(c, y[i])
  }

  lemma {:induction false} SameAccepted(c: Contract, a: seq<Record>, b: seq<Record>, source: string)
    requires WellFormed(c) && SameVerdicts(c, a, b, source)
    ensures SameCanons(c, Accepted(c, a, source), Accepted(c, b, source))
  {
    hide Valid, KeyOf, CanonOf, AcceptedAt, WellFormed;
    if a != [] {
      var n := |a| - 1;
      assert SameVerdicts(c, a[..n], b[..n], source);
      assert SameVerdict(c, a[n], b[n], source);
      SameAccepted(c, a[..n], b[..n], source);
      SameAcceptedAt(c, a, b, source, n);
      VerdictsAreSymmetric(c, a, b, source);
      SameAcceptedAt(c, b, a, source, n);
      AcceptedIsValid(c, a, source, n);
    }
  }

  lemma VerdictsAreSymmetric(c: Contract, a: seq<Record>, b: seq<Record>, source: string)
    requires SameVerdicts(c, a, b, source)
    ensures SameVerdicts(c, b, a, source)
  {
    hide Valid, CanonOf;
  }

  lemma AcceptedIsValid(c: Contract, a: seq<Record>, source: string, n: nat)
    requires n < |a|
    ensures AcceptedAt(c, a, source, n) ==> Valid(c, a[n], source).Some?
  {
    hide Valid;
  }

  lemma SameRowCanons(c: Contract, x: seq<Cells>, y: seq<Cells>)
    requires SameCanons(c, x, y)
    ensures Canons(RowsOf(c, x)) <= Canons(RowsOf(c, y))
  {
    hide CanonOf;
    var rows, others := RowsOf(c, x), RowsOf(c, y);
    forall v | v in Canons(rows) ensures v in Canons(others) {
      var i :| 0 <= i < |rows| && rows[i].canon == v;
      assert others[i].canon == v;
    }
  }

  /** A batch of a steady feed holds the same canonical records at every clock, repetitions and
      conflicts inside the feed notwithstanding. */
  lemma BatchIgnoresClock(
    c: Contract, feed: seq<Record>, windows: set<(int, int)>, source: string, clocks: set<Raw>, t: Raw, u: Raw)
    requires SteadyOn(c, feed, source, clocks) && t in clocks && u in clocks
    ensures Canons(Batch(c, feed, windows, source, t)) <= Canons(Batch(c, feed, windows, source, u))
  {
    hide RulesAgree, SameVerdict, Enrich, Valid, Accepted, Select, CanonOf, ForeignSource, ClockParses;
    var chosen := Select(c, feed, windows);
    var a, b := EnrichAll(c, chosen, source, t), EnrichAll(c, chosen, source, u);
    SelectMembers(c, feed, windows);
    forall i | 0 <= i < |a| ensures SameVerdict(c, a[i], b[i], source) {
      assert chosen[i] in chosen;
      ClockMattersExactly(c, chosen[i], source, t, u);
    }
    SameAccepted(c, a, b, source);
    SameRowCanons(c, Accepted(c, a, source), Accepted(c, b, source));
  }

  // ----- Retries of one feed -----

  lemma OfferedBatch(
    c: Contract, feed: seq<Record>, source: string, clocks: set<Raw>, windows: set<(int, int)>, a: Job, b: Job)
    requires SteadyOn(c, feed, source, clocks)
    requires OfferedAll(c, feed, source, clocks, windows, a) && OfferedAll(c, feed, source, clocks, windows, b)
    ensures JobOk(a) && SameBatch(a, b)
  {
    hide SteadyOn, Batch, JobFor, JobOk, WellFormed;
    SteadyIsWellFormed(c, feed, source, clocks);
    var t :| t in clocks && JobFor(c, feed, windows, source, t, a);
    var u :| u in clocks && JobFor(c, feed, windows, source, u, b);
    JobForIsOk(c, feed, windows, source, t, a);
    JobForBatch(c, feed, windows, source, t, a);
    JobForBatch(c, feed, windows, source, u, b);
    BatchIgnoresClock(c, feed, windows, source, clocks, t, u);
    BatchIgnoresClock(c, feed, windows, source, clocks, u, t);
  }

  lemma SteadyIsWellFormed(c: Contract, feed: seq<Record>, source: string, clocks: set<Raw>)
    requires SteadyOn(c, feed, source, clocks)
    ensures WellFormed(c)
  {
    hide RulesAgree, ClockParses, WellFormed;
  }

  /** Crash and retry over a provider feed: attempts that were offered the same records at any of the
      clocks, each interrupted anywhere, then one left alone, converge. Nothing is assumed of what the
      attempts accepted. */
  lemma FeedRetriesConverge(
    c: Contract, feed: seq<Record>, source: string, clocks: set<Raw>, windows: set<(int, int)>,
    d: Disk, tries: seq<Try>, last: Job)
    requires SteadyOn(c, feed, source, clocks)
    requires OfferedAll(c, feed, source, clocks, windows, last) && FreshIn(d.tree, last.runId)
    requires forall i :: 0 <= i < |tries| ==>
      OfferedAll(c, feed, source, clocks, windows, tries[i].job) && FreshIn(d.tree, tries[i].job.runId)
    requires Consistent(TreeCanons(d.tree) + Canons(last.accepted)) && Unlocked(d.locks, News(d.tree, last))
    ensures var end := Finish(After(d, tries), last);
      && (end.proc.phase.Done? <==> !Blocked(After(d, tries), last))
      && (end.proc.phase.Done? ==> Ingested(d.tree, last, end.disk.tree))
      && (!end.proc.phase.Done? ==> end.disk == After(d, tries))
  {
    hide SteadyOn, OfferedAll, Finish, After, Blocked, Ingested, TreeCanons, Canons, Unlocked, JobOk, Consistent, WellFormed;
    SteadyIsWellFormed(c, feed, source, clocks);
    OfferedBatch(c, feed, source, clocks, windows, last, last);
    forall i | 0 <= i < |tries| ensures Offered(d.tree, tries[i].job) && SameBatch(tries[i].job, last) {
      OfferedBatch(c, feed, source, clocks, windows, tries[i].job, last);
    }
    RetriesConverge(d, tries, last);
  }

  // ----- Runs and compactions interleaved -----

  /** A clean history in which no run is under way in state `k`, and every run started since was offered
      the whole feed and selected its windows. What happened up to then is arbitrary. */
  ghost predicate FeedHistory(
    c: Contract, feed: seq<Record>, source: string, clocks: set<Raw>, windows: map<string, set<(int, int)>>,
    states: seq<State>, actions: seq<Action>, k: nat)
    requires WellFormed(c)
  {
    && CleanBehavior(states, actions) && k < |states| && AllEnded(states[k])
    && forall j :: k <= j < |actions| && actions[j].StartRun? ==> FeedJob(c, feed, source, clocks, windows, actions[j].job)
  }

  ghost predicate FeedJob(
    c: Contract, feed: seq<Record>, source: string, clocks: set<Raw>, windows: map<string, set<(int, int)>>, job: Job)
    requires WellFormed(c)
  {
    job.runId in windows && OfferedAll(c, feed, source, clocks, windows[job.runId], job)
  }

  lemma RunsAccept(
    c: Contract, feed: seq<Record>, source: string, clocks: set<Raw>, now: Raw, windows: map<string, set<(int, int)>>,
    states: seq<State>, actions: seq<Action>, k: nat, i: nat)
    requires SteadyOn(c, feed, source, clocks) && now in clocks && Consistent(Truth(c, feed, source, now))
    requires FeedHistory(c, feed, source, clocks, windows, states, actions, k) && k <= i < |states|
    ensures forall r :: r in states[i].runs && r !in states[k].runs ==>
      r in windows && Canons(states[i].runs[r].job.accepted) == Within(Truth(c, feed, source, now), windows[r])
  {
    hide SteadyOn, OfferedAll, Consistent, Truth, Within, WellFormed, Behavior, Canons, Inv, CompactorsInv, AllEnded;
    SteadyIsWellFormed(c, feed, source, clocks);
    JobsSatisfy(job => FeedJob(c, feed, source, clocks, windows, job), states, actions, k, i);
    InvHolds(states, actions, i);
    forall r | r in states[i].runs && r !in states[k].runs
      ensures r in windows && Canons(states[i].runs[r].job.accepted) == Within(Truth(c, feed, source, now), windows[r])
    {
      NameOfRun(states[i], r);
      OfferedCanons(c, feed, source, clocks, now, windows[r], states[i].runs[r].job);
    }
  }

  lemma NameOfRun(s: State, r: string)
    requires Inv(s) && r in s.runs
    ensures s.runs[r].job.runId == r && RunOk(s.disk, s.runs[r])
  {
    hide RunOk, CompactorsInv, LocksInv;
  }

  lemma DoneRunsAreHeld(d: Disk, p: Proc)
    requires RunOk(d, p) && p.phase.Done?
    ensures forall v :: v in Canons(p.job.accepted) ==> Holds(d, v)
  {
    hide Holds, Months, JobOk;
    forall v | v in Canons(p.job.accepted) ensures Holds(d, v) {
      if v in p.plan.pre.Values {
        assert exists k :: k in p.plan.pre && p.plan.pre[k] == v;
      }
    }
  }

  /** Some run started since `from`, finished if `done`, has the day in its windows. */
  ghost predicate SomeRunHas(from: State, s: State, windows: map<string, set<(int, int)>>, day: int, done: bool) {
    exists r :: r in s.runs && r !in from.runs && r in windows && (done ==> s.runs[r].phase.Done?) && InWindows(day, windows[r])
  }

  /** In every clean interleaving the lake holds what it held before, of the rest only what the feed
      says in the windows of some run, and everything it says in the windows of every finished run. */
  lemma InterleavedContent(
    c: Contract, feed: seq<Record>, source: string, clocks: set<Raw>, now: Raw, windows: map<string, set<(int, int)>>,
    states: seq<State>, actions: seq<Action>, k: nat, i: nat, v: Canon)
    requires SteadyOn(c, feed, source, clocks) && now in clocks && Consistent(Truth(c, feed, source, now))
    requires FeedHistory(c, feed, source, clocks, windows, states, actions, k) && k <= i < |states|
    ensures Holds(states[k].disk, v) ==> Holds(states[i].disk, v)
    ensures Holds(states[i].disk, v) && !Holds(states[k].disk, v) ==>
      v in Truth(c, feed, source, now) && SomeRunHas(states[k], states[i], windows, v.date.ordinal, false)
    ensures v in Truth(c, feed, source, now) && SomeRunHas(states[k], states[i], windows, v.date.ordinal, true) ==>
      Holds(states[i].disk, v)
  {
    hide SteadyOn, Consistent, Truth, CleanBehavior, OfferedAll, Holds, Inv, Canons, WellFormed, RunOk, InWindows, AllEnded;
    RunsAccept(c, feed, source, clocks, now, windows, states, actions, k, i);
    HeldRecordsWereAccepted(states, actions, k, i);
    NothingIsLost(states, actions, k, i);
    InvHolds(states, actions, i);
    if SomeRunHas(states[k], states[i], windows, v.date.ordinal, true) {
      var r :| r in states[i].runs && r !in states[k].runs && r in windows && states[i].runs[r].phase.Done? && InWindows(v.date.ordinal, windows[r]);
      NameOfRun(states[i], r);
      DoneRunsAreHeld(states[i].disk, states[i].runs[r]);
    }
  }

  /** The days of `all` are the days of the runs that are done, and no run touched another day. */
  ghost predicate DaysDone(from: State, s: State, windows: map<string, set<(int, int)>>, all: set<(int, int)>) {
    && (forall day :: InWindows(day, all) ==> SomeRunHas(from, s, windows, day, true))
    && (forall day :: SomeRunHas(from, s, windows, day, false) ==> InWindows(day, all))
  }

  lemma InterleavedView(
    c: Contract, feed: seq<Record>, source: string, clocks: set<Raw>, now: Raw, windows: map<string, set<(int, int)>>,
    states: seq<State>, actions: seq<Action>, k: nat, i: nat, all: set<(int, int)>)
    requires SteadyOn(c, feed, source, clocks) && now in clocks && Consistent(Truth(c, feed, source, now))
    requires FeedHistory(c, feed, source, clocks, windows, states, actions, k) && k <= i < |states|
    requires NothingParked(states[k].disk) && NothingParked(states[i].disk)
    requires DaysDone(states[k], states[i], windows, all)
    ensures TreeCanons(states[i].disk.tree) == TreeCanons(states[k].disk.tree) + Within(Truth(c, feed, source, now), all)
  {
    hide SteadyOn, Consistent, Truth, FeedHistory, Holds, TreeCanons, NothingParked, InWindows, WellFormed, SomeRunHas;
    var d, e, truth := states[k].disk, states[i].disk, Truth(c, feed, source, now);
    forall v ensures v in TreeCanons(e.tree) <==> v in TreeCanons(d.tree) + Within(truth, all) {
      InterleavedContent(c, feed, source, clocks, now, windows, states, actions, k, i, v);
      HeldIsSeen(d, v);
      HeldIsSeen(e, v);
    }
  }

  lemma HeldIsSeen(d: Disk, v: Canon)
    requires NothingParked(d)
    ensures Holds(d, v) <==> v in TreeCanons(d.tree)
  {
    hide Holds, TreeCanons, NothingParked;
    if Holds(d, v) { HeldIsVisible(d, v); }
    if v in TreeCanons(d.tree) { VisibleIsHeld(d, v); }
  }

  /** The same as one refresh, however runs, crashes, kills and compactions were interleaved, over a lake
      with any past: once no partition is parked and every day a run touched belongs to a run that is
      done, the view is that of one backfill of those days over the lake as it was. */
  lemma InterleavedEqualsFullRefresh(
    c: Contract, feed: seq<Record>, source: string, clocks: set<Raw>, now: Raw, windows: map<string, set<(int, int)>>,
    states: seq<State>, actions: seq<Action>, k: nat, i: nat, all: set<(int, int)>, full: Job)
    requires SteadyOn(c, feed, source, clocks) && now in clocks
    requires FeedHistory(c, feed, source, clocks, windows, states, actions, k) && k <= i < |states|
    requires Lake(TreeCanons(states[k].disk.tree), Truth(c, feed, source, now))
    requires NothingParked(states[k].disk) && NothingParked(states[i].disk)
    requires DaysDone(states[k], states[i], windows, all)
    requires OfferedAll(c, feed, source, clocks, all, full) && FreshIn(states[k].disk.tree, full.runId)
    requires !Blocked(states[k].disk, full) && Unlocked(states[k].disk.locks, News(states[k].disk.tree, full))
    ensures var refreshed := Finish(states[k].disk, full);
      && refreshed.proc.phase.Done?
      && Retained(TreeCanons(states[i].disk.tree)) == Retained(TreeCanons(refreshed.disk.tree))
      && Retained(TreeCanons(refreshed.disk.tree)).Some?
  {
    hide SteadyOn, Truth, FeedHistory, TreeCanons, NothingParked, DaysDone, WellFormed, Finish, OfferedAll,
      OldFilesKept, OnePhysicalRow, View, JobOk, Within, Consistent, Unlocked, Blocked;
    var base, truth := TreeCanons(states[k].disk.tree), Truth(c, feed, source, now);
    SmallerIsConsistent(base + truth, truth);
    InterleavedView(c, feed, source, clocks, now, windows, states, actions, k, i, all);
    OfferedCanons(c, feed, source, clocks, now, all, full);
    WithinIsPart(truth, all);
    SmallerIsConsistent(base + truth, base + Within(truth, all));
    UndisturbedRun(states[k].disk, full);
  }

  lemma NothingInAnEmptyLake()
    ensures TreeCanons(EMPTY.disk.tree) == {}
  {
  }
}
