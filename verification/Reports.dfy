/** What the bridge reports: the result record of every micro-batch against the files on disk. */
module Reports {
  import opened Rows
  import opened Stream

  // ----- Counting -----

  /** The rows of a run: one for every position in a file that carries its id. */
  ghost function RowsOfRun(files: Files, run: string): set<((Hour, string), nat)> {
    set f, i: nat | f in files && f.1 == run && i < |files[f]| :: (f, i)
  }

  ghost function FilesOfRun(files: Files, run: string): set<(Hour, string)> {
    set f | f in files && f.1 == run
  }

  ghost predicate Pairs<A(!new), B(!new)>(s: set<A>, t: set<B>, f: A -> B) {
    && (forall a :: a in s ==> f(a) in t)
    && (forall a, b :: a in s && b in s && f(a) == f(b) ==> a == b)
    && (forall b :: b in t ==> exists a :: a in s && f(a) == b)
  }

  lemma {:induction false} SameSize<A(!new), B(!new)>(s: set<A>, t: set<B>, f: A -> B)
    requires Pairs(s, t, f)
    ensures |s| == |t|
    decreases s
  {
    if s == {} {
      assert t == {};
    } else {
      var a :| a in s;
      SameSize(s - {a}, t - {f(a)}, f);
    }
  }

  lemma {:induction false} OffsetCount(rows: seq<Stored>)
    requires Increasing(rows)
    ensures |Offsets(rows)| == |rows|
  {
    if rows != [] {
      var n := |rows| - 1;
      OffsetCount(rows[..n]);
      IdsAppend(rows[..n], rows[n]);
      assert rows[..n] + [rows[n]] == rows;
      assert rows[n].offset !in Offsets(rows[..n]);
    }
  }

  // ----- What a batch has done so far -----

  /** The quarantine file of the batch holds its malformed messages; there is none without them. */
  ghost predicate QuarantineIs(s: State, b: Batch)
    requires b.from <= b.upTo <= |s.log|
  {
    var bad := Malformed(s.log, b.from, b.upTo);
    if bad == [] then b.run !in s.quarantine else b.run in s.quarantine && s.quarantine[b.run] == bad
  }

  /** The plan of the batch adds up, and the files of its first `i` hours are the ones it has. */
  ghost predicate FilesAre(s: State, b: Batch, i: nat)
    requires b.from <= b.upTo <= |s.log|
  {
    && i <= |b.hours| && b.hours == Hours(b.added) && Increasing(b.added)
    && |b.added| + |Malformed(s.log, b.from, b.upTo)| <= b.upTo - b.from
    && FilesOfRun(s.files, b.run) == (set j | 0 <= j < i :: (b.hours[j], b.run))
    && forall j :: 0 <= j < i ==> (b.hours[j], b.run) in s.files && s.files[(b.hours[j], b.run)] == InHour(b.added, b.hours[j])
  }

  ghost predicate BatchBooks(s: State, b: Batch) {
    && b.from <= b.upTo <= |s.log| && b.run in s.runs && b.run !in s.results
    && (!b.phase.Quarantining? ==> QuarantineIs(s, b))
    && match b.phase
       case Writing(i) => FilesAre(s, b, i)
       case Committing => FilesAre(s, b, |b.hours|)
       case Recording => FilesAre(s, b, |b.hours|)
       case _ => true
  }

  /** A result record says what its run left on disk, and accounts for every message it polled. */
  ghost predicate ResultIsTrue(s: State, run: string)
    requires run in s.results
  {
    var r := s.results[run];
    && r.accepted == |RowsOfRun(s.files, run)|
    && r.files == |FilesOfRun(s.files, run)|
    && r.quarantined == (if run in s.quarantine then |s.quarantine[run]| else 0)
    && (r.degraded <==> run in s.quarantine)
    && r.polled == r.committed == r.accepted + r.duplicates + r.quarantined
    && r.duplicates >= 0
  }

  ghost predicate Books(s: State) {
    && (forall run :: run in s.results ==> run in s.runs && ResultIsTrue(s, run))
    && (s.batch.Some? ==> BatchBooks(s, s.batch.value))
  }

  // ----- Each action keeps the books -----

  lemma {:induction false} PlanAddsUp(log: Log, from: nat, upTo: nat, ids: set<string>, coordinates: set<nat>)
    requires from <= upTo <= |log|
    ensures |NewEvents(log, from, upTo, ids, coordinates)| + |Malformed(log, from, upTo)| <= upTo - from
  {
    hide NewEvents;
    if from == upTo {
      EmptyBatch(log, from, ids, coordinates);
    } else {
      PlanAddsUp(log, from, upTo - 1, ids, coordinates);
      LastOfBatch(log, from, upTo, ids, coordinates);
    }
  }

  /** When every hour is written the run has one row for every event it added. */
  lemma AllRowsWritten(s: State, b: Batch)
    requires Inv(s) && b.from <= b.upTo <= |s.log| && FilesAre(s, b, |b.hours|)
    ensures |RowsOfRun(s.files, b.run)| == |b.added| && |FilesOfRun(s.files, b.run)| == |b.hours|
  {
    hide FilesOk, QuarantineOk, BadQuarantined, IdsStored, BatchOk, InHour, Hours, Malformed, Increasing;
    HoursAre(b.added);
    HourNames(s, b);
    RowsPair(s, b);
    var offset := (p: ((Hour, string), nat)) => if p.0 in s.files && p.1 < |s.files[p.0]| then s.files[p.0][p.1].offset else 0;
    SameSize(RowsOfRun(s.files, b.run), Offsets(b.added), offset);
    OffsetCount(b.added);
  }

  lemma {:induction false} DistinctCount(hours: seq<Hour>)
    requires forall j, k :: 0 <= j < k < |hours| ==> hours[j] != hours[k]
    ensures |set h | h in hours| == |hours|
  {
    if hours != [] {
      var n := |hours| - 1;
      DistinctCount(hours[..n]);
      assert (set h | h in hours) == (set h | h in hours[..n]) + {hours[n]};
    }
  }

  lemma HourNames(s: State, b: Batch)
    requires b.from <= b.upTo <= |s.log| && FilesAre(s, b, |b.hours|)
    ensures |FilesOfRun(s.files, b.run)| == |b.hours|
  {
    hide Hours, InHour, Malformed, Increasing;
    HoursAre(b.added);
    DistinctCount(b.hours);
    var hours, files := (set h | h in b.hours), FilesOfRun(s.files, b.run);
    var hour := (f: (Hour, string)) => f.0;
    forall h | h in hours ensures exists f :: f in files && hour(f) == h {
      var j :| 0 <= j < |b.hours| && b.hours[j] == h;
      assert (b.hours[j], b.run) in files;
    }
    SameSize(files, hours, hour);
  }

  lemma RowsPair(s: State, b: Batch)
    requires StoredOnce(s.files) && b.from <= b.upTo <= |s.log| && FilesAre(s, b, |b.hours|)
    ensures var offset := (p: ((Hour, string), nat)) => if p.0 in s.files && p.1 < |s.files[p.0]| then s.files[p.0][p.1].offset else 0;
      Pairs(RowsOfRun(s.files, b.run), Offsets(b.added), offset)
  {
    hide Hours, InHour, Malformed, Increasing;
    HoursAre(b.added);
    var offset := (p: ((Hour, string), nat)) => if p.0 in s.files && p.1 < |s.files[p.0]| then s.files[p.0][p.1].offset else 0;
    var rows := RowsOfRun(s.files, b.run);
    forall p | p in rows ensures offset(p) in Offsets(b.added) {
      assert p.0 in FilesOfRun(s.files, b.run);
      var j :| 0 <= j < |b.hours| && p.0 == (b.hours[j], b.run);
      InHourAre(b.added, b.hours[j]);
      assert s.files[p.0][p.1] in b.added;
    }
    forall p, q | p in rows && q in rows && offset(p) == offset(q) ensures p == q {
      assert CopyAt(s.files, offset(p), p.0, p.1) && CopyAt(s.files, offset(q), q.0, q.1);
    }
    forall o | o in Offsets(b.added) ensures exists p :: p in rows && offset(p) == o {
      var k :| 0 <= k < |b.added| && b.added[k].offset == o;
      var h := b.added[k].event.at;
      assert h in b.hours;
      var j :| 0 <= j < |b.hours| && b.hours[j] == h;
      InHourAre(b.added, h);
      var f := (h, b.run);
      assert f in FilesOfRun(s.files, b.run);
      assert b.added[k] in s.files[f];
      var i: nat :| i < |s.files[f]| && s.files[f][i] == b.added[k];
      assert (f, i) in rows;
    }
  }

  lemma ReadingBooks(s: State, b: Batch)
    requires LakeOk(s) && BatchOk(s, b) && b.phase.Reading? && BatchBooks(s, b)
    ensures BatchBooks(StepBatch(s, b), StepBatch(s, b).batch.value)
  {
    hide FilesOk, StoredOnce, FileIds, FileOffsets, NewEvents, Hours, Malformed, QuarantineOk, BadQuarantined, InHour;
    PlanAddsUp(s.log, b.from, b.upTo, FileIds(s.files), FileOffsets(s.files));
    NewEventsRange(s.log, b.from, b.upTo, FileIds(s.files), FileOffsets(s.files));
    assert FilesOfRun(s.files, b.run) == {};
  }

  lemma WritingBooks(s: State, b: Batch, i: nat)
    requires LakeOk(s) && BatchOk(s, b) && b.phase == Writing(i) && BatchBooks(s, b)
    ensures BatchBooks(StepBatch(s, b), StepBatch(s, b).batch.value)
  {
    hide FilesOk, StoredOnce, FileIds, FileOffsets, Hours, Malformed, QuarantineOk, BadQuarantined, InHour, Increasing, IdsPlanned;
    var t := StepBatch(s, b);
    if i < |b.hours| {
      HoursAre(b.added);
      var f := (b.hours[i], b.run);
      assert t.files == s.files[f := InHour(b.added, b.hours[i])];
      assert FilesOfRun(t.files, b.run) == FilesOfRun(s.files, b.run) + {f};
      assert (set j | 0 <= j < i + 1 :: (b.hours[j], b.run)) == (set j | 0 <= j < i :: (b.hours[j], b.run)) + {f};
    }
  }

  /** A batch writes files of its own run only, so the records of other runs stay true. */
  lemma OtherResultsStay(s: State, t: State, run: string, other: string)
    requires run in s.results && ResultIsTrue(s, run) && run != other
    requires run in t.results && t.results[run] == s.results[run]
    requires forall f: (Hour, string) :: f.1 == run ==> (f in s.files <==> f in t.files)
    requires forall f: (Hour, string) :: f in s.files && f.1 == run ==> t.files[f] == s.files[f]
    requires (run in s.quarantine <==> run in t.quarantine)
    requires run in s.quarantine ==> t.quarantine[run] == s.quarantine[run]
    ensures ResultIsTrue(t, run)
  {
    assert RowsOfRun(t.files, run) == RowsOfRun(s.files, run);
    assert FilesOfRun(t.files, run) == FilesOfRun(s.files, run);
  }

  /** The record of a finished batch is true of it. */
  lemma RecordIsTrue(s: State, b: Batch)
    requires Inv(s) && s.batch == Some(b) && b.phase.Recording? && BatchBooks(s, b)
    ensures ResultIsTrue(StepBatch(s, b), b.run)
  {
    hide FilesOk, StoredOnce, FileIds, FileOffsets, Hours, Malformed, QuarantineOk, BadQuarantined, InHour, Increasing, IdsStored, FilesAre;
    AllRowsWritten(s, b);
    AddsUp(s, b);
  }

  lemma AddsUp(s: State, b: Batch)
    requires b.from <= b.upTo <= |s.log| && FilesAre(s, b, |b.hours|)
    ensures |b.added| + |Malformed(s.log, b.from, b.upTo)| <= b.upTo - b.from
  {
    hide Hours, Malformed, InHour, Increasing;
  }

  lemma ActKeepsBatch(s: State, b: Batch)
    requires Inv(s) && s.batch == Some(b) && BatchBooks(s, b)
    ensures StepBatch(s, b).batch.Some? ==> BatchBooks(StepBatch(s, b), StepBatch(s, b).batch.value)
  {
    hide FilesOk, StoredOnce, FileIds, FileOffsets, Hours, Malformed, QuarantineOk, BadQuarantined, InHour, IdsStored, PlanOk,
      IdsPlanned, NewEvents, FilesAre, ResultOf;
    match b.phase {
      case Quarantining =>
      case Reading => ReadingBooks(s, b);
      case Writing(i) => WritingBooks(s, b, i);
      case Committing => SameFilesAre(s, StepBatch(s, b), b, b.(phase := Recording), |b.hours|);
      case Recording =>
    }
  }

  lemma SameFilesAre(s: State, t: State, b: Batch, c: Batch, i: nat)
    requires b.from <= b.upTo <= |s.log| && t.log == s.log && t.files == s.files && c == b.(phase := c.phase)
    ensures FilesAre(s, b, i) <==> FilesAre(t, c, i)
  {
    hide Hours, Malformed, InHour, Increasing;
  }

  lemma ActKeepsResults(s: State, b: Batch)
    requires Inv(s) && s.batch == Some(b) && Books(s)
    ensures forall run :: run in StepBatch(s, b).results ==> run in s.runs && ResultIsTrue(StepBatch(s, b), run)
  {
    hide FilesOk, StoredOnce, FileIds, FileOffsets, Hours, Malformed, QuarantineOk, BadQuarantined, InHour, IdsStored, PlanOk,
      IdsPlanned, NewEvents, FilesAre, ResultIsTrue, LakeOk, ResultOf, QuarantineIs;
    var t := StepBatch(s, b);
    forall run | run in t.results ensures run in s.runs && ResultIsTrue(t, run) {
      if run == b.run {
        RecordIsTrue(s, b);
      } else {
        OtherResultsStay(s, t, run, b.run);
      }
    }
  }

  lemma {:induction false} LongerLog(log: Log, m: Option<Event>, from: nat, upTo: nat)
    requires from <= upTo <= |log|
    ensures Malformed(log + [m], from, upTo) == Malformed(log, from, upTo)
  {
    if from < upTo {
      LongerLog(log, m, from, upTo - 1);
    }
  }

  lemma ProducingKeepsBooks(s: State, m: Option<Event>)
    requires Books(s)
    ensures Books(s.(log := s.log + [m]))
  {
    hide Malformed, Hours, InHour, Increasing, RowsOfRun, FilesOfRun;
    var t := s.(log := s.log + [m]);
    if s.batch.Some? {
      LongerLog(s.log, m, s.batch.value.from, s.batch.value.upTo);
    }
    forall run | run in t.results ensures run in t.runs && ResultIsTrue(t, run) {
      assert ResultIsTrue(s, run);
    }
  }

  lemma NextKeepsBooks(s: State, a: Action, t: State)
    requires Inv(s) && Books(s) && Next(s, a, t)
    ensures Books(t)
  {
    hide Inv, StepBatch, ResultIsTrue, FilesAre, QuarantineIs;
    match a {
      case Produce(m) => ProducingKeepsBooks(s, m);
      case Act =>
        ActKeepsBatch(s, s.batch.value);
        ActKeepsResults(s, s.batch.value);
        ActKeepsRuns(s, s.batch.value);
      case Poll(run, n) => SameRecords(s, t);
      case Crash => SameRecords(s, t);
    }
  }

  lemma ActKeepsRuns(s: State, b: Batch)
    requires b.from <= b.upTo <= |s.log|
    ensures StepBatch(s, b).runs == s.runs
  {
    hide Malformed, NewEvents, Hours, InHour, FileIds, FileOffsets;
  }

  lemma SameRecords(s: State, t: State)
    requires t.files == s.files && t.quarantine == s.quarantine && t.results == s.results
    ensures forall run :: run in s.results && ResultIsTrue(s, run) ==> ResultIsTrue(t, run)
  {
    hide RowsOfRun, FilesOfRun;
  }

  /** In every history, whatever crashed and was polled again, each result record is true of the disk: the
      events it counts as accepted are the rows of its files, the ones it counts as quarantined are those of
      its quarantine file, and the rest of what it polled were duplicates. */
  lemma {:induction false} EveryResultIsTrue(states: seq<State>, actions: seq<Action>, n: nat)
    requires Behavior(states, actions) && n < |states|
    ensures Books(states[n])
  {
    hide Next, Inv, Books;
    if n == 0 {
      NoBooksYet();
    } else {
      EveryResultIsTrue(states, actions, n - 1);
      InvHolds(states, actions, n - 1);
      NextKeepsBooks(states[n - 1], actions[n - 1], states[n]);
    }
  }

  lemma NoBooksYet()
    ensures Books(EMPTY)
  {
  }
}
