/** The streaming bridge: micro-batches of one log partition, written before their offsets are
    committed, interrupted anywhere and restarted from the committed offset. */
module Stream {
  import opened Rows

  // ----- The log and the files -----

  /** An intraday partition, `date=.../hour=...`. */
  datatype Hour = Hour(day: int, hour: nat)

  datatype Event = Event(id: string, at: Hour, payload: string)

  /** What the decoder makes of every message, by offset; `None` is a malformed one. */
  type Log = seq<Option<Event>>

  /** A stored row keeps the offset it came from. */
  datatype Stored = Stored(offset: nat, event: Event)

  /** The files by hour and run id. */
  type Files = map<(Hour, string), seq<Stored>>

  /** The well-formed message at `o` is the first with its event id. */
  ghost predicate IsFirst(log: Log, o: nat) {
    && o < |log| && log[o].Some?
    && forall j :: 0 <= j < o && log[j].Some? ==> log[j].value.id != log[o].value.id
  }

  function Ids(rows: seq<Stored>): set<string> {
    set i | 0 <= i < |rows| :: rows[i].event.id
  }

  function Offsets(rows: seq<Stored>): set<nat> {
    set i | 0 <= i < |rows| :: rows[i].offset
  }

  function FileIds(files: Files): set<string> {
    set f, id | f in files && id in Ids(files[f]) :: id
  }

  function FileOffsets(files: Files): set<nat> {
    set f, o | f in files && o in Offsets(files[f]) :: o
  }

  /** The one-pass reference: the first well-formed message of every event id. */
  function FirstWins(log: Log): seq<Stored> {
    if log == [] then []
    else
      var n := |log| - 1;
      var front := FirstWins(log[..n]);
      match log[n]
      case None => front
      case Some(e) => if e.id in Ids(front) then front else front + [Stored(n, e)]
  }

  // ----- One micro-batch -----

  /** The malformed offsets of a batch. */
  function Malformed(log: Log, from: nat, upTo: nat): seq<nat>
    requires from <= upTo <= |log|
  {
    if from == upTo then []
    else Malformed(log, from, upTo - 1) + if log[upTo - 1].None? then [upTo - 1] else []
  }

  /** The events of a batch that are new: neither their id nor their coordinate is stored, and no
      earlier new event of the batch has their id. */
  function NewEvents(log: Log, from: nat, upTo: nat, ids: set<string>, coordinates: set<nat>): seq<Stored>
    requires from <= upTo <= |log|
  {
    if from == upTo then []
    else
      var front := NewEvents(log, from, upTo - 1, ids, coordinates);
      match log[upTo - 1]
      case None => front
      case Some(e) =>
        if e.id in ids + Ids(front) || upTo - 1 in coordinates + Offsets(front) then front
        else front + [Stored(upTo - 1, e)]
  }

  /** The hours of the new events, in the order they are first met. */
  function Hours(rows: seq<Stored>): seq<Hour> {
    if rows == [] then []
    else
      var front, h := Hours(rows[..|rows| - 1]), rows[|rows| - 1].event.at;
      if h in front then front else front + [h]
  }

  function InHour(rows: seq<Stored>, h: Hour): seq<Stored> {
    if rows == [] then []
    else InHour(rows[..|rows| - 1], h) +
         if rows[|rows| - 1].event.at == h then [rows[|rows| - 1]] else []
  }

  datatype Phase = Quarantining | Reading | Writing(next: nat) | Committing | Recording

  /** A consumer process that polled the messages from `from` up to `upTo`. */
  datatype Batch = Batch(run: string, from: nat, upTo: nat, phase: Phase, added: seq<Stored>, hours: seq<Hour>)

  datatype Result = Result(
    degraded: bool, polled: nat, accepted: nat, duplicates: int, quarantined: nat, files: nat, committed: nat)

  datatype State = State(
    log: Log, committed: nat, files: Files, quarantine: map<string, seq<nat>>,
    results: map<string, Result>, runs: set<string>, batch: Option<Batch>)

  function In(s: State, b: Batch, phase: Phase): State {
    s.(batch := Some(b.(phase := phase)))
  }

  function ResultOf(log: Log, b: Batch): Result
    requires b.from <= b.upTo <= |log|
  {
    var rejected := |Malformed(log, b.from, b.upTo)|;
    Result(rejected > 0, b.upTo - b.from, |b.added|, b.upTo - b.from - rejected - |b.added|, rejected,
           |b.hours|, b.upTo - b.from)
  }

  /** One durable action of a batch. The quarantine file is created exclusively; a data file replaces
      whatever has its name; the offsets are committed after every file is in place. */
  function StepBatch(s: State, b: Batch): State
    requires b.from <= b.upTo <= |s.log|
  {
    match b.phase
    case Quarantining =>
      var rejected := Malformed(s.log, b.from, b.upTo);
      if rejected == [] then In(s, b, Reading)
      else if b.run in s.quarantine then s.(batch := None)
      else In(s, b, Reading).(quarantine := s.quarantine[b.run := rejected])
    case Reading =>
      var added := NewEvents(s.log, b.from, b.upTo, FileIds(s.files), FileOffsets(s.files));
      In(s, b.(added := added, hours := Hours(added)), Writing(0))
    case Writing(i) =>
      if i < |b.hours| then
        In(s, b, Writing(i + 1)).(files := s.files[(b.hours[i], b.run) := InHour(b.added, b.hours[i])])
      else In(s, b, Committing)
    case Committing => In(s, b, Recording).(committed := b.upTo)
    case Recording => s.(results := s.results[b.run := ResultOf(s.log, b)], batch := None)
  }

  datatype Action =
    | Produce(message: Option<Event>)
    | Poll(run: string, count: nat)
    | Act
    | Crash

  /** One consumer at a time; every attempt has a fresh run id and starts at the committed offset. */
  ghost predicate Next(s: State, a: Action, t: State) {
    match a
    case Produce(m) => t == s.(log := s.log + [m])
    case Poll(run, n) =>
      && s.batch.None? && run !in s.runs && s.committed + n <= |s.log|
      && t == s.(runs := s.runs + {run},
                 batch := Some(Batch(run, s.committed, s.committed + n, Quarantining, [], [])))
    case Act =>
      s.batch.Some? && s.batch.value.from <= s.batch.value.upTo <= |s.log| && t == StepBatch(s, s.batch.value)
    case Crash => t == s.(batch := None)
  }

  const EMPTY := State([], 0, map[], map[], map[], {}, None)

  ghost predicate Behavior(states: seq<State>, actions: seq<Action>) {
    && |states| == |actions| + 1 && states[0] == EMPTY
    && forall i :: 0 <= i < |actions| ==> Next(states[i], actions[i], states[i + 1])
  }

  // ----- What every instant of every history satisfies -----

  /** A stored row is a well-formed message, the first with its id, in the file of its hour. */
  ghost predicate RowOk(log: Log, h: Hour, row: Stored) {
    IsFirst(log, row.offset) && log[row.offset] == Some(row.event) && row.event.at == h
  }

  ghost predicate FilesOk(log: Log, files: Files) {
    forall f, i :: f in files && 0 <= i < |files[f]| ==> RowOk(log, f.0, files[f][i])
  }

  ghost predicate CopyAt(files: Files, o: nat, f: (Hour, string), i: nat) {
    f in files && i < |files[f]| && files[f][i].offset == o
  }

  /** No message is stored twice. */
  ghost predicate StoredOnce(files: Files) {
    forall o, f, i, g, j :: CopyAt(files, o, f, i) && CopyAt(files, o, g, j) ==> f == g && i == j
  }

  ghost predicate IdsStored(log: Log, files: Files, from: nat, upTo: nat)
    requires upTo <= |log|
  {
    forall o :: from <= o < upTo && log[o].Some? ==> log[o].value.id in FileIds(files)
  }

  ghost predicate InQuarantine(quarantine: map<string, seq<nat>>, o: nat) {
    exists r :: r in quarantine && o in quarantine[r]
  }

  ghost predicate BadQuarantined(log: Log, quarantine: map<string, seq<nat>>, from: nat, upTo: nat)
    requires upTo <= |log|
  {
    forall o :: from <= o < upTo && log[o].None? ==> InQuarantine(quarantine, o)
  }

  /** Only malformed messages are quarantined. */
  ghost predicate QuarantineOk(log: Log, quarantine: map<string, seq<nat>>) {
    forall r, i :: r in quarantine && 0 <= i < |quarantine[r]| ==>
      quarantine[r][i] < |log| && log[quarantine[r][i]].None?
  }

  ghost predicate LakeOk(s: State) {
    && s.committed <= |s.log|
    && FilesOk(s.log, s.files) && StoredOnce(s.files) && QuarantineOk(s.log, s.quarantine)
    && IdsStored(s.log, s.files, 0, s.committed) && BadQuarantined(s.log, s.quarantine, 0, s.committed)
    && (forall f :: f in s.files ==> f.1 in s.runs) && (forall r :: r in s.quarantine ==> r in s.runs)
  }

  ghost predicate Increasing(rows: seq<Stored>) {
    forall i, j :: 0 <= i < j < |rows| ==> rows[i].offset < rows[j].offset
  }

  ghost predicate NoFile(files: Files, run: string) {
    forall f :: f in files ==> f.1 != run
  }

  /** The planned rows are the first messages with their ids, and stored exactly when their hour is
      among the first `i`. */
  ghost predicate PlanOk(log: Log, files: Files, b: Batch, i: nat) {
    && i <= |b.hours|
    && Increasing(b.added)
    && (forall k :: 0 <= k < |b.added| ==> RowOk(log, b.added[k].event.at, b.added[k]))
    && (forall k :: 0 <= k < |b.added| ==> b.added[k].event.at in b.hours)
    && (forall k :: 0 <= k < |b.added| && b.added[k].event.at !in b.hours[..i] ==> b.added[k].offset !in FileOffsets(files))
    && (forall k :: 0 <= k < |b.added| && b.added[k].event.at in b.hours[..i] ==> b.added[k].event.id in FileIds(files))
    && (forall j, k :: 0 <= j < k < |b.hours| ==> b.hours[j] != b.hours[k])
    && (forall f :: f in files && f.1 == b.run ==> f.0 in b.hours[..i])
  }

  ghost predicate IdsPlanned(log: Log, files: Files, b: Batch)
    requires b.upTo <= |log|
  {
    forall o :: b.from <= o < b.upTo && log[o].Some? ==> log[o].value.id in FileIds(files) || log[o].value.id in Ids(b.added)
  }

  ghost predicate BatchOk(s: State, b: Batch) {
    && b.from <= b.upTo <= |s.log| && b.run in s.runs
    && (!b.phase.Recording? ==> b.from == s.committed)
    && (!b.phase.Quarantining? ==> BadQuarantined(s.log, s.quarantine, b.from, b.upTo))
    && match b.phase
       case Quarantining => b.run !in s.quarantine && NoFile(s.files, b.run)
       case Reading => NoFile(s.files, b.run)
       case Writing(i) => PlanOk(s.log, s.files, b, i) && IdsPlanned(s.log, s.files, b)
       case Committing => IdsStored(s.log, s.files, b.from, b.upTo)
       case Recording => true
  }

  ghost predicate Inv(s: State) {
    LakeOk(s) && (s.batch.Some? ==> BatchOk(s, s.batch.value))
  }

  // ----- The pieces of a batch -----

  lemma {:induction false} MalformedAre(log: Log, from: nat, upTo: nat)
    requires from <= upTo <= |log|
    ensures forall o :: o in Malformed(log, from, upTo) <==> from <= o < upTo && log[o].None?
  {
    if from < upTo {
      MalformedAre(log, from, upTo - 1);
    }
  }

  lemma IdsAppend(rows: seq<Stored>, r: Stored)
    ensures Ids(rows + [r]) == Ids(rows) + {r.event.id}
    ensures Offsets(rows + [r]) == Offsets(rows) + {r.offset}
  {
    var all := rows + [r];
    assert all[|rows|] == r;
    assert forall i :: 0 <= i < |rows| ==> all[i] == rows[i];
  }

  /** Every well-formed message of the batch has its id stored or among the new events. */
  lemma {:induction false} NewEventsCover(log: Log, from: nat, upTo: nat, files: Files, o: nat)
    requires from <= upTo <= |log| && FilesOk(log, files) && from <= o < upTo && log[o].Some?
    ensures log[o].value.id in FileIds(files) + Ids(NewEvents(log, from, upTo, FileIds(files), FileOffsets(files)))
  {
    hide FileIds, FileOffsets, FilesOk;
    var ids, coordinates := FileIds(files), FileOffsets(files);
    var n := upTo - 1;
    var front := NewEvents(log, from, n, ids, coordinates);
    if log[n].Some? {
      IdsAppend(front, Stored(n, log[n].value));
    }
    if o < n {
      NewEventsCover(log, from, n, files, o);
    } else {
      NewEventsRange(log, from, n, ids, coordinates);
      if n in coordinates {
        StoredOffsetHasItsId(log, files, n);
      }
    }
  }

  /** A stored coordinate is that of its own message, so its event id is stored as well: the
      coordinate test never decides alone. */
  lemma StoredOffsetHasItsId(log: Log, files: Files, o: nat)
    requires FilesOk(log, files) && o in FileOffsets(files)
    ensures IsFirst(log, o) && log[o].value.id in FileIds(files)
  {
    var f :| f in files && o in Offsets(files[f]);
    var i :| 0 <= i < |files[f]| && files[f][i].offset == o;
    assert RowOk(log, f.0, files[f][i]);
    assert files[f][i].event.id in Ids(files[f]);
  }

  /** The last message of a batch is added, or nothing is. */
  ghost predicate Adds(log: Log, n: nat, front: seq<Stored>, added: seq<Stored>, ids: set<string>, coordinates: set<nat>)
    requires n < |log|
  {
    log[n].Some? && log[n].value.id !in ids + Ids(front) && n !in coordinates && added == front + [Stored(n, log[n].value)]
  }

  lemma LastOfBatch(log: Log, from: nat, upTo: nat, ids: set<string>, coordinates: set<nat>)
    requires from < upTo <= |log|
    ensures var front, added := NewEvents(log, from, upTo - 1, ids, coordinates), NewEvents(log, from, upTo, ids, coordinates);
      added == front || Adds(log, upTo - 1, front, added, ids, coordinates)
  {
  }

  ghost predicate InRange(log: Log, from: nat, upTo: nat, ids: set<string>, coordinates: set<nat>, row: Stored)
    requires upTo <= |log|
  {
    && from <= row.offset < upTo && log[row.offset] == Some(row.event)
    && row.event.id !in ids && row.offset !in coordinates
  }

  lemma {:induction false} NewEventsRange(log: Log, from: nat, upTo: nat, ids: set<string>, coordinates: set<nat>)
    requires from <= upTo <= |log|
    ensures var added := NewEvents(log, from, upTo, ids, coordinates);
      && Increasing(added)
      && forall k :: 0 <= k < |added| ==> InRange(log, from, upTo, ids, coordinates, added[k])
  {
    hide NewEvents;
    if from < upTo {
      NewEventsRange(log, from, upTo - 1, ids, coordinates);
      LastOfBatch(log, from, upTo, ids, coordinates);
    } else {
      EmptyBatch(log, from, ids, coordinates);
    }
  }

  lemma EmptyBatch(log: Log, from: nat, ids: set<string>, coordinates: set<nat>)
    requires from <= |log|
    ensures NewEvents(log, from, from, ids, coordinates) == []
  {
  }

  /** The new events are first messages: an earlier one with the same id would be stored, or lie in
      the batch and be met before. */
  lemma {:induction false} NewEventsAreFirst(log: Log, from: nat, upTo: nat, files: Files)
    requires from <= upTo <= |log| && FilesOk(log, files) && IdsStored(log, files, 0, from)
    ensures var added := NewEvents(log, from, upTo, FileIds(files), FileOffsets(files));
      forall k :: 0 <= k < |added| ==> RowOk(log, added[k].event.at, added[k])
  {
    hide FileIds, FileOffsets, FilesOk, NewEvents;
    var ids, coordinates := FileIds(files), FileOffsets(files);
    if from < upTo {
      var n := upTo - 1;
      NewEventsAreFirst(log, from, n, files);
      LastOfBatch(log, from, upTo, ids, coordinates);
      var front := NewEvents(log, from, n, ids, coordinates);
      if Adds(log, n, front, NewEvents(log, from, upTo, ids, coordinates), ids, coordinates) {
        forall j | 0 <= j < n && log[j].Some? ensures log[j].value.id != log[n].value.id {
          if j >= from {
            NewEventsCover(log, from, n, files, j);
          }
        }
        assert RowOk(log, log[n].value.at, Stored(n, log[n].value));
      }
    } else {
      EmptyBatch(log, from, ids, coordinates);
    }
  }

  lemma {:induction false} HoursAre(rows: seq<Stored>)
    ensures forall h :: h in Hours(rows) <==> exists k :: 0 <= k < |rows| && rows[k].event.at == h
    ensures forall j, k :: 0 <= j < k < |Hours(rows)| ==> Hours(rows)[j] != Hours(rows)[k]
  {
    if rows != [] {
      var n := |rows| - 1;
      var front := rows[..n];
      HoursAre(front);
      forall h ensures h in Hours(rows) <==> exists k :: 0 <= k < |rows| && rows[k].event.at == h {
        if k :| 0 <= k < |rows| && rows[k].event.at == h {
          assert k < n ==> front[k].event.at == h;
        }
        if h in Hours(front) {
          var k :| 0 <= k < |front| && front[k].event.at == h;
          assert rows[k].event.at == h;
        } else if h in Hours(rows) {
          assert rows[n].event.at == h;
        }
      }
    }
  }

  lemma {:induction false} InHourAre(rows: seq<Stored>, h: Hour)
    ensures forall r :: r in InHour(rows, h) <==> r in rows && r.event.at == h
    ensures Increasing(rows) ==> Increasing(InHour(rows, h))
  {
    if rows != [] {
      var n := |rows| - 1;
      InHourAre(rows[..n], h);
      assert forall r :: r in rows <==> r in rows[..n] || r == rows[n];
    }
  }

  // ----- Each step keeps the invariant -----

  lemma QuarantiningKeeps(s: State, b: Batch)
    requires LakeOk(s) && BatchOk(s, b) && b.phase.Quarantining?
    ensures Inv(StepBatch(s, b))
  {
    hide FilesOk, StoredOnce, IdsStored, Malformed;
    MalformedAre(s.log, b.from, b.upTo);
    var rejected := Malformed(s.log, b.from, b.upTo);
    var t := StepBatch(s, b);
    if rejected != [] {
      assert t.quarantine == s.quarantine[b.run := rejected];
    }
    forall o | InQuarantine(s.quarantine, o) ensures InQuarantine(t.quarantine, o) {
      var r :| r in s.quarantine && o in s.quarantine[r];
      assert r in t.quarantine && t.quarantine[r] == s.quarantine[r];
    }
    forall o | b.from <= o < b.upTo && s.log[o].None? ensures InQuarantine(t.quarantine, o) {
      assert o in t.quarantine[b.run];
    }
    forall r, i | r in t.quarantine && 0 <= i < |t.quarantine[r]|
      ensures t.quarantine[r][i] < |t.log| && t.log[t.quarantine[r][i]].None?
    {
      if r == b.run && rejected != [] {
        assert t.quarantine[r][i] in rejected;
      }
    }
  }

  lemma ReadingKeeps(s: State, b: Batch)
    requires LakeOk(s) && BatchOk(s, b) && b.phase.Reading?
    ensures Inv(StepBatch(s, b))
  {
    hide FilesOk, StoredOnce, FileIds, FileOffsets, NewEvents, Hours, RowOk, Increasing, QuarantineOk, BadQuarantined;
    var ids, coordinates := FileIds(s.files), FileOffsets(s.files);
    var added := NewEvents(s.log, b.from, b.upTo, ids, coordinates);
    NewEventsRange(s.log, b.from, b.upTo, ids, coordinates);
    NewEventsAreFirst(s.log, b.from, b.upTo, s.files);
    HoursAre(added);
    forall o | b.from <= o < b.upTo && s.log[o].Some? ensures s.log[o].value.id in ids || s.log[o].value.id in Ids(added) {
      NewEventsCover(s.log, b.from, b.upTo, s.files, o);
    }
  }

  lemma FilesGrow(files: Files, f: (Hour, string), rows: seq<Stored>)
    requires f !in files
    ensures FileIds(files[f := rows]) == FileIds(files) + Ids(rows)
    ensures FileOffsets(files[f := rows]) == FileOffsets(files) + Offsets(rows)
  {
    var big := files[f := rows];
    assert big[f] == rows;
    forall id | id in FileIds(files) ensures id in FileIds(big) {
      var g :| g in files && id in Ids(files[g]);
      assert g in big && big[g] == files[g];
    }
    forall o | o in FileOffsets(files) ensures o in FileOffsets(big) {
      var g :| g in files && o in Offsets(files[g]);
      assert g in big && big[g] == files[g];
    }
  }

  /** A new file of messages that are nowhere else keeps every message stored at most once. */
  lemma NewFileStoredOnce(files: Files, f: (Hour, string), rows: seq<Stored>)
    requires StoredOnce(files) && f !in files && Increasing(rows)
    requires forall i :: 0 <= i < |rows| ==> rows[i].offset !in FileOffsets(files)
    ensures StoredOnce(files[f := rows])
  {
    hide FileOffsets;
    var big := files[f := rows];
    forall o, g, i | CopyAt(big, o, g, i) && g != f ensures CopyAt(files, o, g, i) && o in FileOffsets(files) {
      CopyIsStored(files, o, g, i);
    }
    forall o, g, i, h, j | CopyAt(big, o, g, i) && CopyAt(big, o, h, j) ensures g == h && i == j {
    }
  }

  lemma CopyIsStored(files: Files, o: nat, f: (Hour, string), i: nat)
    requires CopyAt(files, o, f, i)
    ensures o in FileOffsets(files)
  {
    assert o in Offsets(files[f]);
  }

  lemma WritingKeepsLake(s: State, b: Batch, i: nat)
    requires LakeOk(s) && BatchOk(s, b) && b.phase == Writing(i) && i < |b.hours|
    ensures LakeOk(StepBatch(s, b))
  {
    hide RowOk, StoredOnce, FileIds, FileOffsets, QuarantineOk, BadQuarantined, InHour;
    var h := b.hours[i];
    var rows := InHour(b.added, h);
    InHourAre(b.added, h);
    assert h !in b.hours[..i];
    FilesGrow(s.files, (h, b.run), rows);
    forall k | 0 <= k < |rows| ensures rows[k].offset !in FileOffsets(s.files) && RowOk(s.log, h, rows[k]) {
      assert rows[k] in rows;
    }
    NewFileStoredOnce(s.files, (h, b.run), rows);
    assert FilesOk(s.log, s.files[(h, b.run) := rows]);
  }

  lemma WritingKeepsBatch(s: State, b: Batch, i: nat)
    requires LakeOk(s) && BatchOk(s, b) && b.phase == Writing(i) && i < |b.hours|
    ensures BatchOk(StepBatch(s, b), StepBatch(s, b).batch.value)
  {
    hide RowOk, StoredOnce, FileIds, FileOffsets, QuarantineOk, BadQuarantined, InHour, FilesOk, Increasing;
    var h := b.hours[i];
    var rows := InHour(b.added, h);
    InHourAre(b.added, h);
    assert h !in b.hours[..i];
    assert forall x :: x in b.hours[..i + 1] <==> x in b.hours[..i] || x == h;
    FilesGrow(s.files, (h, b.run), rows);
    forall k | 0 <= k < |b.added| && b.added[k].event.at != h ensures b.added[k].offset !in Offsets(rows) {
      OtherHour(b.added, h, k);
    }
    forall k | 0 <= k < |b.added| && b.added[k].event.at == h ensures b.added[k].event.id in Ids(rows) {
      assert b.added[k] in rows;
    }
  }

  lemma OtherHour(rows: seq<Stored>, h: Hour, k: nat)
    requires k < |rows| && Increasing(rows) && rows[k].event.at != h
    ensures rows[k].offset !in Offsets(InHour(rows, h))
  {
    InHourAre(rows, h);
    var part := InHour(rows, h);
    forall i | 0 <= i < |part| ensures part[i].offset != rows[k].offset {
      assert part[i] in part;
      var j :| 0 <= j < |rows| && rows[j] == part[i];
    }
  }

  /** Once every hour is written, every id of the batch is stored. */
  lemma WritingEnds(s: State, b: Batch, i: nat)
    requires LakeOk(s) && BatchOk(s, b) && b.phase == Writing(i) && i >= |b.hours|
    ensures Inv(StepBatch(s, b))
  {
    hide RowOk, StoredOnce, FileIds, FileOffsets, QuarantineOk, BadQuarantined, InHour, FilesOk, Increasing;
    assert b.hours[..i] == b.hours;
    forall o | b.from <= o < b.upTo && s.log[o].Some? ensures s.log[o].value.id in FileIds(s.files) {
      if s.log[o].value.id in Ids(b.added) {
        var k :| 0 <= k < |b.added| && b.added[k].event.id == s.log[o].value.id;
      }
    }
  }

  lemma ActKeeps(s: State, b: Batch)
    requires LakeOk(s) && s.batch == Some(b) && BatchOk(s, b)
    ensures Inv(StepBatch(s, b))
  {
    hide FilesOk, StoredOnce, FileIds, QuarantineOk, PlanOk, IdsPlanned;
    match b.phase {
      case Quarantining => QuarantiningKeeps(s, b);
      case Reading => ReadingKeeps(s, b);
      case Writing(i) =>
        if i < |b.hours| {
          WritingKeepsLake(s, b, i);
          WritingKeepsBatch(s, b, i);
        } else {
          WritingEnds(s, b, i);
        }
      case Committing => assert BatchOk(StepBatch(s, b), b.(phase := Recording));
      case Recording =>
    }
  }

  /** Producers append: what was first stays first. */
  lemma ProducingKeeps(s: State, m: Option<Event>)
    requires Inv(s)
    ensures Inv(s.(log := s.log + [m]))
  {
    hide StoredOnce, FileIds, FileOffsets, Increasing, IsFirst;
    var log := s.log + [m];
    assert forall o :: 0 <= o < |s.log| ==> log[o] == s.log[o];
    forall h, row | RowOk(s.log, h, row) ensures RowOk(log, h, row) {
      StillFirst(s.log, m, row.offset);
    }
    assert FilesOk(log, s.files);
    assert QuarantineOk(log, s.quarantine);
  }

  lemma StillFirst(log: Log, m: Option<Event>, o: nat)
    requires IsFirst(log, o)
    ensures IsFirst(log + [m], o) && o < |log|
  {
  }

  lemma NextKeepsInv(s: State, a: Action, t: State)
    requires Inv(s) && Next(s, a, t)
    ensures Inv(t)
  {
    hide FilesOk, StoredOnce, IdsStored, QuarantineOk, BadQuarantined, StepBatch;
    match a {
      case Produce(m) => ProducingKeeps(s, m);
      case Act => ActKeeps(s, s.batch.value);
      case Poll(run, n) => assert NoFile(s.files, run) && run !in s.quarantine;
      case Crash =>
    }
  }

  lemma {:induction false} InvHolds(states: seq<State>, actions: seq<Action>, i: nat)
    requires Behavior(states, actions) && i < |states|
    ensures Inv(states[i])
  {
    hide Next, Inv;
    if i == 0 {
      EmptyIsOk();
    } else {
      InvHolds(states, actions, i - 1);
      NextKeepsInv(states[i - 1], actions[i - 1], states[i]);
    }
  }

  lemma EmptyIsOk()
    ensures Inv(EMPTY)
  {
  }

  // ----- The guarantees -----

  /** Exactly one physical row stores the message at offset `o`. */
  ghost predicate StoredExactlyOnce(files: Files, o: nat) {
    exists f, i :: CopyAt(files, o, f, i) && forall g, j :: CopyAt(files, o, g, j) ==> g == f && j == i
  }

  /** In every history, with any batch sizes and crashes: what is stored are first well-formed
      messages, each once; below the committed offset every event id is stored by its first message,
      and every malformed message is in quarantine. */
  lemma StreamIsIdempotent(states: seq<State>, actions: seq<Action>, n: nat)
    requires Behavior(states, actions) && n < |states|
    ensures var s := states[n];
      && FilesOk(s.log, s.files) && StoredOnce(s.files) && QuarantineOk(s.log, s.quarantine)
      && s.committed <= |s.log|
      && (forall o :: 0 <= o < s.committed && IsFirst(s.log, o) ==> StoredExactlyOnce(s.files, o))
      && (forall o :: 0 <= o < s.committed && s.log[o].None? ==> InQuarantine(s.quarantine, o))
  {
    hide FilesOk, StoredOnce, QuarantineOk, Behavior, InQuarantine;
    InvHolds(states, actions, n);
    var s := states[n];
    forall o | 0 <= o < s.committed && IsFirst(s.log, o) ensures StoredExactlyOnce(s.files, o) {
      FirstIsStored(s, o);
    }
  }

  lemma FirstIsStored(s: State, o: nat)
    requires Inv(s) && o < s.committed && IsFirst(s.log, o)
    ensures StoredExactlyOnce(s.files, o)
  {
    hide QuarantineOk, BadQuarantined;
    var f :| f in s.files && s.log[o].value.id in Ids(s.files[f]);
    var i :| 0 <= i < |s.files[f]| && s.files[f][i].event.id == s.log[o].value.id;
    assert RowOk(s.log, f.0, s.files[f][i]);
    assert CopyAt(s.files, o, f, i);
  }

  lemma {:induction false} FirstWinsAre(log: Log)
    ensures forall row :: row in FirstWins(log) <==> IsFirst(log, row.offset) && log[row.offset] == Some(row.event)
    ensures forall o :: 0 <= o < |log| && log[o].Some? ==> log[o].value.id in Ids(FirstWins(log))
  {
    if log != [] {
      var n := |log| - 1;
      var front, rows := log[..n], FirstWins(log[..n]);
      FirstWinsAre(front);
      if log[n].Some? {
        IdsAppend(rows, Stored(n, log[n].value));
        LastIsFirst(log);
      }
      forall row ensures row in FirstWins(log) <==> IsFirst(log, row.offset) && log[row.offset] == Some(row.event) {
        if row.offset != n {
          FirstInPrefix(log, row);
        }
      }
      forall o | 0 <= o < |log| && log[o].Some? ensures log[o].value.id in Ids(FirstWins(log)) {
        if o < n {
          assert front[o] == log[o];
        }
      }
    }
  }

  /** A row of `log` short of its last message is one of the shorter log. */
  lemma FirstInPrefix(log: Log, row: Stored)
    requires log != [] && row.offset != |log| - 1
    ensures var front := log[..|log| - 1];
      IsFirst(log, row.offset) && log[row.offset] == Some(row.event) <==>
      IsFirst(front, row.offset) && front[row.offset] == Some(row.event)
  {
  }

  lemma LastIsFirst(log: Log)
    requires log != [] && log[|log| - 1].Some?
    requires forall row :: row in FirstWins(log[..|log| - 1]) <==>
               IsFirst(log[..|log| - 1], row.offset) && log[..|log| - 1][row.offset] == Some(row.event)
    requires forall o :: 0 <= o < |log| - 1 && log[o].Some? ==> log[o].value.id in Ids(FirstWins(log[..|log| - 1]))
    ensures IsFirst(log, |log| - 1) <==> log[|log| - 1].value.id !in Ids(FirstWins(log[..|log| - 1]))
  {
    var n := |log| - 1;
    var rows := FirstWins(log[..n]);
    if log[n].value.id in Ids(rows) {
      var k :| 0 <= k < |rows| && rows[k].event.id == log[n].value.id;
      assert rows[k] in rows;
      assert log[rows[k].offset].value.id == log[n].value.id;
    }
  }

  ghost predicate IsStored(files: Files, row: Stored) {
    exists f, i :: f in files && 0 <= i < |files[f]| && files[f][i] == row
  }

  /** A drained log is stored exactly as a one-pass first-wins fold would store it. */
  lemma DrainedLogIsFirstWins(states: seq<State>, actions: seq<Action>, n: nat)
    requires Behavior(states, actions) && n < |states| && states[n].committed == |states[n].log|
    ensures var s := states[n];
      && (forall row :: IsStored(s.files, row) <==> row in FirstWins(s.log))
      && (forall row :: row in FirstWins(s.log) ==> StoredExactlyOnce(s.files, row.offset))
      && (forall o: nat :: InQuarantine(s.quarantine, o) <==> o < |s.log| && s.log[o].None?)
  {
    hide StoredOnce, Behavior, FirstWins, StoredExactlyOnce;
    StreamIsIdempotent(states, actions, n);
    var s := states[n];
    FirstWinsAre(s.log);
    forall row ensures IsStored(s.files, row) <==> row in FirstWins(s.log) {
      if row in FirstWins(s.log) {
        StoredByItself(s, row);
      }
    }
  }

  lemma StoredByItself(s: State, row: Stored)
    requires FilesOk(s.log, s.files) && StoredExactlyOnce(s.files, row.offset)
    requires row.offset < |s.log| && s.log[row.offset] == Some(row.event)
    ensures IsStored(s.files, row)
  {
    var f, i: nat :| CopyAt(s.files, row.offset, f, i);
    assert RowOk(s.log, f.0, s.files[f][i]);
  }

  /** Why run ids must be fresh: a data file replaces whatever has its name, so a reused run id makes
      the messages of the earlier file disappear, although their offsets are committed. */
  lemma ReusedRunIdLosesMessages(s: State, b: Batch, i: nat, o: nat)
    requires b.from <= b.upTo <= |s.log| && b.phase == Writing(i) && i < |b.hours| && StoredOnce(s.files)
    requires (b.hours[i], b.run) in s.files && o in Offsets(s.files[(b.hours[i], b.run)])
    requires o !in Offsets(b.added)
    ensures o in FileOffsets(s.files) && o !in FileOffsets(StepBatch(s, b).files)
  {
    hide InHour;
    var f := (b.hours[i], b.run);
    var rows := InHour(b.added, b.hours[i]);
    InHourAre(b.added, b.hours[i]);
    forall k | 0 <= k < |rows| ensures rows[k].offset != o {
      assert rows[k] in b.added;
    }
    var k :| 0 <= k < |s.files[f]| && s.files[f][k].offset == o;
    assert CopyAt(s.files, o, f, k);
    forall g, j | g in s.files && g != f && 0 <= j < |s.files[g]| ensures s.files[g][j].offset != o {
      assert !CopyAt(s.files, o, g, j);
    }
  }

  // ----- A history that reuses a run id -----

  /** As `Next`, but a run id may be used again. */
  ghost predicate ReusingNext(s: State, a: Action, t: State) {
    match a
    case Poll(run, n) =>
      && s.batch.None? && s.committed + n <= |s.log|
      && t == s.(runs := s.runs + {run},
                 batch := Some(Batch(run, s.committed, s.committed + n, Quarantining, [], [])))
    case _ => Next(s, a, t)
  }

  ghost predicate ReusingBehavior(states: seq<State>, actions: seq<Action>) {
    && |states| == |actions| + 1 && states[0] == EMPTY
    && forall i :: 0 <= i < |actions| ==> ReusingNext(states[i], actions[i], states[i + 1])
  }

  ghost predicate Reached(s: State) {
    exists states, actions :: ReusingBehavior(states, actions) && states[|states| - 1] == s
  }

  lemma ReachedNext(s: State, a: Action, t: State)
    requires Reached(s) && ReusingNext(s, a, t)
    ensures Reached(t)
  {
    hide ReusingNext;
    var states, actions :| ReusingBehavior(states, actions) && states[|states| - 1] == s;
    var more, all := states + [t], actions + [a];
    forall i | 0 <= i < |all| ensures ReusingNext(more[i], all[i], more[i + 1]) {
      if i < |actions| {
        assert ReusingNext(states[i], actions[i], states[i + 1]);
      }
    }
    assert ReusingBehavior(more, all) && more[|more| - 1] == t;
  }

  lemma ActIsReached(s: State, b: Batch, t: State)
    requires Reached(s) && s.batch == Some(b) && b.from <= b.upTo <= |s.log| && t == StepBatch(s, b)
    ensures Reached(t)
  {
    hide Reached, StepBatch;
    ReachedNext(s, Act, t);
  }

  /** The plan for one new message. */
  lemma OneMessage(log: Log, ids: set<string>, coordinates: set<nat>)
    requires log != [] && log[|log| - 1].Some? && log[|log| - 1].value.id !in ids && |log| - 1 !in coordinates
    ensures var n, e := |log| - 1, log[|log| - 1].value;
      && Malformed(log, n, n + 1) == [] && NewEvents(log, n, n + 1, ids, coordinates) == [Stored(n, e)]
      && Hours([Stored(n, e)]) == [e.at] && InHour([Stored(n, e)], e.at) == [Stored(n, e)]
  {
    var n, e := |log| - 1, log[|log| - 1].value;
    assert Malformed(log, n, n) == [] && NewEvents(log, n, n, ids, coordinates) == [];
    assert [Stored(n, e)][..0] == [];
    assert Ids([]) == {} && Offsets([]) == {};
  }

  /** Everything so far is committed and no process is alive. */
  predicate Idle(s: State) {
    s.batch.None? && s.committed == |s.log|
  }

  /** One new message arrives and is consumed under `run`: it is all that the file of its hour and that
      run holds afterwards. */
  lemma Consumed(s: State, run: string, e: Event) returns (t: State)
    requires Reached(s) && Idle(s) && e.id !in FileIds(s.files) && |s.log| !in FileOffsets(s.files)
    ensures Reached(t) && Idle(t) && t.log == s.log + [Some(e)]
    ensures t.files == s.files[(e.at, run) := [Stored(|s.log|, e)]]
  {
    hide Reached, FileIds, FileOffsets, NewEvents, Malformed, Hours, InHour;
    var n, rows := |s.log|, [Stored(|s.log|, e)];
    var s1 := s.(log := s.log + [Some(e)]);
    ReachedNext(s, Produce(Some(e)), s1);
    var b := Batch(run, n, n + 1, Quarantining, [], []);
    var s2 := s1.(runs := s1.runs + {run}, batch := Some(b));
    ReachedNext(s1, Poll(run, 1), s2);
    OneMessage(s1.log, FileIds(s.files), FileOffsets(s.files));
    var s3 := In(s2, b, Reading);
    ActIsReached(s2, b, s3);
    var c := b.(added := rows, hours := [e.at], phase := Writing(0));
    var s4 := s3.(batch := Some(c));
    ActIsReached(s3, b.(phase := Reading), s4);
    var s5 := In(s4, c, Writing(1)).(files := s.files[(e.at, run) := rows]);
    ActIsReached(s4, c, s5);
    var s6 := In(s5, c, Committing);
    ActIsReached(s5, c.(phase := Writing(1)), s6);
    var s7 := In(s6, c, Recording).(committed := n + 1);
    ActIsReached(s6, c.(phase := Committing), s7);
    t := s7.(results := s7.results[run := ResultOf(s7.log, c.(phase := Recording))], batch := None);
    ActIsReached(s7, c.(phase := Recording), t);
  }

  /** Two messages of one hour consumed one after the other under one run id: the first is well-formed,
      the first with its id and committed, and stored nowhere. */
  lemma ReuseLosesCommittedMessages(run: string, first: Event, second: Event) returns (s: State)
    requires first.id != second.id && first.at == second.at
    ensures Reached(s) && Idle(s) && s.log == [Some(first), Some(second)]
    ensures IsFirst(s.log, 0) && 0 < s.committed && 0 !in FileOffsets(s.files) && first.id !in FileIds(s.files)
  {
    hide Reached;
    assert Reached(EMPTY) by { StartIsReached(); }
    assert FileIds(map[]) == {} && FileOffsets(map[]) == {};
    var t := Consumed(EMPTY, run, first);
    OneRowStored(t.files, (first.at, run), Stored(0, first));
    s := Consumed(t, run, second);
    OneRowStored(s.files, (first.at, run), Stored(1, second));
  }

  lemma StartIsReached()
    ensures Reached(EMPTY)
  {
    assert ReusingBehavior([EMPTY], []) && [EMPTY][|[EMPTY]| - 1] == EMPTY;
  }

  lemma OneRowStored(files: Files, f: (Hour, string), row: Stored)
    requires files == map[f := [row]]
    ensures FileIds(files) == {row.event.id} && FileOffsets(files) == {row.offset}
  {
    assert Ids([row]) == {row.event.id} by { assert [row][0] == row; }
    assert Offsets([row]) == {row.offset} by { assert [row][0] == row; }
    assert f in files && files[f] == [row];
  }
}
