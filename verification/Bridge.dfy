/** The streaming bridge as it runs: polling, decoding, deduplicating, grouping, writing, committing. */
module Bridge {
  import opened Rows
  import opened Stream

  /** A polled message with its offset. */
  datatype Message = Message(offset: nat, event: Option<Event>)

  function Messages(log: Log, from: nat, upTo: nat): (r: seq<Message>)
    requires from <= upTo <= |log|
    ensures |r| == upTo - from
    ensures forall i :: 0 <= i < |r| ==> r[i] == Message(from + i, log[from + i])
  {
    seq(upTo - from, i requires 0 <= i < upTo - from => Message(from + i, log[from + i]))
  }

  /** The decoding loop: accepted events and the offsets to quarantine. */
  method DecodeMessages(log: Log, from: nat, upTo: nat) returns (accepted: seq<Stored>, rejected: seq<nat>)
    requires from <= upTo <= |log|
    ensures rejected == Malformed(log, from, upTo)
    ensures forall row :: row in accepted <==> from <= row.offset < upTo && log[row.offset] == Some(row.event)
    ensures Increasing(accepted) && |accepted| + |rejected| == upTo - from
  {
    var messages := Messages(log, from, upTo);
    accepted, rejected := [], [];
    for n := 0 to |messages|
      invariant rejected == Malformed(log, from, from + n)
      invariant forall row :: row in accepted <==> from <= row.offset < from + n && log[row.offset] == Some(row.event)
      invariant Increasing(accepted) && |accepted| + |rejected| == n
    {
      match messages[n].event {
        case Some(e) =>
          forall i | 0 <= i < |accepted| ensures accepted[i].offset < from + n {
            assert accepted[i] in accepted;
          }
          accepted := accepted + [Stored(messages[n].offset, e)];
        case None => rejected := rejected + [messages[n].offset];
      }
    }
  }

  /** The deduplication loop: an event is new when neither its id nor its coordinate was seen. */
  method NewRows(log: Log, from: nat, upTo: nat, ids: set<string>, coordinates: set<nat>)
    returns (added: seq<Stored>, duplicates: nat)
    requires from <= upTo <= |log|
    ensures added == NewEvents(log, from, upTo, ids, coordinates)
    ensures |added| + duplicates + |Malformed(log, from, upTo)| == upTo - from
  {
    hide Ids, Offsets;
    var seenIds, seenCoordinates := ids, coordinates;
    added, duplicates := [], 0;
    EmptyIds();
    for n := from to upTo
      invariant added == NewEvents(log, from, n, ids, coordinates)
      invariant seenIds == ids + Ids(added) && seenCoordinates == coordinates + Offsets(added)
      invariant |added| + duplicates + |Malformed(log, from, n)| == n - from
    {
      match log[n] {
        case Some(e) =>
          if e.id in seenIds || n in seenCoordinates {
            duplicates := duplicates + 1;
          } else {
            IdsAppend(added, Stored(n, e));
            added := added + [Stored(n, e)];
            seenIds := seenIds + {e.id};
            seenCoordinates := seenCoordinates + {n};
          }
        case None =>
      }
    }
  }

  lemma EmptyIds()
    ensures Ids([]) == {} && Offsets([]) == {}
  {
  }

  /** Grouping by hour, hours in the order they are first met. */
  method GroupByHour(added: seq<Stored>) returns (groups: map<Hour, seq<Stored>>, order: seq<Hour>)
    ensures order == Hours(added)
    ensures forall h :: h in groups <==> h in order
    ensures forall h :: h in groups ==> groups[h] == InHour(added, h)
  {
    groups, order := map[], [];
    for n := 0 to |added|
      invariant order == Hours(added[..n])
      invariant forall h :: h in groups <==> h in order
      invariant forall h :: h in groups ==> groups[h] == InHour(added[..n], h)
      invariant forall h :: h !in groups ==> InHour(added[..n], h) == []
    {
      assert added[..n + 1][..n] == added[..n];
      var h := added[n].event.at;
      if h in groups {
        groups := groups[h := groups[h] + [added[n]]];
      } else {
        order := order + [h];
        groups := groups[h := [added[n]]];
      }
    }
    assert added[..|added|] == added;
  }

  /** A consumer process left alone for `k` durable actions. */
  function Acts(s: State, k: nat): State {
    if k == 0 then s
    else
      var u := Acts(s, k - 1);
      if u.batch.Some? && u.batch.value.from <= u.batch.value.upTo <= |u.log| then StepBatch(u, u.batch.value) else u
  }

  function Least(a: nat, b: nat): nat {
    if a < b then a else b
  }

  /** The state right after polling. */
  function Polled(s: State, run: string, n: nat): State {
    s.(runs := s.runs + {run}, batch := Some(Batch(run, s.committed, s.committed + n, Quarantining, [], [])))
  }

  class Consumer {
    var log: Log
    var committed: nat
    var files: Files
    var quarantine: map<string, seq<nat>>
    var results: map<string, Result>
    var runs: set<string>

    constructor ()
      ensures View() == EMPTY
    {
      log, committed, files, quarantine, results, runs := [], 0, map[], map[], map[], {};
    }

    ghost function View(): State
      reads this
    {
      State(log, committed, files, quarantine, results, runs, None)
    }

    /** `poll` until enough messages arrived, the log has no more, or the deadline passes after
        `ready` of them. */
    method PollMessages(maxRecords: nat, ready: nat) returns (upTo: nat)
      requires committed <= |log|
      ensures upTo == committed + Least(Least(maxRecords, ready), |log| - committed)
    {
      upTo := committed;
      while upTo - committed < maxRecords && upTo - committed < ready && upTo < |log|
        invariant committed <= upTo <= committed + Least(Least(maxRecords, ready), |log| - committed)
      {
        upTo := upTo + 1;
      }
    }

    /** The malformed messages go to a quarantine file of their own, created exclusively. */
    method QuarantineRejects(run: string, rejected: seq<nat>) returns (ok: bool)
      modifies this`quarantine
      ensures ok <==> rejected == [] || run !in old(quarantine)
      ensures quarantine == if ok && rejected != [] then old(quarantine)[run := rejected] else old(quarantine)
    {
      ok := rejected == [] || run !in quarantine;
      if ok && rejected != [] {
        quarantine := quarantine[run := rejected];
      }
    }

    /** One file an hour, while the budget of durable actions lasts. */
    method WriteFiles(run: string, added: seq<Stored>, budget: nat) returns (order: seq<Hour>, written: nat)
      modifies this`files
      ensures order == Hours(added) && written == Least(|order|, budget)
      ensures files == Written(old(files), run, added, order[..written])
    {
      hide InHour;
      var groups: map<Hour, seq<Stored>>;
      groups, order := GroupByHour(added);
      written := 0;
      while written < |order| && written < budget
        invariant written <= |order| && written <= budget
        invariant files == Written(old(files), run, added, order[..written])
      {
        assert order[..written + 1][..written] == order[..written];
        files := files[(order[written], run) := groups[order[written]]];
        written := written + 1;
      }
    }

    /** Offsets are acknowledged after every file is durable, then the batch is recorded. */
    method Acknowledge(run: string, upTo: nat, result: Result, budget: nat) returns (completed: bool)
      modifies this`committed, this`results
      ensures committed == if budget >= 2 then upTo else old(committed)
      ensures results == if budget >= 3 then old(results)[run := result] else old(results)
      ensures completed <==> budget >= 3
    {
      completed := false;
      if budget < 2 {
        return;
      }
      committed := upTo;
      if budget < 3 {
        return;
      }
      results := results[run := result];
      completed := true;
    }

    /** The part of a micro-batch that follows the quarantine file. */
    method StoreAndCommit(run: string, n: nat, rejected: nat, budget: nat) returns (completed: bool)
      requires committed + n <= |log| && rejected == |Malformed(log, committed, committed + n)|
      modifies this`committed, this`files, this`results
      ensures var before, hours := old(View()), Hours(Added(old(View()), n));
        && files == Written(before.files, run, Added(before, n), hours[..Least(|hours|, budget)])
        && committed == (if budget >= |hours| + 2 then before.committed + n else before.committed)
        && results == (if budget >= |hours| + 3
             then before.results[run := ResultOf(before.log, BatchIn(before, run, n, Recording))] else before.results)
        && (completed <==> budget >= |hours| + 3)
    {
      hide StepBatch, Malformed, NewEvents, Hours, Written, FileIds, FileOffsets;
      var from, upTo := committed, committed + n;
      var added, duplicates := NewRows(log, from, upTo, FileIds(files), FileOffsets(files));
      var order, written := WriteFiles(run, added, budget);
      completed := Acknowledge(run, upTo,
        Result(rejected > 0, n, |added|, duplicates, rejected, written, n), budget - written);
    }

    /** One micro-batch; the process dies once `budget` durable actions are done. */
    method ConsumeMicrobatch(run: string, maxRecords: nat, ready: nat, budget: nat) returns (completed: bool)
      requires committed <= |log| && maxRecords >= 1
      modifies this`committed, this`files, this`quarantine, this`results, this`runs
      ensures var n := BatchSize(old(View()), maxRecords, ready);
        && View() == Acts(Polled(old(View()), run, n), budget).(batch := None)
        && (completed ==> committed == old(committed) + n && run in results)
        && (budget >= n + 5 && run !in old(quarantine) ==> completed)
    {
      hide Acts, StepBatch, Malformed, Added, Hours, Written, ResultOf;
      ghost var before, n := View(), BatchSize(View(), maxRecords, ready);
      ReachedIs(before, run, n, budget);
      completed := false;
      runs := runs + {run};
      if budget == 0 {
        return;
      }
      var upTo := PollMessages(maxRecords, ready);
      var accepted, rejected := DecodeMessages(log, committed, upTo);
      var ok := QuarantineRejects(run, rejected);
      if !ok || budget <= 2 {
        NothingWritten(before, run, n);
        return;
      }
      HoursBound(Added(before, n));
      NewEventsBound(before, n);
      SameAdded(before, View(), n);
      completed := StoreAndCommit(run, upTo - committed, |rejected|, budget - 2);
    }
  }

  /** What a batch adds depends on the log, the committed offset and the files alone. */
  lemma SameAdded(s: State, t: State, n: nat)
    requires s.committed + n <= |s.log| && t.log == s.log && t.committed == s.committed && t.files == s.files
    ensures Added(t, n) == Added(s, n)
  {
  }

  function BatchSize(s: State, maxRecords: nat, ready: nat): nat
    requires s.committed <= |s.log|
  {
    Least(Least(maxRecords, ready), |s.log| - s.committed)
  }

  /** A poll takes what the log has past the committed offset, up to the batch limit and to what arrives in
      time, and nothing less. */
  lemma PollsAllItCan(s: State, maxRecords: nat, ready: nat)
    requires s.committed <= |s.log|
    ensures var n := BatchSize(s, maxRecords, ready);
      && n <= maxRecords && n <= ready && s.committed + n <= |s.log|
      && (n == maxRecords || n == ready || s.committed + n == |s.log|)
  {
  }

  /** The files after the hours of `order` are written. */
  function Written(files: Files, run: string, added: seq<Stored>, order: seq<Hour>): Files {
    if order == [] then files
    else
      var n := |order| - 1;
      Written(files, run, added, order[..n])[(order[n], run) := InHour(added, order[n])]
  }

  lemma {:induction false} HoursBound(added: seq<Stored>)
    ensures |Hours(added)| <= |added|
  {
    if added != [] {
      HoursBound(added[..|added| - 1]);
    }
  }

  // ----- The first actions of a batch, one by one -----

  /** A batch can be quarantined under its run id. */
  predicate Admits(s: State, run: string, n: nat)
    requires s.committed + n <= |s.log|
  {
    Malformed(s.log, s.committed, s.committed + n) == [] || run !in s.quarantine
  }

  function Rejecting(s: State, run: string, n: nat): State
    requires s.committed + n <= |s.log|
  {
    var rejected := Malformed(s.log, s.committed, s.committed + n);
    s.(runs := s.runs + {run}, quarantine := if rejected == [] then s.quarantine else s.quarantine[run := rejected])
  }

  function Added(s: State, n: nat): seq<Stored>
    requires s.committed + n <= |s.log|
  {
    NewEvents(s.log, s.committed, s.committed + n, FileIds(s.files), FileOffsets(s.files))
  }

  lemma OneMoreAct(s: State, k: nat, b: Batch)
    requires Acts(s, k).batch == Some(b) && b.from <= b.upTo <= |Acts(s, k).log|
    ensures Acts(s, k + 1) == StepBatch(Acts(s, k), b)
  {
  }

  lemma NothingDone(s: State, run: string, n: nat)
    ensures Acts(Polled(s, run, n), 0) == Polled(s, run, n)
  {
  }

  lemma FirstAct(s: State, run: string, n: nat)
    requires s.committed + n <= |s.log|
    ensures var t := Acts(Polled(s, run, n), 1);
      && (Admits(s, run, n) ==> t == Rejecting(s, run, n).(
            batch := Some(Batch(run, s.committed, s.committed + n, Reading, [], []))))
      && (!Admits(s, run, n) ==> t == s.(runs := s.runs + {run}, batch := None))
  {
    hide Malformed, Acts;
    NothingDone(s, run, n);
    OneMoreAct(Polled(s, run, n), 0, Polled(s, run, n).batch.value);
  }

  lemma SecondAct(s: State, run: string, n: nat)
    requires s.committed + n <= |s.log| && Admits(s, run, n)
    ensures Acts(Polled(s, run, n), 2) == Rejecting(s, run, n).(
              batch := Some(Batch(run, s.committed, s.committed + n, Writing(0), Added(s, n), Hours(Added(s, n)))))
  {
    hide NewEvents, Hours, FileIds, FileOffsets, Malformed, Admits, Acts;
    FirstAct(s, run, n);
    OneMoreAct(Polled(s, run, n), 1, Batch(run, s.committed, s.committed + n, Reading, [], []));
  }

  function WrittenUpTo(s: State, run: string, n: nat, k: nat): State
    requires s.committed + n <= |s.log| && k <= |Hours(Added(s, n))|
  {
    Rejecting(s, run, n).(files := Written(s.files, run, Added(s, n), Hours(Added(s, n))[..k]))
  }

  function BatchIn(s: State, run: string, n: nat, phase: Phase): Batch
    requires s.committed + n <= |s.log|
  {
    Batch(run, s.committed, s.committed + n, phase, Added(s, n), Hours(Added(s, n)))
  }

  lemma {:induction false} WritingActs(s: State, run: string, n: nat, k: nat)
    requires s.committed + n <= |s.log| && Admits(s, run, n) && k <= |Hours(Added(s, n))|
    ensures Acts(Polled(s, run, n), 2 + k) == WrittenUpTo(s, run, n, k).(batch := Some(BatchIn(s, run, n, Writing(k))))
  {
    hide InHour, Added, Hours, Admits, Rejecting, Acts;
    SameLog(s, run, n);
    if k == 0 {
      SecondAct(s, run, n);
      assert Hours(Added(s, n))[..0] == [];
    } else {
      WritingActs(s, run, n, k - 1);
      var hours := Hours(Added(s, n));
      assert hours[..k][..k - 1] == hours[..k - 1];
      OneMoreAct(Polled(s, run, n), 1 + k, BatchIn(s, run, n, Writing(k - 1)));
    }
  }

  lemma SameLog(s: State, run: string, n: nat)
    requires s.committed + n <= |s.log|
    ensures Rejecting(s, run, n).log == s.log && Rejecting(s, run, n).files == s.files
    ensures Rejecting(s, run, n).results == s.results
  {
  }

  lemma LastActs(s: State, run: string, n: nat)
    requires s.committed + n <= |s.log| && Admits(s, run, n)
    ensures var k := |Hours(Added(s, n))|;
      var all := WrittenUpTo(s, run, n, k);
      var done := all.(committed := s.committed + n);
      && Acts(Polled(s, run, n), 3 + k) == all.(batch := Some(BatchIn(s, run, n, Committing)))
      && Acts(Polled(s, run, n), 4 + k) == done.(batch := Some(BatchIn(s, run, n, Recording)))
      && Acts(Polled(s, run, n), 5 + k) == done.(
           results := s.results[run := ResultOf(s.log, BatchIn(s, run, n, Recording))], batch := None)
  {
    hide InHour, Added, Hours, Admits, Written, Malformed, Acts, Rejecting, ResultOf;
    SameLog(s, run, n);
    var k := |Hours(Added(s, n))|;
    WritingActs(s, run, n, k);
    var start := Polled(s, run, n);
    OneMoreAct(start, 2 + k, BatchIn(s, run, n, Writing(k)));
    OneMoreAct(start, 3 + k, BatchIn(s, run, n, Committing));
    OneMoreAct(start, 4 + k, BatchIn(s, run, n, Recording));
  }

  lemma NothingWritten(s: State, run: string, n: nat)
    requires s.committed + n <= |s.log|
    ensures WrittenUpTo(s, run, n, 0) == Rejecting(s, run, n)
  {
    hide Added, Hours;
    assert Hours(Added(s, n))[..0] == [];
  }

  lemma NewEventsBound(s: State, n: nat)
    requires s.committed + n <= |s.log|
    ensures |Added(s, n)| <= n
  {
    AddedBound(s.log, s.committed, s.committed + n, FileIds(s.files), FileOffsets(s.files));
  }

  lemma {:induction false} AddedBound(log: Log, from: nat, upTo: nat, ids: set<string>, coordinates: set<nat>)
    requires from <= upTo <= |log|
    ensures |NewEvents(log, from, upTo, ids, coordinates)| <= upTo - from
  {
    if from < upTo {
      AddedBound(log, from, upTo - 1, ids, coordinates);
    }
  }

  /** What is durable after `k` actions of a batch, in closed form. */
  function Reached(s: State, run: string, n: nat, k: nat): State
    requires s.committed + n <= |s.log|
  {
    var files := |Hours(Added(s, n))|;
    if k == 0 || !Admits(s, run, n) then s.(runs := s.runs + {run}, batch := None)
    else if k <= 2 + files then WrittenUpTo(s, run, n, if k <= 2 then 0 else k - 2).(batch := None)
    else
      WrittenUpTo(s, run, n, files).(
        committed := if k >= 4 + files then s.committed + n else s.committed,
        results := if k >= 5 + files then s.results[run := ResultOf(s.log, BatchIn(s, run, n, Recording))] else s.results,
        batch := None)
  }

  lemma ReachedIs(s: State, run: string, n: nat, k: nat)
    requires s.committed + n <= |s.log|
    ensures Acts(Polled(s, run, n), k).(batch := None) == Reached(s, run, n, k)
  {
    hide InHour, Added, Hours, Admits, Malformed, Acts, ResultOf, StepBatch;
    var files, start := |Hours(Added(s, n))|, Polled(s, run, n);
    if k == 0 {
      NothingDone(s, run, n);
    } else if !Admits(s, run, n) {
      FirstAct(s, run, n);
      EndedActsStay(start, 1, k);
    } else if k == 1 {
      FirstAct(s, run, n);
    } else if k <= 2 + files {
      WritingActs(s, run, n, k - 2);
    } else {
      LastActs(s, run, n);
      if k >= 5 + files {
        EndedActsStay(start, 5 + files, k);
      }
    }
  }

  lemma {:induction false} EndedActsStay(s: State, k: nat, n: nat)
    requires k <= n && Acts(s, k).batch.None?
    ensures Acts(s, n) == Acts(s, k)
  {
    hide StepBatch;
    if k < n {
      EndedActsStay(s, k, n - 1);
    }
  }
}
