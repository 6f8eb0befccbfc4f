/**
 The two models of the queue agree: an operation whose steps no other process interrupts does
 to the journals and the index what the atomic operation of the class does.
 */
module WakeRefinement {
  import opened Options
  import opened Sorting
  import opened WakeJournal
  import opened WakeIndex
  import opened SessionWakeQueues
  import opened WakeProtocol

  /** The state after only `pid` has moved, once per pick. */
  function Alone(st: State, pid: Pid, picks: seq<SessionId>): State
    decreases |picks|
  {
    if picks == [] then st else Alone(Next(st, Advance(pid, picks[0])), pid, picks[1..])
  }

  lemma AloneFirst(st: State, pid: Pid, pick: SessionId, more: seq<SessionId>)
    ensures Alone(st, pid, [pick] + more) == Alone(Next(st, Advance(pid, pick)), pid, more)
  {
    assert ([pick] + more)[1..] == more;
  }

  /** The journals and the index of a returned call that has released the lock. */
  predicate Done(st: State, pid: Pid, journals: map<SessionId, seq<Record>>, index: Index) {
    st.journals == journals && st.index == index && st.lock.None? && pid in st.procs && st.procs[pid].Returned?
  }

  // ----- enqueue

  lemma EnqueueReads(st: State, pid: Pid, wake: Wake)
    requires pid in st.procs && st.procs[pid] == EnqStarted(wake)
    requires forall v :: v in Pending(JournalOf(st.journals, wake.sessionId)) ==> !HoldsKey(v, wake.dedupeKey)
    ensures Step(st, pid, 0) == With(st, pid, EnqRead(wake, Fold(JournalOf(st.journals, wake.sessionId))))
  {
  }

  lemma EnqueueSyncs(st: State, pid: Pid, wake: Wake, before: seq<Record>)
    requires pid in st.procs && st.procs[pid] == EnqAppended(wake, Fold(before)) && st.lock.None?
    requires JournalOf(st.journals, wake.sessionId) == before + [Enqueued(wake)]
    ensures Done(Alone(st, pid, [0, 0]), pid, st.journals, Put(st.index, wake.sessionId, DueOf(st.journals, wake.sessionId)))
  {
    FoldLast(before, Enqueued(wake));
    AloneFirst(st, pid, 0, [0]);
    var locked := Next(st, Advance(pid, 0));
    AloneFirst(locked, pid, 0, []);
    assert [0] + [0] == [0, 0] && [0] + [] == [0];
  }

  /** As `SessionWakeQueue.Enqueue`: a held key changes nothing, another wake is appended and indexed. */
  lemma EnqueueAlone(st: State, pid: Pid, wake: Wake)
    requires pid in st.procs && st.procs[pid] == EnqStarted(wake) && st.lock.None?
    ensures
      var pending := Pending(JournalOf(st.journals, wake.sessionId));
      var after := Append(st, wake.sessionId, Enqueued(wake)).journals;
      if exists v :: v in pending && HoldsKey(v, wake.dedupeKey)
      then Done(Next(st, Advance(pid, 0)), pid, st.journals, st.index)
      else Done(Alone(st, pid, [0, 0, 0, 0]), pid, after, Put(st.index, wake.sessionId, DueOf(after, wake.sessionId)))
  {
    var before := JournalOf(st.journals, wake.sessionId);
    if forall v :: v in Pending(before) ==> !HoldsKey(v, wake.dedupeKey) {
      EnqueueReads(st, pid, wake);
      var read := Next(st, Advance(pid, 0));
      AloneFirst(st, pid, 0, [0, 0, 0]);
      var appended := Next(read, Advance(pid, 0));
      AloneFirst(read, pid, 0, [0, 0]);
      assert [0] + [0, 0, 0] == [0, 0, 0, 0] && [0] + [0, 0] == [0, 0, 0];
      assert appended.journals == Append(st, wake.sessionId, Enqueued(wake)).journals;
      EnqueueSyncs(appended, pid, wake, before);
    }
  }

  // ----- the consuming operations

  lemma {:induction false} CompletionsFirst(wakes: seq<Wake>, at: Time)
    requires wakes != []
    ensures Completions(wakes, at) == [Completed(wakes[0].id, at)] + Completions(wakes[1..], at)
  {
    var n := |wakes| - 1;
    if n > 0 {
      CompletionsFirst(wakes[..n], at);
      assert wakes[..n][1..] == wakes[1..][..n - 1];
      assert wakes[1..][|wakes[1..]| - 1] == wakes[n];
    }
  }

  function Zeros(n: nat): seq<SessionId> {
    if n == 0 then [] else [0] + Zeros(n - 1)
  }

  lemma AloneOnce(st: State, pid: Pid, n: nat)
    ensures Alone(st, pid, Zeros(n + 1)) == Alone(Next(st, Advance(pid, 0)), pid, Zeros(n))
  {
    AloneFirst(st, pid, 0, Zeros(n));
  }

  lemma TakeSyncs(st: State, pid: Pid, s: SessionId, at: Time) returns (final: State)
    requires pid in st.procs && st.procs[pid] == TakeAppending(s, [], at) && st.lock.None?
    ensures final == Alone(st, pid, Zeros(3))
    ensures Done(final, pid, st.journals, Put(st.index, s, DueOf(st.journals, s)))
  {
    AloneOnce(st, pid, 2);
    var locked := TakeLocks(st, pid, s, at);
    AloneOnce(locked, pid, 1);
    var ready := Next(locked, Advance(pid, 0));
    AloneOnce(ready, pid, 0);
    final := Next(ready, Advance(pid, 0));
  }

  lemma TakeLocks(st: State, pid: Pid, s: SessionId, at: Time) returns (locked: State)
    requires pid in st.procs && st.procs[pid] == TakeAppending(s, [], at) && st.lock.None?
    ensures locked == Next(st, Advance(pid, 0))
    ensures pid in locked.procs && locked.procs[pid] == TakeLocked(s, st.index) && locked.journals == st.journals
  {
    locked := Next(st, Advance(pid, 0));
  }

  lemma AfterOneCompletion(journals: map<SessionId, seq<Record>>, s: SessionId, todo: seq<Wake>, at: Time)
    requires todo != []
    ensures
      var one := journals[s := JournalOf(journals, s) + [Completed(todo[0].id, at)]];
      AfterCompletions(one, s, todo[1..], at) == AfterCompletions(journals, s, todo, at)
  {
    CompletionsFirst(todo, at);
    var first, rest := [Completed(todo[0].id, at)], Completions(todo[1..], at);
    assert JournalOf(journals, s) + (first + rest) == (JournalOf(journals, s) + first) + rest;
    assert todo[1..] == [] ==> rest == [] && first + rest == first;
  }

  lemma TakeOne(st: State, pid: Pid, s: SessionId, todo: seq<Wake>, at: Time) returns (next: State)
    requires pid in st.procs && st.procs[pid] == TakeAppending(s, todo, at) && todo != []
    ensures next == Next(st, Advance(pid, 0))
    ensures pid in next.procs && next.procs[pid] == TakeAppending(s, todo[1..], at)
    ensures next.lock == st.lock && next.index == st.index
    ensures next.journals == st.journals[s := JournalOf(st.journals, s) + [Completed(todo[0].id, at)]]
  {
    next := Next(st, Advance(pid, 0));
  }

  lemma AloneFrom(st: State, next: State, final: State, pid: Pid, n: nat)
    requires n > 0 && next == Next(st, Advance(pid, 0)) && final == Alone(next, pid, Zeros(n - 1))
    ensures final == Alone(st, pid, Zeros(n))
  {
    AloneOnce(st, pid, n - 1);
  }

  /** As `SessionWakeQueue.Complete`: one completed record per wake, and the entry of what is left. */
  lemma {:induction false} TakeAlone(st: State, pid: Pid, s: SessionId, todo: seq<Wake>, at: Time, n: nat) returns (final: State)
    requires pid in st.procs && st.procs[pid] == TakeAppending(s, todo, at) && st.lock.None? && n == |todo| + 3
    ensures final == Alone(st, pid, Zeros(n))
    ensures
      var after := AfterCompletions(st.journals, s, todo, at);
      Done(final, pid, after, Put(st.index, s, DueOf(after, s)))
    decreases |todo|
  {
    if todo == [] {
      final := TakeSyncs(st, pid, s, at);
    } else {
      var next := TakeOne(st, pid, s, todo, at);
      final := TakeAlone(next, pid, s, todo[1..], at, n - 1);
      TakeMore(st, next, final, pid, s, todo, at);
      AloneFrom(st, next, final, pid, n);
    }
  }

  /** One completion, and then all that the shorter call does. */
  lemma TakeMore(st: State, next: State, final: State, pid: Pid, s: SessionId, todo: seq<Wake>, at: Time)
    requires todo != [] && next.index == st.index
    requires next.journals == st.journals[s := JournalOf(st.journals, s) + [Completed(todo[0].id, at)]]
    requires
      var after := AfterCompletions(next.journals, s, todo[1..], at);
      Done(final, pid, after, Put(next.index, s, DueOf(after, s)))
    ensures
      var after := AfterCompletions(st.journals, s, todo, at);
      Done(final, pid, after, Put(st.index, s, DueOf(after, s)))
  {
    AfterOneCompletion(st.journals, s, todo, at);
  }

  /** What a consuming call takes on: every pending wake, or those due by a time, the soonest first. */
  ghost predicate ToTake(wakes: seq<Wake>, records: seq<Record>, want: Option<Time>) {
    && (forall v :: v in wakes <==> v in Pending(records) && (want.Some? ==> v.dueAt <= want.value))
    && (forall i, j :: 0 <= i < j < |wakes| ==> wakes[i].id != wakes[j].id && wakes[i].dueAt <= wakes[j].dueAt)
  }

  lemma TakeChooses(records: seq<Record>, want: Option<Time>) returns (wakes: seq<Wake>)
    ensures ToTake(wakes, records, want)
    ensures
      var pending := Pending(records);
      wakes == StableSort(if want.Some? then Filter(pending, IsDue(want.value)) else pending, DueLe)
  {
    var chosen := if want.Some? then Filter(Pending(records), IsDue(want.value)) else Pending(records);
    wakes := StableSort(chosen, DueLe);
    SortPermutes(chosen, DueLe);
    DueByDistinct(records, want.GetOr(0));
    SortedDistinct(wakes, chosen);
  }

  lemma SortedDistinct(wakes: seq<Wake>, chosen: seq<Wake>)
    requires wakes == StableSort(chosen, DueLe) && DistinctWakes(wakes)
    ensures forall i, j :: 0 <= i < j < |wakes| ==> wakes[i].id != wakes[j].id && wakes[i].dueAt <= wakes[j].dueAt
  {
    SortSorts(chosen, DueLe);
    assert forall i, j :: 0 <= i < j < |wakes| ==> IdOf(wakes[i]) != IdOf(wakes[j]) && DueLe(wakes[i], wakes[j]);
  }

  lemma TakeStarts(st: State, pid: Pid, s: SessionId, want: Option<Time>) returns (wakes: seq<Wake>, next: State)
    requires pid in st.procs && st.procs[pid] == TakeStarted(s, want)
    ensures ToTake(wakes, JournalOf(st.journals, s), want)
    ensures next == Next(st, Advance(pid, 0)) == With(st, pid, if wakes == [] then Returned else TakeAppending(s, wakes, want.GetOr(0)))
  {
    wakes := TakeChooses(JournalOf(st.journals, s), want);
    next := Next(st, Advance(pid, 0));
  }

  /** As `ConsumeDue` and `CancelPending`: exactly the wakes to take are completed, and what is left is indexed. */
  lemma ConsumeAlone(st: State, pid: Pid, s: SessionId, want: Option<Time>) returns (wakes: seq<Wake>, final: State)
    requires pid in st.procs && st.procs[pid] == TakeStarted(s, want) && st.lock.None?
    ensures ToTake(wakes, JournalOf(st.journals, s), want)
    ensures final == Alone(st, pid, Zeros(if wakes == [] then 1 else |wakes| + 4))
    ensures
      var after := AfterCompletions(st.journals, s, wakes, want.GetOr(0));
      Done(final, pid, after, if wakes == [] then st.index else Put(st.index, s, DueOf(after, s)))
  {
    var next;
    wakes, next := TakeStarts(st, pid, s, want);
    if wakes == [] {
      AloneOnce(st, pid, 0);
      final := next;
    } else {
      final := TakeAlone(next, pid, s, wakes, want.GetOr(0), |wakes| + 3);
      AloneFrom(st, next, final, pid, |wakes| + 4);
    }
  }

  // ----- calls that do not obtain the lock in time

  /** As an `Enqueue` that throws: the wake is in its journal and the index is as it was. */
  lemma EnqueueTimesOut(st: State, pid: Pid, wake: Wake)
    requires pid in st.procs && st.procs[pid] == EnqStarted(wake)
    requires forall v :: v in Pending(JournalOf(st.journals, wake.sessionId)) ==> !HoldsKey(v, wake.dedupeKey)
    ensures
      var threw := Next(Alone(st, pid, Zeros(2)), TimeOut(pid));
      && threw.journals == st.journals[wake.sessionId := JournalOf(st.journals, wake.sessionId) + [Enqueued(wake)]]
      && threw.index == st.index && threw.lock == st.lock && pid in threw.procs && threw.procs[pid] == EnqThrew(wake)
  {
    EnqueueReads(st, pid, wake);
    AloneOnce(st, pid, 1);
    var read := Next(st, Advance(pid, 0));
    AloneOnce(read, pid, 0);
  }

  /** A consuming call that has made its appends and was then told that the lock is not to be had. */
  predicate ThrewAfter(st: State, final: State, pid: Pid, s: SessionId, todo: seq<Wake>, at: Time) {
    && final.journals == AfterCompletions(st.journals, s, todo, at)
    && final.index == st.index && final.lock == st.lock && pid in final.procs && final.procs[pid].Returned?
  }

  /** The appends of a consuming call. */
  lemma {:induction false} AppendsAlone(st: State, pid: Pid, s: SessionId, todo: seq<Wake>, at: Time, n: nat) returns (appended: State)
    requires pid in st.procs && st.procs[pid] == TakeAppending(s, todo, at) && n == |todo|
    ensures appended == Alone(st, pid, Zeros(n))
    ensures appended.journals == AfterCompletions(st.journals, s, todo, at)
    ensures appended.index == st.index && appended.lock == st.lock
    ensures pid in appended.procs && appended.procs[pid] == TakeAppending(s, [], at)
    decreases |todo|
  {
    if todo == [] {
      appended := st;
    } else {
      var next := TakeOne(st, pid, s, todo, at);
      appended := AppendsAlone(next, pid, s, todo[1..], at, n - 1);
      AfterOneCompletion(st.journals, s, todo, at);
      AloneFrom(st, next, appended, pid, n);
    }
  }

  /** As `ConsumeUnsynced`: the completed records are in the journal and the index is as it was. */
  lemma TakeTimesOut(st: State, pid: Pid, s: SessionId, todo: seq<Wake>, at: Time) returns (appended: State, threw: State)
    requires pid in st.procs && st.procs[pid] == TakeAppending(s, todo, at)
    ensures appended == Alone(st, pid, Zeros(|todo|)) && threw == Next(appended, TimeOut(pid))
    ensures threw.journals == AfterCompletions(st.journals, s, todo, at)
    ensures threw.index == st.index && threw.lock == st.lock && pid in threw.procs && threw.procs[pid].Returned?
  {
    appended := AppendsAlone(st, pid, s, todo, at, |todo|);
    threw := Next(appended, TimeOut(pid));
  }

  // ----- discovery

  /** The sessions of a discovery pass in the order it visits them. */
  predicate Visits(picks: seq<SessionId>, left: Index) {
    if picks == [] then left == map[] else picks[0] in left && Visits(picks[1..], left - {picks[0]})
  }

  /** What the pass reports: the due wakes of every session it read. */
  function DueBatches(left: Index, journals: map<SessionId, seq<Record>>, at: Time): map<SessionId, seq<Wake>> {
    map s | s in left && left[s] <= at && DueBy(JournalOf(journals, s), at) != [] :: DueBy(JournalOf(journals, s), at)
  }

  lemma MergePut<V>(a: map<SessionId, V>, b: map<SessionId, V>, s: SessionId, v: V)
    requires s !in b
    ensures a[s := v] + b == a + b[s := v]
  {
  }

  lemma RepairedWithout(left: Index, journals: map<SessionId, seq<Record>>, at: Time, s: SessionId)
    requires s in left
    ensures
      var rest := Repaired(left - {s}, journals, at);
      && s !in rest
      && Repaired(left, journals, at) ==
           if left[s] > at then rest[s := left[s]]
           else if DueOf(journals, s).Some? then rest[s := DueOf(journals, s).value] else rest
  {
  }

  lemma DueBatchesWithout(left: Index, journals: map<SessionId, seq<Record>>, at: Time, s: SessionId)
    requires s in left
    ensures
      var rest := DueBatches(left - {s}, journals, at);
      var due := DueBy(JournalOf(journals, s), at);
      && s !in rest
      && DueBatches(left, journals, at) == if left[s] <= at && due != [] then rest[s := due] else rest
  {
  }

  lemma ScanOne(journals: map<SessionId, seq<Record>>, at: Time, left: Index, confirmed: Index, batches: map<SessionId, seq<Wake>>, s: SessionId)
    requires s in left
    ensures
      var p := ScanEntry(journals, at, left, confirmed, batches, s);
      && p.ListScanning? && p.at == at && p.left == left - {s}
      && p.confirmed + Repaired(left - {s}, journals, at) == confirmed + Repaired(left, journals, at)
      && p.batches + DueBatches(left - {s}, journals, at) == batches + DueBatches(left, journals, at)
  {
    RepairedWithout(left, journals, at, s);
    DueBatchesWithout(left, journals, at, s);
    BatchWakes(JournalOf(journals, s), at);
    var next, due := DueOf(journals, s), DueBy(JournalOf(journals, s), at);
    var kept, rest := Repaired(left - {s}, journals, at), DueBatches(left - {s}, journals, at);
    MergePut(confirmed, kept, s, left[s]);
    if next.Some? {
      MergePut(confirmed, kept, s, next.value);
    }
    MergePut(batches, rest, s, due);
  }

  /** As `SessionWakeQueue.ListDueSessionWakes`, in whatever order the entries are visited. */
  lemma {:induction false} ScanAlone(
      st: State, pid: Pid, at: Time, left: Index, confirmed: Index, batches: map<SessionId, seq<Wake>>, picks: seq<SessionId>)
    requires pid in st.procs && st.procs[pid] == ListScanning(at, left, confirmed, batches) && Visits(picks, left)
    ensures
      var b := Alone(st, pid, picks + [0]);
      && b.journals == st.journals && b.lock.None? && pid in b.procs
      && b.index == confirmed + Repaired(left, st.journals, at)
      && b.procs[pid] == ListReturned(at, batches + DueBatches(left, st.journals, at))
    decreases |picks|
  {
    if picks == [] {
      assert [] + [0] == [0];
      AloneFirst(st, pid, 0, []);
      assert Repaired(map[], st.journals, at) == map[] && DueBatches(map[], st.journals, at) == map[];
      assert confirmed + map[] == confirmed && batches + map[] == batches;
    } else {
      ScanOne(st.journals, at, left, confirmed, batches, picks[0]);
      var p := ScanEntry(st.journals, at, left, confirmed, batches, picks[0]);
      var next := Next(st, Advance(pid, picks[0]));
      assert next == With(st, pid, p);
      assert picks + [0] == [picks[0]] + (picks[1..] + [0]);
      AloneFirst(st, pid, picks[0], picks[1..] + [0]);
      ScanAlone(next, pid, at, p.left, p.confirmed, p.batches, picks[1..]);
    }
  }

  lemma ListLocks(st: State, pid: Pid, at: Time)
    requires pid in st.procs && st.procs[pid] == ListStarted(at) && st.lock.None?
    ensures
      var next := Next(st, Advance(pid, 0));
      && pid in next.procs && next.procs[pid] == ListScanning(at, st.index, map[], map[]) && next.journals == st.journals
  {
  }

  lemma MergeIntoNothing<V>(m: map<SessionId, V>)
    ensures map[] + m == m
  {
  }

  lemma ListAlone(st: State, pid: Pid, at: Time, picks: seq<SessionId>)
    requires pid in st.procs && st.procs[pid] == ListStarted(at) && st.lock.None? && Visits(picks, st.index)
    ensures
      var b := Alone(st, pid, [0] + (picks + [0]));
      && b.journals == st.journals && b.lock.None? && pid in b.procs
      && b.index == Repaired(st.index, st.journals, at)
      && b.procs[pid] == ListReturned(at, DueBatches(st.index, st.journals, at))
  {
    AloneFirst(st, pid, 0, picks + [0]);
    ListLocks(st, pid, at);
    ScanAlone(Next(st, Advance(pid, 0)), pid, at, st.index, map[], map[], picks);
    MergeIntoNothing(Repaired(st.index, st.journals, at));
    MergeIntoNothing(DueBatches(st.index, st.journals, at));
  }
}
