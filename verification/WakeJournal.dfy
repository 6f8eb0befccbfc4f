/**
 The append-only wake journal of one session: enqueued and completed records, and the
 state they fold into. A fold keeps wakes in the order of their first record, as the
 source's insertion-ordered map does.
 */
module WakeJournal {
  import opened Options
  import opened Sorting

  // Session ids are only compared, so a number stands for an id's rank in that order.
  type SessionId = nat
  type WakeId = nat
  type Time = int

  datatype Priority = Low | Normal | High

  datatype Wake = Wake(
    id: WakeId, sessionId: SessionId, createdAt: Time, dueAt: Time,
    reason: string, note: Option<string>, dedupeKey: Option<string>, priority: Priority)

  datatype Record =
    | Enqueued(wake: Wake)
    | Completed(wakeId: WakeId, completedAt: Time)

  datatype WakeState = WakeState(wake: Wake, completedAt: Option<Time>)

  // ----- folding

  function IndexOf(states: seq<WakeState>, id: WakeId): (i: nat)
    ensures i <= |states|
    ensures i < |states| ==> states[i].wake.id == id
    ensures forall k :: 0 <= k < i ==> states[k].wake.id != id
  {
    if states == [] || states[0].wake.id == id then 0 else 1 + IndexOf(states[1..], id)
  }

  function SetState(states: seq<WakeState>, st: WakeState): seq<WakeState> {
    var i := IndexOf(states, st.wake.id);
    if i < |states| then states[i := st] else states + [st]
  }

  function ApplyRecord(states: seq<WakeState>, r: Record): seq<WakeState> {
    match r
    case Enqueued(wake) => SetState(states, WakeState(wake, None))
    case Completed(id, at) =>
      var i := IndexOf(states, id);
      if i < |states| then states[i := states[i].(completedAt := Some(at))] else states
  }

  function Fold(records: seq<Record>): seq<WakeState> {
    if records == [] then []
    else ApplyRecord(Fold(records[..|records| - 1]), records[|records| - 1])
  }

  method FoldRecords(records: seq<Record>) returns (states: seq<WakeState>)
    ensures states == Fold(records)
  {
    states := [];
    for i := 0 to |records|
      invariant states == Fold(records[..i])
    {
      assert records[..i + 1][..i] == records[..i];
      states := ApplyRecord(states, records[i]);
    }
    assert records[..|records|] == records;
  }

  /** The wakes of the states not yet completed, in fold order. */
  function PendingOf(states: seq<WakeState>): seq<Wake> {
    if states == [] then []
    else (if states[0].completedAt.None? then [states[0].wake] else []) + PendingOf(states[1..])
  }

  function Pending(records: seq<Record>): seq<Wake> {
    PendingOf(Fold(records))
  }

  function EnqueuedWakes(records: seq<Record>): set<Wake> {
    set r | r in records && r.Enqueued? :: r.wake
  }

  function Ids(wakes: seq<Wake>): set<WakeId> {
    set w | w in wakes :: w.id
  }

  // ----- selections and orders

  ghost predicate SoonestFirst(wakes: seq<Wake>) {
    forall i, j :: 0 <= i < j < |wakes| ==> wakes[i].dueAt <= wakes[j].dueAt
  }

  predicate DueLe(a: Wake, b: Wake) {
    a.dueAt <= b.dueAt
  }

  function IsDue(at: Time): Wake -> bool {
    (w: Wake) => w.dueAt <= at
  }

  function Outside(ids: set<WakeId>): Wake -> bool {
    (w: Wake) => w.id !in ids
  }

  function DueBy(records: seq<Record>, at: Time): seq<Wake> {
    StableSort(Filter(Pending(records), IsDue(at)), DueLe)
  }

  function EarliestDue(pending: seq<Wake>): (d: Option<Time>)
    ensures d.None? <==> pending == []
    ensures d.Some? ==> exists w :: w in pending && w.dueAt == d.value
    ensures d.Some? ==> forall w :: w in pending ==> d.value <= w.dueAt
  {
    var sorted := StableSort(pending, DueLe);
    assert (|sorted| == |pending| && forall w :: w in sorted <==> w in pending) && Sorted(sorted, DueLe) by {
      SortPermutes(pending, DueLe);
      SortSorts(pending, DueLe);
    }
    if pending == [] then None
    else
      assert sorted[0] in pending;
      assert forall w :: w in sorted ==> DueLe(sorted[0], w);
      Some(sorted[0].dueAt)
  }

  /** At most one pending wake holds a given non-empty dedupe key. */
  ghost predicate UniqueKeys(pending: seq<Wake>) {
    forall i, j :: 0 <= i < j < |pending| && Truthy(pending[i].dedupeKey)
      ==> pending[i].dedupeKey != pending[j].dedupeKey
  }

  // ----- what folding does to the pending wakes

  ghost predicate DistinctIds(states: seq<WakeState>) {
    forall i, j :: 0 <= i < j < |states| ==> states[i].wake.id != states[j].wake.id
  }

  lemma {:induction false} FoldStates(records: seq<Record>)
    ensures DistinctIds(Fold(records))
    ensures forall st :: st in Fold(records) ==> st.wake in EnqueuedWakes(records)
  {
    if records != [] {
      var n := |records| - 1;
      FoldStates(records[..n]);
      assert records == records[..n] + [records[n]];
      assert EnqueuedWakes(records[..n]) <= EnqueuedWakes(records);
    }
  }

  lemma {:induction false} PendingOfIn(states: seq<WakeState>)
    ensures forall w :: w in PendingOf(states) <==> WakeState(w, None) in states
  {
    if states != [] {
      PendingOfIn(states[1..]);
      assert states == [states[0]] + states[1..];
    }
  }

  lemma PendingWasEnqueued(records: seq<Record>)
    ensures forall w :: w in Pending(records) ==> w in EnqueuedWakes(records)
  {
    FoldStates(records);
    PendingOfIn(Fold(records));
  }

  lemma {:induction false} PendingOfAppend(a: seq<WakeState>, b: seq<WakeState>)
    ensures PendingOf(a + b) == PendingOf(a) + PendingOf(b)
  {
    if a == [] {
      assert a + b == b;
    } else {
      var first := if a[0].completedAt.None? then [a[0].wake] else [];
      calc {
        PendingOf(a + b);
        { assert (a + b)[0] == a[0] && (a + b)[1..] == a[1..] + b; }
        first + PendingOf(a[1..] + b);
        { PendingOfAppend(a[1..], b); }
        first + (PendingOf(a[1..]) + PendingOf(b));
        (first + PendingOf(a[1..])) + PendingOf(b);
      }
    }
  }

  lemma FoldLast(records: seq<Record>, r: Record)
    ensures Fold(records + [r]) == ApplyRecord(Fold(records), r)
  {
    assert (records + [r])[..|records|] == records;
  }

  lemma FreshState(states: seq<WakeState>, wake: Wake)
    requires forall st :: st in states ==> st.wake.id != wake.id
    ensures SetState(states, WakeState(wake, None)) == states + [WakeState(wake, None)]
    ensures PendingOf(states + [WakeState(wake, None)]) == PendingOf(states) + [wake]
  {
    PendingOfAppend(states, [WakeState(wake, None)]);
  }

  lemma PendingAfterEnqueue(records: seq<Record>, wake: Wake)
    requires forall v :: v in EnqueuedWakes(records) ==> v.id != wake.id
    ensures Pending(records + [Enqueued(wake)]) == Pending(records) + [wake]
  {
    FoldLast(records, Enqueued(wake));
    FoldStates(records);
    FreshState(Fold(records), wake);
  }

  lemma {:induction false} PendingOfClosed(states: seq<WakeState>, i: nat, at: Time)
    requires DistinctIds(states) && i < |states|
    ensures PendingOf(states[i := states[i].(completedAt := Some(at))])
         == Filter(PendingOf(states), Outside({states[i].wake.id}))
  {
    var id := states[i].wake.id;
    var open := if states[0].completedAt.None? then [states[0].wake] else [];
    var tail := PendingOf(states[1..]);
    FilterAppend(open, tail, Outside({id}));
    if i == 0 {
      PendingOfIn(states[1..]);
      FilterAll(tail, Outside({id}));
      assert states[0 := states[0].(completedAt := Some(at))][1..] == states[1..];
    } else {
      PendingOfClosed(states[1..], i - 1, at);
      assert states[i := states[i].(completedAt := Some(at))][1..]
          == states[1..][i - 1 := states[i].(completedAt := Some(at))];
      FilterAll(open, Outside({id}));
    }
  }

  lemma PendingAfterCompletion(records: seq<Record>, id: WakeId, at: Time)
    ensures Pending(records + [Completed(id, at)]) == Filter(Pending(records), Outside({id}))
  {
    var states := Fold(records);
    FoldLast(records, Completed(id, at));
    FoldStates(records);
    var i := IndexOf(states, id);
    if i < |states| {
      PendingOfClosed(states, i, at);
    } else {
      PendingOfIn(states);
      FilterAll(PendingOf(states), Outside({id}));
    }
  }

  lemma EnqueuedWakesAppend(records: seq<Record>, wake: Wake)
    ensures EnqueuedWakes(records + [Enqueued(wake)]) == EnqueuedWakes(records) + {wake}
  {
    var after := records + [Enqueued(wake)];
    assert after[|records|] == Enqueued(wake);
    forall w ensures w in EnqueuedWakes(after) <==> w in EnqueuedWakes(records) + {wake} {
      assert Enqueued(w) in after <==> Enqueued(w) in records || w == wake;
    }
  }

  function Completions(wakes: seq<Wake>, at: Time): (r: seq<Record>)
    ensures forall c :: c in r ==> c.Completed?
  {
    if wakes == [] then []
    else Completions(wakes[..|wakes| - 1], at) + [Completed(wakes[|wakes| - 1].id, at)]
  }

  lemma CompletionsEnqueueNothing(records: seq<Record>, wakes: seq<Wake>, at: Time)
    ensures EnqueuedWakes(records + Completions(wakes, at)) == EnqueuedWakes(records)
  {
    forall w ensures Enqueued(w) in records + Completions(wakes, at) <==> Enqueued(w) in records {}
  }

  lemma {:induction false} FilterOutside(wakes: seq<Wake>, a: set<WakeId>, b: set<WakeId>)
    ensures Filter(Filter(wakes, Outside(a)), Outside(b)) == Filter(wakes, Outside(a + b))
  {
    if wakes != [] {
      FilterOutside(wakes[1..], a, b);
      var first := if wakes[0].id !in a then [wakes[0]] else [];
      FilterAppend(first, Filter(wakes[1..], Outside(a)), Outside(b));
    }
  }

  lemma IdsAppend(wakes: seq<Wake>, w: Wake)
    ensures Ids(wakes + [w]) == Ids(wakes) + {w.id}
  {
    assert forall v :: v in wakes + [w] <==> v in wakes || v == w;
  }

  /** Completing wakes removes exactly those ids, whether or not they were pending. */
  lemma {:induction false} PendingAfterCompletions(records: seq<Record>, wakes: seq<Wake>, at: Time)
    ensures Pending(records + Completions(wakes, at)) == Filter(Pending(records), Outside(Ids(wakes)))
  {
    if wakes == [] {
      assert records + Completions(wakes, at) == records;
      FilterAll(Pending(records), Outside(Ids(wakes)));
    } else {
      var n := |wakes| - 1;
      var before := records + Completions(wakes[..n], at);
      calc {
        Pending(records + Completions(wakes, at));
        { assert records + Completions(wakes, at) == before + [Completed(wakes[n].id, at)]; }
        Pending(before + [Completed(wakes[n].id, at)]);
        { PendingAfterCompletion(before, wakes[n].id, at); }
        Filter(Pending(before), Outside({wakes[n].id}));
        { PendingAfterCompletions(records, wakes[..n], at); }
        Filter(Filter(Pending(records), Outside(Ids(wakes[..n]))), Outside({wakes[n].id}));
        { FilterOutside(Pending(records), Ids(wakes[..n]), {wakes[n].id}); }
        Filter(Pending(records), Outside(Ids(wakes[..n]) + {wakes[n].id}));
        { IdsAppend(wakes[..n], wakes[n]); assert wakes == wakes[..n] + [wakes[n]]; }
        Filter(Pending(records), Outside(Ids(wakes)));
      }
    }
  }

  function Names(r: Record): WakeId {
    match r
    case Enqueued(wake) => wake.id
    case Completed(id, _) => id
  }

  /** The record at `i` opened `wake` and no later record names its id again. */
  ghost predicate OpenSince(records: seq<Record>, i: nat, wake: Wake) {
    && i < |records| && records[i] == Enqueued(wake)
    && forall k :: i < k < |records| ==> Names(records[k]) != wake.id
  }

  lemma OpenAfterRecord(states: seq<WakeState>, r: Record, wake: Wake)
    requires DistinctIds(states)
    ensures WakeState(wake, None) in ApplyRecord(states, r)
       <==> r == Enqueued(wake) || (WakeState(wake, None) in states && Names(r) != wake.id)
  {
    var i := IndexOf(states, Names(r));
    var after := ApplyRecord(states, r);
    if i < |states| {
      assert after[i] == after[i] && forall k :: 0 <= k < |states| && k != i ==> after[k] == states[k];
    }
    if WakeState(wake, None) in states && Names(r) != wake.id {
      var k :| 0 <= k < |states| && states[k] == WakeState(wake, None);
      assert after[k] == states[k];
    }
  }

  /**
   The fold against a reading of the journal that never folds: a wake is pending exactly
   when its enqueued record is the last record that names its id.
   */
  lemma {:induction false} PendingMeaning(records: seq<Record>, wake: Wake)
    ensures wake in Pending(records) <==> exists i: nat :: OpenSince(records, i, wake)
  {
    PendingOfIn(Fold(records));
    if records != [] {
      var n := |records| - 1;
      var init, last := records[..n], records[n];
      PendingMeaning(init, wake);
      FoldStates(init);
      PendingOfIn(Fold(init));
      OpenAfterRecord(Fold(init), last, wake);
      if last == Enqueued(wake) {
        assert OpenSince(records, n, wake);
      }
      if i: nat :| OpenSince(records, i, wake) && i < n {
        assert OpenSince(init, i, wake);
      }
      if i: nat :| OpenSince(init, i, wake) && Names(last) != wake.id {
        assert OpenSince(records, i, wake);
      }
    }
  }

  // ----- deduplication

  /** `w` is given, and no wake given after it has its id. */
  ghost predicate GivenLast(wakes: seq<Wake>, w: Wake) {
    exists i :: 0 <= i < |wakes| && wakes[i] == w && forall k :: i < k < |wakes| ==> wakes[k].id != w.id
  }

  lemma GivenLastStep(wakes: seq<Wake>, next: Wake, w: Wake)
    ensures GivenLast(wakes + [next], w) <==> w == next || (GivenLast(wakes, w) && w.id != next.id)
  {
    var all := wakes + [next];
    assert all[|wakes|] == next;
    if w != next && GivenLast(all, w) {
      var i :| 0 <= i < |all| && all[i] == w && forall k :: i < k < |all| ==> all[k].id != w.id;
      assert wakes[i] == w && forall k :: i < k < |wakes| ==> wakes[k] == all[k];
    }
    if GivenLast(wakes, w) && w.id != next.id {
      var i :| 0 <= i < |wakes| && wakes[i] == w && forall k :: i < k < |wakes| ==> wakes[k].id != w.id;
      assert all[i] == w;
    }
  }

  function IdOf(w: Wake): WakeId {
    w.id
  }

  ghost predicate DistinctWakes(wakes: seq<Wake>) {
    forall i, j :: 0 <= i < j < |wakes| ==> wakes[i].id != wakes[j].id
  }

  /** The caller's wakes, one per id with the last one given winning, soonest first. */
  method DedupeWakeList(wakes: seq<Wake>) returns (unique: seq<Wake>)
    ensures forall w :: w in unique <==> GivenLast(wakes, w)
    ensures DistinctWakes(unique) && Ids(unique) == Ids(wakes) && SoonestFirst(unique)
  {
    var byId: seq<Wake> := [];
    for n := 0 to |wakes|
      invariant ListsGivenLast(byId, wakes[..n])
    {
      ListsGivenLastStep(byId, wakes, n);
      byId := PutById(byId, wakes[n]);
    }
    assert wakes[..|wakes|] == wakes;
    unique := StableSort(byId, DueLe);
    SortPermutes(byId, DueLe);
    SortSorts(byId, DueLe);
    PermutationDistinct(byId, unique, IdOf);
  }

  ghost predicate ListsGivenLast(byId: seq<Wake>, wakes: seq<Wake>) {
    && DistinctWakes(byId) && Ids(byId) == Ids(wakes)
    && forall w :: w in byId <==> GivenLast(wakes, w)
  }

  lemma ListsGivenLastStep(byId: seq<Wake>, wakes: seq<Wake>, n: nat)
    requires n < |wakes| && ListsGivenLast(byId, wakes[..n])
    ensures ListsGivenLast(PutById(byId, wakes[n]), wakes[..n + 1])
  {
    assert wakes[..n + 1] == wakes[..n] + [wakes[n]];
    IdsAppend(wakes[..n], wakes[n]);
    forall w ensures w in PutById(byId, wakes[n]) <==> GivenLast(wakes[..n + 1], w) {
      GivenLastStep(wakes[..n], wakes[n], w);
    }
  }

  function PutById(wakes: seq<Wake>, w: Wake): (r: seq<Wake>)
    requires DistinctWakes(wakes)
    ensures forall v :: v in r <==> v == w || (v in wakes && v.id != w.id)
    ensures DistinctWakes(r)
    ensures Ids(r) == Ids(wakes) + {w.id}
  {
    if wakes == [] then [w]
    else if wakes[0].id == w.id then [w] + wakes[1..]
    else [wakes[0]] + PutById(wakes[1..], w)
  }

  lemma {:induction false} PendingOfDistinct(states: seq<WakeState>)
    requires DistinctIds(states)
    ensures DistinctWakes(PendingOf(states))
  {
    if states != [] {
      PendingOfDistinct(states[1..]);
      PendingOfIn(states[1..]);
      var rest := PendingOf(states[1..]);
      forall k | 0 <= k < |rest| ensures rest[k].id != states[0].wake.id {
        assert rest[k] in rest;
        assert WakeState(rest[k], None) in states[1..];
      }
    }
  }

  lemma DueByDistinct(records: seq<Record>, at: Time)
    ensures DistinctWakes(Pending(records)) && DistinctWakes(DueBy(records, at))
    ensures DistinctWakes(StableSort(Pending(records), DueLe))
  {
    FoldStates(records);
    PendingOfDistinct(Fold(records));
    FilterDistinct(Pending(records), IsDue(at), IdOf);
    SortPermutes(Filter(Pending(records), IsDue(at)), DueLe);
    SortPermutes(Pending(records), DueLe);
    PermutationDistinct(Filter(Pending(records), IsDue(at)), DueBy(records, at), IdOf);
    PermutationDistinct(Pending(records), StableSort(Pending(records), DueLe), IdOf);
  }
}
